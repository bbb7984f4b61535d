/** The ordered view `getSortedProjects` computes: a copy of the project list
    sorted by `updatedAt`, `createdAt` or a lower-cased `name`, ascending or
    descending (src/stores/projects.js). */
module Sorting {
  import opened Canvas

  datatype SortField = UpdatedAt | CreatedAt | Name

  /** What the comparator compares: a date's milliseconds or a lower-cased
      string. */
  datatype SortKey = TimeKey(t: int) | TextKey(s: string)

  /** `toLowerCase` on the ASCII letters. */
  function Lower(s: string): (r: string)
    ensures |r| == |s|
    ensures forall i :: 0 <= i < |s| && 'A' <= s[i] <= 'Z' ==> 'a' <= r[i] <= 'z' && r[i] as int == s[i] as int + 32
    ensures forall i :: 0 <= i < |s| && !('A' <= s[i] <= 'Z') ==> r[i] == s[i]
  {
    seq(|s|, i requires 0 <= i < |s| => if 'A' <= s[i] <= 'Z' then (s[i] as int + 32) as char else s[i])
  }

  function KeyOf(p: Project, field: SortField): SortKey
  {
    match field
    case UpdatedAt => TimeKey(p.updatedAt)
    case CreatedAt => TimeKey(p.createdAt)
    case Name => TextKey(Lower(p.name))
  }

  /** JavaScript's `<` on strings: lexicographic by character. */
  predicate LexLess(a: string, b: string)
  {
    if a == [] then b != []
    else if b == [] then false
    else if a[0] != b[0] then a[0] < b[0]
    else LexLess(a[1..], b[1..])
  }

  lemma {:induction false} LexIrreflexive(a: string)
    ensures !LexLess(a, a)
  {
    if a != [] { LexIrreflexive(a[1..]); }
  }

  lemma {:induction false} LexTransitive(a: string, b: string, c: string)
    requires LexLess(a, b) && LexLess(b, c)
    ensures LexLess(a, c)
  {
    if a != [] && b != [] && c != [] && a[0] == b[0] && b[0] == c[0] {
      LexTransitive(a[1..], b[1..], c[1..]);
    }
  }

  lemma {:induction false} LexTotal(a: string, b: string)
    requires a != b
    ensures LexLess(a, b) || LexLess(b, a)
  {
    if a != [] && b != [] && a[0] == b[0] {
      assert a == [a[0]] + a[1..] && b == [b[0]] + b[1..];
      LexTotal(a[1..], b[1..]);
    }
  }

  /** A strict total order on keys (keys of one field are all of one kind). */
  predicate KeyLess(x: SortKey, y: SortKey)
  {
    match (x, y)
    case (TimeKey(a), TimeKey(b)) => a < b
    case (TextKey(a), TextKey(b)) => LexLess(a, b)
    case (TimeKey(_), TextKey(_)) => true
    case (TextKey(_), TimeKey(_)) => false
  }

  /** The key order in the requested direction. */
  predicate Less(x: SortKey, y: SortKey, asc: bool)
  {
    if asc then KeyLess(x, y) else KeyLess(y, x)
  }

  lemma LessIsStrictTotal(x: SortKey, y: SortKey, z: SortKey, asc: bool)
    ensures !Less(x, x, asc)
    ensures Less(x, y, asc) && Less(y, z, asc) ==> Less(x, z, asc)
    ensures x != y ==> Less(x, y, asc) || Less(y, x, asc)
  {
    if x.TextKey? { LexIrreflexive(x.s); }
    if x.TextKey? && y.TextKey? && z.TextKey? {
      if LexLess(x.s, y.s) && LexLess(y.s, z.s) { LexTransitive(x.s, y.s, z.s); }
      if LexLess(z.s, y.s) && LexLess(y.s, x.s) { LexTransitive(z.s, y.s, x.s); }
    }
    if x.TextKey? && y.TextKey? && x != y { LexTotal(x.s, y.s); }
  }

  /** The comparator's verdict "`p` goes after `q`": for ascending order
      `valueA > valueB`, for descending order `valueA < valueB`. */
  predicate After(p: Project, q: Project, field: SortField, asc: bool)
  {
    Less(KeyOf(q, field), KeyOf(p, field), asc)
  }

  predicate Sorted(s: seq<Project>, field: SortField, asc: bool)
  {
    forall i, j :: 0 <= i < j < |s| ==> !After(s[i], s[j], field, asc)
  }

  function Insert(x: Project, s: seq<Project>, field: SortField, asc: bool): (r: seq<Project>)
    ensures multiset(r) == multiset(s) + multiset{x}
  {
    if s == [] then [x]
    else if After(x, s[0], field, asc) then
      assert s == [s[0]] + s[1..];
      [s[0]] + Insert(x, s[1..], field, asc)
    else [x] + s
  }

  lemma {:induction false} InsertSorted(x: Project, s: seq<Project>, field: SortField, asc: bool)
    requires Sorted(s, field, asc)
    ensures Sorted(Insert(x, s, field, asc), field, asc)
  {
    var r := Insert(x, s, field, asc);
    if s == [] {
    } else if After(x, s[0], field, asc) {
      var tail := Insert(x, s[1..], field, asc);
      InsertSorted(x, s[1..], field, asc);
      forall j | 0 <= j < |tail|
        ensures !After(s[0], tail[j], field, asc)
      {
        assert tail[j] in multiset(tail);
        LessIsStrictTotal(KeyOf(tail[j], field), KeyOf(s[0], field), KeyOf(x, field), asc);
        if tail[j] != x {
          assert tail[j] in multiset(s[1..]);
          var k :| 0 <= k < |s[1..]| && s[1..][k] == tail[j];
          assert s[1 + k] == tail[j];
        }
      }
      assert r == [s[0]] + tail;
    } else {
      forall j | 0 <= j < |s|
        ensures !After(x, s[j], field, asc)
      {
        LessIsStrictTotal(KeyOf(s[j], field), KeyOf(s[0], field), KeyOf(x, field), asc);
        LessIsStrictTotal(KeyOf(s[j], field), KeyOf(x, field), KeyOf(s[0], field), asc);
        LessIsStrictTotal(KeyOf(s[0], field), KeyOf(x, field), KeyOf(s[j], field), asc);
      }
      assert r == [x] + s;
    }
  }

  /** The sorted copy: insertion of each project into the sorted rest. */
  function SortedView(s: seq<Project>, field: SortField, asc: bool): (r: seq<Project>)
    ensures multiset(r) == multiset(s)
  {
    if s == [] then []
    else
      assert s == [s[0]] + s[1..];
      Insert(s[0], SortedView(s[1..], field, asc), field, asc)
  }

  /** The view is a permutation of the list, ordered by the key. */
  lemma {:induction false} SortedViewIsSorted(s: seq<Project>, field: SortField, asc: bool)
    ensures multiset(SortedView(s, field, asc)) == multiset(s)
    ensures |SortedView(s, field, asc)| == |s|
    ensures Sorted(SortedView(s, field, asc), field, asc)
  {
    var r := SortedView(s, field, asc);
    assert |r| == |multiset(r)| == |multiset(s)| == |s|;
    if s != [] {
      SortedViewIsSorted(s[1..], field, asc);
      InsertSorted(s[0], SortedView(s[1..], field, asc), field, asc);
    }
  }
}
