/** The browser's `localStorage` as the project store uses it: a key-value
    port whose writes can fail.  What a key holds is the project list itself
    (serialisation is not modelled), an empty string, or text that does not
    parse; the outcomes of the coming writes are given in advance. */
module Storage {
  import opened Js
  import opened Canvas

  const STORAGE_KEY: string := "ai-canvas-projects"

  datatype Stored = Saved(projects: seq<Project>) | Blank | Garbled

  /** How one `setItem` call ends: written, or thrown with `QuotaExceededError`
      or with any other error. */
  datatype WriteResult = Written | QuotaExceeded | WriteFailed

  datatype PortState = PortState(items: map<string, Stored>, faults: seq<WriteResult>)

  /** The outcome of the next write; once the given outcomes run out, writes succeed. */
  function NextWrite(faults: seq<WriteResult>): WriteResult
  {
    if faults == [] then Written else faults[0]
  }

  function Rest(faults: seq<WriteResult>): seq<WriteResult>
  {
    if faults == [] then [] else faults[1..]
  }

  /** One `setItem(key, value)` call. */
  function Write(s: PortState, key: string, value: Stored): (r: PortState)
    ensures r.faults == Rest(s.faults)
    ensures NextWrite(s.faults) == Written ==> r.items == s.items[key := value]
    ensures NextWrite(s.faults) != Written ==> r.items == s.items
  {
    PortState(if NextWrite(s.faults) == Written then s.items[key := value] else s.items, Rest(s.faults))
  }

  /** `saveProjects`: write the list; on a quota error only, retry once with
      the degraded list. */
  function SaveState(list: seq<Project>, s: PortState): (r: PortState)
    ensures NextWrite(s.faults) == Written ==> r == PortState(s.items[STORAGE_KEY := Saved(list)], Rest(s.faults))
    ensures NextWrite(s.faults) == WriteFailed ==> r == PortState(s.items, Rest(s.faults))
    ensures NextWrite(s.faults) == QuotaExceeded ==>
              var second := NextWrite(Rest(s.faults));
              r.faults == Rest(Rest(s.faults))
              && (second == Written ==> r.items == s.items[STORAGE_KEY := Saved(Degraded(list))])
              && (second != Written ==> r.items == s.items)
    ensures forall key :: key != STORAGE_KEY ==> (key in r.items <==> key in s.items)
    ensures forall key :: key != STORAGE_KEY && key in s.items ==> r.items[key] == s.items[key]
  {
    var first := Write(s, STORAGE_KEY, Saved(list));
    if NextWrite(s.faults) == QuotaExceeded then Write(first, STORAGE_KEY, Saved(Degraded(list))) else first
  }

  /** The list `loadProjects` leaves in memory, given what the key holds and
      the list held before: absent or empty text keeps the old list, text
      that does not parse empties it. */
  function LoadedList(items: map<string, Stored>, current: seq<Project>): (r: seq<Project>)
    ensures STORAGE_KEY !in items ==> r == current
    ensures STORAGE_KEY in items && items[STORAGE_KEY].Blank? ==> r == current
    ensures STORAGE_KEY in items && items[STORAGE_KEY].Garbled? ==> r == []
    ensures STORAGE_KEY in items && items[STORAGE_KEY].Saved? ==> r == items[STORAGE_KEY].projects
  {
    if STORAGE_KEY !in items then current
    else match items[STORAGE_KEY]
      case Saved(ps) => ps
      case Blank => current
      case Garbled => []
  }

  /** A save whose write succeeds is read back by the next load; one that
      succeeds only on the retry is read back degraded; one that fails leaves
      what was stored before. */
  lemma SaveThenLoad(list: seq<Project>, s: PortState, current: seq<Project>)
    ensures NextWrite(s.faults) == Written ==> LoadedList(SaveState(list, s).items, current) == list
    ensures (NextWrite(s.faults) == QuotaExceeded && NextWrite(Rest(s.faults)) == Written)
              ==> LoadedList(SaveState(list, s).items, current) == Degraded(list)
    ensures (NextWrite(s.faults) == WriteFailed ||
             (NextWrite(s.faults) == QuotaExceeded && NextWrite(Rest(s.faults)) != Written))
              ==> LoadedList(SaveState(list, s).items, current) == LoadedList(s.items, current)
  {
  }

  class LocalStorage {
    var items: map<string, Stored>
    var faults: seq<WriteResult>

    function State(): PortState
      reads this
    {
      PortState(items, faults)
    }

    constructor (items: map<string, Stored>, faults: seq<WriteResult>)
      ensures State() == PortState(items, faults)
    {
      this.items := items;
      this.faults := faults;
    }

    /** `getItem(key)`: `None` stands for `null`. */
    function GetItem(key: string): (r: Option<Stored>)
      reads this
      ensures r.Some? <==> key in items
      ensures r.Some? ==> r.value == items[key]
    {
      if key in items then Some(items[key]) else None
    }

    method SetItem(key: string, value: Stored) returns (w: WriteResult)
      modifies this
      ensures w == NextWrite(old(faults))
      ensures State() == Write(old(State()), key, value)
    {
      w := NextWrite(faults);
      if w == Written {
        items := items[key := value];
      }
      faults := Rest(faults);
    }
  }
}
