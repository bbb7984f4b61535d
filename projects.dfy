/** The project store (src/stores/projects.js): the in-memory list of
    projects, the current-project pointer and the persistence of the list,
    with its create, update, canvas-update, delete, duplicate, load and
    bootstrap operations.  Ids and the clock are given by the caller. */
module Projects {
  import opened Js
  import opened Canvas
  import opened Sorting
  import opened Storage

  const UNTITLED: string := "未命名项目"
  const SAMPLE_NAME: string := "示例项目"
  const COPY_SUFFIX: string := " (副本)"

  predicate HasId(ps: seq<Project>, id: string)
  {
    exists j :: 0 <= j < |ps| && ps[j].id == id
  }

  predicate UniqueIds(ps: seq<Project>)
  {
    forall i, j :: 0 <= i < j < |ps| ==> ps[i].id != ps[j].id
  }

  /** `findIndex(p => p.id === id)` over `ps[from..]`. */
  function FindIndexFrom(ps: seq<Project>, id: string, from: nat): (r: int)
    requires from <= |ps|
    decreases |ps| - from
    ensures r == -1 <==> forall j :: from <= j < |ps| ==> ps[j].id != id
    ensures r != -1 ==> from <= r < |ps| && ps[r].id == id && forall j :: from <= j < r ==> ps[j].id != id
  {
    if from == |ps| then -1
    else if ps[from].id == id then from
    else FindIndexFrom(ps, id, from + 1)
  }

  function FindIndex(ps: seq<Project>, id: string): (r: int)
    ensures r == -1 <==> !HasId(ps, id)
    ensures r != -1 ==> 0 <= r < |ps| && ps[r].id == id && forall j :: 0 <= j < r ==> ps[j].id != id
  {
    FindIndexFrom(ps, id, 0)
  }

  /** The record `createProject` builds. */
  function NewProject(id: string, name: string, now: int): Project
  {
    Project(id, name, Str(""), now, now, CanvasData([], [], DEFAULT_VIEWPORT))
  }

  /** `splice(i, 1)` followed by putting `p` in front. */
  function MoveToFront(ps: seq<Project>, i: nat, p: Project): (r: seq<Project>)
    requires i < |ps|
    ensures |r| == |ps| && r[0] == p
    ensures r[1..] == ps[..i] + ps[i + 1..]
  {
    [p] + (ps[..i] + ps[i + 1..])
  }

  /** Moving to the front replaces one record and keeps all others. */
  lemma MoveToFrontPermutes(ps: seq<Project>, i: nat, p: Project)
    requires i < |ps|
    ensures multiset(MoveToFront(ps, i, p)) == multiset(ps) - multiset{ps[i]} + multiset{p}
  {
    assert ps == ps[..i] + [ps[i]] + ps[i + 1..];
    calc {
      multiset(ps);
      multiset(ps[..i]) + multiset{ps[i]} + multiset(ps[i + 1..]);
    }
  }

  /** `filter(p => p.id !== id)` */
  function WithoutId(ps: seq<Project>, id: string): (r: seq<Project>)
    ensures forall p :: p in r <==> p in ps && p.id != id
    ensures |r| <= |ps|
  {
    if ps == [] then []
    else (if ps[0].id != id then [ps[0]] else []) + WithoutId(ps[1..], id)
  }

  /** Every project without the id keeps all its occurrences; those with it
      keep none. */
  lemma {:induction false} WithoutIdCounts(ps: seq<Project>, id: string)
    ensures forall p :: multiset(WithoutId(ps, id))[p] == if p.id != id then multiset(ps)[p] else 0
  {
    if ps != [] {
      assert ps == [ps[0]] + ps[1..];
      WithoutIdCounts(ps[1..], id);
    }
  }

  /** Deleting from a concatenation deletes from each part and keeps the
      parts in order; with the one-record case this pins the order `filter`
      keeps. */
  lemma {:induction false} WithoutIdAppend(a: seq<Project>, b: seq<Project>, id: string)
    ensures WithoutId(a + b, id) == WithoutId(a, id) + WithoutId(b, id)
  {
    if a == [] {
      assert a + b == b;
    } else {
      assert (a + b)[1..] == a[1..] + b;
      WithoutIdAppend(a[1..], b, id);
    }
  }

  /** Deleting an id nobody has changes nothing. */
  lemma {:induction false} WithoutAbsentId(ps: seq<Project>, id: string)
    requires !HasId(ps, id)
    ensures WithoutId(ps, id) == ps
  {
    if ps != [] {
      assert !HasId(ps[1..], id) by {
        forall j | 0 <= j < |ps[1..]| ensures ps[1..][j].id != id { assert ps[1..][j] == ps[j + 1]; }
      }
      WithoutAbsentId(ps[1..], id);
    }
  }

  /** The record `duplicateProject` prepends. */
  function Duplicate(source: Project, newId: string, now: int): (r: Project)
    ensures r.id == newId && r.name == source.name + COPY_SUFFIX
    ensures r.createdAt == now && r.updatedAt == now
    ensures r.thumbnail == source.thumbnail && r.canvasData == source.canvasData
  {
    source.(id := newId, name := source.name + COPY_SUFFIX, createdAt := now, updatedAt := now)
  }

  /** The example graph `initProjectsStore` installs: a text prompt wired to a
      text-to-image configuration. */
  function SampleCanvas(): CanvasData
  {
    CanvasData(
      [
        Node("node_0", "text", Position(150.0, 150.0), map[
          "content" := Str("一只金毛寻回犬在草地上奔跑，摇着尾巴，脸上带着快乐的表情。它的毛发在阳光下闪耀，眼神充满了对自由的渴望，全身散发着阳光、友善的气息。"),
          "label" := Str("文本输入")]),
        Node("node_1", "imageConfig", Position(500.0, 150.0), map[
          "prompt" := Str(""),
          "model" := Str("doubao-seedream-4-5-251128"),
          "size" := Str("512x512"),
          "label" := Str("文生图")])
      ],
      [Edge("edge_node_0_node_1", "node_0", "node_1", "right", "left")],
      DEFAULT_VIEWPORT)
  }

  function SampleProject(id: string, now: int): Project
  {
    NewProject(id, SAMPLE_NAME, now).(canvasData := SampleCanvas())
  }

  predicate NodeIdsUnique(c: CanvasData)
  {
    forall i, j :: 0 <= i < j < |c.nodes| ==> c.nodes[i].id != c.nodes[j].id
  }

  predicate HasNode(c: CanvasData, id: string)
  {
    exists i :: 0 <= i < |c.nodes| && c.nodes[i].id == id
  }

  /** Every edge joins two nodes of the graph. */
  predicate EdgesClosed(c: CanvasData)
  {
    forall e :: e in c.edges ==> HasNode(c, e.source) && HasNode(c, e.target)
  }

  /** The example graph has the nodes `node_0` (text) and `node_1`
      (imageConfig), the one edge `node_0 -> node_1`, unique node ids and no
      dangling edge. */
  lemma SampleCanvasShape()
    ensures |SampleCanvas().nodes| == 2 && |SampleCanvas().edges| == 1
    ensures SampleCanvas().nodes[0].id == "node_0" && SampleCanvas().nodes[0].kind == "text"
    ensures SampleCanvas().nodes[1].id == "node_1" && SampleCanvas().nodes[1].kind == "imageConfig"
    ensures SampleCanvas().edges[0].source == "node_0" && SampleCanvas().edges[0].target == "node_1"
    ensures NodeIdsUnique(SampleCanvas()) && EdgesClosed(SampleCanvas())
  {
    var c := SampleCanvas();
    assert c.nodes[0].id != c.nodes[1].id by { assert c.nodes[0].id[5] != c.nodes[1].id[5]; }
    assert HasNode(c, "node_0") && HasNode(c, "node_1");
  }

  /** A fresh id keeps ids unique when a record is prepended; moving a record
      to the front with its id kept, and deleting, keep them unique too. */
  lemma PrependKeepsIdsUnique(ps: seq<Project>, p: Project)
    requires UniqueIds(ps) && !HasId(ps, p.id)
    ensures UniqueIds([p] + ps)
  {
    forall i, j | 0 <= i < j < |[p] + ps| ensures ([p] + ps)[i].id != ([p] + ps)[j].id {
      if i == 0 { assert ([p] + ps)[j] == ps[j - 1]; }
    }
  }

  lemma MoveToFrontKeepsIdsUnique(ps: seq<Project>, i: nat, p: Project)
    requires i < |ps| && UniqueIds(ps) && p.id == ps[i].id
    ensures UniqueIds(MoveToFront(ps, i, p))
  {
    var r := MoveToFront(ps, i, p);
    forall a, b | 0 <= a < b < |r| ensures r[a].id != r[b].id {
      // position k of r holds p (k == 0) or the record ps[Orig(k)]
      var ob := if b - 1 < i then b - 1 else b;
      assert r[b] == ps[ob];
      if a == 0 {
        assert ob != i;
      } else {
        var oa := if a - 1 < i then a - 1 else a;
        assert r[a] == ps[oa] && oa < ob;
      }
    }
  }

  lemma {:induction false} WithoutIdKeepsIdsUnique(ps: seq<Project>, id: string)
    requires UniqueIds(ps)
    ensures UniqueIds(WithoutId(ps, id))
  {
    if ps != [] {
      var tail := WithoutId(ps[1..], id);
      WithoutIdKeepsIdsUnique(ps[1..], id);
      if ps[0].id != id {
        forall j | 0 <= j < |tail| ensures ps[0].id != tail[j].id {
          assert tail[j] in ps[1..];
          var k :| 0 <= k < |ps[1..]| && ps[1..][k] == tail[j];
          assert ps[1..][k] == ps[k + 1];
        }
        var r := [ps[0]] + tail;
        forall a, b | 0 <= a < b < |r| ensures r[a].id != r[b].id {
          if a == 0 { assert r[b] == tail[b - 1]; } else { assert r[a] == tail[a - 1] && r[b] == tail[b - 1]; }
        }
      }
    }
  }

  class ProjectStore {
    var projects: seq<Project>
    var currentProjectId: Option<string>
    const storage: LocalStorage

    constructor (storage: LocalStorage)
      ensures projects == [] && currentProjectId == None && this.storage == storage
    {
      projects := [];
      currentProjectId := None;
      this.storage := storage;
    }

    /** `currentProject`: the first project with the current id, if any. */
    function CurrentProject(): (r: Option<Project>)
      reads this
      ensures currentProjectId.None? ==> r.None?
      ensures currentProjectId.Some? ==> (r.Some? <==> HasId(projects, currentProjectId.value))
      ensures r.Some? ==> r.value.id == currentProjectId.value && r.value in projects
    {
      if currentProjectId.None? then None
      else
        var i := FindIndex(projects, currentProjectId.value);
        if i == -1 then None else Some(projects[i])
    }

    /** `getProjectCanvas(id)`: the canvas of the first project with that id. */
    function GetProjectCanvas(id: string): (r: Option<CanvasData>)
      reads this
      ensures r.Some? <==> HasId(projects, id)
      ensures r.Some? ==> r.value == projects[FindIndex(projects, id)].canvasData
    {
      var i := FindIndex(projects, id);
      if i == -1 then None else Some(projects[i].canvasData)
    }

    /** `getSortedProjects(sortBy, order)`: a sorted copy; the store is not
        touched. */
    function GetSortedProjects(field: SortField, asc: bool): (r: seq<Project>)
      reads this
      ensures multiset(r) == multiset(projects) && |r| == |projects|
      ensures Sorted(r, field, asc)
    {
      SortedViewIsSorted(projects, field, asc);
      SortedView(projects, field, asc)
    }

    method LoadProjects()
      modifies this`projects
      ensures projects == LoadedList(storage.items, old(projects))
    {
      var stored := storage.GetItem(STORAGE_KEY);
      if stored.Some? {
        match stored.value
        case Saved(ps) => projects := ps;
        case Blank =>
        case Garbled => projects := [];
      }
    }

    method SaveProjects()
      modifies storage
      ensures storage.State() == SaveState(projects, old(storage.State()))
    {
      var first := storage.SetItem(STORAGE_KEY, Saved(projects));
      if first == QuotaExceeded {
        var compressed := Degraded(projects);
        var retry := storage.SetItem(STORAGE_KEY, Saved(compressed));
      }
    }

    /** `createProject(name = '未命名项目')` */
    method CreateProject(newId: string, now: int, name: string := UNTITLED) returns (id: string)
      modifies this`projects, storage
      ensures id == newId
      ensures projects == [NewProject(newId, name, now)] + old(projects)
      ensures storage.State() == SaveState(projects, old(storage.State()))
    {
      id := newId;
      projects := [NewProject(id, name, now)] + projects;
      SaveProjects();
    }

    method UpdateProject(id: string, data: ProjectPatch, now: int) returns (ok: bool)
      modifies this`projects, storage
      ensures ok == HasId(old(projects), id)
      ensures !ok ==> projects == old(projects) && storage.State() == old(storage.State())
      ensures ok ==> var i := FindIndex(old(projects), id);
                     0 <= i < |old(projects)|
                     && projects == MoveToFront(old(projects), i, Patched(old(projects)[i], data, now))
                     && storage.State() == SaveState(projects, old(storage.State()))
    {
      var index := FindIndex(projects, id);
      if index == -1 {
        return false;
      }
      var updated := Patched(projects[index], data, now);
      projects := [updated] + (projects[..index] + projects[index + 1..]);
      SaveProjects();
      return true;
    }

    method UpdateProjectCanvas(id: string, canvasData: CanvasPatch, now: int) returns (ok: bool)
      modifies this`projects, storage
      ensures ok == HasId(old(projects), id)
      ensures !ok ==> projects == old(projects) && storage.State() == old(storage.State())
      ensures ok ==> var i := FindIndex(old(projects), id);
                     0 <= i < |old(projects)|
                     && projects == old(projects)[i := CanvasUpdated(old(projects)[i], canvasData, now)]
                     && storage.State() == SaveState(projects, old(storage.State()))
      ensures |projects| == |old(projects)|
      ensures forall j :: 0 <= j < |projects| ==> projects[j].id == old(projects)[j].id
    {
      var index := FindIndex(projects, id);
      if index == -1 {
        return false;
      }
      projects := projects[index := CanvasUpdated(projects[index], canvasData, now)];
      SaveProjects();
      return true;
    }

    method DeleteProject(id: string)
      modifies this`projects, storage
      ensures projects == WithoutId(old(projects), id)
      ensures storage.State() == SaveState(projects, old(storage.State()))
    {
      projects := WithoutId(projects, id);
      SaveProjects();
    }

    method DuplicateProject(id: string, newId: string, now: int) returns (r: Option<string>)
      modifies this`projects, storage
      ensures r.None? <==> !HasId(old(projects), id)
      ensures r.None? ==> projects == old(projects) && storage.State() == old(storage.State())
      ensures r.Some? ==> r.value == newId
                          && projects == [Duplicate(old(projects)[FindIndex(old(projects), id)], newId, now)] + old(projects)
                          && storage.State() == SaveState(projects, old(storage.State()))
    {
      var index := FindIndex(projects, id);
      if index == -1 {
        return None;
      }
      projects := [Duplicate(projects[index], newId, now)] + projects;
      SaveProjects();
      return Some(newId);
    }

    method RenameProject(id: string, name: string, now: int) returns (ok: bool)
      modifies this`projects, storage
      ensures ok == HasId(old(projects), id)
      ensures !ok ==> projects == old(projects) && storage.State() == old(storage.State())
      ensures ok ==> var i := FindIndex(old(projects), id);
                     0 <= i < |old(projects)| && |projects| == |old(projects)|
                     && projects[0] == old(projects)[i].(name := name, updatedAt := now)
                     && projects[1..] == old(projects)[..i] + old(projects)[i + 1..]
                     && storage.State() == SaveState(projects, old(storage.State()))
    {
      ok := UpdateProject(id, NamePatch(name), now);
    }

    method UpdateProjectThumbnail(id: string, thumbnail: Value, now: int) returns (ok: bool)
      modifies this`projects, storage
      ensures ok == HasId(old(projects), id)
      ensures !ok ==> projects == old(projects) && storage.State() == old(storage.State())
      ensures ok ==> var i := FindIndex(old(projects), id);
                     0 <= i < |old(projects)| && |projects| == |old(projects)|
                     && projects[0] == old(projects)[i].(thumbnail := thumbnail, updatedAt := now)
                     && projects[1..] == old(projects)[..i] + old(projects)[i + 1..]
                     && storage.State() == SaveState(projects, old(storage.State()))
    {
      ok := UpdateProject(id, ThumbnailPatch(thumbnail), now);
    }

    /** `initProjectsStore`: load, and when nothing was loaded create the
        example project and give it the example graph. */
    method InitProjectsStore(sampleId: string, now: int)
      modifies this`projects, storage
      ensures var loaded := LoadedList(old(storage.items), old(projects));
              loaded != [] ==> projects == loaded && storage.State() == old(storage.State())
      ensures var loaded := LoadedList(old(storage.items), old(projects));
              loaded == [] ==>
                projects == [SampleProject(sampleId, now)]
                && storage.State() == SaveState(projects, SaveState([NewProject(sampleId, SAMPLE_NAME, now)], old(storage.State())))
    {
      LoadProjects();
      if |projects| == 0 {
        ghost var before := storage.State();
        var id := CreateProject(sampleId, now, SAMPLE_NAME);
        assert projects == [NewProject(sampleId, SAMPLE_NAME, now)];
        ghost var created := storage.State();
        assert created == SaveState(projects, before);
        var index := FindIndex(projects, id);
        if index != -1 {
          projects := projects[index := projects[index].(canvasData := SampleCanvas())];
          SaveProjects();
        }
      }
    }
  }
}
