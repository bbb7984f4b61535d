/** One project's visual program (its nodes, edges and viewport), the project
    record that owns it, and the pure derivations the project store makes from
    them: the thumbnail picked from the newest media node and the degraded
    payload written when storage is full (src/stores/projects.js). */
module Canvas {
  import opened Js

  datatype Position = Position(x: real, y: real)

  datatype Viewport = Viewport(x: real, y: real, zoom: real)

  /** A graph node; `kind` is the source's `type` field (text, image, video,
      imageConfig, ...) and `data` its free-form attributes. */
  datatype Node = Node(id: string, kind: string, position: Position, data: Record)

  datatype Edge = Edge(id: string, source: string, target: string, sourceHandle: string, targetHandle: string)

  datatype CanvasData = CanvasData(nodes: seq<Node>, edges: seq<Edge>, viewport: Viewport)

  /** Timestamps are milliseconds since the epoch. */
  datatype Project = Project(
    id: string,
    name: string,
    thumbnail: Value,
    createdAt: int,
    updatedAt: int,
    canvasData: CanvasData)

  /** The `canvasData` argument of `updateProjectCanvas`: the keys it carries. */
  datatype CanvasPatch = CanvasPatch(nodes: Option<seq<Node>>, edges: Option<seq<Edge>>, viewport: Option<Viewport>)

  /** The `data` argument of `updateProject`: the project keys it carries. */
  datatype ProjectPatch = ProjectPatch(
    id: Option<string>,
    name: Option<string>,
    thumbnail: Option<Value>,
    createdAt: Option<int>,
    updatedAt: Option<int>,
    canvasData: Option<CanvasData>)

  const DEFAULT_VIEWPORT: Viewport := Viewport(100.0, 50.0, 0.8)

  function Override<T>(patch: Option<T>, current: T): T
  {
    if patch.Some? then patch.value else current
  }

  /** `{ ...canvas, ...patch }` */
  function MergeCanvas(c: CanvasData, patch: CanvasPatch): CanvasData
  {
    CanvasData(Override(patch.nodes, c.nodes), Override(patch.edges, c.edges), Override(patch.viewport, c.viewport))
  }

  /** `{ ...project, ...data, updatedAt: now }` */
  function Patched(p: Project, data: ProjectPatch, now: int): (r: Project)
    ensures r.updatedAt == now
    ensures (data.id.None? && data.name.None? && data.thumbnail.None? && data.createdAt.None? && data.canvasData.None?)
              ==> r == p.(updatedAt := now)
    ensures data.id.Some? ==> r.id == data.id.value
    ensures data.id.None? ==> r.id == p.id
    ensures data.name.Some? ==> r.name == data.name.value
    ensures data.name.None? ==> r.name == p.name
    ensures data.thumbnail.Some? ==> r.thumbnail == data.thumbnail.value
    ensures data.thumbnail.None? ==> r.thumbnail == p.thumbnail
    ensures data.createdAt.Some? ==> r.createdAt == data.createdAt.value
    ensures data.createdAt.None? ==> r.createdAt == p.createdAt
    ensures data.canvasData.Some? ==> r.canvasData == data.canvasData.value
    ensures data.canvasData.None? ==> r.canvasData == p.canvasData
  {
    Project(
      Override(data.id, p.id),
      Override(data.name, p.name),
      Override(data.thumbnail, p.thumbnail),
      Override(data.createdAt, p.createdAt),
      now,
      Override(data.canvasData, p.canvasData))
  }

  function NamePatch(name: string): ProjectPatch
  {
    ProjectPatch(None, Some(name), None, None, None, None)
  }

  function ThumbnailPatch(thumbnail: Value): ProjectPatch
  {
    ProjectPatch(None, None, Some(thumbnail), None, None, None)
  }

  // ---------------------------------------------------------------------------
  // Thumbnail derivation

  /** An image or video node whose `data.url` is truthy. */
  predicate IsMedia(n: Node)
  {
    (n.kind == "image" || n.kind == "video") && Truthy(Field(n.data, "url"))
  }

  /** `data.updatedAt || data.createdAt || 0`, read as a number. */
  function NodeTime(n: Node): int
  {
    var t := Or(Or(Field(n.data, "updatedAt"), Field(n.data, "createdAt")), Num(0));
    if t.Num? then t.n else 0
  }

  /** The index of the node the source's filter-then-stable-sort puts first
      among `nodes[from..]`: a media node with the greatest time, the earliest
      such in list order on ties. */
  function LatestMediaFrom(nodes: seq<Node>, from: nat): (r: Option<nat>)
    requires from <= |nodes|
    decreases |nodes| - from
    ensures r.None? <==> forall j :: from <= j < |nodes| ==> !IsMedia(nodes[j])
    ensures r.Some? ==> from <= r.value < |nodes| && IsMedia(nodes[r.value])
    ensures r.Some? ==> forall j :: from <= j < |nodes| && IsMedia(nodes[j]) ==> NodeTime(nodes[j]) <= NodeTime(nodes[r.value])
    ensures r.Some? ==> forall j :: from <= j < r.value && IsMedia(nodes[j]) ==> NodeTime(nodes[j]) < NodeTime(nodes[r.value])
  {
    if from == |nodes| then None
    else
      var rest := LatestMediaFrom(nodes, from + 1);
      if IsMedia(nodes[from]) && (rest.None? || NodeTime(nodes[rest.value]) <= NodeTime(nodes[from])) then Some(from)
      else rest
  }

  function LatestMedia(nodes: seq<Node>): Option<nat>
  {
    LatestMediaFrom(nodes, 0)
  }

  /** The three properties of LatestMedia single out one index. */
  lemma LatestMediaUnique(nodes: seq<Node>, k: nat)
    requires k < |nodes| && IsMedia(nodes[k])
    requires forall j :: 0 <= j < |nodes| && IsMedia(nodes[j]) ==> NodeTime(nodes[j]) <= NodeTime(nodes[k])
    requires forall j :: 0 <= j < k && IsMedia(nodes[j]) ==> NodeTime(nodes[j]) < NodeTime(nodes[k])
    ensures LatestMedia(nodes) == Some(k)
  {
    assert LatestMedia(nodes).Some?;
  }

  /** The thumbnail a node contributes: a video's `thumbnail || url`, an
      image's `url`. */
  function NodeThumbnail(n: Node): Value
  {
    if n.kind == "video" then Or(Field(n.data, "thumbnail"), Field(n.data, "url")) else Field(n.data, "url")
  }

  /** The project thumbnail after the nodes `nodes` were written: taken from
      the latest media node, or left as it was when there is none. */
  function DerivedThumbnail(nodes: seq<Node>, current: Value): (r: Value)
    ensures LatestMedia(nodes).None? ==> r == current
    ensures LatestMedia(nodes).Some? ==> r == NodeThumbnail(nodes[LatestMedia(nodes).value]) && Truthy(r)
  {
    var k := LatestMedia(nodes);
    if k.None? then current else NodeThumbnail(nodes[k.value])
  }

  /** With two media nodes of distinct times, the thumbnail comes from the
      more recent one, whichever order they are listed in. */
  lemma NewerNodeGivesThumbnail(a: Node, b: Node, current: Value)
    requires IsMedia(a) && IsMedia(b) && NodeTime(a) < NodeTime(b)
    ensures DerivedThumbnail([a, b], current) == NodeThumbnail(b)
    ensures DerivedThumbnail([b, a], current) == NodeThumbnail(b)
  {
    LatestMediaUnique([a, b], 1);
    LatestMediaUnique([b, a], 0);
  }

  /** The project after `updateProjectCanvas`: canvas keys merged, `updatedAt`
      refreshed, and the thumbnail derived only when `nodes` was supplied. */
  function CanvasUpdated(p: Project, patch: CanvasPatch, now: int): (r: Project)
    ensures r.id == p.id && r.name == p.name && r.createdAt == p.createdAt && r.updatedAt == now
    ensures r.canvasData.nodes == (if patch.nodes.Some? then patch.nodes.value else p.canvasData.nodes)
    ensures r.canvasData.edges == (if patch.edges.Some? then patch.edges.value else p.canvasData.edges)
    ensures r.canvasData.viewport == (if patch.viewport.Some? then patch.viewport.value else p.canvasData.viewport)
    ensures patch.nodes.None? ==> r.thumbnail == p.thumbnail
    ensures patch.nodes.Some? ==> r.thumbnail == DerivedThumbnail(patch.nodes.value, p.thumbnail)
  {
    p.(canvasData := MergeCanvas(p.canvasData, patch),
       updatedAt := now,
       thumbnail := if patch.nodes.Some? then DerivedThumbnail(patch.nodes.value, p.thumbnail) else p.thumbnail)
  }

  // ---------------------------------------------------------------------------
  // Degraded payload for a full storage

  /** An image node loses its `base64` key when that key is truthy. */
  function StripNode(n: Node): (r: Node)
    ensures r.id == n.id && r.kind == n.kind && r.position == n.position
    ensures r.kind == "image" ==> !Truthy(Field(r.data, "base64"))
    ensures forall key :: key != "base64" ==> Field(r.data, key) == Field(n.data, key)
    ensures r.kind != "image" ==> r == n
    ensures n.kind == "image" && Truthy(Field(n.data, "base64")) ==> "base64" !in r.data && r.data.Keys == n.data.Keys - {"base64"}
    ensures !(n.kind == "image" && Truthy(Field(n.data, "base64"))) ==> r == n
  {
    if n.kind == "image" && Truthy(Field(n.data, "base64")) then n.(data := n.data - {"base64"}) else n
  }

  /** A thumbnail that is a `data:` URL becomes `''`. */
  function StripThumbnail(t: Value): (r: Value)
    ensures !(r.Str? && StartsWith(r.s, "data:"))
    ensures t.Str? && StartsWith(t.s, "data:") ==> r == Str("")
    ensures !(t.Str? && StartsWith(t.s, "data:")) ==> r == t
  {
    if t.Str? && StartsWith(t.s, "data:") then Str("") else t
  }

  function StripNodes(nodes: seq<Node>): (r: seq<Node>)
    ensures |r| == |nodes|
    ensures forall i :: 0 <= i < |r| ==> r[i] == StripNode(nodes[i])
  {
    seq(|nodes|, i requires 0 <= i < |nodes| => StripNode(nodes[i]))
  }

  function DegradeProject(p: Project): Project
  {
    p.(canvasData := p.canvasData.(nodes := StripNodes(p.canvasData.nodes)), thumbnail := StripThumbnail(p.thumbnail))
  }

  /** The payload `saveProjects` retries with after a quota error. */
  function Degraded(ps: seq<Project>): (r: seq<Project>)
    ensures |r| == |ps|
    ensures forall i :: 0 <= i < |r| ==> r[i] == DegradeProject(ps[i])
  {
    seq(|ps|, i requires 0 <= i < |ps| => DegradeProject(ps[i]))
  }

  /** No image node of the degraded payload keeps an inline payload and no
      thumbnail is an inline `data:` URL. */
  lemma DegradedIsClean(ps: seq<Project>)
    ensures forall i, j :: 0 <= i < |Degraded(ps)| && 0 <= j < |Degraded(ps)[i].canvasData.nodes|
              && Degraded(ps)[i].canvasData.nodes[j].kind == "image"
              ==> !Truthy(Field(Degraded(ps)[i].canvasData.nodes[j].data, "base64"))
    ensures forall i :: 0 <= i < |Degraded(ps)| ==> !(Degraded(ps)[i].thumbnail.Str? && StartsWith(Degraded(ps)[i].thumbnail.s, "data:"))
  {
  }

  /** Everything else survives degradation: project fields, edges, viewport,
      node identity and order, non-image nodes, and every other data key. */
  lemma DegradedKeepsTheRest(ps: seq<Project>)
    ensures |Degraded(ps)| == |ps|
    ensures forall i :: 0 <= i < |ps| ==>
              var (d, p) := (Degraded(ps)[i], ps[i]);
              d.id == p.id && d.name == p.name && d.createdAt == p.createdAt && d.updatedAt == p.updatedAt
              && d.canvasData.edges == p.canvasData.edges && d.canvasData.viewport == p.canvasData.viewport
              && |d.canvasData.nodes| == |p.canvasData.nodes|
    ensures forall i, j :: 0 <= i < |ps| && 0 <= j < |ps[i].canvasData.nodes| ==>
              var (d, n) := (Degraded(ps)[i].canvasData.nodes[j], ps[i].canvasData.nodes[j]);
              d.id == n.id && d.kind == n.kind && (n.kind != "image" ==> d == n)
              && forall key :: key != "base64" ==> Field(d.data, key) == Field(n.data, key)
  {
  }

  /** Degrading twice is degrading once. */
  lemma DegradedIdempotent(ps: seq<Project>)
    ensures Degraded(Degraded(ps)) == Degraded(ps)
  {
    forall i | 0 <= i < |ps|
      ensures Degraded(Degraded(ps))[i] == Degraded(ps)[i]
    {
      var p := Degraded(ps)[i];
      assert StripNodes(p.canvasData.nodes) == p.canvasData.nodes;
    }
  }
}
