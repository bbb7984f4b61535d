/** The model registry (src/stores/models.js): three lists of model records
    seeded from the static catalogue, extended with the models a backend
    returns, and the option lookups the generation forms read from them. */
module Models {
  import opened Js
  import opened Catalogue

  // ---------------------------------------------------------------------------
  // Remote records

  /** The keys `mapRemoteModel` fills in before the record's own fields. */
  const REMOTE_DEFAULT_KEYS: set<string> := {"label", "key", "tips", "sizes", "qualities", "defaultParams"}

  /** The defaults of a remote record: names, key and tips read from its
      backend fields, the sizes of the first static image model, one
      `standard` quality and 1024x1024 default parameters. */
  function RemoteDefaults(record: Value): (r: Record)
    ensures r.Keys == REMOTE_DEFAULT_KEYS
    ensures Truthy(Prop(record, "fullName")) ==> r["label"] == Prop(record, "fullName")
    ensures !Truthy(Prop(record, "fullName")) ==> r["label"] == Prop(record, "name")
    ensures Truthy(Prop(record, "modelKey")) ==> r["key"] == Prop(record, "modelKey")
    ensures !Truthy(Prop(record, "modelKey")) ==> r["key"] == Prop(record, "id")
    ensures Truthy(Prop(record, "description")) ==> r["tips"] == Prop(record, "description")
    ensures !Truthy(Prop(record, "description")) ==> r["tips"] == Prop(record, "remark")
    ensures r["sizes"] == Arr(SEEDREAM_SIZE_KEYS)
    ensures r["qualities"] == Arr([Str("standard")])
    ensures r["defaultParams"] == Obj(map["size" := Str("1024x1024"), "quality" := Str("standard")])
  {
    map[
      "label" := Or(Prop(record, "fullName"), Prop(record, "name")),
      "key" := Or(Prop(record, "modelKey"), Prop(record, "id")),
      "tips" := Or(Prop(record, "description"), Prop(record, "remark")),
      "sizes" := Field(IMAGE_MODELS[0], "sizes"),
      "qualities" := Arr([Str("standard")]),
      "defaultParams" := Obj(map["size" := Str("1024x1024"), "quality" := Str("standard")])
    ]
  }

  /** `mapRemoteModel(record)`: the defaults overridden by every own field of
      the record; a `null`/`undefined` record throws. */
  function MapRemoteModel(record: Value): (r: Outcome<Record>)
    ensures Nullish(record) ==> r == Thrown(NullAccess)
    ensures !Nullish(record) ==> r.Ok?
    ensures r.Ok? ==> forall key :: key in r.value <==> key in REMOTE_DEFAULT_KEYS || key in Spread(record)
    ensures r.Ok? ==> forall key :: key in Spread(record) ==> r.value[key] == Spread(record)[key]
    ensures r.Ok? ==> forall key :: key in REMOTE_DEFAULT_KEYS && key !in Spread(record) ==> r.value[key] == RemoteDefaults(record)[key]
  {
    var fullName := Read(record, "fullName");
    if fullName.Thrown? then Thrown(fullName.error) else Ok(RemoteDefaults(record) + Spread(record))
  }

  /** The key a mapped record is deduplicated by: its own `key` field when it
      has one, else `modelKey || id`. */
  lemma MappedKey(record: Value)
    requires !Nullish(record)
    ensures Field(MapRemoteModel(record).value, "key")
            == if "key" in Spread(record) then Spread(record)["key"] else Or(Prop(record, "modelKey"), Prop(record, "id"))
  {
  }

  /** `fetched?.length`: arrays and strings have one, an object may carry one,
      the catalogue's one-parameter function has length 1. */
  function Length(v: Value): Value
  {
    match v
    case Arr(items) => Num(|items|)
    case Str(s) => Num(|s|)
    case Obj(fields) => Field(fields, "length")
    case SizesByQualityFn => Num(1)
    case _ => Undefined
  }

  /** `fetched.map(mapRemoteModel)` over an array: the first
      `null`/`undefined` element throws. */
  function MapAll(items: seq<Value>): (r: Outcome<seq<Record>>)
    ensures r.Thrown? <==> exists i :: 0 <= i < |items| && Nullish(items[i])
    ensures r.Thrown? ==> r.error == NullAccess
    ensures r.Ok? ==> |r.value| == |items| && forall i :: 0 <= i < |items| ==> r.value[i] == MapRemoteModel(items[i]).value
  {
    if items == [] then Ok([])
    else if Nullish(items[0]) then Thrown(NullAccess)
    else
      var rest := MapAll(items[1..]);
      assert forall i :: 1 <= i < |items| ==> items[i] == items[1..][i - 1];
      if rest.Thrown? then rest else Ok([MapRemoteModel(items[0]).value] + rest.value)
  }

  /** Whether some model of `list` has a key strictly equal to `key`. */
  predicate HasKey(list: seq<Record>, key: Value)
  {
    exists i :: 0 <= i < |list| && StrictEquals(Field(list[i], "key"), key)
  }

  /** The mapped models whose key is not already in `list`, in their order. */
  function Unseen(list: seq<Record>, mapped: seq<Record>): (r: seq<Record>)
    ensures |r| <= |mapped|
    ensures forall m :: m in r <==> m in mapped && !HasKey(list, Field(m, "key"))
  {
    if mapped == [] then []
    else
      var rest := Unseen(list, mapped[1..]);
      assert forall m :: m in mapped <==> m == mapped[0] || m in mapped[1..];
      if HasKey(list, Field(mapped[0], "key")) then rest else [mapped[0]] + rest
  }

  /** Every model with a new key keeps all its occurrences, duplicates
      included; every model with a known key keeps none. */
  lemma {:induction false} UnseenCounts(list: seq<Record>, mapped: seq<Record>)
    ensures forall m :: multiset(Unseen(list, mapped))[m] == if HasKey(list, Field(m, "key")) then 0 else multiset(mapped)[m]
  {
    if mapped != [] {
      assert mapped == [mapped[0]] + mapped[1..];
      UnseenCounts(list, mapped[1..]);
    }
  }

  /** Filtering a concatenation filters each part and keeps the parts in
      order, as `filter` does. */
  lemma {:induction false} UnseenAppend(list: seq<Record>, a: seq<Record>, b: seq<Record>)
    ensures Unseen(list, a + b) == Unseen(list, a) + Unseen(list, b)
  {
    if a == [] {
      assert a + b == b;
    } else {
      assert (a + b)[1..] == a[1..] + b;
      UnseenAppend(list, a[1..], b);
    }
  }

  /** One type's merge after the fetch: nothing to do without a truthy
      `length`, a throw for a non-array, otherwise the list followed by the
      unseen mapped models. */
  function MergeBatch(list: seq<Record>, fetched: Value): (r: Outcome<seq<Record>>)
    ensures !Truthy(Length(fetched)) ==> r == Ok(list)
    ensures Truthy(Length(fetched)) && !fetched.Arr? ==> r == Thrown(NotAFunction)
    ensures fetched.Arr? && fetched.items != [] ==> (r.Thrown? <==> MapAll(fetched.items).Thrown?)
    ensures r.Ok? ==> |list| <= |r.value| && r.value[..|list|] == list
    ensures r.Ok? ==> forall i :: |list| <= i < |r.value| ==> !HasKey(list, Field(r.value[i], "key"))
    ensures r.Ok? && fetched.Arr? && fetched.items != [] ==>
              forall m :: m in MapAll(fetched.items).value && !HasKey(list, Field(m, "key")) ==> m in r.value[|list|..]
    ensures r.Ok? && fetched.Arr? && fetched.items != [] ==> r.value[|list|..] == Unseen(list, MapAll(fetched.items).value)
  {
    if !Truthy(Length(fetched)) then Ok(list)
    else if !fetched.Arr? then Thrown(NotAFunction)
    else
      var mapped := MapAll(fetched.items);
      if mapped.Thrown? then Thrown(mapped.error)
      else
        var added := Unseen(list, mapped.value);
        assert (list + added)[..|list|] == list && (list + added)[|list|..] == added;
        assert forall i :: |list| <= i < |list + added| ==> (list + added)[i] in added;
        Ok(list + added)
  }

  /** Two records of one batch with the same new key are both appended: the
      batch is deduplicated against the old list only. */
  lemma BatchKeepsDuplicates(list: seq<Record>, record: Value)
    requires !Nullish(record)
    requires !HasKey(list, Field(MapRemoteModel(record).value, "key"))
    ensures var m := MapRemoteModel(record).value;
            MergeBatch(list, Arr([record, record])) == Ok(list + [m, m])
  {
    var m := MapRemoteModel(record).value;
    assert [record, record][1..] == [record];
    assert [record][1..] == [];
    assert MapAll([record][1..]) == Ok([]);
    assert [m] + [] == [m];
    assert MapAll([record]) == Ok([m]);
    assert MapAll([record, record][1..]) == Ok([m]);
    assert [m] + [m] == [m, m];
    assert MapAll([record, record]) == Ok([m, m]);
    assert [m, m][1..] == [m];
    assert [m][1..] == [];
    assert Unseen(list, [m, m]) == [m, m];
  }

  /** The value a fetch gives to the merge: a failed fetch counts as `[]`. */
  function Fetched(reply: Reply): Value
  {
    if reply.Fails? then Arr([]) else reply.value
  }

  // ---------------------------------------------------------------------------
  // Option lookups

  /** One entry of `model.sizes.map(...)`: an object (or `null`) passes
      through, a key of the table becomes the table's option, anything else
      becomes `{ label: size, key: size }`. */
  function SizeOption(size: Value, table: seq<Record>): (r: Value)
    ensures IsObjectType(size) ==> r == size
    ensures !IsObjectType(size) && FindByKey(table, size).Some? ==> r == Obj(FindByKey(table, size).value)
    ensures !IsObjectType(size) && FindByKey(table, size).None? ==> r == Obj(LabelKey(size, size))
  {
    if IsObjectType(size) then size
    else
      var option := FindByKey(table, size);
      if option.Some? then Obj(option.value) else Obj(LabelKey(size, size))
  }

  function SizeOptions(sizes: seq<Value>, table: seq<Record>): (r: seq<Value>)
    ensures |r| == |sizes|
    ensures forall i :: 0 <= i < |r| ==> r[i] == SizeOption(sizes[i], table)
  {
    seq(|sizes|, i requires 0 <= i < |sizes| => SizeOption(sizes[i], table))
  }

  /** The catalogue's `getSizesByQuality(quality)`. */
  function SizesByQuality(quality: Value): seq<Value>
  {
    if StrictEquals(quality, Str("4k")) then AsValues(SEEDREAM_4K_SIZE_OPTIONS) else AsValues(SEEDREAM_SIZE_OPTIONS)
  }

  /** `getModelSizeOptions` for the image model found (if any); `quality`
      defaults to `'standard'` when `undefined`.  A truthy
      `getSizesByQuality` that is not the catalogue function, or truthy
      `sizes` that are not an array, throw. */
  function SizeOptionsFor(model: Option<Record>, quality: Value): (r: Outcome<seq<Value>>)
    ensures var q := if quality.Undefined? then Str("standard") else quality;
            ConfigField(model, "getSizesByQuality") == SizesByQualityFn ==> r == Ok(SizesByQuality(q))
    ensures (!Truthy(ConfigField(model, "getSizesByQuality")) && !Truthy(ConfigField(model, "sizes")))
              ==> r == Ok(AsValues(SEEDREAM_SIZE_OPTIONS))
    ensures !Truthy(ConfigField(model, "getSizesByQuality")) && ConfigField(model, "sizes").Arr? ==>
              var table := if StrictEquals(quality, Str("4k")) then SEEDREAM_4K_SIZE_OPTIONS else SEEDREAM_SIZE_OPTIONS;
              r == Ok(SizeOptions(ConfigField(model, "sizes").items, table))
    ensures r.Thrown? ==> r.error == NotAFunction
    ensures r.Thrown? <==>
              (Truthy(ConfigField(model, "getSizesByQuality")) && ConfigField(model, "getSizesByQuality") != SizesByQualityFn) ||
              (!Truthy(ConfigField(model, "getSizesByQuality")) && Truthy(ConfigField(model, "sizes")) && !ConfigField(model, "sizes").Arr?)
  {
    var q := if quality.Undefined? then Str("standard") else quality;
    var fn := ConfigField(model, "getSizesByQuality");
    var sizes := ConfigField(model, "sizes");
    if Truthy(fn) then
      if fn == SizesByQualityFn then Ok(SizesByQuality(q)) else Thrown(NotAFunction)
    else if !Truthy(sizes) then Ok(AsValues(SEEDREAM_SIZE_OPTIONS))
    else if !sizes.Arr? then Thrown(NotAFunction)
    else
      var table := if StrictEquals(q, Str("4k")) then SEEDREAM_4K_SIZE_OPTIONS else SEEDREAM_SIZE_OPTIONS;
      Ok(SizeOptions(sizes.items, table))
  }

  /** An unknown model gets the standard size table; a model whose `sizes`
      is an empty array gets no options at all. */
  lemma SizeOptionsFallbacks(model: Record, quality: Value)
    ensures SizeOptionsFor(None, quality) == Ok(AsValues(SEEDREAM_SIZE_OPTIONS))
    ensures (!Truthy(Field(model, "getSizesByQuality")) && Field(model, "sizes") == Arr([]))
              ==> SizeOptionsFor(Some(model), quality) == Ok([])
  {
  }

  /** In the static catalogue, Seedream takes its sizes from the quality:
      the 4K table for `'4k'`, the standard table otherwise, including when
      no quality is given. */
  lemma SeedreamSizeOptions(quality: Value)
    ensures SizeOptionsFor(FindByKey(IMAGE_MODELS, Str("doubao-seedream-4-5-251128")), quality)
            == Ok(AsValues(if quality == Str("4k") then SEEDREAM_4K_SIZE_OPTIONS else SEEDREAM_SIZE_OPTIONS))
  {
    var seedream := IMAGE_MODELS[0];
    assert FindByKey(IMAGE_MODELS, Str("doubao-seedream-4-5-251128")) == Some(seedream);
    assert Field(seedream, "getSizesByQuality") == SizesByQualityFn;
  }

  /** Nano Banana's empty `sizes` is truthy, so it offers no size at all. */
  lemma NanoBananaSizeOptions(quality: Value)
    ensures SizeOptionsFor(FindByKey(IMAGE_MODELS, Str("nano-banana")), quality) == Ok([])
  {
    var nano := IMAGE_MODELS[1];
    assert FindByKey(IMAGE_MODELS[1..], Str("nano-banana")) == Some(nano);
    assert FindByKey(IMAGE_MODELS, Str("nano-banana")) == Some(nano);
    assert !Truthy(Field(nano, "getSizesByQuality")) && Field(nano, "sizes") == Arr([]);
  }

  /** One entry of `model.ratios.map(...)`. */
  function RatioOption(ratio: Value): (r: Value)
    ensures FindByKey(VIDEO_RATIO_LIST, ratio).Some? ==> r == Obj(FindByKey(VIDEO_RATIO_LIST, ratio).value)
    ensures FindByKey(VIDEO_RATIO_LIST, ratio).None? ==> r == Obj(LabelKey(ratio, ratio))
  {
    var option := FindByKey(VIDEO_RATIO_LIST, ratio);
    if option.Some? then Obj(option.value) else Obj(LabelKey(ratio, ratio))
  }

  /** `getModelRatioOptions` for the video model found (if any). */
  function RatioOptionsFor(model: Option<Record>): (r: Outcome<seq<Value>>)
    ensures !Truthy(ConfigField(model, "ratios")) ==> r == Ok(AsValues(VIDEO_RATIO_OPTIONS))
    ensures ConfigField(model, "ratios").Arr? ==>
              var ratios := ConfigField(model, "ratios").items;
              r.Ok? && |r.value| == |ratios| && forall i :: 0 <= i < |ratios| ==> r.value[i] == RatioOption(ratios[i])
    ensures r.Thrown? <==> Truthy(ConfigField(model, "ratios")) && !ConfigField(model, "ratios").Arr?
  {
    var ratios := ConfigField(model, "ratios");
    if !Truthy(ratios) then Ok(AsValues(VIDEO_RATIO_OPTIONS))
    else if !ratios.Arr? then Thrown(NotAFunction)
    else Ok(seq(|ratios.items|, i requires 0 <= i < |ratios.items| => RatioOption(ratios.items[i])))
  }

  /** `getModelDurationOptions`: the model's `durs`, else the catalogue's
      durations. */
  function DurationOptionsFor(model: Option<Record>): (r: Value)
    ensures Truthy(r)
    ensures Truthy(ConfigField(model, "durs")) ==> r == ConfigField(model, "durs")
    ensures !Truthy(ConfigField(model, "durs")) ==> r == Arr(AsValues(VIDEO_DURATION_OPTIONS))
  {
    Or(ConfigField(model, "durs"), Arr(AsValues(VIDEO_DURATION_OPTIONS)))
  }

  /** `getModelQualityOptions`: the model's `qualities`, else `[]`. */
  function QualityOptionsFor(model: Option<Record>): (r: Value)
    ensures Truthy(r)
    ensures Truthy(ConfigField(model, "qualities")) ==> r == ConfigField(model, "qualities")
    ensures !Truthy(ConfigField(model, "qualities")) ==> r == Arr([])
  {
    Or(ConfigField(model, "qualities"), Arr([]))
  }

  /** The first model carrying a key is the one `find` returns. */
  lemma FindByKeyFirst(models: seq<Record>, key: Value)
    ensures forall i :: 0 <= i < |models| && StrictEquals(Field(models[i], "key"), key)
                        && (forall j :: 0 <= j < i ==> !StrictEquals(Field(models[j], "key"), key))
              ==> FindByKey(models, key) == Some(models[i])
  {
    forall i | 0 <= i < |models| && StrictEquals(Field(models[i], "key"), key)
               && (forall j :: 0 <= j < i ==> !StrictEquals(Field(models[j], "key"), key))
      ensures FindByKey(models, key) == Some(models[i])
    {
      var r := FindByKey(models, key);
      assert r.Some?;
      var k :| 0 <= k < |models| && models[k] == r.value && StrictEquals(Field(models[k], "key"), key)
               && forall j :: 0 <= j < k ==> !StrictEquals(Field(models[j], "key"), key);
      assert k == i;
    }
  }

  // ---------------------------------------------------------------------------
  // The registry

  /** The three lists and the load status; `loadAllModels` merges into them. */
  class ModelRegistry {
    var imageModels: seq<Record>
    var videoModels: seq<Record>
    var chatModels: seq<Record>
    var loading: bool
    var error: Option<JsError>

    constructor ()
      ensures imageModels == IMAGE_MODELS && videoModels == VIDEO_MODELS && chatModels == CHAT_MODELS
      ensures !loading && error == None
    {
      imageModels := IMAGE_MODELS;
      videoModels := VIDEO_MODELS;
      chatModels := CHAT_MODELS;
      loading := false;
      error := None;
    }

    /** `loadAllModels` once the three fetches have settled: images, videos
        and chats are merged in turn; the first merge that throws records its
        error and leaves its own list and the later ones as they were. */
    method LoadAllModels(images: Reply, videos: Reply, chats: Reply)
      modifies this
      ensures !loading
      ensures var ri := MergeBatch(old(imageModels), Fetched(images));
              var rv := MergeBatch(old(videoModels), Fetched(videos));
              var rc := MergeBatch(old(chatModels), Fetched(chats));
              && (ri.Thrown? ==> imageModels == old(imageModels) && videoModels == old(videoModels)
                                 && chatModels == old(chatModels) && error == Some(ri.error))
              && (ri.Ok? ==> imageModels == ri.value)
              && (ri.Ok? && rv.Thrown? ==> videoModels == old(videoModels) && chatModels == old(chatModels)
                                           && error == Some(rv.error))
              && (ri.Ok? && rv.Ok? ==> videoModels == rv.value)
              && (ri.Ok? && rv.Ok? && rc.Thrown? ==> chatModels == old(chatModels) && error == Some(rc.error))
              && (ri.Ok? && rv.Ok? && rc.Ok? ==> chatModels == rc.value && error == old(error))
    {
      loading := true;
      var ri := MergeBatch(imageModels, Fetched(images));
      if ri.Thrown? {
        error := Some(ri.error);
        loading := false;
        return;
      }
      imageModels := ri.value;
      var rv := MergeBatch(videoModels, Fetched(videos));
      if rv.Thrown? {
        error := Some(rv.error);
        loading := false;
        return;
      }
      videoModels := rv.value;
      var rc := MergeBatch(chatModels, Fetched(chats));
      if rc.Thrown? {
        error := Some(rc.error);
        loading := false;
        return;
      }
      chatModels := rc.value;
      loading := false;
    }

    /** `getModelConfig(key)`: the first model with the key, searching the
        image models, then the video models, then the chat models. */
    function GetModelConfig(key: Value): (r: Option<Record>)
      reads this
      ensures r == if FindByKey(imageModels, key).Some? then FindByKey(imageModels, key)
                   else if FindByKey(videoModels, key).Some? then FindByKey(videoModels, key)
                   else FindByKey(chatModels, key)
    {
      FindByKeyAppend(imageModels, videoModels, key);
      FindByKeyAppend(imageModels + videoModels, chatModels, key);
      FindByKey(imageModels + videoModels + chatModels, key)
    }

    /** `getModelSizeOptions(key, quality)`: an unknown key gets the standard
        table; otherwise the first image model with the key decides. */
    function GetModelSizeOptions(key: Value, quality: Value): (r: Outcome<seq<Value>>)
      reads this
      ensures (forall i :: 0 <= i < |imageModels| ==> !StrictEquals(Field(imageModels[i], "key"), key))
                ==> r == Ok(AsValues(SEEDREAM_SIZE_OPTIONS))
      ensures forall i :: 0 <= i < |imageModels| && StrictEquals(Field(imageModels[i], "key"), key)
                          && (forall j :: 0 <= j < i ==> !StrictEquals(Field(imageModels[j], "key"), key))
                ==> r == SizeOptionsFor(Some(imageModels[i]), quality)
      ensures r.Thrown? ==> r.error == NotAFunction
    {
      FindByKeyFirst(imageModels, key);
      SizeOptionsFor(FindByKey(imageModels, key), quality)
    }

    /** `getModelQualityOptions(key)`: `[]` for an unknown key, else the
        first image model's `qualities` when truthy. */
    function GetModelQualityOptions(key: Value): (r: Value)
      reads this
      ensures (forall i :: 0 <= i < |imageModels| ==> !StrictEquals(Field(imageModels[i], "key"), key))
                ==> r == Arr([])
      ensures forall i :: 0 <= i < |imageModels| && StrictEquals(Field(imageModels[i], "key"), key)
                          && (forall j :: 0 <= j < i ==> !StrictEquals(Field(imageModels[j], "key"), key))
                ==> r == Or(Field(imageModels[i], "qualities"), Arr([]))
    {
      FindByKeyFirst(imageModels, key);
      QualityOptionsFor(FindByKey(imageModels, key))
    }

    /** `getModelRatioOptions(key)`: the fixed ratio list for an unknown key,
        else the first video model's ratios. */
    function GetModelRatioOptions(key: Value): (r: Outcome<seq<Value>>)
      reads this
      ensures (forall i :: 0 <= i < |videoModels| ==> !StrictEquals(Field(videoModels[i], "key"), key))
                ==> r == Ok(AsValues(VIDEO_RATIO_OPTIONS))
      ensures forall i :: 0 <= i < |videoModels| && StrictEquals(Field(videoModels[i], "key"), key)
                          && (forall j :: 0 <= j < i ==> !StrictEquals(Field(videoModels[j], "key"), key))
                ==> r == RatioOptionsFor(Some(videoModels[i]))
      ensures r.Thrown? ==> r.error == NotAFunction
    {
      FindByKeyFirst(videoModels, key);
      RatioOptionsFor(FindByKey(videoModels, key))
    }

    /** `getModelDurationOptions(key)`: the fixed duration list for an
        unknown key, else the first video model's `durs` when truthy. */
    function GetModelDurationOptions(key: Value): (r: Value)
      reads this
      ensures (forall i :: 0 <= i < |videoModels| ==> !StrictEquals(Field(videoModels[i], "key"), key))
                ==> r == Arr(AsValues(VIDEO_DURATION_OPTIONS))
      ensures forall i :: 0 <= i < |videoModels| && StrictEquals(Field(videoModels[i], "key"), key)
                          && (forall j :: 0 <= j < i ==> !StrictEquals(Field(videoModels[j], "key"), key))
                ==> r == Or(Field(videoModels[i], "durs"), Arr(AsValues(VIDEO_DURATION_OPTIONS)))
    {
      FindByKeyFirst(videoModels, key);
      DurationOptionsFor(FindByKey(videoModels, key))
    }
  }
}
