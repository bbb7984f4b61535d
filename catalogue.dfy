/** The static catalogue of models and option tables (src/config/models.js)
    that the generation hooks and the model registry read. */
module Catalogue {
  import opened Js

  /** A `{ label, key }` option. */
  function LabelKey(caption: Value, key: Value): Record
  {
    map["label" := caption, "key" := key]
  }

  function TextOption(caption: string, key: string): Record
  {
    LabelKey(Str(caption), Str(key))
  }

  const SEEDREAM_SIZE_OPTIONS: seq<Record> := [
    TextOption("21:9", "3024x1296"),
    TextOption("16:9", "2560x1440"),
    TextOption("4:3", "2304x1728"),
    TextOption("3:2", "2496x1664"),
    TextOption("1:1", "2048x2048"),
    TextOption("2:3", "1664x2496"),
    TextOption("3:4", "1728x2304"),
    TextOption("9:16", "1440x2560"),
    TextOption("9:21", "1296x3024")
  ]

  const SEEDREAM_4K_SIZE_OPTIONS: seq<Record> := [
    TextOption("21:9", "6198x2656"),
    TextOption("16:9", "5404x3040"),
    TextOption("4:3", "4694x3520"),
    TextOption("3:2", "4992x3328"),
    TextOption("1:1", "4096x4096"),
    TextOption("2:3", "3328x4992"),
    TextOption("3:4", "3520x4694"),
    TextOption("9:16", "3040x5404"),
    TextOption("9:21", "2656x6198")
  ]

  const SEEDREAM_QUALITY_OPTIONS: seq<Record> := [
    TextOption("标准画质", "standard"),
    TextOption("4K 高清", "4k")
  ]

  /** `SEEDREAM_SIZE_OPTIONS.map(s => s.key)` */
  const SEEDREAM_SIZE_KEYS: seq<Value> := [
    Str("3024x1296"), Str("2560x1440"), Str("2304x1728"), Str("2496x1664"), Str("2048x2048"),
    Str("1664x2496"), Str("1728x2304"), Str("1440x2560"), Str("1296x3024")
  ]

  const VIDEO_RATIO_LIST: seq<Record> := [
    TextOption("16:9 (横版)", "16:9"),
    TextOption("4:3", "4:3"),
    TextOption("1:1 (方形)", "1:1"),
    TextOption("3:4", "3:4"),
    TextOption("9:16 (竖版)", "9:16")
  ]

  const VIDEO_RATIO_KEYS: seq<Value> := [Str("16:9"), Str("4:3"), Str("1:1"), Str("3:4"), Str("9:16")]

  const VIDEO_RATIO_OPTIONS: seq<Record> := VIDEO_RATIO_LIST

  const VIDEO_DURATION_OPTIONS: seq<Record> := [
    LabelKey(Str("5 秒"), Num(5)),
    LabelKey(Str("10 秒"), Num(10))
  ]

  /** A table of options as the array value the lookups return. */
  function AsValues(table: seq<Record>): (r: seq<Value>)
    ensures |r| == |table|
    ensures forall i :: 0 <= i < |r| ==> r[i] == Obj(table[i])
  {
    seq(|table|, i requires 0 <= i < |table| => Obj(table[i]))
  }

  const IMAGE_MODELS: seq<Record> := [
    map[
      "label" := Str("豆包 Seedream 4.5"),
      "key" := Str("doubao-seedream-4-5-251128"),
      "sizes" := Arr(SEEDREAM_SIZE_KEYS),
      "qualities" := Arr(AsValues(SEEDREAM_QUALITY_OPTIONS)),
      "getSizesByQuality" := SizesByQualityFn,
      "defaultParams" := Obj(map["size" := Str("2048x2048"), "quality" := Str("standard"), "style" := Str("vivid")])
    ],
    map[
      "label" := Str("Nano Banana"),
      "key" := Str("nano-banana"),
      "tips" := Str("尺寸写在提示词中: 尺寸 9:16"),
      "sizes" := Arr([]),
      "defaultParams" := Obj(map["quality" := Str("standard"), "style" := Str("vivid")])
    ],
    map[
      "label" := Str("Nano Banana Pro"),
      "key" := Str("nano-banana-pro"),
      "sizes" := Arr(SEEDREAM_SIZE_KEYS),
      "defaultParams" := Obj(map["size" := Str("2048x2048"), "quality" := Str("standard"), "style" := Str("vivid")])
    ]
  ]

  function VideoModel(caption: string, key: string): Record
  {
    map[
      "label" := Str(caption),
      "key" := Str(key),
      "ratios" := Arr(VIDEO_RATIO_KEYS),
      "durs" := Arr(AsValues(VIDEO_DURATION_OPTIONS)),
      "defaultParams" := Obj(map["ratio" := Str("16:9"), "duration" := Num(5)])
    ]
  }

  const VIDEO_MODELS: seq<Record> := [
    VideoModel("豆包视频 720P", "doubao-seedance-1-5-pro_720p"),
    VideoModel("Wan 2.6 720P", "wan2.6_720p"),
    VideoModel("Sora 2", "sora-2")
  ]

  const CHAT_MODELS: seq<Record> := [
    TextOption("GPT-4o Mini", "gpt-4o-mini"),
    TextOption("GPT-4o", "gpt-4o"),
    TextOption("GPT-5.2", "gpt-5.2"),
    TextOption("DeepSeek Chat", "deepseek-chat"),
    TextOption("豆包 Seed Flash", "doubao-seed-1-6-flash-250615"),
    TextOption("Gemini 3 Pro", "gemini-3-pro")
  ]

  /** The list `getModelByName` searches. */
  const ALL_MODELS: seq<Record> := IMAGE_MODELS + VIDEO_MODELS + CHAT_MODELS

  /** A model that names no endpoint of its own, does not turn off
      asynchronous delivery, and whose default size is absent or 2048x2048. */
  predicate PlainDefaults(m: Record)
  {
    && "endpoint" !in m && "async" !in m
    && Prop(Field(m, "defaultParams"), "size") in {Undefined, Str("2048x2048")}
  }

  lemma ImageModelsPlain()
    ensures forall i :: 0 <= i < |IMAGE_MODELS| ==> PlainDefaults(IMAGE_MODELS[i])
  {
    assert PlainDefaults(IMAGE_MODELS[0]);
    assert PlainDefaults(IMAGE_MODELS[1]);
    assert PlainDefaults(IMAGE_MODELS[2]);
  }

  lemma VideoModelsPlain()
    ensures forall i :: 0 <= i < |VIDEO_MODELS| ==> PlainDefaults(VIDEO_MODELS[i])
  {
    forall caption, key
      ensures PlainDefaults(VideoModel(caption, key))
    {
      assert Field(VideoModel(caption, key), "defaultParams") == Obj(map["ratio" := Str("16:9"), "duration" := Num(5)]);
    }
  }

  lemma ChatModelsPlain()
    ensures forall i :: 0 <= i < |CHAT_MODELS| ==> PlainDefaults(CHAT_MODELS[i])
  {
    forall caption, key
      ensures PlainDefaults(TextOption(caption, key))
    {
      assert TextOption(caption, key).Keys == {"label", "key"};
    }
  }

  lemma {:induction false} PlainAppend(a: seq<Record>, b: seq<Record>)
    requires forall i :: 0 <= i < |a| ==> PlainDefaults(a[i])
    requires forall i :: 0 <= i < |b| ==> PlainDefaults(b[i])
    ensures forall i :: 0 <= i < |a + b| ==> PlainDefaults((a + b)[i])
  {
    forall i | 0 <= i < |a + b|
      ensures PlainDefaults((a + b)[i])
    {
      if i >= |a| { assert (a + b)[i] == b[i - |a|]; }
    }
  }

  /** Every model of the static catalogue has plain defaults. */
  lemma CatalogueDefaults()
    ensures forall i :: 0 <= i < |ALL_MODELS| ==> PlainDefaults(ALL_MODELS[i])
  {
    ImageModelsPlain();
    VideoModelsPlain();
    ChatModelsPlain();
    PlainAppend(IMAGE_MODELS, VIDEO_MODELS);
    PlainAppend(IMAGE_MODELS + VIDEO_MODELS, CHAT_MODELS);
  }

  /** `models.find(m => m.key === key)`: the first record whose `key` is
      strictly equal to `key`, or `undefined`. */
  function FindByKey(models: seq<Record>, key: Value): (r: Option<Record>)
    ensures r.None? <==> forall i :: 0 <= i < |models| ==> !StrictEquals(Field(models[i], "key"), key)
    ensures r.Some? ==> exists i :: 0 <= i < |models| && models[i] == r.value
                          && StrictEquals(Field(models[i], "key"), key)
                          && forall j :: 0 <= j < i ==> !StrictEquals(Field(models[j], "key"), key)
  {
    if models == [] then None
    else if StrictEquals(Field(models[0], "key"), key) then Some(models[0])
    else
      var r := FindByKey(models[1..], key);
      assert r.Some? ==> exists i :: 0 <= i < |models[1..]| && models[1..][i] == r.value
                          && StrictEquals(Field(models[1..][i], "key"), key)
                          && forall j :: 0 <= j < i ==> !StrictEquals(Field(models[1..][j], "key"), key);
      r
  }

  /** `find` over a concatenation searches the first list before the second. */
  lemma {:induction false} FindByKeyAppend(a: seq<Record>, b: seq<Record>, key: Value)
    ensures FindByKey(a + b, key) == if FindByKey(a, key).Some? then FindByKey(a, key) else FindByKey(b, key)
  {
    if a != [] {
      assert (a + b)[1..] == a[1..] + b;
      FindByKeyAppend(a[1..], b, key);
    } else {
      assert a + b == b;
    }
  }

  /** `getModelByName(key)` */
  function GetModelByName(key: Value): Option<Record>
  {
    FindByKey(ALL_MODELS, key)
  }

  /** `config?.name`, reading through a lookup that may have found nothing. */
  function ConfigField(config: Option<Record>, name: string): Value
  {
    if config.None? then Undefined else Field(config.value, name)
  }
}
