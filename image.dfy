/** The image-generation hook (`useImageGeneration` in src/hooks/useApi.js):
    the request it builds from the caller's parameters and the static model
    catalogue, and the way it reads images out of an OpenAI-style response. */
module Image {
  import opened Js
  import opened Catalogue
  import opened Lifecycle

  const DEFAULT_IMAGE_SIZE: string := "2048x2048"
  const IMAGE_ENDPOINT: string := "/images/generations"

  /** One generated image: `{ url, revisedPrompt }`. */
  datatype ImageResult = ImageResult(url: Value, revisedPrompt: Value)

  /** The request body and the endpoint option passed to the provider. */
  datatype ImageRequest = ImageRequest(body: Record, endpoint: Value)

  /** The request for `params` (`{ model, prompt, size, image }`): the size
      falls back to the model's default and then to 2048x2048, and the
      reference image is sent only when given. */
  function BuildImageRequest(params: Record): (r: ImageRequest)
    ensures var config := GetModelByName(Field(params, "model"));
            var configSize := Prop(ConfigField(config, "defaultParams"), "size");
            && r.body.Keys == {"model", "prompt", "size"} + (if Truthy(Field(params, "image")) then {"image"} else {})
            && r.body["model"] == Field(params, "model") && r.body["prompt"] == Field(params, "prompt")
            && Truthy(r.body["size"])
            && (Truthy(Field(params, "size")) ==> r.body["size"] == Field(params, "size"))
            && (!Truthy(Field(params, "size")) && Truthy(configSize) ==> r.body["size"] == configSize)
            && (!Truthy(Field(params, "size")) && !Truthy(configSize) ==> r.body["size"] == Str(DEFAULT_IMAGE_SIZE))
            && ("image" in r.body ==> r.body["image"] == Field(params, "image"))
            && Truthy(r.endpoint)
            && (!Truthy(ConfigField(config, "endpoint")) ==> r.endpoint == Str(IMAGE_ENDPOINT))
  {
    var config := GetModelByName(Field(params, "model"));
    var size := Or(Or(Field(params, "size"), Prop(ConfigField(config, "defaultParams"), "size")), Str(DEFAULT_IMAGE_SIZE));
    var body := map["model" := Field(params, "model"), "prompt" := Field(params, "prompt"), "size" := size];
    ImageRequest(
      if Truthy(Field(params, "image")) then body["image" := Field(params, "image")] else body,
      Or(ConfigField(config, "endpoint"), Str(IMAGE_ENDPOINT)))
  }

  /** With the static catalogue, a request without its own size asks for
      2048x2048 and every request goes to the default endpoint, whichever
      model it names. */
  lemma CatalogueImageDefaults(params: Record)
    ensures !Truthy(Field(params, "size")) ==> BuildImageRequest(params).body["size"] == Str(DEFAULT_IMAGE_SIZE)
    ensures BuildImageRequest(params).endpoint == Str(IMAGE_ENDPOINT)
  {
    var config := GetModelByName(Field(params, "model"));
    CatalogueDefaults();
    if config.Some? {
      var i :| 0 <= i < |ALL_MODELS| && ALL_MODELS[i] == config.value;
      assert PlainDefaults(ALL_MODELS[i]);
    }
  }

  /** One response entry: `url` is the entry's `url`, else its `b64_json`,
      else the entry itself. */
  function Entry(item: Value): (r: ImageResult)
    ensures Truthy(r.url) <==> Truthy(item)
    ensures Truthy(Prop(item, "url")) ==> r.url == Prop(item, "url")
    ensures !Truthy(Prop(item, "url")) && Truthy(Prop(item, "b64_json")) ==> r.url == Prop(item, "b64_json")
    ensures !item.Obj? ==> r.url == item
    ensures Truthy(r.revisedPrompt) ==> r.revisedPrompt == Prop(item, "revised_prompt")
    ensures !Truthy(r.revisedPrompt) ==> r.revisedPrompt == Str("")
  {
    ImageResult(Or(Or(Prop(item, "url"), Prop(item, "b64_json")), item), Or(Prop(item, "revised_prompt"), Str("")))
  }

  /** `items.map(...)`: the first `null`/`undefined` entry throws. */
  function Entries(items: seq<Value>): (r: Outcome<seq<ImageResult>>)
    ensures r.Thrown? <==> exists i :: 0 <= i < |items| && Nullish(items[i])
    ensures r.Thrown? ==> r.error == NullAccess
    ensures r.Ok? ==> |r.value| == |items| && forall i :: 0 <= i < |items| ==> r.value[i] == Entry(items[i])
  {
    if items == [] then Ok([])
    else if Nullish(items[0]) then Thrown(NullAccess)
    else
      var rest := Entries(items[1..]);
      assert forall i :: 1 <= i < |items| ==> items[i] == items[1..][i - 1];
      if rest.Thrown? then rest else Ok([Entry(items[0])] + rest.value)
  }

  /** The entries a response carries: its `data` when truthy, else the
      response itself; an array gives one entry per element, anything else
      exactly one. */
  function ResponseItems(response: Value): seq<Value>
  {
    var data := Or(Prop(response, "data"), response);
    if data.Arr? then data.items else [data]
  }

  /** Reading the images out of a response: a `null`/`undefined` response or
      entry throws; otherwise one image per entry. */
  function NormaliseImages(response: Value): (r: Outcome<seq<ImageResult>>)
    ensures Nullish(response) ==> r == Thrown(NullAccess)
    ensures !Nullish(response) ==> r == Entries(ResponseItems(response))
    ensures r.Ok? ==> (&& |r.value| == |ResponseItems(response)|
                       && forall i :: 0 <= i < |r.value| ==> r.value[i] == Entry(ResponseItems(response)[i]))
  {
    var data := Read(response, "data");
    if data.Thrown? then Thrown(data.error) else Entries(ResponseItems(response))
  }

  /** A response whose `data` is not an array yields exactly one image, and
      it is taken from `data`; a bare non-null response without `data` is its
      own single entry. */
  lemma SingleEntryResponse(response: Value)
    requires !Nullish(response)
    requires !Or(Prop(response, "data"), response).Arr?
    ensures NormaliseImages(response) == Ok([Entry(Or(Prop(response, "data"), response))])
  {
    var data := Or(Prop(response, "data"), response);
    assert !Nullish(data);
    assert [data][1..] == [];
    assert Entries([data][1..]) == Ok([]);
    assert [Entry(data)] + [] == [Entry(data)];
  }

  class ImageGeneration {
    const life: ApiState
    var images: seq<ImageResult>
    /** `generatedImages[0] || null` */
    var currentImage: Option<ImageResult>

    constructor ()
      ensures fresh(life) && life.Coherent() && life.status == Idle
      ensures images == [] && currentImage == None
    {
      life := new ApiState();
      images := [];
      currentImage := None;
    }

    /** `generate(params)` with the provider's reply: the images read from a
        response become the list and its first one the current image; a
        rejected call or an unreadable response is recorded and rethrown. */
    method Generate(params: Record, reply: Reply) returns (r: Outcome<seq<ImageResult>>, request: ImageRequest)
      modifies this, life
      ensures request == BuildImageRequest(params)
      ensures r == if reply.Fails? then Thrown(reply.error) else NormaliseImages(reply.value)
      ensures life.Coherent()
      ensures r.Ok? ==> images == r.value && currentImage == (if r.value == [] then None else Some(r.value[0]))
                        && life.status == Success && !life.loading && life.error == None
      ensures r.Thrown? ==> images == [] && currentImage == None
                            && life.status == Failed && !life.loading && life.error == Some(r.error)
    {
      life.SetLoading(true);
      images := [];
      currentImage := None;
      request := BuildImageRequest(params);
      if reply.Fails? {
        r := Thrown(reply.error);
      } else {
        r := NormaliseImages(reply.value);
      }
      if r.Thrown? {
        life.SetError(r.error);
      } else {
        images := r.value;
        currentImage := if r.value == [] then None else Some(r.value[0]);
        life.SetSuccess();
      }
    }
  }
}
