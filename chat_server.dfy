/**
 * The server half of the chat API: the mapping of the fetched model list into `AiModel` records,
 * and the request-body gate in front of the upstream streaming endpoint.
 */
module ChatServer {
  import opened Wrappers
  import opened JsStrings
  import opened ChatTypes

  /** A model record as the models endpoint delivers it; `group` and `provider` may be missing or arbitrary. */
  datatype ModelDto = ModelDto(id: string, name: string, description: string, group: Option<string>, provider: Option<string>)

  /** The substring of a model name that marks an OpenAI model. */
  const OpenAiMarker: string := "gpt"

  /** `name` contains the OpenAI marker, case-sensitively, somewhere. */
  ghost predicate NamesOpenAi(name: string) {
    exists i: nat :: OccursAt(name, OpenAiMarker, i)
  }

  /** One element of the `map` in getAvailableModels: the record is spread and `group`/`provider` recomputed from the name. */
  function ToAiModel(dto: ModelDto): (m: AiModel)
    ensures m.id == dto.id && m.name == dto.name && m.description == dto.description
    ensures m.group == "OpenAI" <==> NamesOpenAi(dto.name)
    ensures m.group != "OpenAI" ==> m.group == "Other"
    ensures m.provider == "openai" <==> NamesOpenAi(dto.name)
    ensures m.provider != "openai" ==> m.provider == "other"
  {
    var isOpenAi := Includes(dto.name, OpenAiMarker);
    AiModel(
      dto.id, dto.name, dto.description,
      if isOpenAi then "OpenAI" else "Other",
      if isOpenAi then "openai" else "other")
  }

  /** The whole list mapping of getAvailableModels: same length, same order, each element mapped on its own. */
  function MapModels(dtos: seq<ModelDto>): (models: seq<AiModel>)
    ensures |models| == |dtos|
    ensures forall i :: 0 <= i < |dtos| ==> models[i] == ToAiModel(dtos[i])
  {
    if dtos == [] then [] else [ToAiModel(dtos[0])] + MapModels(dtos[1..])
  }

  /** Group and provider always agree, and the ids are exactly the ids that were fetched. */
  lemma {:induction false} MappedModelsAgree(dtos: seq<ModelDto>)
    ensures forall i :: 0 <= i < |dtos| ==>
      && MapModels(dtos)[i].id == dtos[i].id
      && (MapModels(dtos)[i].group == "OpenAI" <==> MapModels(dtos)[i].provider == "openai")
  {
    forall i | 0 <= i < |dtos|
      ensures MapModels(dtos)[i].id == dtos[i].id
      ensures MapModels(dtos)[i].group == "OpenAI" <==> MapModels(dtos)[i].provider == "openai"
    {
      var m := ToAiModel(dtos[i]);
      assert MapModels(dtos)[i] == m;
    }
  }

  /** The error `streamMessage` throws for a body it cannot accept. */
  datatype ApplicationError = ApplicationError(kind: string, message: string, cause: string)

  /** The POST that `streamMessage` makes to the upstream API. */
  datatype UpstreamRequest = UpstreamRequest(url: string, httpMethod: string, contentType: string, body: string)

  const StreamPath: string := "/chat/stream"

  /**
   * The gate of streamMessage. `parseJson` is `request.json()`, `validate` the request-body schema's
   * `parse` and `serialize` is `JSON.stringify`; each failing step yields its error message. The result
   * is the upstream request to make, or the error thrown instead of making one.
   */
  function StreamRequest<J, B>(
    apiUrl: string, text: string,
    parseJson: string -> Result<J, string>, validate: J -> Result<B, string>, serialize: B -> string
  ): (r: Result<UpstreamRequest, ApplicationError>)
    ensures r.Success? <==> parseJson(text).Success? && validate(parseJson(text).value).Success?
    ensures r.Success? ==>
      r.value == UpstreamRequest(apiUrl + StreamPath, "POST", "application/json",
                                 serialize(validate(parseJson(text).value).value))
    ensures r.Failure? ==> r.error.kind == "bad_request" && r.error.message == "Invalid request body."
    ensures parseJson(text).Failure? ==> r.Failure? && r.error.cause == parseJson(text).error
    ensures parseJson(text).Success? && validate(parseJson(text).value).Failure? ==>
      r.Failure? && r.error.cause == validate(parseJson(text).value).error
  {
    match parseJson(text)
    case Failure(cause) => Failure(ApplicationError("bad_request", "Invalid request body.", cause))
    case Success(json) =>
      match validate(json)
      case Failure(cause) => Failure(ApplicationError("bad_request", "Invalid request body.", cause))
      case Success(body) =>
        Success(UpstreamRequest(apiUrl + StreamPath, "POST", "application/json", serialize(body)))
  }

  /** streamMessage: the upstream response is handed back unchanged once the gate lets the body through. */
  function StreamMessage<J, B, Resp>(
    apiUrl: string, text: string,
    parseJson: string -> Result<J, string>, validate: J -> Result<B, string>, serialize: B -> string,
    fetch: UpstreamRequest -> Resp
  ): (r: Result<Resp, ApplicationError>)
    ensures r.Failure? <==> StreamRequest(apiUrl, text, parseJson, validate, serialize).Failure?
    ensures r.Failure? ==> r.error == StreamRequest(apiUrl, text, parseJson, validate, serialize).error
    ensures r.Success? ==> r.value == fetch(StreamRequest(apiUrl, text, parseJson, validate, serialize).value)
  {
    match StreamRequest(apiUrl, text, parseJson, validate, serialize)
    case Failure(e) => Failure(e)
    case Success(req) => Success(fetch(req))
  }

  /** A rejected body never reaches the upstream API: the outcome is the same whatever `fetch` would do. */
  lemma RejectedBodyNeverFetched<J, B, Resp>(
    apiUrl: string, text: string,
    parseJson: string -> Result<J, string>, validate: J -> Result<B, string>, serialize: B -> string,
    fetch1: UpstreamRequest -> Resp, fetch2: UpstreamRequest -> Resp
  )
    requires StreamRequest(apiUrl, text, parseJson, validate, serialize).Failure?
    ensures StreamMessage(apiUrl, text, parseJson, validate, serialize, fetch1)
         == StreamMessage(apiUrl, text, parseJson, validate, serialize, fetch2)
  {
  }
}
