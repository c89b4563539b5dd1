/**
  The Qdrant vector-store adapter of the gateway: it turns a provider-neutral
  "search a vector store" or "create a vector store" call into Qdrant's REST
  request (`POST {base}/collections/{name}/points/search`,
  `PUT {base}/collections/{name}`), and Qdrant's JSON reply back into the
  gateway's response records.

  The calls the adapter makes into other code are parameters here: the
  `QDRANT_API_KEY` / `QDRANT_API_BASE` environment lookups are `Option<string>`
  values, the embedding call is a function from (model, query, config) to a
  vector or an error message, the decoded HTTP body is an `Option<Json>`
  (`None` when it is not JSON), and the clock is a timestamp argument.
 */
module QdrantVectorStore {
  import opened Wrappers
  import opened Dicts
  import opened Strings
  import opened JsonValues

  /** The search parameters Qdrant understands; `MapOpenAIParams` forwards only these. */
  const QDRANT_OPTIONAL_PARAMS: set<string> :=
    {"limit", "offset", "filter", "search_params", "with_payload", "with_vectors", "score_threshold"}

  /** The payload keys that may hold a point's text, in order of preference. */
  const TEXT_FIELDS: seq<string> := ["text", "content", "document"]
  const CONTENT_KEYS: set<string> := {"text", "content", "document"}

  /** The metadata keys that configure the collection's vectors instead of being copied. */
  const VECTOR_CONFIG_KEYS: set<string> := {"vector_size", "distance"}

  const DEFAULT_LIMIT: int := 10
  const DEFAULT_VECTOR_SIZE: int := 1536
  const DEFAULT_DISTANCE: string := "Cosine"
  const DEFAULT_SCORE: Json := Float("0.0")
  const SEARCH_RESULTS_OBJECT: string := "vector_store.search_results.page"

  /** The `litellm_params` keys the search request reads. */
  const EMBEDDING_MODEL_KEY: string := "litellm_embedding_model"
  const EMBEDDING_CONFIG_KEY: string := "litellm_embedding_config"

  const API_BASE_REQUIRED: string :=
    "Qdrant API base URL is required. Set QDRANT_API_BASE environment variable or pass api_base in litellm_params."
  const COLLECTION_NAME_REQUIRED: string :=
    "Collection name is required for Qdrant vector store creation"
  const EMBEDDING_FAILED_PREFIX: string := "Failed to generate embedding for query: "

  /** The message for a missing embedding model, advising the caller to set `advisedKey`. */
  function MissingModelMessage(advisedKey: string): string
  {
    advisedKey + " is required in litellm_params for Qdrant. You can call any litellm embedding model."
    + "Example: litellm_params['" + advisedKey + "'] = 'azure/text-embedding-3-large'"
  }

  /** The message as the source writes it: it advises a key the lookup never reads. */
  const EMBEDDING_MODEL_REQUIRED_AS_WRITTEN: string := MissingModelMessage("embedding_model")
  /** The message corrected to advise the key the lookup reads. */
  const EMBEDDING_MODEL_REQUIRED: string := MissingModelMessage(EMBEDDING_MODEL_KEY)

  datatype Error =
      /** A required input (API base, embedding model, collection name) is missing: a ValueError. */
    | ConfigurationError(message: string)
      /** The embedding call failed; its message is wrapped. */
    | EmbeddingError(message: string)
      /** Qdrant's reply could not be read; carries the reply's status and headers. */
    | ProviderResponseError(statusCode: int, headers: Dict<string>)
      /** Python raised a TypeError or AttributeError on a value of the wrong type. */
    | TypeFault

  /** The one field of the gateway's typed parameters the adapter reads. */
  datatype LiteLLMParams = LiteLLMParams(apiKey: Option<string>)

  /** A search query: one string, or a list of strings. */
  datatype Query = Text(text: string) | Fragments(parts: seq<string>)

  /** An HTTP reply; `json` is the decoded body, `None` when the body is not JSON. */
  datatype HttpResponse = HttpResponse(statusCode: int, headers: Dict<string>, json: Option<Json>)

  datatype ResultContent = ResultContent(text: string, contentType: string)

  datatype SearchResult = SearchResult(
    score: Json,
    content: seq<ResultContent>,
    fileId: string,
    filename: Option<string>,
    attributes: Dict<Json>)

  datatype SearchResponse = SearchResponse(objectKind: string, searchQuery: Json, data: seq<SearchResult>)

  datatype FileCounts = FileCounts(inProgress: int, completed: int, failed: int, cancelled: int, total: int)

  datatype CreateResponse = CreateResponse(
    id: string,
    objectKind: string,
    createdAt: int,
    name: string,
    bytes: int,
    fileCounts: FileCounts,
    status: string,
    expiresAfter: Option<Json>,
    expiresAt: Option<int>,
    lastActiveAt: Option<int>,
    metadata: Dict<Json>)

  /** The embedding call: (model, query, extra config) to the query's vector, or an error message. */
  type Embedder = (Json, string, Json) -> Result<Json, string>

  /** The caller's logging object; the adapter writes and reads its `model_call_details`. */
  class Logging {
    var modelCallDetails: Dict<Json>

    constructor (modelCallDetails: Dict<Json>)
      ensures this.modelCallDetails == modelCallDetails
    {
      this.modelCallDetails := modelCallDetails;
    }
  }

  // ---------------------------------------------------------------------------
  // Authentication and endpoint

  /**
    `explicit or <the QDRANT_API_KEY environment value>`, kept only when truthy:
    the explicit key wins, and no key resolves when neither is truthy.
   */
  function ResolveApiKey(explicit: Json, envApiKey: Option<string>): (key: Option<Json>)
    ensures key.Some? <==> Truthy(explicit) || NonEmpty(envApiKey)
    ensures Truthy(explicit) ==> key == Some(explicit)
    ensures !Truthy(explicit) && NonEmpty(envApiKey) ==> key == Some(Str(envApiKey.value))
  {
    var candidate := if Truthy(explicit) then explicit else OptionalString(envApiKey);
    if Truthy(candidate) then Some(candidate) else None
  }

  /** The `api-key` header value `validate_environment` sets, if any. */
  function HeaderApiKey(litellmParams: Option<LiteLLMParams>, envApiKey: Option<string>): (key: Option<string>)
    ensures key.Some? <==> litellmParams.Some? && (NonEmpty(litellmParams.value.apiKey) || NonEmpty(envApiKey))
    ensures key.Some? ==>
              && key.value != ""
              && key.value == if NonEmpty(litellmParams.value.apiKey) then litellmParams.value.apiKey.value
                              else envApiKey.value
  {
    if litellmParams.None? then None
    else
      match ResolveApiKey(OptionalString(litellmParams.value.apiKey), envApiKey)
      case Some(Str(k)) => Some(k)
      case _ => None
  }

  /**
    `validate_environment`: sets the `api-key` header in place when a key
    resolves, and returns the same headers object. No other header changes.
   */
  method ValidateEnvironment(headers: MutableDict<string>, litellmParams: Option<LiteLLMParams>, envApiKey: Option<string>)
    returns (r: MutableDict<string>)
    modifies headers
    ensures r == headers
    ensures headers.items == match HeaderApiKey(litellmParams, envApiKey)
                             case Some(k) => Set(old(headers.items), "api-key", k)
                             case None => old(headers.items)
    ensures Get(headers.items, "api-key") ==
            if HeaderApiKey(litellmParams, envApiKey).Some? then HeaderApiKey(litellmParams, envApiKey)
            else old(Get(headers.items, "api-key"))
    ensures forall h | h != "api-key" :: Get(headers.items, h) == old(Get(headers.items, h))
  {
    var apiKey := HeaderApiKey(litellmParams, envApiKey);
    if apiKey.Some? {
      GetSet(headers.items, "api-key", apiKey.value);
      headers.Put("api-key", apiKey.value);
    }
    r := headers;
  }

  /**
    `get_auth_credentials`: `{"headers": {"api-key": key}}` when a key resolves
    (the `api_key` entry first, then the environment), an empty dict otherwise.
   */
  function GetAuthCredentials(litellmParams: Dict<Json>, envApiKey: Option<string>): (credentials: Dict<Json>)
    ensures credentials == [] <==> !Truthy(GetOr(litellmParams, "api_key", Null)) && !NonEmpty(envApiKey)
    ensures credentials != [] ==>
      var explicit := GetOr(litellmParams, "api_key", Null);
      credentials == [("headers", Obj([("api-key", if Truthy(explicit) then explicit else Str(envApiKey.value))]))]
  {
    match ResolveApiKey(GetOr(litellmParams, "api_key", Null), envApiKey)
    case Some(key) => [("headers", Obj([("api-key", key)]))]
    case None => []
  }

  /** The two ways of resolving the key agree: both give the same header for the same explicit key. */
  lemma AuthPathsAgree(apiKey: Option<string>, envApiKey: Option<string>)
    ensures var credentials := GetAuthCredentials([("api_key", OptionalString(apiKey))], envApiKey);
            var header := HeaderApiKey(Some(LiteLLMParams(apiKey)), envApiKey);
            (credentials != [] <==> header.Some?) &&
            (header.Some? ==> credentials == [("headers", Obj([("api-key", Str(header.value))]))])
  {
  }

  /**
    `get_complete_url`: the explicit base when non-empty, else the `QDRANT_API_BASE`
    value; an error when neither is non-empty. All trailing `/` are removed.
   */
  function GetCompleteUrl(apiBase: Option<string>, envApiBase: Option<string>): (url: Result<string, Error>)
    ensures url.Failure? <==> !NonEmpty(apiBase) && !NonEmpty(envApiBase)
    ensures url.Failure? ==> url.error == ConfigurationError(API_BASE_REQUIRED)
    ensures url.Success? ==>
      var base := if NonEmpty(apiBase) then apiBase.value else envApiBase.value;
      && url.value <= base
      && (url.value == [] || url.value[|url.value| - 1] != '/')
      && forall i | |url.value| <= i < |base| :: base[i] == '/'
  {
    var base := if NonEmpty(apiBase) then apiBase.value
                else if envApiBase.Some? then envApiBase.value else "";
    if base == "" then Failure(ConfigurationError(API_BASE_REQUIRED)) else Success(RStrip(base, '/'))
  }

  // ---------------------------------------------------------------------------
  // Search parameters

  /**
    `map_openai_params`: copies, in place, every entry of `nonDefaultParams`
    whose key Qdrant understands into `optionalParams`, and returns that object.
   */
  method MapOpenAIParams(nonDefaultParams: Dict<Json>, optionalParams: MutableDict<Json>)
    returns (r: MutableDict<Json>)
    modifies optionalParams
    ensures r == optionalParams
    ensures optionalParams.items ==
            Update(old(optionalParams.items), Restrict(nonDefaultParams, QDRANT_OPTIONAL_PARAMS))
    ensures forall k :: Get(optionalParams.items, k) ==
                        if k in QDRANT_OPTIONAL_PARAMS && k in Keys(nonDefaultParams) then Get(nonDefaultParams, k)
                        else old(Get(optionalParams.items, k))
    ensures Keys(optionalParams.items) ==
            old(Keys(optionalParams.items)) + Keys(nonDefaultParams) * QDRANT_OPTIONAL_PARAMS
  {
    ghost var before := optionalParams.items;
    for i := 0 to |nonDefaultParams|
      invariant optionalParams.items ==
                Update(before, Restrict(nonDefaultParams[..i], QDRANT_OPTIONAL_PARAMS))
    {
      var (param, value) := nonDefaultParams[i];
      assert nonDefaultParams[..i + 1] == nonDefaultParams[..i] + [(param, value)];
      RestrictSnoc(nonDefaultParams[..i], (param, value), QDRANT_OPTIONAL_PARAMS);
      UpdateSnoc(before, Restrict(nonDefaultParams[..i], QDRANT_OPTIONAL_PARAMS), (param, value));
      if param in QDRANT_OPTIONAL_PARAMS {
        optionalParams.Put(param, value);
      } else {
        assert Restrict(nonDefaultParams[..i + 1], QDRANT_OPTIONAL_PARAMS) ==
               Restrict(nonDefaultParams[..i], QDRANT_OPTIONAL_PARAMS);
      }
    }
    assert nonDefaultParams[..|nonDefaultParams|] == nonDefaultParams;
    AllowListCopy(before, nonDefaultParams);
    r := optionalParams;
  }

  /**
    The allow-list copy: an allowed key of the new parameters takes their value,
    every other key keeps its old value, and no key outside the allow-list is added.
   */
  lemma AllowListCopy(optional: Dict<Json>, nonDefault: Dict<Json>)
    ensures var copied := Update(optional, Restrict(nonDefault, QDRANT_OPTIONAL_PARAMS));
      && (forall k :: Get(copied, k) ==
            if k in QDRANT_OPTIONAL_PARAMS && k in Keys(nonDefault) then Get(nonDefault, k) else Get(optional, k))
      && Keys(copied) == Keys(optional) + Keys(nonDefault) * QDRANT_OPTIONAL_PARAMS
  {
    GetUpdate(optional, Restrict(nonDefault, QDRANT_OPTIONAL_PARAMS));
    GetRestrict(nonDefault, QDRANT_OPTIONAL_PARAMS);
  }

  // ---------------------------------------------------------------------------
  // Search request

  /** A list query is its fragments joined by single spaces; joining loses nothing when no fragment holds a space. */
  function NormalizeQuery(query: Query): (q: string)
    ensures query.Text? ==> q == query.text
    ensures query.Fragments? && query.parts == [] ==> q == ""
    ensures query.Fragments? && |query.parts| == 1 ==> q == query.parts[0]
    ensures query.Fragments? && |query.parts| >= 2 ==>
              q == NormalizeQuery(Fragments(query.parts[..|query.parts| - 1])) + " " + query.parts[|query.parts| - 1]
    decreases if query.Fragments? then |query.parts| else 0
    ensures query.Fragments? && |query.parts| >= 1 && (forall i | 0 <= i < |query.parts| :: ' ' !in query.parts[i]) ==>
              SplitOn(q, ' ') == query.parts
  {
    match query
    case Text(s) => s
    case Fragments(parts) =>
      if |parts| >= 1 && forall i | 0 <= i < |parts| :: ' ' !in parts[i] then
        SplitJoinRoundTrip(parts, ' ');
        JoinWith(" ", parts)
      else
        JoinWith(" ", parts)
  }

  /**
    The embedding model named by `litellm_params`, or the configuration error
    with `missingMessage` when it is absent or falsy.
   */
  function EmbeddingModelLookup(litellmParams: Dict<Json>, missingMessage: string): (model: Result<Json, Error>)
    ensures model.Success? <==> Truthy(GetOr(litellmParams, EMBEDDING_MODEL_KEY, Null))
    ensures model.Success? ==> Get(litellmParams, EMBEDDING_MODEL_KEY) == Some(model.value)
    ensures model.Failure? ==> model.error == ConfigurationError(missingMessage)
  {
    var m := GetOr(litellmParams, EMBEDDING_MODEL_KEY, Null);
    if Truthy(m) then Success(m) else Failure(ConfigurationError(missingMessage))
  }

  /**
    As written, the error advises setting `embedding_model`; a caller who does
    so, without `litellm_embedding_model`, gets the same error again.
   */
  lemma AdviceAsWrittenIsIgnored(litellmParams: Dict<Json>, model: Json)
    requires EMBEDDING_MODEL_KEY !in Keys(litellmParams)
    ensures EmbeddingModelLookup(Set(litellmParams, "embedding_model", model), EMBEDDING_MODEL_REQUIRED_AS_WRITTEN)
            == Failure(ConfigurationError(MissingModelMessage("embedding_model")))
  {
    GetSet(litellmParams, "embedding_model", model);
    KeysAreStored(litellmParams);
  }

  /** With the corrected message, following its advice with a truthy model always finds the model. */
  lemma AdviceIsFollowed(litellmParams: Dict<Json>, model: Json)
    requires Truthy(model)
    ensures EmbeddingModelLookup(Set(litellmParams, EMBEDDING_MODEL_KEY, model), EMBEDDING_MODEL_REQUIRED)
            == Success(model)
  {
    GetSet(litellmParams, EMBEDDING_MODEL_KEY, model);
  }

  /**
    The search body `{"vector": v, "limit": limit, **params}`: every parameter
    appears with its value (overriding `vector` and `limit`), `limit` defaults
    to 10, and `vector` and `limit` come first.
   */
  function SearchBody(vector: Json, searchParams: Dict<Json>): (body: Dict<Json>)
    ensures Keys(body) == {"vector", "limit"} + Keys(searchParams)
    ensures forall k | k in Keys(searchParams) :: Get(body, k) == Get(searchParams, k)
    ensures "vector" !in Keys(searchParams) ==> Get(body, "vector") == Some(vector)
    ensures Get(body, "limit") == Some(GetOr(searchParams, "limit", Int(DEFAULT_LIMIT)))
    ensures |body| >= 2 && body[0].0 == "vector" && body[1].0 == "limit"
  {
    var base := [("vector", vector), ("limit", GetOr(searchParams, "limit", Int(DEFAULT_LIMIT)))];
    PairLaws("vector", vector, "limit", GetOr(searchParams, "limit", Int(DEFAULT_LIMIT)));
    GetUpdate(base, searchParams);
    UpdateKeepsOrder(base, searchParams);
    KeysAreStored(searchParams);
    Update(base, searchParams)
  }

  /**
    `transform_search_vector_store_request`: checks for the embedding model,
    embeds the normalized query, builds the search URL and body, and records the
    query and model in the logging object. Nothing is written when it fails.
   */
  method TransformSearchRequest(
    vectorStoreId: string,
    query: Query,
    searchParams: Dict<Json>,
    apiBase: string,
    logging: Logging,
    litellmParams: Dict<Json>,
    embed: Embedder)
    returns (r: Result<(string, Dict<Json>), Error>)
    modifies logging
    ensures var q := NormalizeQuery(query);
            var model := GetOr(litellmParams, EMBEDDING_MODEL_KEY, Null);
            var config := GetOr(litellmParams, EMBEDDING_CONFIG_KEY, Obj([]));
      && (!Truthy(model) ==> r == Failure(ConfigurationError(EMBEDDING_MODEL_REQUIRED_AS_WRITTEN)))
      && (Truthy(model) && embed(model, q, config).Failure? ==>
            r == Failure(EmbeddingError(EMBEDDING_FAILED_PREFIX + embed(model, q, config).error)))
      && (Truthy(model) && embed(model, q, config).Success? ==>
            r == Success((apiBase + "/collections/" + vectorStoreId + "/points/search",
                          SearchBody(embed(model, q, config).value, searchParams))))
      && (r.Success? ==>
            logging.modelCallDetails == Set(Set(old(logging.modelCallDetails), "input", Str(q)), "embedding_model", model))
    ensures r.Failure? ==> logging.modelCallDetails == old(logging.modelCallDetails)
  {
    var q := NormalizeQuery(query);
    var modelOrError := EmbeddingModelLookup(litellmParams, EMBEDDING_MODEL_REQUIRED_AS_WRITTEN);
    if modelOrError.Failure? {
      return Failure(modelOrError.error);
    }
    var model := modelOrError.value;
    var config := GetOr(litellmParams, EMBEDDING_CONFIG_KEY, Obj([]));
    var embedding := embed(model, q, config);
    if embedding.Failure? {
      return Failure(EmbeddingError(EMBEDDING_FAILED_PREFIX + embedding.error));
    }
    var url := apiBase + "/collections/" + vectorStoreId + "/points/search";
    var body := SearchBody(embedding.value, searchParams);
    logging.modelCallDetails := Set(logging.modelCallDetails, "input", Str(q));
    logging.modelCallDetails := Set(logging.modelCallDetails, "embedding_model", model);
    r := Success((url, body));
  }

  /** What the request records under `input` is what the response parser reads back as the search query. */
  lemma LoggedQueryIsReadBack(details: Dict<Json>, q: string, model: Json)
    ensures GetOr(Set(Set(details, "input", Str(q)), "embedding_model", model), "input", Str("")) == Str(q)
  {
    GetSet(details, "input", Str(q));
    GetSet(Set(details, "input", Str(q)), "embedding_model", model);
  }

  // ---------------------------------------------------------------------------
  // Search response

  /**
    The points of `response_json.get("result", {}).get("points", [])`, as the
    `for` loop visits them; `None` when Python would raise.
   */
  function PointsOf(responseJson: Json): (points: Option<seq<Json>>)
    ensures !responseJson.Obj? ==> points.None?
    ensures responseJson.Obj? && "result" !in Keys(responseJson.fields) ==> points == Some([])
    ensures responseJson.Obj? && Get(responseJson.fields, "result").Some? ==>
      var result := Get(responseJson.fields, "result").value;
      && (!result.Obj? ==> points.None?)
      && (result.Obj? && "points" !in Keys(result.fields) ==> points == Some([]))
      && (result.Obj? && Get(result.fields, "points").Some? ==> points == Iterate(Get(result.fields, "points").value))
  {
    match responseJson
    case Obj(top) =>
      KeysAreStored(top);
      (match GetOr(top, "result", Obj([]))
       case Obj(result) =>
         KeysAreStored(result);
         Iterate(GetOr(result, "points", Arr([])))
       case _ => None)
    case _ => None
  }

  /** A reply without `result`, or whose `result` has no `points`, has no points. */
  lemma MissingPointsGiveNone(top: Dict<Json>)
    requires "result" !in Keys(top) ||
             (Get(top, "result").Some? && Get(top, "result").value.Obj? &&
              "points" !in Keys(Get(top, "result").value.fields))
    ensures PointsOf(Obj(top)) == Some([])
  {
    KeysAreStored(top);
    var result := GetOr(top, "result", Obj([]));
    assert result.Obj? && "points" !in Keys(result.fields);
    KeysAreStored(result.fields);
    assert GetOr(result.fields, "points", Arr([])) == Arr([]);
  }

  /** The points of an HTTP reply, or `None` when decoding or navigating it raises. */
  function SearchPoints(response: HttpResponse): (points: Option<seq<Json>>)
    ensures response.json.None? ==> points.None?
    ensures response.json.Some? ==> points == PointsOf(response.json.value)
  {
    if response.json.None? then None else PointsOf(response.json.value)
  }

  /** The first of `fields` present in `payload` gives the text, or "" when none is present. */
  function FirstFieldText(payload: Dict<Json>, fields: seq<string>): (text: string)
    ensures (forall i | 0 <= i < |fields| :: Get(payload, fields[i]).None?) ==> text == ""
    ensures forall i | 0 <= i < |fields| && Get(payload, fields[i]).Some? &&
                       (forall j | 0 <= j < i :: Get(payload, fields[j]).None?) ::
              text == ToStr(Get(payload, fields[i]).value)
    decreases |fields|
  {
    if fields == [] then ""
    else
      match Get(payload, fields[0])
      case Some(v) => ToStr(v)
      case None =>
        assert forall i | 1 <= i < |fields| :: fields[1..][i - 1] == fields[i];
        FirstFieldText(payload, fields[1..])
  }

  /** A result's text: `str()` of `text`, else of `content`, else of `document`, else "". */
  function DisplayText(payload: Dict<Json>): (text: string)
    ensures Get(payload, "text").Some? ==> text == ToStr(Get(payload, "text").value)
    ensures Get(payload, "text").None? && Get(payload, "content").Some? ==>
            text == ToStr(Get(payload, "content").value)
    ensures Get(payload, "text").None? && Get(payload, "content").None? && Get(payload, "document").Some? ==>
            text == ToStr(Get(payload, "document").value)
    ensures Get(payload, "text").None? && Get(payload, "content").None? && Get(payload, "document").None? ==>
            text == ""
  {
    assert TEXT_FIELDS[0] == "text" && TEXT_FIELDS[1] == "content" && TEXT_FIELDS[2] == "document";
    FirstFieldText(payload, TEXT_FIELDS)
  }

  /** A result's attributes: the payload without the text keys, values unchanged. */
  function Attributes(payload: Dict<Json>): (attributes: Dict<Json>)
    ensures forall k :: Get(attributes, k) == if k in CONTENT_KEYS then None else Get(payload, k)
    ensures Keys(attributes) == Keys(payload) - CONTENT_KEYS
  {
    GetUpdate([], Without(payload, CONTENT_KEYS));
    GetWithout(payload, CONTENT_KEYS);
    KeysAreStored(payload);
    Update([], Without(payload, CONTENT_KEYS))
  }

  /** For a real dict, the attributes are the payload's other items, in the payload's order. */
  lemma AttributesKeepPayloadOrder(payload: Dict<Json>)
    requires UniqueKeys(payload)
    ensures Attributes(payload) == Without(payload, CONTENT_KEYS)
    ensures UniqueKeys(Attributes(payload))
  {
    WithoutUnique(payload, CONTENT_KEYS);
    UpdateEmptyRebuilds(Without(payload, CONTENT_KEYS));
  }

  /** `point.get("payload", {})`. */
  function Payload(point: Dict<Json>): Json
  {
    GetOr(point, "payload", Obj([]))
  }

  /**
    The search result for one point; `None` when Python would raise, which is
    exactly when the point or its payload is not a dict.
   */
  function PointResult(point: Json): (result: Option<SearchResult>)
    ensures result.Some? <==> point.Obj? && Payload(point.fields).Obj?
    ensures result.Some? ==>
      && result.value.content == [ResultContent(DisplayText(Payload(point.fields).fields), "text")]
      && ("score" in Keys(point.fields) ==> Get(point.fields, "score") == Some(result.value.score))
      && ("score" !in Keys(point.fields) ==> result.value.score == DEFAULT_SCORE)
      && result.value.fileId == ToStr(GetOr(point.fields, "id", Null))
      && result.value.filename == None
      && result.value.attributes == Attributes(Payload(point.fields).fields)
  {
    match point
    case Obj(fields) =>
      KeysAreStored(fields);
      (match Payload(fields)
       case Obj(payload) =>
         Some(SearchResult(
           GetOr(fields, "score", DEFAULT_SCORE),
           [ResultContent(DisplayText(payload), "text")],
           ToStr(GetOr(fields, "id", Null)),
           None,
           Attributes(payload)))
       case _ => None)
    case _ => None
  }

  /** The loop that picks a payload's text, stopping at the first field present. */
  method FindDisplayText(payload: Dict<Json>) returns (text: string)
    ensures text == DisplayText(payload)
  {
    text := "";
    for i := 0 to |TEXT_FIELDS|
      invariant text == ""
      invariant forall j | 0 <= j < i :: Get(payload, TEXT_FIELDS[j]).None?
    {
      match Get(payload, TEXT_FIELDS[i]) {
        case Some(v) =>
          text := ToStr(v);
          break;
        case None =>
      }
    }
  }

  /** The loop that copies every payload item outside the text keys into the attributes. */
  method BuildAttributes(payload: Dict<Json>) returns (attributes: Dict<Json>)
    ensures attributes == Attributes(payload)
  {
    attributes := [];
    for i := 0 to |payload|
      invariant attributes == Update([], Without(payload[..i], CONTENT_KEYS))
    {
      var (key, value) := payload[i];
      assert payload[..i + 1] == payload[..i] + [(key, value)];
      WithoutSnoc(payload[..i], (key, value), CONTENT_KEYS);
      UpdateSnoc([], Without(payload[..i], CONTENT_KEYS), (key, value));
      if key !in CONTENT_KEYS {
        attributes := Set(attributes, key, value);
      } else {
        assert Without(payload[..i + 1], CONTENT_KEYS) == Without(payload[..i], CONTENT_KEYS);
      }
    }
    assert payload[..|payload|] == payload;
  }

  /** The body of the loop over the points: one point's result, or `None` where Python raises. */
  method TransformPoint(point: Json) returns (result: Option<SearchResult>)
    ensures result == PointResult(point)
  {
    if !point.Obj? {
      return None;
    }
    var payload := Payload(point.fields);
    if !payload.Obj? {
      return None;
    }
    var text := FindDisplayText(payload.fields);
    var content := [ResultContent(text, "text")];
    var score := GetOr(point.fields, "score", DEFAULT_SCORE);
    var attributes := BuildAttributes(payload.fields);
    result := Some(SearchResult(score, content, ToStr(GetOr(point.fields, "id", Null)), None, attributes));
  }

  /**
    `transform_search_vector_store_response`: one result per point, in the
    reply's order, with the logged query; any reply Python cannot navigate
    gives the provider error carrying the reply's status and headers.
   */
  method TransformSearchResponse(response: HttpResponse, logging: Logging) returns (r: Result<SearchResponse, Error>)
    ensures r.Success? <==>
            SearchPoints(response).Some? &&
            forall i | 0 <= i < |SearchPoints(response).value| :: PointResult(SearchPoints(response).value[i]).Some?
    ensures r.Failure? ==> r.error == ProviderResponseError(response.statusCode, response.headers)
    ensures r.Success? ==>
      && r.value.objectKind == SEARCH_RESULTS_OBJECT
      && r.value.searchQuery == GetOr(logging.modelCallDetails, "input", Str(""))
      && |r.value.data| == |SearchPoints(response).value|
      && forall i | 0 <= i < |r.value.data| :: PointResult(SearchPoints(response).value[i]) == Some(r.value.data[i])
  {
    var failure := Failure(ProviderResponseError(response.statusCode, response.headers));
    if response.json.None? {
      return failure;
    }
    var pointsOrNone := PointsOf(response.json.value);
    if pointsOrNone.None? {
      return failure;
    }
    var points := pointsOrNone.value;
    var results: seq<SearchResult> := [];
    for i := 0 to |points|
      invariant |results| == i
      invariant forall j | 0 <= j < i :: PointResult(points[j]) == Some(results[j])
    {
      var result := TransformPoint(points[i]);
      if result.None? {
        return failure;
      }
      results := results + [result.value];
    }
    r := Success(SearchResponse(SEARCH_RESULTS_OBJECT, GetOr(logging.modelCallDetails, "input", Str("")), results));
  }

  // ---------------------------------------------------------------------------
  // Create collection

  /** The metadata's items; a falsy metadata value contributes none. */
  function MetadataItems(metadata: Json): Dict<Json>
  {
    if metadata.Obj? then metadata.fields else []
  }

  /** The vector configuration: size and distance from the metadata, else 1536 and "Cosine". */
  function VectorParams(metadata: Dict<Json>): Dict<Json>
  {
    [("size", GetOr(metadata, "vector_size", Int(DEFAULT_VECTOR_SIZE))),
     ("distance", GetOr(metadata, "distance", Str(DEFAULT_DISTANCE)))]
  }

  /** The in-place updates of the default vector configuration from the metadata. */
  method ConfigureVectors(metadata: Dict<Json>) returns (vectorParams: Dict<Json>)
    ensures vectorParams == VectorParams(metadata)
    ensures Keys(vectorParams) == {"size", "distance"}
    ensures Get(vectorParams, "size") == Some(GetOr(metadata, "vector_size", Int(DEFAULT_VECTOR_SIZE)))
    ensures Get(vectorParams, "distance") == Some(GetOr(metadata, "distance", Str(DEFAULT_DISTANCE)))
  {
    vectorParams := [("size", Int(DEFAULT_VECTOR_SIZE)), ("distance", Str(DEFAULT_DISTANCE))];
    PairLaws("size", Int(DEFAULT_VECTOR_SIZE), "distance", Str(DEFAULT_DISTANCE));
    match Get(metadata, "vector_size") {
      case Some(size) => vectorParams := Set(vectorParams, "size", size);
      case None =>
    }
    var size := GetOr(metadata, "vector_size", Int(DEFAULT_VECTOR_SIZE));
    assert vectorParams == [("size", size), ("distance", Str(DEFAULT_DISTANCE))];
    PairLaws("size", size, "distance", Str(DEFAULT_DISTANCE));
    match Get(metadata, "distance") {
      case Some(distance) => vectorParams := Set(vectorParams, "distance", distance);
      case None =>
    }
    PairLaws("size", size, "distance", GetOr(metadata, "distance", Str(DEFAULT_DISTANCE)));
  }

  /**
    The collection body `{"vectors": {size, distance}}` with every metadata entry
    but `vector_size` and `distance` assigned on top: those entries keep their
    values, and a metadata key `vectors` replaces the vector configuration.
   */
  function CreateBody(metadata: Dict<Json>): (body: Dict<Json>)
    ensures |body| >= 1 && body[0].0 == "vectors"
    ensures Keys(body) == {"vectors"} + (Keys(metadata) - VECTOR_CONFIG_KEYS)
    ensures Get(body, "vectors") ==
            if "vectors" in Keys(metadata) then Get(metadata, "vectors") else Some(Obj(VectorParams(metadata)))
    ensures forall k | k != "vectors" :: Get(body, k) == if k in VECTOR_CONFIG_KEYS then None else Get(metadata, k)
  {
    var start := [("vectors", Obj(VectorParams(metadata)))];
    assert Init(start) == [] && Last(start).0 == "vectors";
    forall k | k != "vectors" ensures Get(start, k) == None {
      assert Get(start, k) == Get(Init(start), k);
    }
    GetUpdate(start, Without(metadata, VECTOR_CONFIG_KEYS));
    GetWithout(metadata, VECTOR_CONFIG_KEYS);
    UpdateKeepsOrder(start, Without(metadata, VECTOR_CONFIG_KEYS));
    KeysAreStored(metadata);
    Update(start, Without(metadata, VECTOR_CONFIG_KEYS))
  }

  /** The loop that assigns every metadata entry but the vector settings into the body. */
  method MergeMetadata(start: Dict<Json>, metadata: Dict<Json>) returns (body: Dict<Json>)
    ensures body == Update(start, Without(metadata, VECTOR_CONFIG_KEYS))
  {
    body := start;
    for i := 0 to |metadata|
      invariant body == Update(start, Without(metadata[..i], VECTOR_CONFIG_KEYS))
    {
      var (key, value) := metadata[i];
      assert metadata[..i + 1] == metadata[..i] + [(key, value)];
      WithoutSnoc(metadata[..i], (key, value), VECTOR_CONFIG_KEYS);
      UpdateSnoc(start, Without(metadata[..i], VECTOR_CONFIG_KEYS), (key, value));
      if key !in VECTOR_CONFIG_KEYS {
        body := Set(body, key, value);
      } else {
        assert Without(metadata[..i + 1], VECTOR_CONFIG_KEYS) == Without(metadata[..i], VECTOR_CONFIG_KEYS);
      }
    }
    assert metadata[..|metadata|] == metadata;
  }

  /**
    `transform_create_vector_store_request`: a missing or falsy `name` is an
    error; otherwise the collection URL and the body built from the metadata.
    A truthy metadata value that is not a dict makes Python raise.
   */
  method TransformCreateRequest(createParams: Dict<Json>, apiBase: string)
    returns (r: Result<(string, Dict<Json>), Error>)
    ensures var name := GetOr(createParams, "name", Null);
            var metadata := GetOr(createParams, "metadata", Obj([]));
      && (r.Success? <==> Truthy(name) && (metadata.Obj? || !Truthy(metadata)))
      && (!Truthy(name) ==> r == Failure(ConfigurationError(COLLECTION_NAME_REQUIRED)))
      && (Truthy(name) && Truthy(metadata) && !metadata.Obj? ==> r == Failure(TypeFault))
      && (r.Success? ==> r.value == (apiBase + "/collections/" + ToStr(name), CreateBody(MetadataItems(metadata))))
  {
    var name := GetOr(createParams, "name", Null);
    if !Truthy(name) {
      return Failure(ConfigurationError(COLLECTION_NAME_REQUIRED));
    }
    var url := apiBase + "/collections/" + ToStr(name);
    var metadata := GetOr(createParams, "metadata", Obj([]));
    if Truthy(metadata) && !metadata.Obj? {
      return Failure(TypeFault);
    }
    var m := MetadataItems(metadata);
    var vectorParams := ConfigureVectors(m);
    var body := MergeMetadata([("vectors", Obj(vectorParams))], m);
    r := Success((url, body));
  }

  // ---------------------------------------------------------------------------
  // Create response

  /** `int(t)`: truncation toward zero. */
  function TruncateToInt(t: real): (n: int)
    ensures 0.0 <= t ==> n as real <= t < n as real + 1.0
    ensures t < 0.0 ==> n as real - 1.0 < t <= n as real
  {
    if t >= 0.0 then t.Floor else -((-t).Floor)
  }

  /**
    `transform_create_vector_store_response`: a fixed acknowledgement stamped
    with the current time, or the provider error when the reply is not JSON.
   */
  function TransformCreateResponse(response: HttpResponse, utcTimestamp: real): (r: Result<CreateResponse, Error>)
    ensures r.Failure? <==> response.json.None?
    ensures r.Failure? ==> r.error == ProviderResponseError(response.statusCode, response.headers)
    ensures r.Success? ==>
      && r.value.createdAt == TruncateToInt(utcTimestamp)
      && r.value.status == "completed"
      && r.value.fileCounts == FileCounts(0, 0, 0, 0, 0)
      && r.value.id == "" && r.value.name == ""
  {
    if response.json.None? then Failure(ProviderResponseError(response.statusCode, response.headers))
    else
      Success(CreateResponse(
        id := "",
        objectKind := "vector_store",
        createdAt := TruncateToInt(utcTimestamp),
        name := "",
        bytes := 0,
        fileCounts := FileCounts(0, 0, 0, 0, 0),
        status := "completed",
        expiresAfter := None,
        expiresAt := None,
        lastActiveAt := None,
        metadata := []))
  }
}
