# Qdrant vector-store adapter, modelled in Dafny

This project models `QdrantVectorStoreConfig`, the gateway's adapter for the
Qdrant vector database. The adapter has four jobs:

- It resolves the API key and the base URL.
- It forwards only the search parameters Qdrant understands.
- It turns a provider-neutral search or create-collection call into Qdrant's REST request.
- It turns Qdrant's JSON reply back into the gateway's response records.

The model has six modules, one per file:

- `Wrappers` (`wrappers.dfy`): `Option` and `Result`.
- `Dicts` (`dicts.dfy`): Python dicts with string keys, as insertion-ordered lists of items.
  - `Get` returns the last binding of a key.
  - `Set` is `d[k] = v`: an existing key keeps its position, and a new key goes last.
  - `Update` is `d.update(e)`, equally `{**d, **e}`.
  - `Restrict` and `Without` are the key filters.
  - The class `MutableDict` is a dict the adapter changes in place (the headers, `optional_params`).
- `Strings` (`strings.dfy`): `sep.join`, `s.split(c)` and `s.rstrip(c)`.
- `JsonValues` (`json.dfy`): decoded JSON as Python holds it. It covers truthiness, what a `for` loop visits, and `str()`/`repr()`.
- `QdrantVectorStore` (`qdrant.dfy`): the adapter itself.
  - The class `Logging` is the caller's logging object and its `model_call_details`.
- `QdrantExamples` (`qdrant_examples.dfy`): the adapter's behaviour worked out on literal inputs.

Calls into other code become parameters:

- The `QDRANT_API_KEY` and `QDRANT_API_BASE` lookups are `Option<string>` values.
- The embedding call is an `Embedder` function. It maps (model, query, config) to the query's vector, or to an error message.
- `response.json()` is the `json: Option<Json>` field of `HttpResponse`. It is `None` when the body is not JSON.
- The clock is a `real` timestamp argument.

Behaviour of the code worth noting:

- `map_openai_params` writes into the `optional_params` object it is given and returns that same object.
- `get_complete_url` removes every trailing `/`. A base of `"/"` therefore resolves to `""`, not to an error.
- `validate_environment` never consults `QDRANT_API_KEY` when `litellm_params` is `None`.
- The search body overlays the whole, unfiltered search-parameter mapping, so a `vector` or `limit` parameter replaces the defaults.
- A truthy `metadata` that is not a dict makes the create builder raise (`TypeFault`).
- The missing-embedding-model error carries the message exactly as the code writes it; the corrected message of the finding below appears only in `AdviceIsFollowed`.

## Model

| member | source | states |
|---|---|---|
| QdrantVectorStore.ResolveApiKey | litellm/llms/qdrant/vector_stores/transformation.py:53-55 | a key resolves iff the explicit key is truthy or the environment value is non-empty; the explicit key wins, otherwise the environment value is used |
| QdrantVectorStore.HeaderApiKey | litellm/llms/qdrant/vector_stores/transformation.py:51-56 | the header value exists iff params are given and one of the two keys is non-empty; it is never empty, and it is the explicit key when that is non-empty, else the environment key |
| QdrantVectorStore.ValidateEnvironment | litellm/llms/qdrant/vector_stores/transformation.py:48-58 | returns the same headers object; `api-key` is assigned exactly when a key resolves and keeps its old value otherwise; every other header is unchanged |
| QdrantVectorStore.GetAuthCredentials | litellm/llms/qdrant/vector_stores/transformation.py:60-70 | empty iff neither `api_key` nor the environment key is truthy; otherwise exactly `{"headers": {"api-key": key}}`, with the explicit key preferred |
| QdrantVectorStore.AuthPathsAgree | litellm/llms/qdrant/vector_stores/transformation.py:51-70 | for the same explicit and environment keys, `validate_environment` sets a header iff `get_auth_credentials` returns one, and both carry the same key |
| QdrantVectorStore.GetCompleteUrl | litellm/llms/qdrant/vector_stores/transformation.py:104-112 | fails with the API-base error iff neither base is non-empty; otherwise the result is a prefix of the explicit-first base, does not end in `/`, and only `/` characters were removed |
| QdrantVectorStore.MapOpenAIParams | litellm/llms/qdrant/vector_stores/transformation.py:86-92 | after the loop, every allow-listed key of the input maps to its input value; every other key keeps its old value; the key set grows by exactly the allow-listed input keys; the same object is returned |
| QdrantVectorStore.AllowListCopy | litellm/llms/qdrant/vector_stores/transformation.py:89-92 | the allow-list copy, stated on values: allowed keys take the new value, all others keep the old one, and no key outside the allow-list is added |
| Dicts.MutableDict.Put | litellm/llms/qdrant/vector_stores/transformation.py:91 | `d[k] = v` in place: the items become `Set(old items, k, v)` |
| Dicts.GetSet | litellm/llms/qdrant/vector_stores/transformation.py:91 | after `d[k] = v`, `k` maps to `v` and every other key keeps its value |
| Dicts.GetUpdate | litellm/llms/qdrant/vector_stores/transformation.py:163-167 | after `{**d, **e}`, a key of `e` has its value in `e` and any other key its value in `d`; the keys are the union |
| Dicts.GetRestrict | litellm/llms/qdrant/vector_stores/transformation.py:89-90 | keeping only the items whose key is allowed keeps those keys' values and drops all others |
| Dicts.GetWithout | litellm/llms/qdrant/vector_stores/transformation.py:228-230 | dropping the items whose key is reserved removes exactly those keys and keeps every other value |
| Strings.RStrip | litellm/llms/qdrant/vector_stores/transformation.py:112 | `rstrip`: the result is a prefix, does not end in the character, and everything removed is that character |
| Strings.SplitJoinRoundTrip | litellm/llms/qdrant/vector_stores/transformation.py:131-132 | splitting a join on `c` of fragments free of `c` gives the fragments back |
| QdrantVectorStore.NormalizeQuery | litellm/llms/qdrant/vector_stores/transformation.py:131-132 | a text query is unchanged; an empty list gives ""; a one-element list gives its element; a longer list is the join of all but its last fragment, a space, and the last fragment; a list of space-free fragments joins into a string whose split on spaces is the list |
| QdrantVectorStore.EmbeddingModelLookup | litellm/llms/qdrant/vector_stores/transformation.py:135-140 | succeeds iff `litellm_embedding_model` is truthy and then returns its value; otherwise the configuration error with the given message |
| QdrantVectorStore.AdviceAsWrittenIsIgnored | litellm/llms/qdrant/vector_stores/transformation.py:135-140 | following the error's advice as written, by setting `embedding_model`, still gives the same error |
| QdrantVectorStore.AdviceIsFollowed | litellm/llms/qdrant/vector_stores/transformation.py:135-140 | with the corrected message, setting the advised key to a truthy model always finds the model |
| QdrantVectorStore.SearchBody | litellm/llms/qdrant/vector_stores/transformation.py:145-167 | the keys are `vector`, `limit` and every parameter key; every parameter keeps its value and overrides the defaults; `vector` is the embedding unless overridden; `limit` is the parameter's or 10; `vector` and `limit` come first |
| QdrantVectorStore.TransformSearchRequest | litellm/llms/qdrant/vector_stores/transformation.py:116-175 | a falsy model is the configuration error with the message as written (advising `embedding_model`) before anything else; a failed embedding is wrapped with "Failed to generate embedding for query: "; otherwise the URL is `base/collections/id/points/search` with `SearchBody`, and the log records `input` and `embedding_model`; the log is untouched on failure |
| QdrantVectorStore.LoggedQueryIsReadBack | litellm/llms/qdrant/vector_stores/transformation.py:172-173 | what the request logs under `input` is what the response parser reads back as `search_query` |
| JsonValues.Iterate | litellm/llms/qdrant/vector_stores/transformation.py:205 | `for` visits a list's elements, a dict's keys as strings, a string's one-character strings; any other value is not iterable |
| QdrantVectorStore.PointsOf | litellm/llms/qdrant/vector_stores/transformation.py:201 | a non-dict reply or a non-dict `result` raises; a missing `result` or `points` gives no points; otherwise the points are what iterating `points` visits |
| QdrantVectorStore.SearchPoints | litellm/llms/qdrant/vector_stores/transformation.py:198-201 | a body that is not JSON raises; otherwise the points of the decoded reply |
| QdrantVectorStore.MissingPointsGiveNone | litellm/llms/qdrant/vector_stores/transformation.py:201 | a reply without `result`, or whose `result` dict has no `points`, has an empty list of points |
| QdrantVectorStore.FirstFieldText | litellm/llms/qdrant/vector_stores/transformation.py:210-214 | the text is `str()` of the first listed field present in the payload, or "" when none is present |
| QdrantVectorStore.DisplayText | litellm/llms/qdrant/vector_stores/transformation.py:210-214 | the priority `text`, then `content`, then `document`, then "" |
| QdrantVectorStore.FindDisplayText | litellm/llms/qdrant/vector_stores/transformation.py:210-214 | the loop that breaks at the first present field computes `DisplayText` |
| QdrantVectorStore.Attributes | litellm/llms/qdrant/vector_stores/transformation.py:227-230 | the attributes' keys are the payload's keys minus `text`, `content` and `document`, and each keeps its payload value |
| QdrantVectorStore.AttributesKeepPayloadOrder | litellm/llms/qdrant/vector_stores/transformation.py:227-230 | for a payload without repeated keys, the attributes are the payload's other items in the payload's order, again without repeats |
| QdrantVectorStore.BuildAttributes | litellm/llms/qdrant/vector_stores/transformation.py:227-230 | the copying loop computes `Attributes` |
| QdrantVectorStore.PointResult | litellm/llms/qdrant/vector_stores/transformation.py:207-238 | a point gives a result iff it and its payload are dicts; one content block of type "text" with the display text; the score is the point's or 0.0; the id is `str()` of `id`; `filename` is None; the attributes are `Attributes(payload)` |
| QdrantVectorStore.TransformPoint | litellm/llms/qdrant/vector_stores/transformation.py:206-239 | the loop body over one point, with its text loop and attributes loop, computes `PointResult` |
| QdrantVectorStore.TransformSearchResponse | litellm/llms/qdrant/vector_stores/transformation.py:197-252 | succeeds iff the body decodes, its points can be navigated and every point gives a result; then one result per point in the reply's order, the fixed object kind and the logged `input` (default "") as the query; otherwise the provider error with status and headers |
| QdrantVectorStore.ConfigureVectors | litellm/llms/qdrant/vector_stores/transformation.py:272-282 | `size` is `vector_size` or 1536 and `distance` is `distance` or "Cosine"; no other key |
| QdrantVectorStore.CreateBody | litellm/llms/qdrant/vector_stores/transformation.py:285-293 | `vectors` comes first; the keys are `vectors` plus the metadata keys other than `vector_size` and `distance`; those keep their values, and a metadata key `vectors` replaces the vector configuration |
| QdrantVectorStore.MergeMetadata | litellm/llms/qdrant/vector_stores/transformation.py:290-293 | the loop assigns every metadata item except the vector settings on top of the body |
| QdrantVectorStore.TransformCreateRequest | litellm/llms/qdrant/vector_stores/transformation.py:254-295 | a falsy `name` is the collection-name error; a truthy non-dict metadata raises; otherwise the URL is `base/collections/str(name)` with `CreateBody` of the metadata items |
| QdrantVectorStore.TruncateToInt | litellm/llms/qdrant/vector_stores/transformation.py:311 | `int(t)` truncates toward zero |
| QdrantVectorStore.TransformCreateResponse | litellm/llms/qdrant/vector_stores/transformation.py:297-335 | fails iff the body is not JSON, with the provider error; otherwise the `completed` record with zero file counts, empty id and name, and the truncated timestamp |
| QdrantExamples.CompleteUrlExamples | litellm/llms/qdrant/vector_stores/transformation.py:104-112 | `"https://x/"` resolves to `"https://x"`; no base fails; an empty explicit base falls back to the environment, with both slashes of `"https://env//"` removed |
| QdrantExamples.QueryExample | litellm/llms/qdrant/vector_stores/transformation.py:131-132 | `["a", "b"]` becomes `"a b"` |
| QdrantExamples.SearchResultExample | litellm/llms/qdrant/vector_stores/transformation.py:205-239 | a point with text "hi", a `tag`, id 1 and score 0.5 gives the result with that text, file id "1" and `{"tag": "x"}` as attributes |
| QdrantExamples.EmptyResultExample | litellm/llms/qdrant/vector_stores/transformation.py:201 | a `result` without `points` gives an empty list of points |
| QdrantExamples.CreateBodyExample | litellm/llms/qdrant/vector_stores/transformation.py:272-293 | metadata `{"vector_size": 768}` gives `{"vectors": {"size": 768, "distance": "Cosine"}}` |

## Left out

- The `litellm.embedding` call: it is foreign code. The `Embedder` parameter stands for the call together with the read of `data[0]["embedding"]`. Any exception from either is the `Failure` message, wrapped as in the source.
- `get_secret_str`: the environment lookups are passed in as `Option<string>`.
- `response.json()` and `get_error_class`: decoding is library code, and the error class is built by the base class. The reply is an already-decoded `Option<Json>`. The error keeps the status code and headers but not the text of `str(e)`.
- `litellm.utils.get_utc_timestamp()`: the clock is a `real` argument.
- `get_vector_store_endpoints_by_type`: a constant table with no behaviour.
- The `drop_params` parameter of `map_openai_params` and the `litellm_params` parameter of `get_complete_url`: the code never reads them.
- Floats: they are carried by their `repr` text, with no arithmetic. The score is only passed through.
- JsonValues.Repr: `repr()` escapes are modelled for characters up to U+00FF. The rules for non-printable characters above U+00FF are not modelled.
- TransformCreateRequest: which kind of exception Python raises for a truthy non-dict metadata (`TypeError` or `AttributeError`) is collapsed into `TypeFault`.
- The class hierarchy (`BaseVectorStoreConfig`) and the typed-dict constructors: they do not change any value the adapter builds.

## Findings

| source | as written | input that shows it | evidently intended | confidence | as-written member | corrected member |
|---|---|---|---|---|---|---|
| litellm/llms/qdrant/vector_stores/transformation.py:135-140 | the missing-model error tells the caller to set `litellm_params['embedding_model']`, but the lookup reads `litellm_embedding_model` | `litellm_params = {"embedding_model": "azure/text-embedding-3-large"}` raises the same error again | the message names the key that is read, `litellm_embedding_model` | not executed | QdrantVectorStore.AdviceAsWrittenIsIgnored | QdrantVectorStore.AdviceIsFollowed |
