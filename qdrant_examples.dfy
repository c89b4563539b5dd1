/** Concrete calls of the adapter, worked out on literal inputs. */
module QdrantExamples {
  import opened Wrappers
  import opened Dicts
  import opened JsonValues
  import opened QdrantVectorStore

  /** A trailing slash is stripped from the base URL; with no base at all the call fails. */
  lemma CompleteUrlExamples()
    ensures GetCompleteUrl(Some("https://x/"), None) == Success("https://x")
    ensures GetCompleteUrl(None, None) == Failure(ConfigurationError(API_BASE_REQUIRED))
    ensures GetCompleteUrl(Some(""), Some("https://env//")) == Success("https://env")
  {
    assert "https://x/"[..9] == "https://x";
    assert "https://env//"[..12] == "https://env/";
    assert "https://env/"[..11] == "https://env";
  }

  /** A list query `["a", "b"]` becomes "a b". */
  lemma QueryExample()
    ensures NormalizeQuery(Fragments(["a", "b"])) == "a b"
  {
  }

  /** One point with text "hi" and a `tag` gives one result with that text and the tag alone as attributes. */
  lemma SearchResultExample()
    ensures var point := Obj([("id", Int(1)),
                              ("payload", Obj([("text", Str("hi")), ("tag", Str("x"))])),
                              ("score", Float("0.5"))]);
            PointResult(point) == Some(SearchResult(
              Float("0.5"), [ResultContent("hi", "text")], "1", None, [("tag", Str("x"))]))
  {
    var payload := [("text", Str("hi")), ("tag", Str("x"))];
    ExamplePayload(payload);
    var fields := [("id", Int(1)), ("payload", Obj(payload)), ("score", Float("0.5"))];
    ExamplePoint(fields, payload);
    assert ToStr(Int(1)) == "1";
  }

  lemma ExamplePayload(payload: Dict<Json>)
    requires payload == [("text", Str("hi")), ("tag", Str("x"))]
    ensures DisplayText(payload) == "hi"
    ensures Attributes(payload) == [("tag", Str("x"))]
  {
    PairLaws("text", Str("hi"), "tag", Str("x"));
    AttributesKeepPayloadOrder(payload);
    assert Init(payload) == [("text", Str("hi"))] && Init(Init(payload)) == [];
    assert Without(Init(payload), CONTENT_KEYS) == [];
  }

  lemma ExamplePoint(fields: Dict<Json>, payload: Dict<Json>)
    requires fields == [("id", Int(1)), ("payload", Obj(payload)), ("score", Float("0.5"))]
    ensures Get(fields, "payload") == Some(Obj(payload))
    ensures Get(fields, "score") == Some(Float("0.5"))
    ensures Get(fields, "id") == Some(Int(1))
  {
    assert Init(fields) == [("id", Int(1)), ("payload", Obj(payload))];
    PairLaws("id", Int(1), "payload", Obj(payload));
  }

  /** A reply whose `result` has no `points` gives an empty page, not an error. */
  lemma EmptyResultExample()
    ensures SearchPoints(HttpResponse(200, [], Some(Obj([("result", Obj([]))])))) == Some([])
  {
  }

  /** Metadata `{"vector_size": 768}` gives a body with size 768 and the default distance "Cosine". */
  lemma CreateBodyExample()
    ensures CreateBody([("vector_size", Int(768))]) == [("vectors", Obj([("size", Int(768)), ("distance", Str("Cosine"))]))]
  {
  }
}
