/**
  Concrete calls: the usage in client/client_test.go (namespace "users",
  id "666"), a merge example, a List query conflict, two error texts and a
  header-name case.
 */
module Scenarios {
  import opened Wrappers
  import opened Decimal
  import opened Clients
  import opened Fetch
  import opened Resources

  /** Overlaying {a:1, b:2} with {b:3, c:4} gives {a:1, b:3, c:4}. */
  lemma MergeIsRightBiased()
    ensures EffectiveQuery(Config(None, Some(map["a" := "1", "b" := "2"])), map["b" := "3", "c" := "4"])
      == map["a" := "1", "b" := "3", "c" := "4"]
  {
  }

  /**
    List(0, 10) on "users" of New("http://localhost:8080/"): the endpoint's
    trailing slash is kept, so the path has two slashes in a row.
   */
  lemma ListUsers()
    ensures ListRequest<int>(CreateResource(New("http://localhost:8080/", []), "users"), 0, 10, [])
      == Request(GET, "http://localhost:8080//users", Some(map["page" := "0", "pageSize" := "10"]),
                 None, map["content-type" := "application/json"], None)
  {
    assert DecimalString(10) == "10";
  }

  /** A caller-supplied page is overridden by the page argument. */
  lemma ListPageArgumentWins()
    ensures ListParams(2, 10, [Some(map["page" := "7", "q" := "x"])])
      == map["page" := "2", "pageSize" := "10", "q" := "x"]
  {
    assert DecimalString(10) == "10";
  }

  /**
    Delete("666") on "users" sends the id as the query key "id" and no path
    parameters; answered 200 with body {"message":"not allowed"}, it fails
    with "[200] not allowed".
   */
  lemma DeleteAnsweredOk()
    ensures var req := DeleteRequest<int>(CreateResource(New("http://localhost:8080/", []), "users"), "666");
      req.query == Some(map["id" := "666"]) && req.params.None?
    ensures DeleteResult(Received(Response(200, 0, "not allowed", "{\"message\":\"not allowed\"}")))
      == Some(StatusError("[200] not allowed"))
  {
    assert DecimalString(200) == "200" by {
      assert Digits(20) == "20";
    }
    assert FormatError(200, "not allowed") == "[200] not allowed";
  }

  /** Create answered 400 with a body that has neither code nor message fails with the status and the raw body. */
  lemma CreateRejected()
    ensures CreateResult(Received(Response(400, 0, "", "bad request"))) == Some(StatusError("[400] bad request"))
  {
    assert DecimalString(400) == "400" by {
      assert Digits(40) == "40";
    }
    assert FormatError(400, "bad request") == "[400] bad request";
  }

  /**
    Retrieve("666") on "users" sends the id as the path parameter "id" and no
    query; answered 200 with a body the decoder accepts, it yields that item
    and no error.
   */
  lemma RetrieveDecodes<T>(decode: Decoder<T>, zero: T, body: string, item: T)
    requires decode(body) == Success(item)
    ensures var req := RetrieveRequest<T>(CreateResource(New("http://localhost:8080/", []), "users"), "666");
      req.params == Some(map["id" := "666"]) && req.query.None?
    ensures RetrieveResult(Received(Response(200, 0, "", body)), decode, zero) == Retrieved(item, None)
  {
  }

  /** Header keys are compared exactly: "Content-Type" is sent beside the default "content-type". */
  lemma HeaderKeysAreCaseSensitive()
    ensures EffectiveHeaders(Config(Some(map["Content-Type" := "text/plain"]), None))
      == map["content-type" := "application/json", "Content-Type" := "text/plain"]
  {
  }

  /** "[01] x" is not a text BuildError writes (%d writes 1 as "1"), and it does not read back. */
  lemma LeadingZeroCodeIsNotRead()
    ensures ParseErrorText("[01] x") == None
    ensures ParseErrorText("[1] x") == Some((1, "x"))
  {
    assert FirstIndex("01] x", ']') == 2;
    assert FirstIndex("1] x", ']') == 1;
  }
}
