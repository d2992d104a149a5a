/**
  The resource accessor of client/resource.go: a client bound to a namespace,
  the request each CRUD operation builds, and how each interprets what the
  transport returned.
 */
module Resources {
  import opened Wrappers
  import opened Decimal
  import opened Clients
  import opened Fetch

  /** Resource[T]: the item type T appears on the operations instead. */
  datatype Resource = Resource(client: Client, namespace: string)

  /** CreateResource(c, namespace) from client/client.go: binds them, checking nothing. */
  function CreateResource(c: Client, namespace: string): (r: Resource)
    ensures r.client == c && r.namespace == namespace
  {
    Resource(c, namespace)
  }

  /** Resources built on a client from New can run every operation. */
  lemma NewResourceIsReady(uri: string, cfg: seq<Option<Config>>, namespace: string)
    ensures Ready(CreateResource(New(uri, cfg), namespace).client)
  {
  }

  /** The config every operation reads; the operations require it not nil. */
  function Cfg(r: Resource): Config
    requires Ready(r.client)
  {
    r.client.config.value
  }

  /** What an operation returns when it fails. */
  datatype Error =
    | TransportError(cause: string)  // the transport's error, passed through unchanged
    | StatusError(text: string)      // built by BuildError from an unexpected response
    | DecodeError(cause: string)     // the decoder's error, passed through unchanged

  // ---------------------------------------------------------------------
  // Paths

  /** The names BuildPath knows. */
  const OperationNames: set<string> := {"List", "Create", "Retrieve", "Update", "Delete"}

  /** "<endpoint>/<namespace>", as fmt.Sprintf("%s/%s", ...) writes it. */
  function Collection(r: Resource): (p: string)
    ensures |p| > 0
  {
    r.client.endpoint + "/" + r.namespace
  }

  /** buildPath: the URL template of an operation, named by a string. */
  function BuildPath(r: Resource, typ: string): (p: string)
    ensures typ == "List" || typ == "Create" ==> p == Collection(r)
    ensures typ == "Retrieve" || typ == "Update" || typ == "Delete" ==> p == Collection(r) + "/:id"
    ensures p == "" <==> typ !in OperationNames
  {
    match typ
    case "List" => Collection(r)
    case "Create" => Collection(r)
    case "Retrieve" => Collection(r) + "/:id"
    case "Update" => Collection(r) + "/:id"
    case "Delete" => Collection(r) + "/:id"
    case _ => ""
  }

  // ---------------------------------------------------------------------
  // Query and headers: specifications

  /** The query a call sends: the client's defaults overlaid by the call's own keys. */
  function EffectiveQuery(cfg: Config, current: StringMap): (q: StringMap)
    ensures cfg.query.None? ==> q == current
    ensures q.Keys == OrEmpty(cfg.query).Keys + current.Keys
    ensures forall k :: k in current ==> q[k] == current[k]
    ensures forall k :: k in q && k !in current ==> q[k] == OrEmpty(cfg.query)[k]
  {
    match cfg.query
    case None => current
    case Some(defaults) => defaults + current
  }

  /** The header a call sends unless the client's headers replace it. */
  const DefaultHeaders: StringMap := map["content-type" := "application/json"]

  /**
    The headers every call sends. Only the exact lower-case key
    "content-type" replaces the default; other client headers are added as they are.
   */
  function EffectiveHeaders(cfg: Config): (h: StringMap)
    ensures h.Keys == {"content-type"} + OrEmpty(cfg.headers).Keys
    ensures h["content-type"] ==
      if "content-type" in OrEmpty(cfg.headers) then OrEmpty(cfg.headers)["content-type"]
      else "application/json"
    ensures forall k :: k in OrEmpty(cfg.headers) ==> h[k] == OrEmpty(cfg.headers)[k]
  {
    match cfg.headers
    case None => DefaultHeaders
    case Some(headers) => DefaultHeaders + headers
  }

  /** The caller's optional extra query of List: absent or nil contributes nothing. */
  function CallerQuery(query: seq<Option<StringMap>>): StringMap {
    if |query| > 0 && query[0].Some? then query[0].value else map[]
  }

  /** The query List hands to buildQuery: the caller's keys, with page and pageSize set last. */
  function ListParams(page: int, pageSize: int, query: seq<Option<StringMap>>): (q: StringMap)
    ensures q.Keys == CallerQuery(query).Keys + {"page", "pageSize"}
    ensures q["page"] == DecimalString(page) && q["pageSize"] == DecimalString(pageSize)
    ensures forall k :: k in CallerQuery(query) && k != "page" && k != "pageSize" ==>
      q[k] == CallerQuery(query)[k]
  {
    CallerQuery(query)["page" := DecimalString(page)]["pageSize" := DecimalString(pageSize)]
  }

  // ---------------------------------------------------------------------
  // Query and headers: the source's loops

  /** The loop `for k, v := range src { dst[k] = v }`, in whatever order the keys come. */
  method CopyEntries(dst: StringMap, src: StringMap) returns (merged: StringMap)
    ensures merged == dst + src
  {
    merged := dst;
    var pending := src.Keys;
    while pending != {}
      invariant pending <= src.Keys
      invariant merged.Keys == dst.Keys + (src.Keys - pending)
      invariant forall k :: k in src && k !in pending ==> merged[k] == src[k]
      invariant forall k :: k in dst && k !in src ==> merged[k] == dst[k]
      invariant forall k :: k in dst && k in pending ==> merged[k] == dst[k]
      decreases pending
    {
      var k :| k in pending;
      merged := merged[k := src[k]];
      pending := pending - {k};
    }
  }

  /** buildQuery: a fresh merge of the client's default query and the call's, or the call's own map when the defaults are nil. */
  method BuildQuery(r: Resource, current: StringMap) returns (q: StringMap)
    requires Ready(r.client)
    ensures q == EffectiveQuery(Cfg(r), current)
  {
    var defaults := r.client.config.value.query;
    if defaults.None? {
      return current;
    }
    q := CopyEntries(map[], defaults.value);
    q := CopyEntries(q, current);
  }

  /** buildHeaders: the content-type default, overlaid by the client's headers. */
  method BuildHeaders(r: Resource) returns (h: StringMap)
    requires Ready(r.client)
    ensures h == EffectiveHeaders(Cfg(r))
  {
    h := map["content-type" := "application/json"];
    var headers := r.client.config.value.headers;
    if headers.None? {
      return;
    }
    h := CopyEntries(h, headers.value);
  }

  /** The start of List: copy the caller's extra query, then set page and pageSize. */
  method BuildListQuery(page: int, pageSize: int, query: seq<Option<StringMap>>) returns (q: StringMap)
    ensures q == ListParams(page, pageSize, query)
  {
    q := map[];
    if |query| > 0 && query[0].Some? {
      q := CopyEntries(q, query[0].value);
    }
    q := q["page" := DecimalString(page)];
    q := q["pageSize" := DecimalString(pageSize)];
  }

  // ---------------------------------------------------------------------
  // Errors

  /** fmt.Errorf("[%d] %s", code, message). */
  function FormatError(code: int, message: string): string {
    "[" + DecimalString(code) + "] " + message
  }

  /** buildError: the body's code, or the status when it is 0; the body's message, or the raw body when it is "". */
  function BuildError(response: Response): (e: Error)
    ensures e.StatusError?
    ensures ParseErrorText(e.text) == Some((
      if response.code != 0 then response.code else response.status,
      if response.message != "" then response.message else response.text))
  {
    var code := if response.code == 0 then response.status else response.code;
    var message := if response.message == "" then response.text else response.message;
    ErrorTextRoundTrip(code, message);
    StatusError(FormatError(code, message))
  }

  /** The position of the first c in s, or |s| when there is none. */
  function FirstIndex(s: string, c: char): (i: nat)
    ensures i <= |s|
    ensures i < |s| ==> s[i] == c
    ensures forall j :: 0 <= j < i ==> s[j] != c
  {
    if |s| == 0 then 0 else if s[0] == c then 0 else 1 + FirstIndex(s[1..], c)
  }

  /**
    Reads "[<code>] <message>" back into its code and message, the code
    written as DecimalString writes it; None for any other text.
   */
  function ParseErrorText(t: string): Option<(int, string)> {
    if |t| == 0 || t[0] != '[' then None
    else
      var close := 1 + FirstIndex(t[1..], ']');
      if close + 1 < |t| && t[close + 1] == ' ' then
        match ParseDecimal(t[1..close])
        case Some(code) => Some((code, t[close + 2..]))
        case None => None
      else None
  }

  lemma FirstIndexAfter(d: string, c: char, rest: string)
    requires c !in d
    ensures FirstIndex(d + [c] + rest, c) == |d|
  {
    var s := d + [c] + rest;
    var i := FirstIndex(s, c);
    assert s[|d|] == c;
  }

  /** An error text determines the code and the message it was formatted from. */
  lemma ErrorTextRoundTrip(code: int, message: string)
    ensures ParseErrorText(FormatError(code, message)) == Some((code, message))
  {
    var d := DecimalString(code);
    var t := FormatError(code, message);
    assert ']' !in d by {
      forall i | 0 <= i < |d| ensures d[i] != ']' {
      }
    }
    assert t[1..] == d + [']'] + (" " + message);
    FirstIndexAfter(d, ']', " " + message);
    assert t[1..1 + |d|] == d;
    assert t[|d| + 3..] == message;
    DecimalRoundTrip(code);
  }

  /** Only the exact text FormatError writes reads back as a code and a message. */
  lemma ErrorTextIsFormatted(t: string, code: int, message: string)
    requires ParseErrorText(t) == Some((code, message))
    ensures t == FormatError(code, message)
  {
    var close := 1 + FirstIndex(t[1..], ']');
    ParsedIsCanonical(t[1..close], code);
    assert t[close] == ']';
    assert t == "[" + t[1..close] + "] " + t[close + 2..];
  }

  // ---------------------------------------------------------------------
  // Interpreting the outcome

  /** Shared by every operation: a transport error passes through, a status other than expected becomes BuildError. */
  function Check(outcome: Outcome, expected: int): Result<Response, Error> {
    match outcome
    case Failed(cause) => Failure(TransportError(cause))
    case Received(response) =>
      if response.status != expected then Failure(BuildError(response)) else Success(response)
  }

  /** A decoder standing for response.UnmarshalJSON into a U. */
  type Decoder<U> = string -> Result<U, string>

  // ---------------------------------------------------------------------
  // List

  function ListRequest<T>(r: Resource, page: int, pageSize: int, query: seq<Option<StringMap>>): (req: Request<T>)
    requires Ready(r.client)
    ensures req.verb == GET && req.path == Collection(r)
    ensures req.params.None? && req.body.None?
    ensures req.headers == EffectiveHeaders(Cfg(r))
    ensures req.query == Some(EffectiveQuery(Cfg(r), ListParams(page, pageSize, query)))
  {
    Request(GET, BuildPath(r, "List"), Some(EffectiveQuery(Cfg(r), ListParams(page, pageSize, query))),
      None, EffectiveHeaders(Cfg(r)), None)
  }

  /**
    The query List sends: page and pageSize always as the decimal strings of
    the arguments, the caller's other extra keys next, the client's defaults
    for every key left.
   */
  lemma ListQuerySent<T>(r: Resource, page: int, pageSize: int, query: seq<Option<StringMap>>)
    requires Ready(r.client)
    ensures var q := ListRequest<T>(r, page, pageSize, query).query.value;
      && q.Keys == OrEmpty(Cfg(r).query).Keys + CallerQuery(query).Keys + {"page", "pageSize"}
      && q["page"] == DecimalString(page)
      && q["pageSize"] == DecimalString(pageSize)
      && (forall k :: k in CallerQuery(query) && k != "page" && k != "pageSize" ==> q[k] == CallerQuery(query)[k])
      && (forall k :: k in q && k !in CallerQuery(query) && k != "page" && k != "pageSize" ==>
            q[k] == OrEmpty(Cfg(r).query)[k])
  {
  }

  function ListResult<T>(outcome: Outcome, decode: Decoder<seq<T>>): (res: Result<seq<T>, Error>)
    ensures res.Success? <==>
      outcome.Received? && outcome.response.status == 200 && decode(outcome.response.text).Success?
    ensures res.Success? ==> res.value == decode(outcome.response.text).value
    ensures outcome.Failed? ==> res == Failure(TransportError(outcome.cause))
    ensures outcome.Received? && outcome.response.status != 200 ==> res == Failure(BuildError(outcome.response))
    ensures outcome.Received? && outcome.response.status == 200 && decode(outcome.response.text).Failure? ==>
      res == Failure(DecodeError(decode(outcome.response.text).error))
  {
    match Check(outcome, 200)
    case Failure(e) => Failure(e)
    case Success(response) =>
      match decode(response.text)
      case Failure(cause) => Failure(DecodeError(cause))
      case Success(items) => Success(items)
  }

  // ---------------------------------------------------------------------
  // Create

  function CreateRequest<T>(r: Resource, mutation: Option<T>): (req: Request<T>)
    requires Ready(r.client)
    ensures req.verb == POST && req.path == Collection(r)
    ensures req.query.None? && req.params.None?
    ensures req.headers == EffectiveHeaders(Cfg(r)) && req.body == mutation
  {
    Request(POST, BuildPath(r, "Create"), None, None, EffectiveHeaders(Cfg(r)), mutation)
  }

  function CreateResult(outcome: Outcome): (err: Option<Error>)
    ensures err.None? <==> outcome.Received? && outcome.response.status == 201
    ensures outcome.Failed? ==> err == Some(TransportError(outcome.cause))
    ensures outcome.Received? && outcome.response.status != 201 ==> err == Some(BuildError(outcome.response))
  {
    match Check(outcome, 201)
    case Failure(e) => Some(e)
    case Success(_) => None
  }

  // ---------------------------------------------------------------------
  // Retrieve

  function RetrieveRequest<T>(r: Resource, id: string): (req: Request<T>)
    requires Ready(r.client)
    ensures req.verb == GET && req.path == Collection(r) + "/:id"
    ensures req.params == Some(map["id" := id]) && req.query.None?
    ensures req.headers == EffectiveHeaders(Cfg(r)) && req.body.None?
  {
    Request(GET, BuildPath(r, "Retrieve"), None, Some(map["id" := id]), EffectiveHeaders(Cfg(r)), None)
  }

  /** What Retrieve returns: always an item, paired with the error, if any. */
  datatype Retrieved<T> = Retrieved(item: T, err: Option<Error>)

  /** The item is the zero value whenever there is an error. */
  function RetrieveResult<T>(outcome: Outcome, decode: Decoder<T>, zero: T): (res: Retrieved<T>)
    ensures res.err.None? <==>
      outcome.Received? && outcome.response.status == 200 && decode(outcome.response.text).Success?
    ensures res.err.None? ==> res.item == decode(outcome.response.text).value
    ensures res.err.Some? ==> res.item == zero
    ensures outcome.Failed? ==> res.err == Some(TransportError(outcome.cause))
    ensures outcome.Received? && outcome.response.status != 200 ==> res.err == Some(BuildError(outcome.response))
    ensures outcome.Received? && outcome.response.status == 200 && decode(outcome.response.text).Failure? ==>
      res.err == Some(DecodeError(decode(outcome.response.text).error))
  {
    match Check(outcome, 200)
    case Failure(e) => Retrieved(zero, Some(e))
    case Success(response) =>
      match decode(response.text)
      case Failure(cause) => Retrieved(zero, Some(DecodeError(cause)))
      case Success(item) => Retrieved(item, None)
  }

  // ---------------------------------------------------------------------
  // Update

  function UpdateRequest<T>(r: Resource, id: string, mutation: Option<T>): (req: Request<T>)
    requires Ready(r.client)
    ensures req.verb == PUT && req.path == Collection(r) + "/:id"
    ensures req.params == Some(map["id" := id]) && req.query.None?
    ensures req.headers == EffectiveHeaders(Cfg(r)) && req.body == mutation
  {
    Request(PUT, BuildPath(r, "Update"), None, Some(map["id" := id]), EffectiveHeaders(Cfg(r)), mutation)
  }

  function UpdateResult(outcome: Outcome): (err: Option<Error>)
    ensures err.None? <==> outcome.Received? && outcome.response.status == 200
    ensures outcome.Failed? ==> err == Some(TransportError(outcome.cause))
    ensures outcome.Received? && outcome.response.status != 200 ==> err == Some(BuildError(outcome.response))
  {
    match Check(outcome, 200)
    case Failure(e) => Some(e)
    case Success(_) => None
  }

  // ---------------------------------------------------------------------
  // Delete

  /** Delete sends the id as the query key "id" (merged with the defaults), not as a path parameter. */
  function DeleteRequest<T>(r: Resource, id: string): (req: Request<T>)
    requires Ready(r.client)
    ensures req.verb == DELETE && req.path == Collection(r) + "/:id"
    ensures req.params.None? && req.body.None? && req.headers == EffectiveHeaders(Cfg(r))
    ensures req.query.Some? && req.query.value.Keys == OrEmpty(Cfg(r).query).Keys + {"id"}
    ensures req.query.Some? && req.query.value["id"] == id
    ensures forall k :: k in OrEmpty(Cfg(r).query) && k != "id" ==> req.query.value[k] == OrEmpty(Cfg(r).query)[k]
  {
    Request(DELETE, BuildPath(r, "Delete"), Some(EffectiveQuery(Cfg(r), map["id" := id])),
      None, EffectiveHeaders(Cfg(r)), None)
  }

  function DeleteResult(outcome: Outcome): (err: Option<Error>)
    ensures err.None? <==> outcome.Received? && outcome.response.status == 204
    ensures outcome.Failed? ==> err == Some(TransportError(outcome.cause))
    ensures outcome.Received? && outcome.response.status != 204 ==> err == Some(BuildError(outcome.response))
  {
    match Check(outcome, 204)
    case Failure(e) => Some(e)
    case Success(_) => None
  }
}
