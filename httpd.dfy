/**
 The HTTP binding (httpd/httpd.go): routing on path prefix and method, key extraction
 from the path, and the store calls each request makes. The store is an oracle: what
 its `Get`, `Set` and `Delete` answer is given, and the model records which calls the
 handler makes, in order, and the response it writes.
 */
module Httpd {
  import opened Wrappers
  import opened Json
  import opened Strings

  const StatusOK: int := 200
  const StatusBadRequest: int := 400
  const StatusNotFound: int := 404
  const StatusMethodNotAllowed: int := 405
  const StatusInternalServerError: int := 500

  /** A call made on the store interface. */
  datatype StoreCall = GetCall(key: string) | SetCall(key: string, value: JsonValue) | DeleteCall(key: string)

  /**
   How the store answers: `lookup` gives `Get`'s value or `None` for an error; `setOk` and
   `deleteOk` say whether `Set` and `Delete` succeed.
   */
  datatype StoreOracle = StoreOracle(
    lookup: string -> Option<JsonValue>,
    setOk: (string, JsonValue) -> bool,
    deleteOk: string -> bool)

  /**
   What the handler has written: the status header (the first one written wins, and
   200 is implied when none is), the JSON body if any, and the store calls made.
   */
  datatype Response = Response(header: Option<int>, body: Option<JsonValue>, calls: seq<StoreCall>)

  function Status(r: Response): int {
    if r.header.Some? then r.header.value else StatusOK
  }

  /** Go's `WriteHeader`: a header already written (explicitly or by a body) stays. */
  function WriteHeader(r: Response, code: int): (r': Response)
    ensures r'.header.Some?
    ensures r'.body == r.body && r'.calls == r.calls
    ensures Status(r') == if r.header.None? then code else Status(r)
  {
    if r.header.None? then r.(header := Some(code)) else r
  }

  /** Writing a body fixes the status at whatever it is by then. */
  function WriteBody(r: Response, v: JsonValue): (r': Response)
    ensures r'.header.Some?
    ensures r'.body == Some(v) && r'.calls == r.calls && Status(r') == Status(r)
  {
    r.(header := Some(Status(r)), body := Some(v))
  }

  /**
   The `getKey` closure: the third `/`-separated segment of the path when there are
   exactly three, and the empty string otherwise.
   */
  function KeyOf(path: string): (k: string)
    ensures '/' !in k
    ensures Occurrences(path, '/') != 2 ==> k == ""
  {
    var parts := Split(path, '/');
    if |parts| != 3 then "" else parts[2]
  }

  /** A path with exactly two slashes is its segments joined by slashes, the key last. */
  lemma KeyOfSegments(path: string)
    requires Occurrences(path, '/') == 2
    ensures path == Split(path, '/')[0] + "/" + Split(path, '/')[1] + "/" + KeyOf(path)
  {
    var parts := Split(path, '/');
    JoinSplit(path, '/');
    assert parts[1..][1..] == [parts[2]];
    assert Join(parts[1..], '/') == parts[1] + ['/'] + parts[2];
  }

  /** `/seg/k` with slash-free `seg` and `k` yields the key `k` (e.g. `/key/k`). */
  lemma KeyOfRequestPath(seg: string, k: string)
    requires '/' !in seg && '/' !in k
    ensures KeyOf("/" + seg + "/" + k) == k
  {
    var parts := ["", seg, k];
    assert parts[1..] == [seg, k] && parts[1..][1..] == [k];
    assert Join(parts[1..], '/') == seg + ['/'] + k;
    assert Join(parts, '/') == "" + ['/'] + (seg + ['/'] + k);
    assert "" + ['/'] + (seg + ['/'] + k) == "/" + seg + "/" + k;
    SplitJoin(parts, '/');
  }

  /**
   The index of the first pair whose `Set` fails, or the number of pairs when none does:
   every pair before it succeeds, and the pair at it fails.
   */
  function FirstFailure(pairs: seq<(string, JsonValue)>, store: StoreOracle): (n: nat)
    ensures n <= |pairs|
    ensures forall i :: 0 <= i < n ==> store.setOk(pairs[i].0, pairs[i].1)
    ensures n < |pairs| ==> !store.setOk(pairs[n].0, pairs[n].1)
  {
    if pairs == [] then 0
    else if !store.setOk(pairs[0].0, pairs[0].1) then 0
    else 1 + FirstFailure(pairs[1..], store)
  }

  /** The `Set` calls for the given pairs, in order. */
  function SetCalls(pairs: seq<(string, JsonValue)>): (calls: seq<StoreCall>)
    ensures |calls| == |pairs|
    ensures forall i :: 0 <= i < |pairs| ==> calls[i] == SetCall(pairs[i].0, pairs[i].1)
  {
    seq(|pairs|, i requires 0 <= i < |pairs| => SetCall(pairs[i].0, pairs[i].1))
  }

  /**
   The POST loop: `Set` each pair in order and stop at the first failure. The calls made
   are the `Set`s of every pair up to and including the failing one; the pairs set before
   it are not undone, so a failed batch is partially applied.
   */
  method SetPairs(pairs: seq<(string, JsonValue)>, store: StoreOracle)
    returns (ok: bool, calls: seq<StoreCall>)
    ensures ok <==> FirstFailure(pairs, store) == |pairs|
    ensures ok ==> calls == SetCalls(pairs)
    ensures !ok ==> calls == SetCalls(pairs[..FirstFailure(pairs, store) + 1])
  {
    calls := [];
    var i := 0;
    while i < |pairs|
      invariant 0 <= i <= |pairs|
      invariant forall j :: 0 <= j < i ==> store.setOk(pairs[j].0, pairs[j].1)
      invariant calls == SetCalls(pairs[..i])
    {
      calls := calls + [SetCall(pairs[i].0, pairs[i].1)];
      if !store.setOk(pairs[i].0, pairs[i].1) {
        assert pairs[..i + 1] == pairs[..i] + [pairs[i]];
        return false, calls;
      }
      i := i + 1;
    }
    assert pairs[..i] == pairs;
    return true, calls;
  }

  /** What a request on a `/key` path does, branch by branch of `handleKeyRequest`. */
  ghost predicate KeyRequestOutcome(httpMethod: string, path: string,
                                    body: Decoding<seq<(string, JsonValue)>>,
                                    store: StoreOracle, resp: Response)
  {
    var k := KeyOf(path);
    if httpMethod == "GET" then
      // An empty key records 400 but, with no return, the lookup still happens and
      // its result is still written under that 400.
      && resp.calls == [GetCall(k)]
      && Status(resp) == (if k == "" then StatusBadRequest
                          else if store.lookup(k).None? then StatusInternalServerError
                          else StatusOK)
      && resp.body == (if store.lookup(k).Some? then Some(JObject(map[k := store.lookup(k).value])) else None)
    else if httpMethod == "POST" then
      && resp.body == None
      && (body.Undecodable? ==> Status(resp) == StatusBadRequest && resp.calls == [])
      && (body.Decoded? ==>
            var n := FirstFailure(body.value, store);
            if n == |body.value| then Status(resp) == StatusOK && resp.calls == SetCalls(body.value)
            else Status(resp) == StatusInternalServerError && resp.calls == SetCalls(body.value[..n + 1]))
    else if httpMethod == "DELETE" then
      // A successful delete is issued a second time; the second result is ignored.
      && resp.body == None
      && (k == "" ==> Status(resp) == StatusBadRequest && resp.calls == [])
      && (k != "" && !store.deleteOk(k) ==> Status(resp) == StatusInternalServerError && resp.calls == [DeleteCall(k)])
      && (k != "" && store.deleteOk(k) ==> Status(resp) == StatusOK && resp.calls == [DeleteCall(k), DeleteCall(k)])
    else
      Status(resp) == StatusMethodNotAllowed && resp.calls == [] && resp.body == None
  }

  /** `handleKeyRequest`. */
  method HandleKeyRequest(httpMethod: string, path: string,
                          body: Decoding<seq<(string, JsonValue)>>, store: StoreOracle)
    returns (resp: Response)
    ensures KeyRequestOutcome(httpMethod, path, body, store, resp)
  {
    resp := Response(None, None, []);
    match httpMethod {
      case "GET" =>
        var k := KeyOf(path);
        if k == "" {
          resp := WriteHeader(resp, StatusBadRequest);
        }
        var v := store.lookup(k);
        resp := resp.(calls := resp.calls + [GetCall(k)]);
        if v.None? {
          resp := WriteHeader(resp, StatusInternalServerError);
          return;
        }
        resp := WriteBody(resp, JObject(map[k := v.value]));
      case "POST" =>
        if body.Undecodable? {
          resp := WriteHeader(resp, StatusBadRequest);
          return;
        }
        var ok, calls := SetPairs(body.value, store);
        resp := resp.(calls := calls);
        if !ok {
          resp := WriteHeader(resp, StatusInternalServerError);
          return;
        }
      case "DELETE" =>
        var k := KeyOf(path);
        if k == "" {
          resp := WriteHeader(resp, StatusBadRequest);
          return;
        }
        resp := resp.(calls := resp.calls + [DeleteCall(k)]);
        if !store.deleteOk(k) {
          resp := WriteHeader(resp, StatusInternalServerError);
          return;
        }
        resp := resp.(calls := resp.calls + [DeleteCall(k)]);
      case _ =>
        resp := WriteHeader(resp, StatusMethodNotAllowed);
    }
  }

  /**
   `ServeHTTP`: paths starting with `/key` go to the key handler (this includes paths
   such as `/keys/x`); every other path gets 404 without touching the store.
   */
  method ServeHTTP(httpMethod: string, path: string,
                   body: Decoding<seq<(string, JsonValue)>>, store: StoreOracle)
    returns (resp: Response)
    ensures !HasPrefix(path, "/key") ==> Status(resp) == StatusNotFound && resp.calls == [] && resp.body == None
    ensures HasPrefix(path, "/key") ==> KeyRequestOutcome(httpMethod, path, body, store, resp)
  {
    if HasPrefix(path, "/key") {
      resp := HandleKeyRequest(httpMethod, path, body, store);
    } else {
      resp := WriteHeader(Response(None, None, []), StatusNotFound);
    }
  }
}
