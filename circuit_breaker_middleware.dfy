/**
 * The HTTP middleware of common/middleware/circuit_breaker_middleware.go:
 * it names the target service from the request path, looks up that
 * service's breaker, captures what the next handler writes, decides from it
 * whether the call succeeded, and reports that to the breaker.
 */
module BreakerMiddleware {
  import opened Wrappers
  import opened Breaker

  newtype uint32 = x: int | 0 <= x < 0x1_0000_0000

  const StatusOK: int := 200
  const ServiceSuffix: string := "_service"
  const DefaultService: string := "default_service"

  // ---------------------------------------------------------------------
  // Service names
  // ---------------------------------------------------------------------

  /** strings.TrimPrefix(s, "/"): drop one leading slash, if any. */
  function TrimSlash(s: string): string {
    if |s| > 0 && s[0] == '/' then s[1..] else s
  }

  /**
   * strings.Split(s, [sep]): the pieces between separators. The first piece
   * is the text before the first separator (all of `s` when there is none).
   */
  function Split(s: string, sep: char): (parts: seq<string>)
    ensures |parts| >= 1
    ensures forall i :: 0 <= i < |parts| ==> sep !in parts[i]
    ensures parts[0] <= s && (|parts[0]| == |s| || s[|parts[0]|] == sep)
    decreases |s|
  {
    if s == [] then [[]]
    else
      var rest := Split(s[1..], sep);
      if s[0] == sep then [[]] + rest
      else [[s[0]] + rest[0]] + rest[1..]
  }

  /** strings.Join(parts, [sep]). */
  function Join(parts: seq<string>, sep: char): string
    requires |parts| >= 1
    decreases |parts|
  {
    if |parts| == 1 then parts[0] else parts[0] + [sep] + Join(parts[1..], sep)
  }

  /** Joining the pieces back with the separator gives the original string. */
  lemma {:induction false} JoinSplit(s: string, sep: char)
    ensures Join(Split(s, sep), sep) == s
    decreases |s|
  {
    if s != [] {
      var rest := Split(s[1..], sep);
      JoinSplit(s[1..], sep);
      if s[0] == sep {
        assert Split(s, sep)[1..] == rest;
      } else {
        var parts := Split(s, sep);
        if |rest| == 1 {
          assert parts == [[s[0]] + rest[0]];
        } else {
          assert parts[1..] == rest[1..];
          assert Join(rest, sep) == rest[0] + [sep] + Join(rest[1..], sep);
        }
      }
    }
  }

  /** Splitting a piece followed by a separator yields that piece, then the split of the remainder. */
  lemma {:induction false} SplitAfterPiece(p: string, sep: char, x: string)
    requires sep !in p
    ensures Split(p + [sep] + x, sep) == [p] + Split(x, sep)
    decreases |p|
  {
    var q := p + [sep] + x;
    if p == [] {
      assert q == [sep] + x;
      assert q[1..] == x;
      assert q[0] == sep;
    } else {
      assert q[0] == p[0] && p[0] != sep;
      assert q[1..] == p[1..] + [sep] + x;
      SplitAfterPiece(p[1..], sep, x);
      var rest := Split(q[1..], sep);
      assert rest == [p[1..]] + Split(x, sep);
      assert Split(q, sep) == [[q[0]] + rest[0]] + rest[1..];
      assert [p[0]] + p[1..] == p;
    }
  }

  /** A string without the separator splits into itself alone. */
  lemma {:induction false} SplitWhole(p: string, sep: char)
    requires sep !in p
    ensures Split(p, sep) == [p]
    decreases |p|
  {
    if p != [] {
      SplitWhole(p[1..], sep);
      assert [p[0]] + p[1..] == p;
    }
  }

  /** Splitting a join of separator-free pieces gives the pieces back. */
  lemma {:induction false} SplitJoin(parts: seq<string>, sep: char)
    requires |parts| >= 1
    requires forall i :: 0 <= i < |parts| ==> sep !in parts[i]
    ensures Split(Join(parts, sep), sep) == parts
    decreases |parts|
  {
    if |parts| == 1 {
      SplitWhole(parts[0], sep);
    } else {
      SplitJoin(parts[1..], sep);
      SplitAfterPiece(parts[0], sep, Join(parts[1..], sep));
      assert [parts[0]] + parts[1..] == parts;
    }
  }

  /**
   * getServiceName: "default_service" for a path of at most one character;
   * otherwise the first path segment after one leading slash, plus "_service".
   */
  function ServiceName(path: string): (r: string)
    ensures |path| <= 1 ==> r == DefaultService
    ensures |r| >= |ServiceSuffix| && r[|r| - |ServiceSuffix|..] == ServiceSuffix
    ensures |path| > 1 ==>
      var t := TrimSlash(path);
      var seg := r[..|r| - |ServiceSuffix|];
      '/' !in seg && seg <= t && (|seg| == |t| || t[|seg|] == '/')
  {
    if |path| > 1 then
      var parts := Split(TrimSlash(path), '/');
      parts[0] + ServiceSuffix
    else
      DefaultService
  }

  /** The guard `len(parts) > 0` in getServiceName never fails. */
  lemma SplitNeverEmpty(path: string)
    ensures |Split(TrimSlash(path), '/')| > 0
  {
  }

  /** A path "/<seg>/<rest>" with a slash-free first segment names "<seg>_service". */
  lemma FirstSegmentNames(seg: string, rest: string)
    requires '/' !in seg
    ensures ServiceName(['/'] + seg + ['/'] + rest) == seg + ServiceSuffix
  {
    var path := ['/'] + seg + ['/'] + rest;
    assert TrimSlash(path) == seg + ['/'] + rest;
    SplitAfterPiece(seg, '/', rest);
  }

  /** The worked example of the source comment: "/user/info" names "user_service". */
  lemma UserInfoExample(path: string)
    requires path == "/user/info"
    ensures ServiceName(path) == "user_service"
  {
    assert path == ['/'] + "user" + ['/'] + "info";
    FirstSegmentNames("user", "info");
  }

  /** The gateway's registered route "/index" names "index_service". */
  lemma IndexExample()
    ensures ServiceName("/index") == "index_service"
  {
    var t := TrimSlash("/index");
    assert t == "index";
    SplitWhole("index", '/');
    assert "index" + ServiceSuffix == "index_service";
  }

  // ---------------------------------------------------------------------
  // Breaker registry
  // ---------------------------------------------------------------------

  /** The breaker for a service: its own entry, else the default entry, else none. */
  function Resolve<B(==)>(cbs: map<string, B>, service: string): (r: Option<B>)
    ensures r.Some? <==> service in cbs || DefaultService in cbs
    ensures r.Some? ==> r.value in cbs.Values
    ensures service in cbs ==> r == Some(cbs[service])
    ensures service !in cbs && DefaultService in cbs ==> r == Some(cbs[DefaultService])
  {
    if service in cbs then Some(cbs[service])
    else if DefaultService in cbs then Some(cbs[DefaultService])
    else None
  }

  // ---------------------------------------------------------------------
  // The response-writer wrapper
  // ---------------------------------------------------------------------

  /** One call the next handler makes on the response writer. */
  datatype WriterCall = WriteHeaderCall(code: int) | WriteCall(data: seq<bv8>)

  /** The status the wrapper holds after the calls: the last WriteHeader, 200 without one. */
  function FinalStatus(calls: seq<WriterCall>): int
    decreases |calls|
  {
    if calls == [] then StatusOK
    else if calls[|calls| - 1].WriteHeaderCall? then calls[|calls| - 1].code
    else FinalStatus(calls[..|calls| - 1])
  }

  /** The body the wrapper holds after the calls: every Write argument, in order. */
  function Captured(calls: seq<WriterCall>): seq<bv8>
    decreases |calls|
  {
    if calls == [] then []
    else
      var last := calls[|calls| - 1];
      Captured(calls[..|calls| - 1]) + (if last.WriteCall? then last.data else [])
  }

  /** The captured body of two call sequences in a row is the two bodies in a row. */
  lemma {:induction false} CapturedAppend(a: seq<WriterCall>, b: seq<WriterCall>)
    ensures Captured(a + b) == Captured(a) + Captured(b)
    decreases |b|
  {
    if b == [] {
      assert a + b == a;
    } else {
      var init := b[..|b| - 1];
      CapturedAppend(a, init);
      assert (a + b)[..|a + b| - 1] == a + init;
    }
  }

  /** Without any WriteHeader call the status stays 200. */
  lemma {:induction false} NoHeaderKeepsOK(calls: seq<WriterCall>)
    requires forall i :: 0 <= i < |calls| ==> calls[i].WriteCall?
    ensures FinalStatus(calls) == StatusOK
    decreases |calls|
  {
    if calls != [] {
      var init := calls[..|calls| - 1];
      assert forall i :: 0 <= i < |init| ==> init[i] == calls[i];
      NoHeaderKeepsOK(init);
    }
  }

  /** The last WriteHeader call decides the status. */
  lemma {:induction false} LastHeaderWins(calls: seq<WriterCall>, j: nat)
    requires j < |calls| && calls[j].WriteHeaderCall?
    requires forall i :: j < i < |calls| ==> calls[i].WriteCall?
    ensures FinalStatus(calls) == calls[j].code
    decreases |calls|
  {
    if j < |calls| - 1 {
      var init := calls[..|calls| - 1];
      assert forall i :: j < i < |init| ==> init[i] == calls[i];
      LastHeaderWins(init, j);
    }
  }

  /** responseWriterWrapper; forwarding to the wrapped writer is not modelled. */
  class ResponseWriterWrapper {
    var statusCode: int
    var body: seq<bv8>

    constructor ()
      ensures statusCode == StatusOK && body == []
    {
      statusCode := StatusOK;
      body := [];
    }

    method WriteHeader(statusCode: int)
      modifies this
      ensures this.statusCode == statusCode && body == old(body)
    {
      this.statusCode := statusCode;
    }

    method Write(b: seq<bv8>)
      modifies this
      ensures body == old(body) + b && statusCode == old(statusCode)
    {
      body := body + b;
    }
  }

  /** The next handler, acting on the wrapper through the calls it makes. */
  method RunHandler(w: ResponseWriterWrapper, calls: seq<WriterCall>)
    modifies w
    requires w.statusCode == StatusOK && w.body == []
    ensures w.statusCode == FinalStatus(calls) && w.body == Captured(calls)
  {
    var i := 0;
    while i < |calls|
      invariant 0 <= i <= |calls|
      invariant w.statusCode == FinalStatus(calls[..i]) && w.body == Captured(calls[..i])
    {
      assert calls[..i + 1][..i] == calls[..i];
      match calls[i] {
        case WriteHeaderCall(code) => w.WriteHeader(code);
        case WriteCall(data) => w.Write(data);
      }
      i := i + 1;
    }
    assert calls[..|calls|] == calls;
  }

  // ---------------------------------------------------------------------
  // Outcome classification
  // ---------------------------------------------------------------------

  /** What json.Unmarshal makes of a body, seen only through its `status` field. */
  datatype JsonBody = NotJson | JsonObject(status: Option<uint32>)

  /** The decoded status: absent when decoding failed, 0 (Go's zero value) when the field is missing. */
  function DecodedStatus(j: JsonBody): (r: Option<uint32>)
    ensures r.None? <==> j.NotJson?
    ensures j.JsonObject? && j.status.None? ==> r == Some(0)
    ensures j.JsonObject? && j.status.Some? ==> r == j.status
  {
    match j
    case NotJson => None
    case JsonObject(st) => Some(st.GetOr(0))
  }

  /**
   * When a captured response counts as a success: 200 from the handler and,
   * when the body is non-empty and decodes, a payload status of 200.
   */
  predicate Successful(statusCode: int, body: seq<bv8>, decode: seq<bv8> -> JsonBody) {
    statusCode == StatusOK
    && (|body| == 0 || DecodedStatus(decode(body)).None? || DecodedStatus(decode(body)) == Some(200))
  }

  /** The middleware's success flag, set through the source's branches. */
  method ClassifyOutcome(statusCode: int, body: seq<bv8>, decode: seq<bv8> -> JsonBody) returns (success: bool)
    ensures success == Successful(statusCode, body, decode)
  {
    success := true;
    if statusCode != StatusOK {
      success := false;
    } else if |body| > 0 {
      var parsed := DecodedStatus(decode(body));
      if parsed.Some? {
        if parsed.value != 200 {
          success := false;
        }
      }
    }
  }

  /** A decodable body without a `status` field makes a 200 response count as a failure. */
  lemma MissingStatusIsFailure(body: seq<bv8>, decode: seq<bv8> -> JsonBody)
    requires |body| > 0 && decode(body) == JsonObject(None)
    ensures !Successful(StatusOK, body, decode)
  {
  }

  // ---------------------------------------------------------------------
  // The middleware
  // ---------------------------------------------------------------------

  /** What the middleware did with a request. */
  datatype Reply =
    | PassedThrough          // no breaker configured: next ran, nothing recorded
    | CircuitOpen            // the breaker denied: ErrCircuitBreakerOpen, next did not run
    | Served(success: bool)  // next ran and one result was recorded

  /**
   * One request through CircuitBreakerMiddleware. `calls` are the writer calls
   * the next handler makes, `decode` stands for json.Unmarshal, `admitAt` and
   * `doneAt` are the clock at the admission check and after the handler.
   */
  method Serve(cbs: map<string, CircuitBreaker>, path: string, calls: seq<WriterCall>,
               decode: seq<bv8> -> JsonBody, admitAt: int, doneAt: int)
    returns (r: Reply)
    modifies cbs.Values
    ensures var b := Resolve(cbs, ServiceName(path));
      if b.None? then
        r == PassedThrough
      else
        var cb := b.value;
        var adm := AllowStep(cb.name, old(cb.Cfg()), old(cb.Snap()), admitAt);
        cb.Cfg() == old(cb.Cfg())
        && (!adm.allowed ==> r == CircuitOpen && cb.Snap() == adm.after)
        && (adm.allowed ==>
              r == Served(Successful(FinalStatus(calls), Captured(calls), decode))
              && cb.Snap() == RecordStep(cb.name, old(cb.Cfg()), adm.after, r.success, doneAt)
              && Get(cb.store, TotalKey(cb.name)) == Get(adm.after.store, TotalKey(cb.name)) + 1)
    ensures forall c :: c in cbs.Values && Resolve(cbs, ServiceName(path)) != Some(c) ==>
      c.Snap() == old(c.Snap()) && c.Cfg() == old(c.Cfg())
  {
    var serviceName := ServiceName(path);
    var found := Resolve(cbs, serviceName);
    if found.None? {
      return PassedThrough;
    }
    var cb := found.value;
    var ok := cb.AllowRequest(admitAt);
    if !ok {
      return CircuitOpen;
    }
    var wrapper := new ResponseWriterWrapper();
    RunHandler(wrapper, calls);
    var success := ClassifyOutcome(wrapper.statusCode, wrapper.body, decode);
    cb.RecordResult(success, doneAt);
    r := Served(success);
  }
}
