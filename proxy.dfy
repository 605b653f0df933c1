/**
  The request-forwarding pipeline of the reverse proxy: the PROXYKEY gate,
  the path check, the outbound request with its rewritten headers, the
  bounded retry over transport failures, and the copy of the final
  response back to the caller.

  The network is an oracle: `oracle[i]` is what the HTTP client reports for
  the (i+1)-th outbound attempt, either a transport error or a response.
 */
module Proxy {
  import opened Wrappers
  import opened Headers
  import opened Route

  newtype byte = b: int | 0 <= b < 256

  /** The bytes of a text made of one-byte characters. */
  function Text(s: string): (b: seq<byte>)
    ensures |b| == |s|
  {
    seq(|s|, i requires 0 <= i < |s| => (s[i] as int % 256) as byte)
  }

  const ProxyKeyHeader := "PROXYKEY"
  const UserAgentHeader := "User-Agent"
  const UserAgentValue := "Mozilla/5.0 (Windows NT 10.0; Win64; x64)"
  const AcceptHeader := "Accept"
  const AcceptValue := "application/json"
  /** The identity header that is never forwarded. */
  const IdentityHeader := "Roblox-Id"

  /**
    The process configuration: `key` is the KEY variable (`None` when it is
    not set at all), `retries` the value `strconv.Atoi` gives for RETRIES
    (0 when it is unset or not a number, the saturated int bound when it is
    a number out of range).
   */
  datatype Config = Config(key: Option<string>, retries: int)

  /** A request as it reaches the proxy. */
  datatype Inbound = Inbound(verb: string, uri: string, headers: seq<Field>, body: seq<byte>)

  /** A request as the proxy sends it upstream. */
  datatype OutRequest = OutRequest(verb: string, url: string, headers: seq<Field>, body: seq<byte>)

  datatype Response = Response(status: int, headers: seq<Field>, body: seq<byte>)

  /** What the HTTP client reports for one attempt. */
  datatype Outcome = TransportError | Delivered(response: Response)

  /** The final response of one inbound request and every request sent upstream for it, in order. */
  datatype Exchange = Exchange(response: Response, sent: seq<OutRequest>)

  const Rejected := Response(407, [], Text("Missing or invalid PROXYKEY header."))
  const BadPath := Response(400, [], Text("URL format invalid. Expected /subdomain/path"))
  const Exhausted := Response(500, [], Text("Proxy failed to connect. Please try again."))

  /**
    The gate: when KEY is set, the PROXYKEY header must equal it exactly.
    A missing header reads as the empty string, so a KEY set to "" admits
    exactly the requests with no PROXYKEY or an empty one.
   */
  predicate Admitted(key: Option<string>, headers: seq<Field>)
    ensures key.None? ==> Admitted(key, headers)
    ensures key == Some("") ==>
      (Admitted(key, headers) <==> Lookup(headers, ProxyKeyHeader) in {None, Some("")})
    ensures key.Some? && key.value != "" ==>
      (Admitted(key, headers) <==> Lookup(headers, ProxyKeyHeader) == Some(key.value))
  {
    key.None? || Peek(headers, ProxyKeyHeader) == key.value
  }

  /**
    The request sent upstream: the inbound method and body, the target's
    URL, and the inbound headers copied one by one with `Set`, after which
    User-Agent and Accept are forced and Roblox-Id is deleted.
   */
  function Outbound(inbound: Inbound, t: Target): (out: OutRequest)
    ensures out.verb == inbound.verb && out.body == inbound.body
    ensures out.url == BuildURL(t)
    ensures Distinct(out.headers)
    ensures Lookup(out.headers, UserAgentHeader) == Some(UserAgentValue)
    ensures Lookup(out.headers, AcceptHeader) == Some(AcceptValue)
    ensures !HasKey(out.headers, IdentityHeader)
    ensures forall k :: k != UserAgentHeader && k != AcceptHeader && k != IdentityHeader ==>
      Lookup(out.headers, k) == LastValue(inbound.headers, k)
  {
    var copied := SetAll([], inbound.headers);
    var spoofed := SetField(SetField(copied, UserAgentHeader, UserAgentValue), AcceptHeader, AcceptValue);
    var headers := DelField(spoofed, IdentityHeader);
    SetAllDistinct([], inbound.headers);
    SetFieldDistinct(copied, UserAgentHeader, UserAgentValue);
    SetFieldDistinct(SetField(copied, UserAgentHeader, UserAgentValue), AcceptHeader, AcceptValue);
    DelFieldDistinct(spoofed, IdentityHeader);
    OutRequest(inbound.verb, BuildURL(t), headers, inbound.body)
  }

  /** Builds the outbound request on a fresh header block, step by step. */
  method BuildRequest(inbound: Inbound, t: Target) returns (req: OutRequest)
    ensures req == Outbound(inbound, t)
  {
    var h := new Header();
    h.SetEach(inbound.headers);
    h.Set(UserAgentHeader, UserAgentValue);
    h.Set(AcceptHeader, AcceptValue);
    h.Del(IdentityHeader);
    req := OutRequest(inbound.verb, BuildURL(t), h.fields, inbound.body);
  }

  /**
    The index of the first delivered outcome among `oracle[lo..hi]`, or `hi`
    when every one of them is a transport error.
   */
  function FirstDelivered(oracle: seq<Outcome>, lo: nat, hi: nat): (k: nat)
    requires lo <= hi <= |oracle|
    ensures lo <= k <= hi
    ensures forall i :: lo <= i < k ==> oracle[i].TransportError?
    ensures k < hi ==> oracle[k].Delivered?
    decreases hi - lo
  {
    if lo == hi then hi
    else if oracle[lo].Delivered? then lo
    else FirstDelivered(oracle, lo + 1, hi)
  }

  /** One past the oracle index of the last attempt allowed from `attempt` on. */
  function AttemptBound(retries: int, attempt: nat): nat
    requires attempt >= 1
  {
    if retries < attempt then attempt - 1 else retries
  }

  /**
    The retry: attempt number `attempt` gives up with the synthesized 500
    when it exceeds `retries`; otherwise it sends `out`, retries with the
    next number on a transport error, and returns any delivered response,
    whatever its status. So from attempt 1 at most `retries` requests are
    sent, all of them `out`, and none when `retries <= 0`.
   */
  function Forward(out: OutRequest, retries: int, oracle: seq<Outcome>, attempt: nat): (ex: Exchange)
    requires 1 <= attempt <= |oracle| + 1 && retries <= |oracle|
    ensures var hi := AttemptBound(retries, attempt);
      var k := FirstDelivered(oracle, attempt - 1, hi);
      && |ex.sent| == (if k < hi then k + 2 - attempt else hi + 1 - attempt)
      && (forall i :: 0 <= i < |ex.sent| ==> ex.sent[i] == out)
      && ex.response == (if k < hi then oracle[k].response else Exhausted)
    decreases retries - attempt + 1
  {
    if attempt > retries then Exchange(Exhausted, [])
    else
      match oracle[attempt - 1]
      case TransportError =>
        var rest := Forward(out, retries, oracle, attempt + 1);
        Exchange(rest.response, [out] + rest.sent)
      case Delivered(resp) => Exchange(resp, [out])
  }

  /**
    The whole decision for one inbound request: the gate, then the path,
    then the retry from attempt 1 with the rewritten request. Needs a URI of
    at least one character and an outcome for every attempt `retries` allows.
   */
  function Serve(cfg: Config, inbound: Inbound, oracle: seq<Outcome>): (ex: Exchange)
    requires |inbound.uri| >= 1 && cfg.retries <= |oracle|
    ensures |ex.sent| <= if cfg.retries <= 0 then 0 else cfg.retries
    ensures ex.sent != [] ==> Admitted(cfg.key, inbound.headers) && ParseTarget(inbound.uri).Some?
    ensures ex.sent != [] ==>
      forall i :: 0 <= i < |ex.sent| ==> ex.sent[i] == Outbound(inbound, ParseTarget(inbound.uri).value)
    ensures ex.response in {Rejected, BadPath, Exhausted} || (exists i :: 0 <= i < |oracle| && oracle[i] == Delivered(ex.response))
  {
    if !Admitted(cfg.key, inbound.headers) then Exchange(Rejected, [])
    else
      match ParseTarget(inbound.uri)
      case None => Exchange(BadPath, [])
      case Some(t) => Forward(Outbound(inbound, t), cfg.retries, oracle, 1)
  }

  /** The number of requests sent upstream once the gate and the path check pass. */
  lemma ServeAttempts(cfg: Config, inbound: Inbound, oracle: seq<Outcome>)
    requires |inbound.uri| >= 1 && cfg.retries <= |oracle|
    requires Admitted(cfg.key, inbound.headers) && ParseTarget(inbound.uri).Some?
    ensures var ex := Serve(cfg, inbound, oracle);
      var n := if cfg.retries <= 0 then 0 else cfg.retries;
      var k := FirstDelivered(oracle, 0, n);
      && |ex.sent| == (if k < n then k + 1 else n)
      && ex.response == (if k < n then oracle[k].response else Exhausted)
  {
    var t := ParseTarget(inbound.uri).value;
    var ex := Forward(Outbound(inbound, t), cfg.retries, oracle, 1);
    assert AttemptBound(cfg.retries, 1) == if cfg.retries <= 0 then 0 else cfg.retries;
  }

  /**
    The gate rejects with 407 and sends nothing exactly when KEY is set and
    PROXYKEY differs from it.
   */
  lemma ServeRejects(cfg: Config, inbound: Inbound, oracle: seq<Outcome>)
    requires |inbound.uri| >= 1 && cfg.retries <= |oracle|
    ensures var ex := Serve(cfg, inbound, oracle);
      (ex.response == Rejected && ex.sent == []) <==>
      (cfg.key.Some? && Peek(inbound.headers, ProxyKeyHeader) != cfg.key.value)
  {
    if Admitted(cfg.key, inbound.headers) && ParseTarget(inbound.uri).Some? {
      ServeAttempts(cfg, inbound, oracle);
    }
  }

  /**
    An admitted request whose URI has no `/` after its first character gets
    400 and sends nothing; no other request gets that answer with nothing sent.
   */
  lemma ServeBadPath(cfg: Config, inbound: Inbound, oracle: seq<Outcome>)
    requires |inbound.uri| >= 1 && cfg.retries <= |oracle|
    ensures var ex := Serve(cfg, inbound, oracle);
      (ex.response == BadPath && ex.sent == []) <==>
      (Admitted(cfg.key, inbound.headers) && '/' !in inbound.uri[1..])
  {
    if Admitted(cfg.key, inbound.headers) && ParseTarget(inbound.uri).Some? {
      ServeAttempts(cfg, inbound, oracle);
    }
  }

  /**
    Every request sent upstream is the same rewritten request: the inbound
    method and body, the URL built from the parsed target, the forced
    User-Agent and Accept, no Roblox-Id, and every other inbound header with
    its last inbound value.
   */
  lemma ServeSendsRewritten(cfg: Config, inbound: Inbound, oracle: seq<Outcome>, i: nat)
    requires |inbound.uri| >= 1 && cfg.retries <= |oracle|
    requires i < |Serve(cfg, inbound, oracle).sent|
    ensures ParseTarget(inbound.uri).Some?
    ensures var out := Serve(cfg, inbound, oracle).sent[i];
      && out == Outbound(inbound, ParseTarget(inbound.uri).value)
      && out.verb == inbound.verb && out.body == inbound.body
      && out.url == BuildURL(ParseTarget(inbound.uri).value)
      && Lookup(out.headers, UserAgentHeader) == Some(UserAgentValue)
      && Lookup(out.headers, AcceptHeader) == Some(AcceptValue)
      && !HasKey(out.headers, IdentityHeader)
  {
  }

  /**
    When every allowed attempt fails in transport, the caller gets the
    synthesized 500 after exactly `retries` attempts (none if `retries <= 0`).
   */
  lemma ServeExhausted(cfg: Config, inbound: Inbound, oracle: seq<Outcome>)
    requires |inbound.uri| >= 1 && cfg.retries <= |oracle|
    requires Admitted(cfg.key, inbound.headers) && ParseTarget(inbound.uri).Some?
    requires forall i :: 0 <= i < cfg.retries ==> oracle[i].TransportError?
    ensures Serve(cfg, inbound, oracle).response == Exhausted
    ensures |Serve(cfg, inbound, oracle).sent| == if cfg.retries <= 0 then 0 else cfg.retries
  {
    ServeAttempts(cfg, inbound, oracle);
  }

  /**
    The first attempt that gets any response, 4xx and 5xx included, ends
    the retry: the caller gets that response and nothing more is sent.
   */
  lemma ServeFirstResponse(cfg: Config, inbound: Inbound, oracle: seq<Outcome>, k: nat)
    requires |inbound.uri| >= 1 && cfg.retries <= |oracle|
    requires Admitted(cfg.key, inbound.headers) && ParseTarget(inbound.uri).Some?
    requires k < cfg.retries && oracle[k].Delivered?
    requires forall i :: 0 <= i < k ==> oracle[i].TransportError?
    ensures Serve(cfg, inbound, oracle).response == oracle[k].response
    ensures |Serve(cfg, inbound, oracle).sent| == k + 1
  {
    ServeAttempts(cfg, inbound, oracle);
    var j := FirstDelivered(oracle, 0, cfg.retries);
    assert j <= k;
    assert j == k;
  }

  /** `GET /users/v1/users/1` with KEY unset goes to the users subdomain and returns the upstream answer. */
  lemma ExampleForward(inbound: Inbound, resp: Response)
    requires inbound.verb == "GET" && inbound.uri == "/users/v1/users/1"
    ensures var ex := Serve(Config(None, 3), inbound, [Delivered(resp), TransportError, TransportError]);
      && ex.response == resp
      && |ex.sent| == 1
      && ex.sent[0].verb == "GET"
      && ex.sent[0].url == "https://users.roblox.com/v1/users/1"
  {
    var cfg := Config(None, 3);
    var oracle := [Delivered(resp), TransportError, TransportError];
    ExampleUsers(inbound.uri);
    ExampleUsersURL(Target("users", "v1/users/1"));
    ServeFirstResponse(cfg, inbound, oracle, 0);
    ServeSendsRewritten(cfg, inbound, oracle, 0);
  }

  /** With RETRIES=3 and three transport failures the proxy answers 500 after three attempts. */
  lemma ExampleExhausted(inbound: Inbound)
    requires inbound.uri == "/users/v1"
    ensures var ex := Serve(Config(None, 3), inbound, [TransportError, TransportError, TransportError]);
      ex.response == Exhausted && |ex.sent| == 3
  {
    var t := Target("users", "v1");
    assert inbound.uri == [inbound.uri[0]] + t.subdomain + "/" + t.path;
    ParseTargetJoin(inbound.uri[0], t);
    ServeExhausted(Config(None, 3), inbound, [TransportError, TransportError, TransportError]);
  }

  /** With KEY=secret, a request without PROXYKEY gets 407 and nothing is sent. */
  lemma ExampleMissingKey(inbound: Inbound, oracle: seq<Outcome>)
    requires |inbound.uri| >= 1 && |oracle| >= 3
    requires !HasKey(inbound.headers, ProxyKeyHeader)
    ensures Serve(Config(Some("secret"), 3), inbound, oracle) == Exchange(Rejected, [])
  {
    assert Peek(inbound.headers, ProxyKeyHeader) == "";
  }

  /**
    The handler's view of one inbound request: the request, and the response
    being filled in for the caller (status, body and header block).
   */
  class RequestCtx {
    const request: Inbound
    var status: int
    var body: seq<byte>
    const header: Header

    ghost predicate Valid()
      reads this, header
    {
      header.Valid()
    }

    /** A fresh context answers 200 with an empty body and no headers until the handler sets them. */
    constructor (request: Inbound)
      ensures Valid() && fresh(header)
      ensures this.request == request && status == 200 && body == [] && header.fields == []
    {
      this.request := request;
      status := 200;
      body := [];
      header := new Header();
    }

    /**
      Copies a response to the caller: its status and body replace the
      context's, and its headers are set one by one onto the context's block.
     */
    method Mirror(resp: Response)
      requires Valid()
      modifies this, header
      ensures Valid()
      ensures status == resp.status && body == resp.body
      ensures header.fields == SetAll(old(header.fields), resp.headers)
    {
      status := resp.status;
      body := resp.body;
      header.SetEach(resp.headers);
    }

    /**
      Handles the request: the 407 and 400 answers set status and body only;
      otherwise the response that ends the retry is mirrored. Returns the
      requests sent upstream.
     */
    method Handle(cfg: Config, oracle: seq<Outcome>) returns (sent: seq<OutRequest>)
      requires Valid() && |request.uri| >= 1 && cfg.retries <= |oracle|
      modifies this, header
      ensures Valid()
      ensures var ex := Serve(cfg, request, oracle);
        && sent == ex.sent
        && status == ex.response.status && body == ex.response.body
        && header.fields == SetAll(old(header.fields), ex.response.headers)
    {
      if !Admitted(cfg.key, request.headers) {
        status := 407;
        body := Rejected.body;
        sent := [];
        return;
      }
      var target := ParseTarget(request.uri);
      if target.None? {
        status := 400;
        body := BadPath.body;
        sent := [];
        return;
      }
      var out := BuildRequest(request, target.value);
      var ex := Forward(out, cfg.retries, oracle, 1);
      Mirror(ex.response);
      sent := ex.sent;
    }
  }
}
