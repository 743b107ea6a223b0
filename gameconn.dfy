/**
 * The session connector of src/gameConn.js: class `Remote`, which keeps the
 * identity of one player, two bitmask status objects (which login steps the
 * chosen login variant requires, and which steps have completed), the
 * original and the working server configuration, and drives the login
 * protocol (OpenId exchange, load balancing, two-stage signature, token)
 * over HTTP.
 */
module GameConn {
  import opened Json
  import opened Indicator
  import opened Util
  import opened Rpc

  // ------------------------------------------------------------- network

  function Head(rs: seq<Reply>): Reply {
    if rs == [] then NoAnswer else rs[0]
  }

  function Rest(rs: seq<Reply>): seq<Reply> {
    if rs == [] then [] else rs[1..]
  }

  /** `get(url)`: a failed fetch is not caught and propagates. */
  function GetOutcome(rs: seq<Reply>): Ret<Value> {
    match Head(rs)
    case Answer(v) => Ok(v)
    case NoAnswer => Throw(TransportFailure)
  }

  /** `post(url, body)`: a failed fetch is caught, logged, and yields undefined. */
  function PostOutcome(rs: seq<Reply>): Value {
    match Head(rs)
    case Answer(v) => v
    case NoAnswer => Undefined
  }

  /**
   * The HTTP executor seen from the connector: every request is logged in
   * `sent` by its target (the URL it goes to is `Rpc.Url` of the request),
   * and each one consumes the next scripted reply (none left: the fetch
   * fails).
   */
  class Http {
    var sent: seq<Request>
    var replies: seq<Reply>

    constructor (script: seq<Reply>)
      ensures sent == [] && replies == script
    {
      sent := [];
      replies := script;
    }

    method Get(t: Target) returns (r: Ret<Value>)
      modifies this
      ensures sent == old(sent) + [GetReq(t)] && replies == Rest(old(replies))
      ensures r == GetOutcome(old(replies))
    {
      r := GetOutcome(replies);
      sent := sent + [GetReq(t)];
      replies := Rest(replies);
    }

    method Post(t: Target, body: Value) returns (r: Value)
      modifies this
      ensures sent == old(sent) + [PostReq(t, body)] && replies == Rest(old(replies))
      ensures r == PostOutcome(old(replies))
    {
      r := PostOutcome(replies);
      sent := sent + [PostReq(t, body)];
      replies := Rest(replies);
    }
  }

  // -------------------------------------------------------- login steps

  /** The protocol steps, in the order `login` runs them. */
  datatype Step = OpenIdStep | LbStep | SignStep | TokenStep

  function Rank(s: Step): nat {
    match s
    case OpenIdStep => 0
    case LbStep => 1
    case SignStep => 2
    case TokenStep => 3
  }

  /** Steps in strictly increasing protocol order (so none is repeated). */
  ghost predicate InOrder(t: seq<Step>) {
    forall i, j :: 0 <= i < j < |t| ==> Rank(t[i]) < Rank(t[j])
  }

  /** `Indicator.inst(options.status)`: a non-negative integer seeds the mask, anything else gives 0. */
  function StatusSeed(options: Value): nat {
    var s := Field(options, "status");
    if s.Num? && s.n >= 0 then s.n else 0
  }

  /** The parameters of the OpenId exchange request. */
  function OpenIdParams(configOri: Value, user: Props): Props {
    Props(["port", "openkey"],
          map["port" := Field(WebServer(configOri), "authPort"), "openkey" := user.Get("openkey")])
  }

  /** The parameters of the signature request. */
  function SignParams(user: Props): Props {
    Props(["openid", "addrType", "address"],
          map["openid" := user.Get("openid"), "addrType" := user.Get("addrType"),
              "address" := user.Get("address")])
  }

  /** The gateway parameters are a well-formed object without `func`. */
  lemma GatewayParamsShape(configOri: Value, user: Props)
    ensures OpenIdParams(configOri, user).Valid() && !Truthy(OpenIdParams(configOri, user).Get("func"))
    ensures SignParams(user).Valid() && !Truthy(SignParams(user).Get("func"))
  {
  }

  /** The command of the load-balancing request, 'config.getServerInfo'. */
  const LbControl: string := "config"
  const LbFunc: string := "getServerInfo"

  /** The parameters of the load-balancing request, before `parseParams`. */
  function LbParams(user: Props): Props {
    Props(["func", "oemInfo"],
          map["func" := Str(LbControl + "." + LbFunc),
              "oemInfo" := Obj(map["domain" := user.Get("domain"), "openid" := user.Get("openid")])])
  }

  /** The command of the token request. */
  const TokenCommand: string := "1000"

  /** The parameters of the token request. */
  function TokenParams(user: Value): Props {
    Props(["func", "oemInfo"], map["func" := Str(TokenCommand), "oemInfo" := user])
  }

  /** The parameters `parseParams` leaves (unchanged when it fails). */
  function Parsed(p: Props, user: Value): Props
    requires p.Valid()
  {
    var r := ParseSpec(p, user);
    if r.Some? then r.value else p
  }

  /**
   * What `parseParams` makes of gateway parameters, which carry no `func`:
   * the default command 'index.login' split into `func` and `control`, then
   * the identity as `oemInfo`, the three keys appended in that order.
   */
  function GatewayWire(p: Props, user: Value): Props {
    Props(p.keys + ["func", "control", "oemInfo"],
          p.fields["func" := Str(DefaultFunc)]["control" := Str(DefaultControl)]["oemInfo" := user])
  }

  /**
   * What `parseParams` makes of the load-balancing parameters:
   * `config.getServerInfo` split into `control` (a new, last key) and `func`,
   * and the whole identity as `oemInfo` in place of the domain and openid.
   */
  function LbWire(user: Props): Props {
    Props(["func", "oemInfo", "control"],
          map["func" := Str(LbFunc), "oemInfo" := user.ToValue(), "control" := Str(LbControl)])
  }

  /** `parseParams` on parameters without `func`: 'index.login' split into `func` and `control`, then `oemInfo`. */
  lemma DefaultParse(p: Props, user: Value)
    requires p.Valid() && !Truthy(p.Get("func"))
    ensures ParseSpec(p, user) ==
      Some(p.Put("func", Str(DefaultCommand)).Put("control", Str(DefaultControl)).Put("func", Str(DefaultFunc)).Put("oemInfo", user))
  {
    DefaultCommandPieces();
  }

  /** Those writes, on parameters without `func`, `control` or `oemInfo`, append the three keys in that order. */
  lemma DefaultWrites(p: Props, user: Value)
    requires p.Valid() && "func" !in p.fields && "control" !in p.fields && "oemInfo" !in p.fields
    ensures p.Put("func", Str(DefaultCommand)).Put("control", Str(DefaultControl)).Put("func", Str(DefaultFunc)).Put("oemInfo", user) ==
      GatewayWire(p, user)
  {
    var p1 := p.Put("func", Str(DefaultCommand));
    var p2 := p1.Put("control", Str(DefaultControl));
    assert "func" in p2.fields;
    var p3 := p2.Put("func", Str(DefaultFunc));
    assert p3.keys == p.keys + ["func"] + ["control"];
    assert p3.fields == p.fields["func" := Str(DefaultFunc)]["control" := Str(DefaultControl)];
    assert "oemInfo" !in p3.fields;
    AppendThree(p.keys, "func", "control", "oemInfo");
  }

  /** `parseParams` on parameters without `func`, `control` or `oemInfo` gives `GatewayWire`. */
  lemma GatewayParsed(p: Props, user: Value)
    requires p.Valid() && "func" !in p.fields && "control" !in p.fields && "oemInfo" !in p.fields
    ensures Parsed(p, user) == GatewayWire(p, user)
  {
    DefaultParse(p, user);
    DefaultWrites(p, user);
  }

  /** The key-exchange request carries its parameters as `GatewayWire` makes them. */
  lemma OpenIdParamsParsed(configOri: Value, user: Props)
    requires user.Valid()
    ensures OpenIdParams(configOri, user).Valid()
    ensures Parsed(OpenIdParams(configOri, user), user.ToValue()) == GatewayWire(OpenIdParams(configOri, user), user.ToValue())
  {
    GatewayParamsShape(configOri, user);
    GatewayParsed(OpenIdParams(configOri, user), user.ToValue());
  }

  /** The signature request carries its parameters as `GatewayWire` makes them. */
  lemma SignParamsParsed(user: Props)
    requires user.Valid()
    ensures SignParams(user).Valid()
    ensures Parsed(SignParams(user), user.ToValue()) == GatewayWire(SignParams(user), user.ToValue())
  {
    GatewayParamsShape(Undefined, user);
    GatewayParsed(SignParams(user), user.ToValue());
  }

  /** `parseParams` on a `func` of the form 'a.b': `control` becomes a, `func` b, then `oemInfo` is written. */
  lemma DottedParse(p: Props, user: Value, a: string, b: string)
    requires p.Valid() && p.Get("func") == Str(a + "." + b) && '.' !in a && '.' !in b
    ensures ParseSpec(p, user) ==
      Some(p.Put("func", p.Get("func")).Put("control", Str(a)).Put("func", Str(b)).Put("oemInfo", user))
  {
    assert a + "." + b + "" == a + "." + b;
    FirstTwoPieces(a, b, "");
    var f0 := p.Get("func");
    assert |f0.s| > 0 && Truthy(f0);
    var parts := Split(f0.s, '.');
    var p1 := p.Put("func", f0);
    assert ApplyPieces(p1, parts) == p1.Put("control", Str(a)).Put("func", Str(b));
  }

  /** `parseParams` on the load-balancing parameters splits `config.getServerInfo` and rewrites `oemInfo`. */
  lemma LbParse(user: Props)
    ensures var p := LbParams(user);
      p.Valid() &&
      ParseSpec(p, user.ToValue()) ==
        Some(p.Put("func", p.Get("func")).Put("control", Str(LbControl)).Put("func", Str(LbFunc)).Put("oemInfo", user.ToValue()))
  {
    DottedParse(LbParams(user), user.ToValue(), LbControl, LbFunc);
  }

  /** Those writes keep `func` and `oemInfo` in place and append `control`. */
  lemma LbWrites(user: Props)
    ensures var p := LbParams(user);
      p.Valid() &&
      p.Put("func", p.Get("func")).Put("control", Str(LbControl)).Put("func", Str(LbFunc)).Put("oemInfo", user.ToValue()) ==
        LbWire(user)
  {
    var p := LbParams(user);
    var p1 := p.Put("func", p.Get("func"));
    assert p1.keys == ["func", "oemInfo"];
    var p2 := p1.Put("control", Str(LbControl));
    assert p2.keys == ["func", "oemInfo", "control"];
    var p3 := p2.Put("func", Str(LbFunc)).Put("oemInfo", user.ToValue());
    assert p3.keys == ["func", "oemInfo", "control"];
  }

  /**
   * The load-balancing request carries exactly `LbWire`: it goes out as
   * `config.getServerInfo`, with the whole identity as `oemInfo`.
   */
  lemma LbWireParams(user: Props)
    ensures Parsed(LbParams(user), user.ToValue()) == LbWire(user)
  {
    LbParse(user);
    LbWrites(user);
  }

  /** The token parameters are already in the form `parseParams` produces. */
  lemma TokenParamsParsed(user: Value)
    ensures ParseSpec(TokenParams(user), user) == Some(TokenParams(user))
  {
    ParseFixedPoint(TokenParams(user), user, TokenCommand);
  }

  /** `msg.code == ReturnCode.Success` on a truthy reply. */
  predicate Succeeded(msg: Value) {
    Truthy(msg) && LooseEqualsZero(Field(msg, "code"))
  }

  /** The token reply that logs in: a truthy, successful reply with truthy `data`. */
  predicate TokenAccepted(msg: Value) {
    Succeeded(msg) && Truthy(Field(msg, "data"))
  }

  /** What the token request returns in a transport mode: the GET or POST outcome, or a rejection. */
  function Dispatched(mode: string, rs: seq<Reply>): Ret<Value> {
    if mode == MODE_GET then GetOutcome(rs)
    else if mode == MODE_POST then Ok(PostOutcome(rs))
    else Throw(Rejected)
  }

  /** The request `fetching` puts on the wire in a transport mode (none for an unsupported mode). */
  function Outgoing(mode: string, config: Value, p: Props): seq<Request> {
    if mode == MODE_GET then [GetReq(Target(config, p, Undefined))]
    else if mode == MODE_POST then [PostReq(Target(config, p, Undefined), p.ToValue())]
    else []
  }

  /** Every precondition of the token request holds. */
  predicate TokenReady(mode: nat, status: nat) {
    !(Check(mode, REQ_LB) && !Check(status, LB)) &&
    !(Check(mode, REQ_SIGN) && !Check(status, SIGN_CODE)) &&
    !Check(status, LOGINED)
  }

  /** The transport modes in which `fetching` sends a request. */
  predicate Sends(rpcMode: string) {
    rpcMode == MODE_GET || rpcMode == MODE_POST
  }

  /** The last request sent carries `key` as the `openkey` of the identity it sends as `oemInfo`. */
  predicate CarriesOpenKey(sent: seq<Request>, key: Value) {
    |sent| > 0 && Field(sent[|sent| - 1].target.params.Get("oemInfo"), "openkey") == key
  }

  /** The token request carries the `openkey` of the identity it sends. */
  lemma TokenCarriesOpenKey(rpcMode: string, sent: seq<Request>, config: Value, u: Props)
    requires Sends(rpcMode)
    ensures CarriesOpenKey(sent + Outgoing(rpcMode, config, TokenParams(u.ToValue())), u.Get("openkey"))
  {
  }

  /** The identity after an accepted token reply. */
  function LoggedInInfo(u: Props, msg: Value): Props
    requires u.Valid()
  {
    var d := Field(msg, "data");
    u.Put("openid", Field(d, "openid")).Put("id", Field(d, "id"))
     .Put("token", Field(d, "token")).Put("name", Field(d, "name"))
  }

  /** Writing another field keeps the identity's `openkey`. */
  lemma OpenKeyKept(u: Props, k: string, v: Value)
    requires u.Valid() && k != "openkey"
    ensures u.Put(k, v).Valid() && u.Put(k, v).Get("openkey") == u.Get("openkey")
  {
  }

  /** Logging in rewrites the issued identity fields and keeps every other one. */
  lemma LoggedInKeeps(u: Props, msg: Value, k: string)
    requires u.Valid() && !Written(k)
    ensures LoggedInInfo(u, msg).Get(k) == u.Get(k)
  {
    var d := Field(msg, "data");
    var u1 := u.Put("openid", Field(d, "openid"));
    var u2 := u1.Put("id", Field(d, "id"));
    var u3 := u2.Put("token", Field(d, "token"));
    assert u1.Get(k) == u.Get(k) && u2.Get(k) == u1.Get(k) && u3.Get(k) == u2.Get(k);
  }


  // ------------------------------------------------------------ login()

  /** `options || {}` then `options.force`. */
  predicate Forced(options: Value) {
    Truthy(Field(options, "force"))
  }

  function Domain(options: Value): Value {
    Field(options, "domain")
  }

  /** A truthy domain other than the two login variants. */
  predicate BadDomain(options: Value) {
    Truthy(Domain(options)) && Domain(options) != Str("authwx") && Domain(options) != Str("auth2step")
  }

  /** The requirement mask a login variant selects (unchanged for no domain). */
  function ModeFor(options: Value, mode: nat): nat {
    if Domain(options) == Str("authwx") then Set(REQ_LB, REQ_OPEN_ID)
    else if Domain(options) == Str("auth2step") then Set(REQ_LB, REQ_SIGN)
    else mode
  }

  /** The progress mask `login` starts from. */
  function StartStatus(options: Value, status: nat): nat {
    if Forced(options) then Init() else status
  }

  /** The identity fields a login variant binds. */
  function IdentityOf(options: Value): Value {
    if Domain(options) == Str("authwx") then
      Obj(map["domain" := Domain(options), "openkey" := Field(options, "openkey")])
    else
      Obj(map["domain" := Domain(options), "openid" := Field(options, "openid"),
              "addrType" := Field(options, "addrType"), "address" := Field(options, "address")])
  }

  /** A known domain's identity, merged into the session's, carries that domain. */
  lemma BoundDomain(options: Value, t: map<string, Value>, u: Props)
    requires Truthy(Domain(options)) && !BadDomain(options)
    requires u.fields == MergeOne(t, IdentityOf(options), false)
    ensures u.Get("domain") == Domain(options)
  {
  }

  /** The two variants' requirement masks, bit by bit. */
  lemma VariantMasks()
    ensures forall j: nat :: Check(Set(REQ_LB, REQ_OPEN_ID), Pow2(j)) <==> j == 11 || j == 12
    ensures forall j: nat :: Check(Set(REQ_LB, REQ_SIGN), Pow2(j)) <==> j == 11 || j == 10
    ensures Set(REQ_LB, REQ_OPEN_ID) != 0 && Set(REQ_LB, REQ_SIGN) != 0
  {
    SingleBitFacts();
    CommStatusPowers();
  }

  // -------------------------------------------------------- login plan

  /** The key exchange is due: the variant requires it and it has not succeeded. */
  predicate OpenIdDue(mode: nat, s: nat) {
    Check(mode, REQ_OPEN_ID) && !Check(s, OPEN_ID)
  }

  /** Load balancing is due: the variant requires it and it has not succeeded. */
  predicate LbDue(mode: nat, s: nat) {
    Check(mode, REQ_LB) && !Check(s, LB)
  }

  /** The signature request is due: the variant requires it and it has not succeeded. */
  predicate SignDue(mode: nat, s: nat) {
    Check(mode, REQ_SIGN) && !Check(s, SIGN)
  }

  /** The progress mask once the key exchange, when due, has succeeded. */
  function AfterOpenId(mode: nat, s: nat): nat {
    if OpenIdDue(mode, s) then Set(s, OPEN_ID) else s
  }

  /**
   * The progress mask once load balancing, when due, has succeeded:
   * `setLB` starts from an empty mask, so only the LB bit is left.
   */
  function AfterLb(mode: nat, s: nat): nat {
    if LbDue(mode, s) then LB else s
  }

  /** The progress mask `login` reaches before its last step. */
  function Reached(mode: nat, s: nat): nat {
    AfterLb(mode, AfterOpenId(mode, s))
  }

  function OpenIdSteps(mode: nat, s: nat): seq<Step> {
    if OpenIdDue(mode, s) then [OpenIdStep] else []
  }

  function LbSteps(mode: nat, s: nat): seq<Step> {
    if LbDue(mode, s) then [LbStep] else []
  }

  /** The last step: the signature request when due, else the token request when ready. */
  function FinalSteps(mode: nat, s: nat): seq<Step> {
    if SignDue(mode, s) then [SignStep] else if TokenReady(mode, s) then [TokenStep] else []
  }

  /**
   * The steps `login` issues from requirement mask `mode` and progress
   * mask `s` when every reply is a success.
   */
  function Plan(mode: nat, s: nat): seq<Step> {
    if Check(s, LOGINED) then []
    else
      var s1 := AfterOpenId(mode, s);
      OpenIdSteps(mode, s) + LbSteps(mode, s1) + FinalSteps(mode, AfterLb(mode, s1))
  }

  /** The plan follows the protocol order and never repeats a step. */
  lemma PlanInOrder(mode: nat, s: nat)
    ensures InOrder(Plan(mode, s))
    ensures |Plan(mode, s)| <= 3
  {
    if !Check(s, LOGINED) {
      var s1 := AfterOpenId(mode, s);
      var a, b, c := OpenIdSteps(mode, s), LbSteps(mode, s1), FinalSteps(mode, AfterLb(mode, s1));
      var t := a + b + c;
      forall i, j | 0 <= i < j < |t| ensures Rank(t[i]) < Rank(t[j]) {
        assert t[i] in a + b + c && t[j] in a + b + c;
        if i < |a| {
          assert t[i] == OpenIdStep && j >= |a|;
        } else if i < |a| + |b| {
          assert t[i] == LbStep && j >= |a| + |b|;
          assert t[j] == c[j - |a| - |b|];
        }
      }
    }
  }

  /**
   * A step is planned only when its variant requires it and it has not
   * succeeded; a signature fetched after the last load balancing is not
   * fetched again; nothing is planned once logged in.
   */
  lemma PlanSkipsDoneSteps(mode: nat, s: nat)
    ensures Check(s, LOGINED) ==> Plan(mode, s) == []
    ensures OpenIdStep in Plan(mode, s) ==> Check(mode, REQ_OPEN_ID) && !Check(s, OPEN_ID)
    ensures LbStep in Plan(mode, s) ==> Check(mode, REQ_LB) && !Check(s, LB)
    ensures SignStep in Plan(mode, s) ==> Check(mode, REQ_SIGN) && !(Check(s, SIGN) && Check(s, LB))
    ensures TokenStep in Plan(mode, s) ==> !Check(s, LOGINED)
  {
    SingleBitFacts();
    CommStatusPowers();
    if !Check(s, LOGINED) {
      var s1 := AfterOpenId(mode, s);
      var s2 := AfterLb(mode, s1);
      assert Check(s, LB) ==> Check(s1, LB);
      assert Check(s, SIGN) && Check(s, LB) ==> s2 == s1 && Check(s1, SIGN);
      assert Plan(mode, s) == OpenIdSteps(mode, s) + LbSteps(mode, s1) + FinalSteps(mode, s2);
    }
  }

  /** The key-exchange step's verdict on its reply: a falsy reply is a 'keyId error'. */
  function OpenIdVerdict(reply: Ret<Value>): Option<Error> {
    if reply.Throw? then Some(reply.error)
    else if !Truthy(reply.value) then Some(KeyIdError)
    else None
  }

  /**
   * The load-balancing step's verdict on its reply: an unsuccessful reply
   * is an 'lb error'; a successful one without `data` fails reading `ip`.
   */
  function LbVerdict(reply: Ret<Value>): Option<Error> {
    if reply.Throw? then Some(reply.error)
    else if !Succeeded(reply.value) then Some(LbError)
    else if Prop(Field(reply.value, "data"), "ip").None? then Some(TypeError)
    else None
  }

  /** The signature step's verdict on its reply: a falsy reply is a 'get sign error'. */
  function SignVerdict(reply: Ret<Value>): Option<Error> {
    if reply.Throw? then Some(reply.error)
    else if !Truthy(reply.value) then Some(GetSignError)
    else None
  }

  /** The working configuration after `setLB`: the bootstrap server, then the assigned one. */
  function LbConfig(config: Value, configOri: Value, reply: Ret<Value>): (r: Value)
    requires ConfigOk(config)
    ensures ConfigOk(r)
  {
    var boot := Relocate(config, Field(WebServer(configOri), "host"), Field(WebServer(configOri), "port"));
    if LbVerdict(reply).None? then
      var data := Field(reply.value, "data");
      Relocate(boot, Field(data, "ip"), Field(data, "port"))
    else boot
  }

  // --------------------------------------------------------- login run

  /**
   * The part of a session the login steps read and write: the progress
   * mask, the working configuration, the identity, the requests sent so
   * far and the replies the server has not yet given.
   */
  datatype Sess = Sess(status: nat, config: Value, user: Props, sent: seq<Request>, replies: seq<Reply>)

  /** A session whose configuration names a server and whose identity is well formed. */
  ghost predicate SessOk(st: Sess) {
    ConfigOk(st.config) && st.user.Valid()
  }

  /** What one step of `login` leaves: its error, if any, and the session after it. */
  datatype Phase = Phase(error: Option<Error>, after: Sess)

  /** How a run of the login steps ends: its result, the steps issued and the session after it. */
  datatype Run = Run(result: Ret<bool>, steps: seq<Step>, after: Sess)

  /** The identity after `getOpenId`: a truthy reply's `unionid` becomes the `openid`. */
  function OpenIdStored(u: Props, reply: Ret<Value>): (r: Props)
    requires u.Valid()
    ensures r.Valid()
  {
    if reply.Ok? && Truthy(reply.value) then u.Put("openid", Field(reply.value, "unionid")) else u
  }

  /** The identity after `getSign`: a truthy reply becomes the `auth`. */
  function AuthStored(u: Props, reply: Ret<Value>): (r: Props)
    requires u.Valid()
    ensures r.Valid()
  {
    if reply.Ok? && Truthy(reply.value) then u.Put("auth", reply.value) else u
  }

  /** The request `getOpenId` sends: the exchange key, to the auth port, under the identity's domain. */
  function OpenIdRequest(ori: Value, cfg: Value, u: Props): Request {
    GetReq(Target(cfg, GatewayWire(OpenIdParams(ori, u), u.ToValue()), Domain(u.ToValue())))
  }

  /** The request `getSign` sends: the identity's openid and address, under its domain. */
  function SignRequest(cfg: Value, u: Props): Request {
    GetReq(Target(cfg, GatewayWire(SignParams(u), u.ToValue()), Domain(u.ToValue())))
  }

  /** The key-exchange step of `login` from session `st` (original configuration `ori`). */
  function KeyExchange(mode: nat, ori: Value, st: Sess): (p: Phase)
    requires st.user.Valid()
    ensures p.after.user.Valid() && p.after.config == st.config
  {
    if OpenIdDue(mode, st.status) then
      var reply := GetOutcome(st.replies);
      var e := OpenIdVerdict(reply);
      Phase(e, Sess(if e.None? then Set(st.status, OPEN_ID) else st.status, st.config,
                    OpenIdStored(st.user, reply), st.sent + [OpenIdRequest(ori, st.config, st.user)], Rest(st.replies)))
    else Phase(None, st)
  }

  /**
   * The load-balancing step of `login` from session `st`: the token is
   * cleared and the configuration goes to the bootstrap server of the
   * original configuration `ori`, then to the assigned one.
   */
  function Balance(mode: nat, ori: Value, st: Sess): (p: Phase)
    requires SessOk(st)
    ensures SessOk(p.after)
  {
    if LbDue(mode, st.status) then
      var reply := GetOutcome(st.replies);
      Phase(LbVerdict(reply), Sess(if reply.Ok? && Succeeded(reply.value) then LB else 0,
                                   LbConfig(st.config, ori, reply), st.user.Put("token", Null),
                                   st.sent + [LbRequest(ori, st.config, st.user)], Rest(st.replies)))
    else Phase(None, st)
  }

  /** The errors `setLB` throws, as opposed to the false it returns for an unsuccessful reply. */
  predicate Fatal(e: Option<Error>) {
    e.Some? && e.value != LbError
  }

  /** The request `setLB` sends: the identity, its token cleared, to the bootstrap server. */
  function LbRequest(ori: Value, cfg: Value, u: Props): Request
    requires ConfigOk(cfg) && u.Valid()
  {
    var t := u.Put("token", Null);
    var boot := Relocate(cfg, Field(WebServer(ori), "host"), Field(WebServer(ori), "port"));
    GetReq(Target(boot, LbWire(t), Undefined))
  }

  /** The replies a request of `fetching` consumes: one in the GET and POST modes, none in a rejected mode. */
  function Consumed(rpcMode: string, rs: seq<Reply>): seq<Reply> {
    if Sends(rpcMode) then Rest(rs) else rs
  }

  /** The last step of `login` from session `st`: the signature request, the token request, or nothing. */
  function LastStep(mode: nat, rpcMode: string, st: Sess): (c: Run)
    requires st.user.Valid()
    ensures c.after.user.Valid() && c.after.config == st.config
  {
    if SignDue(mode, st.status) then
      var reply := GetOutcome(st.replies);
      var e := SignVerdict(reply);
      Run(if e.Some? then Throw(e.value) else Ok(true), [SignStep],
          Sess(if e.None? then Set(st.status, SIGN) else st.status, st.config, AuthStored(st.user, reply),
               st.sent + [SignRequest(st.config, st.user)], Rest(st.replies)))
    else if TokenReady(mode, st.status) then
      var reply := Dispatched(rpcMode, st.replies);
      var r := if reply.Throw? then Throw(reply.error) else Ok(TokenAccepted(reply.value));
      Run(r, [TokenStep],
          Sess(if r == Ok(true) then Set(st.status, LOGINED) else st.status, st.config,
               if r == Ok(true) then LoggedInInfo(st.user, reply.value) else st.user,
               st.sent + Outgoing(rpcMode, st.config, TokenParams(st.user.ToValue())), Consumed(rpcMode, st.replies)))
    else Run(Ok(false), [], st)
  }

  /** Load balancing, then (unless it threw) the last step. */
  function BalanceThenLast(mode: nat, rpcMode: string, ori: Value, st: Sess): (t: Run)
    requires SessOk(st)
    ensures SessOk(t.after)
  {
    var b := Balance(mode, ori, st);
    if b.error.Some? then Run(Throw(b.error.value), LbSteps(mode, st.status), b.after)
    else
      var c := LastStep(mode, rpcMode, b.after);
      Run(c.result, LbSteps(mode, st.status) + c.steps, c.after)
  }

  /**
   * The steps of `login` from requirement mask `mode` and session `st` in
   * transport mode `rpcMode` (with original configuration `ori`), each
   * consuming the next reply: nothing once logged in, else the key
   * exchange, load balancing and the last step, up to the first one that
   * throws.
   */
  function LoginRun(mode: nat, rpcMode: string, ori: Value, st: Sess): (o: Run)
    requires SessOk(st)
    ensures SessOk(o.after)
  {
    if Check(st.status, LOGINED) then Run(Ok(false), [], st)
    else
      var a := KeyExchange(mode, ori, st);
      if a.error.Some? then Run(Throw(a.error.value), OpenIdSteps(mode, st.status), a.after)
      else
        var t := BalanceThenLast(mode, rpcMode, ori, a.after);
        Run(t.result, OpenIdSteps(mode, st.status) + t.steps, t.after)
  }

  /** Balancing followed, unless it threw, by the last step. */
  lemma BalanceThenLastComposes(mode: nat, rpcMode: string, ori: Value, st: Sess, b: Phase, c: Run)
    requires SessOk(st)
    requires Balance(mode, ori, st) == b
    requires b.error.None? ==> LastStep(mode, rpcMode, b.after) == c
    ensures BalanceThenLast(mode, rpcMode, ori, st) ==
      if b.error.Some? then Run(Throw(b.error.value), LbSteps(mode, st.status), b.after)
      else Run(c.result, LbSteps(mode, st.status) + c.steps, c.after)
  {
  }

  /**
   * A run `r` made of step `x` followed by a run `t` of the single step `y`
   * that sent one request `q` after the request `p`: `r` issues both steps
   * and sends both requests, in order.
   */
  lemma StepsChain(r: Run, t: Run, x: Step, y: Step, base: Sess, p: Request, q: Request)
    requires r == Run(t.result, [x] + t.steps, t.after)
    requires t.steps == [y] && t.after == base.(sent := (base.sent + [p]) + [q])
    ensures r == Run(t.result, [x, y], base.(sent := base.sent + [p, q]))
  {
    AppendTwo(base.sent, p, q);
  }

  lemma AppendAssoc<T>(a: seq<T>, b: seq<T>, c: seq<T>)
    ensures (a + b) + c == a + (b + c)
  {
  }

  lemma AppendTwo<T>(a: seq<T>, x: T, y: T)
    ensures a + [x] + [y] == a + [x, y]
  {
  }

  lemma PrependOne<T>(x: T, y: T, z: T)
    ensures [x] + [y, z] == [x, y, z]
  {
  }

  lemma AppendThree<T>(a: seq<T>, x: T, y: T, z: T)
    ensures a + [x] + [y] + [z] == a + [x, y, z]
  {
  }

  /** A run not yet logged in is the key exchange followed, unless it failed, by the rest of the steps. */
  lemma LoginRunComposes(mode: nat, rpcMode: string, ori: Value, st: Sess, a: Phase, t: Run)
    requires SessOk(st) && !Check(st.status, LOGINED)
    requires KeyExchange(mode, ori, st) == a
    requires a.error.None? ==> BalanceThenLast(mode, rpcMode, ori, a.after) == t
    ensures LoginRun(mode, rpcMode, ori, st) ==
      if a.error.Some? then Run(Throw(a.error.value), OpenIdSteps(mode, st.status), a.after)
      else Run(t.result, OpenIdSteps(mode, st.status) + t.steps, t.after)
  {
  }

  /**
   * How one run of the login steps from masks (`mode`, `s`) can end, with
   * `steps` issued, result `r` and final progress mask `s'`: the steps are
   * a prefix of the plan, all of it when the run returns a value; a logged
   * in session runs nothing; each named error comes from its own step.
   */
  predicate LoginOutcome(mode: nat, s: nat, steps: seq<Step>, r: Ret<bool>, s': nat) {
    var plan := Plan(mode, s);
    var s2 := Reached(mode, s);
    |steps| <= |plan| && steps == plan[..|steps|] &&
    (Check(s, LOGINED) ==> r == Ok(false) && s' == s) &&
    (r.Ok? && !Check(s, LOGINED) ==>
      steps == plan &&
      (SignDue(mode, s2) ==> r == Ok(true) && s' == Set(s2, SIGN)) &&
      (!SignDue(mode, s2) && TokenReady(mode, s2) ==>
        if r == Ok(true) then s' == Set(s2, LOGINED) else s' == s2) &&
      (!SignDue(mode, s2) && !TokenReady(mode, s2) ==> r == Ok(false) && s' == s2)) &&
    (r.Throw? ==> steps != []) &&
    (r == Throw(KeyIdError) ==> steps == [OpenIdStep] && s' == s) &&
    (r == Throw(LbError) ==> steps[|steps| - 1] == LbStep && s' == 0) &&
    (r == Throw(GetSignError) ==> steps[|steps| - 1] == SignStep && s' == s2)
  }

  /** What the key-exchange step returns and leaves in the progress mask `s'`. */
  predicate OpenIdFacts(mode: nat, s: nat, e: Option<Error>, s': nat) {
    (!OpenIdDue(mode, s) ==> e.None? && s' == s) &&
    (OpenIdDue(mode, s) ==>
       (e.None? ==> s' == Set(s, OPEN_ID)) &&
       (e.Some? ==> s' == s && (e.value == TransportFailure || e.value == KeyIdError)))
  }

  /** What the load-balancing step returns and leaves in the progress mask `s'`. */
  predicate LbFacts(mode: nat, s: nat, e: Option<Error>, s': nat) {
    (!LbDue(mode, s) ==> e.None? && s' == s) &&
    (LbDue(mode, s) ==>
       (e.None? ==> s' == LB) &&
       (e.Some? ==> e.value == TransportFailure || e.value == TypeError || (e.value == LbError && s' == 0)))
  }

  /** What the last step returns and leaves in the progress mask `s'`. */
  predicate FinishFacts(mode: nat, s: nat, r: Ret<bool>, s': nat) {
    (SignDue(mode, s) ==>
       (r.Ok? ==> r == Ok(true) && s' == Set(s, SIGN)) &&
       (r.Throw? ==> s' == s && (r.error == TransportFailure || r.error == GetSignError))) &&
    (!SignDue(mode, s) && !TokenReady(mode, s) ==> r == Ok(false) && s' == s) &&
    (!SignDue(mode, s) && TokenReady(mode, s) ==>
       (if r == Ok(true) then s' == Set(s, LOGINED) else s' == s) &&
       (r.Throw? ==> r.error == TransportFailure || r.error == Rejected))
  }

  /** The steps a run issues: each step's own, up to the first one that throws. */
  function Issued(mode: nat, s: nat, e1: Option<Error>, s1: nat, e2: Option<Error>, s2: nat): seq<Step> {
    OpenIdSteps(mode, s) +
    (if e1.Some? then [] else LbSteps(mode, s1) + (if e2.Some? then [] else FinalSteps(mode, s2)))
  }

  /**
   * The steps of `login` compose: the key exchange, then (when it did not
   * throw) load balancing, then (when neither threw) the last step, give
   * an outcome of the plan.
   */
  lemma StepsCompose(mode: nat, s: nat, e1: Option<Error>, s1: nat, e2: Option<Error>, s2: nat, r: Ret<bool>, s3: nat,
                     steps: seq<Step>)
    requires !Check(s, LOGINED) && steps == Issued(mode, s, e1, s1, e2, s2)
    requires OpenIdFacts(mode, s, e1, s1)
    requires e1.Some? ==> r == Throw(e1.value) && s3 == s1
    requires e1.None? ==> LbFacts(mode, s1, e2, s2)
    requires e1.None? && e2.Some? ==> r == Throw(e2.value) && s3 == s2
    requires e1.None? && e2.None? ==> FinishFacts(mode, s2, r, s3)
    ensures LoginOutcome(mode, s, steps, r, s3)
  {
    var plan := Plan(mode, s);
    var a := OpenIdSteps(mode, s);
    var p1 := AfterOpenId(mode, s);
    assert plan == a + LbSteps(mode, p1) + FinalSteps(mode, AfterLb(mode, p1));
    if e1.Some? {
      assert Issued(mode, s, e1, s1, e2, s2) == a == plan[..|a|];
    } else if e2.Some? {
      var b := LbSteps(mode, p1);
      assert s1 == p1 && Issued(mode, s, e1, s1, e2, s2) == a + b;
      assert plan[..|a + b|] == a + b;
    } else {
      assert s1 == p1 && s2 == Reached(mode, s);
      assert Issued(mode, s, e1, s1, e2, s2) == plan;
    }
  }

  /** The key-exchange step keeps the facts its callers rely on. */
  lemma KeyExchangeFacts(mode: nat, ori: Value, st: Sess)
    requires st.user.Valid()
    ensures var a := KeyExchange(mode, ori, st); OpenIdFacts(mode, st.status, a.error, a.after.status)
  {
  }

  lemma BalanceFacts(mode: nat, ori: Value, st: Sess)
    requires SessOk(st)
    ensures var b := Balance(mode, ori, st); LbFacts(mode, st.status, b.error, b.after.status)
  {
  }

  lemma LastStepFacts(mode: nat, rpcMode: string, st: Sess)
    requires st.user.Valid()
    ensures var c := LastStep(mode, rpcMode, st);
      FinishFacts(mode, st.status, c.result, c.after.status) && c.steps == FinalSteps(mode, st.status)
  {
  }

  /** Every run of the login steps against any replies is an outcome of the plan. */
  lemma LoginRunOutcome(mode: nat, rpcMode: string, ori: Value, st: Sess)
    requires SessOk(st)
    ensures var o := LoginRun(mode, rpcMode, ori, st);
      LoginOutcome(mode, st.status, o.steps, o.result, o.after.status)
  {
    var s := st.status;
    if !Check(s, LOGINED) {
      var o := LoginRun(mode, rpcMode, ori, st);
      var a := KeyExchange(mode, ori, st);
      KeyExchangeFacts(mode, ori, st);
      var b := Balance(mode, ori, a.after);
      BalanceFacts(mode, ori, a.after);
      var e2 := if a.error.Some? then None else b.error;
      var s2 := if a.error.Some? then a.after.status else b.after.status;
      if a.error.Some? {
        assert o.steps == OpenIdSteps(mode, s) + [];
      } else {
        var t := BalanceThenLast(mode, rpcMode, ori, a.after);
        assert o.steps == OpenIdSteps(mode, s) + t.steps && o.result == t.result && o.after == t.after;
        if b.error.Some? {
          BalanceThenLastComposes(mode, rpcMode, ori, a.after, b, Run(Ok(false), [], a.after));
          assert LbSteps(mode, a.after.status) + [] == t.steps;
        } else {
          LastStepFacts(mode, rpcMode, b.after);
        }
      }
      StepsCompose(mode, s, a.error, a.after.status, e2, s2, o.result, o.after.status, o.steps);
    }
  }

  /** The identity keys login writes: `openid`, `token`, `auth`, `id` and `name`. */
  predicate Written(k: string) {
    k == "openid" || k == "token" || k == "auth" || k == "id" || k == "name"
  }

  /** Each step of `login` leaves the identity keys it does not write as they were. */
  lemma KeyExchangeKeeps(mode: nat, ori: Value, st: Sess, k: string)
    requires st.user.Valid() && !Written(k)
    ensures KeyExchange(mode, ori, st).after.user.Get(k) == st.user.Get(k)
  {
  }

  lemma BalanceKeeps(mode: nat, ori: Value, st: Sess, k: string)
    requires SessOk(st) && !Written(k)
    ensures Balance(mode, ori, st).after.user.Get(k) == st.user.Get(k)
  {
  }

  lemma LastStepKeeps(mode: nat, rpcMode: string, st: Sess, k: string)
    requires st.user.Valid() && !Written(k)
    ensures LastStep(mode, rpcMode, st).after.user.Get(k) == st.user.Get(k)
  {
    if !SignDue(mode, st.status) && TokenReady(mode, st.status) && Dispatched(rpcMode, st.replies).Ok? {
      LoggedInKeeps(st.user, Dispatched(rpcMode, st.replies).value, k);
    }
  }

  /** A run of the login steps leaves every other identity key, `openkey` and `domain` among them, as it was. */
  lemma LoginRunKeepsOthers(mode: nat, rpcMode: string, ori: Value, st: Sess, k: string)
    requires SessOk(st) && !Written(k)
    ensures LoginRun(mode, rpcMode, ori, st).after.user.Get(k) == st.user.Get(k)
  {
    if !Check(st.status, LOGINED) {
      var a := KeyExchange(mode, ori, st);
      KeyExchangeKeeps(mode, ori, st, k);
      var b := Balance(mode, ori, a.after);
      BalanceKeeps(mode, ori, a.after, k);
      LastStepKeeps(mode, rpcMode, b.after, k);
      if a.error.None? {
        var t := BalanceThenLast(mode, rpcMode, ori, a.after);
        assert LoginRun(mode, rpcMode, ori, st).after == t.after;
      }
    }
  }

  /** The last request of a last step that asks for a token carries the identity's `openkey`. */
  lemma LastStepCarriesOpenKey(mode: nat, rpcMode: string, st: Sess)
    requires st.user.Valid() && Sends(rpcMode)
    ensures var c := LastStep(mode, rpcMode, st);
      TokenStep in c.steps ==> CarriesOpenKey(c.after.sent, st.user.Get("openkey"))
  {
    if !SignDue(mode, st.status) && TokenReady(mode, st.status) {
      TokenCarriesOpenKey(rpcMode, st.sent, st.config, st.user);
    }
  }

  /** Balancing and then the last step: a token request sent carries the identity's `openkey`. */
  lemma BalanceThenLastCarriesOpenKey(mode: nat, rpcMode: string, ori: Value, st: Sess)
    requires SessOk(st) && Sends(rpcMode)
    ensures var t := BalanceThenLast(mode, rpcMode, ori, st);
      TokenStep in t.steps ==> CarriesOpenKey(t.after.sent, st.user.Get("openkey"))
  {
    var b := Balance(mode, ori, st);
    BalanceKeeps(mode, ori, st, "openkey");
    if b.error.None? {
      var c := LastStep(mode, rpcMode, b.after);
      LastStepCarriesOpenKey(mode, rpcMode, b.after);
      assert TokenStep in LbSteps(mode, st.status) + c.steps ==> TokenStep in c.steps;
    }
  }

  /** A whole login run: a token request sent carries the identity's `openkey`. */
  lemma LoginRunCarriesOpenKey(mode: nat, rpcMode: string, ori: Value, st: Sess)
    requires SessOk(st) && Sends(rpcMode)
    ensures var o := LoginRun(mode, rpcMode, ori, st);
      TokenStep in o.steps ==> CarriesOpenKey(o.after.sent, st.user.Get("openkey"))
  {
    if !Check(st.status, LOGINED) {
      var a := KeyExchange(mode, ori, st);
      KeyExchangeKeeps(mode, ori, st, "openkey");
      if a.error.None? {
        var t := BalanceThenLast(mode, rpcMode, ori, a.after);
        BalanceThenLastCarriesOpenKey(mode, rpcMode, ori, a.after);
        assert TokenStep in OpenIdSteps(mode, st.status) + t.steps ==> TokenStep in t.steps;
      }
    }
  }

  /** Every run issues its steps in protocol order, each at most once. */
  lemma OutcomeInOrder(mode: nat, s: nat, steps: seq<Step>, r: Ret<bool>, s': nat)
    requires LoginOutcome(mode, s, steps, r, s')
    ensures InOrder(steps) && |steps| <= 3
  {
    PlanInOrder(mode, s);
    var plan := Plan(mode, s);
    forall i, j | 0 <= i < j < |steps| ensures Rank(steps[i]) < Rank(steps[j]) {
      assert steps[i] == plan[i] && steps[j] == plan[j];
    }
  }

  /** The WeChat variant's requirements: the key exchange and load balancing, no signature. */
  predicate AuthWxRequirements(mode: nat) {
    Check(mode, REQ_OPEN_ID) && Check(mode, REQ_LB) && !Check(mode, REQ_SIGN)
  }

  /** The two-stage variant's requirements: load balancing and the signature, no key exchange. */
  predicate Auth2StepRequirements(mode: nat) {
    !Check(mode, REQ_OPEN_ID) && Check(mode, REQ_LB) && Check(mode, REQ_SIGN)
  }

  /** No progress bit is set. */
  predicate NoProgress(s: nat) {
    !Check(s, LB) && !Check(s, SIGN) && !Check(s, SIGN_CODE) && !Check(s, OPEN_ID) && !Check(s, LOGINED)
  }

  /** The masks `login` binds for 'authwx' and 'auth2step', and the empty progress mask. */
  lemma VariantRequirements()
    ensures AuthWxRequirements(Set(REQ_LB, REQ_OPEN_ID)) && Auth2StepRequirements(Set(REQ_LB, REQ_SIGN))
    ensures NoProgress(Indicator.Init())
  {
    VariantMasks();
    SingleBitFacts();
    CommStatusPowers();
  }

  /** A fresh WeChat login: key exchange, load balancing, then the token request. */
  lemma AuthWxFreshPlan(mode: nat, s: nat)
    requires AuthWxRequirements(mode) && NoProgress(s)
    ensures Plan(mode, s) == [OpenIdStep, LbStep, TokenStep]
  {
    SingleBitFacts();
    CommStatusPowers();
    assert !Check(Set(s, OPEN_ID), LB);
    assert Check(LB, LB) && !Check(LB, LOGINED);
  }

  /**
   * A WeChat login whose token request was turned down leaves only the LB
   * bit (load balancing cleared the OpenId bit), so the next login repeats
   * the key exchange before asking for the token again.
   */
  lemma AuthWxRetryPlan(mode: nat, s: nat)
    requires AuthWxRequirements(mode) && NoProgress(s)
    ensures Reached(mode, s) == LB
    ensures Plan(mode, LB) == [OpenIdStep, TokenStep]
  {
    SingleBitFacts();
    CommStatusPowers();
    assert !Check(Set(s, OPEN_ID), LB);
    assert Check(LB, LB) && !Check(LB, OPEN_ID) && !Check(LB, LOGINED);
    assert Check(Set(LB, OPEN_ID), LB) && !Check(Set(LB, OPEN_ID), LOGINED);
  }

  /** A fresh two-stage login: load balancing, then the signature request; no token yet. */
  lemma Auth2StepFreshPlan(mode: nat, s: nat)
    requires Auth2StepRequirements(mode) && NoProgress(s)
    ensures Reached(mode, s) == LB
    ensures Plan(mode, s) == [LbStep, SignStep]
  {
    assert !Check(LB, SIGN);
  }

  /** The mask a successful first two-stage login leaves: LB and Sign. */
  const SignedStatus: nat := Set(LB, SIGN)

  /**
   * A fresh two-stage login that returns a value has balanced and fetched
   * the signature, returned true and left exactly the LB and Sign bits.
   */
  lemma Auth2StepFirstLogin(mode: nat, s: nat, steps: seq<Step>, r: Ret<bool>, s': nat)
    requires Auth2StepRequirements(mode) && NoProgress(s)
    requires LoginOutcome(mode, s, steps, r, s') && r.Ok?
    ensures steps == [LbStep, SignStep] && r == Ok(true) && s' == SignedStatus
  {
    Auth2StepFreshPlan(mode, s);
  }

  /** Before the code arrives, a second two-stage login issues nothing and returns false. */
  lemma Auth2StepWithoutCode(mode: nat, steps: seq<Step>, r: Ret<bool>, s': nat)
    requires Auth2StepRequirements(mode)
    requires LoginOutcome(mode, SignedStatus, steps, r, s') && r.Ok?
    ensures steps == [] && r == Ok(false) && s' == SignedStatus
  {
    assert !Check(SignedStatus, LOGINED) && Check(SignedStatus, LB) && Check(SignedStatus, SIGN);
    assert !Check(SignedStatus, SIGN_CODE);
  }

  /**
   * `onAuthCode(code)` after the first two-stage login: only the token
   * request goes out, and a true result means the session is logged in.
   */
  lemma Auth2StepWithCode(mode: nat, steps: seq<Step>, r: Ret<bool>, s': nat)
    requires Auth2StepRequirements(mode)
    requires LoginOutcome(mode, Set(SignedStatus, SIGN_CODE), steps, r, s') && r.Ok?
    ensures steps == [TokenStep]
    ensures r == Ok(true) ==> Check(s', LOGINED)
  {
    var s := Set(SignedStatus, SIGN_CODE);
    assert !Check(s, LOGINED) && Check(s, LB) && Check(s, SIGN) && Check(s, SIGN_CODE);
    SetMonotone(s, LOGINED, LOGINED);
  }

  /** A logged-in session's login issues nothing and returns false. */
  lemma LoggedInRunsNothing(mode: nat, s: nat, steps: seq<Step>, r: Ret<bool>, s': nat)
    requires LoginOutcome(mode, s, steps, r, s') && Check(s, LOGINED)
    ensures steps == [] && r == Ok(false) && s' == s
  {
  }

  // ---------------------------------------------------- login run scenarios

  /** The masks of a fresh WeChat login, step by step. */
  lemma AuthWxFreshMasks(mode: nat, s: nat)
    requires AuthWxRequirements(mode) && NoProgress(s)
    ensures OpenIdDue(mode, s) && LbDue(mode, Set(s, OPEN_ID))
    ensures !SignDue(mode, LB) && TokenReady(mode, LB)
  {
    SingleBitFacts();
    CommStatusPowers();
    assert !Check(Set(s, OPEN_ID), LB);
    assert Check(LB, LB) && !Check(LB, LOGINED);
  }

  /** The masks of a fresh two-stage login, step by step. */
  lemma Auth2StepFreshMasks(mode: nat, s: nat)
    requires Auth2StepRequirements(mode) && NoProgress(s)
    ensures !OpenIdDue(mode, s) && LbDue(mode, s) && SignDue(mode, LB)
  {
    SingleBitFacts();
    CommStatusPowers();
    assert !Check(LB, SIGN);
  }

  /** A due key exchange answered with `k`: its verdict, its request, and the `openid` stored from a truthy reply. */
  lemma KeyExchangeAnswered(mode: nat, ori: Value, st: Sess, k: Value, rest: seq<Reply>)
    requires st.user.Valid() && OpenIdDue(mode, st.status) && st.replies == [Answer(k)] + rest
    ensures KeyExchange(mode, ori, st) ==
      Phase(OpenIdVerdict(Ok(k)),
            Sess(if Truthy(k) then Set(st.status, OPEN_ID) else st.status, st.config, OpenIdStored(st.user, Ok(k)),
                 st.sent + [OpenIdRequest(ori, st.config, st.user)], rest))
  {
    assert Rest(st.replies) == rest;
  }

  /** Due load balancing answered with `m`: its verdict, its request, the token cleared and the configuration moved. */
  lemma BalanceAnswered(mode: nat, ori: Value, st: Sess, m: Value, rest: seq<Reply>)
    requires SessOk(st) && LbDue(mode, st.status) && st.replies == [Answer(m)] + rest
    ensures Balance(mode, ori, st) ==
      Phase(LbVerdict(Ok(m)),
            Sess(if Succeeded(m) then LB else 0, LbConfig(st.config, ori, Ok(m)), st.user.Put("token", Null),
                 st.sent + [LbRequest(ori, st.config, st.user)], rest))
  {
    assert Rest(st.replies) == rest;
  }

  /** A due signature request answered with `g`: a falsy reply throws, a truthy one is stored as `auth`. */
  lemma SignAnswered(mode: nat, rpcMode: string, st: Sess, g: Value, rest: seq<Reply>)
    requires st.user.Valid() && SignDue(mode, st.status) && st.replies == [Answer(g)] + rest
    ensures LastStep(mode, rpcMode, st) ==
      Run(if Truthy(g) then Ok(true) else Throw(GetSignError), [SignStep],
          Sess(if Truthy(g) then Set(st.status, SIGN) else st.status, st.config, AuthStored(st.user, Ok(g)),
               st.sent + [SignRequest(st.config, st.user)], rest))
  {
    assert Rest(st.replies) == rest;
  }

  /** A token request answered with `t` in a sending mode: the run returns whether `t` was accepted. */
  lemma TokenAnswered(mode: nat, rpcMode: string, st: Sess, t: Value, rest: seq<Reply>)
    requires st.user.Valid() && !SignDue(mode, st.status) && TokenReady(mode, st.status)
    requires Sends(rpcMode) && st.replies == [Answer(t)] + rest
    ensures LastStep(mode, rpcMode, st) ==
      Run(Ok(TokenAccepted(t)), [TokenStep],
          Sess(if TokenAccepted(t) then Set(st.status, LOGINED) else st.status, st.config,
               if TokenAccepted(t) then LoggedInInfo(st.user, t) else st.user,
               st.sent + Outgoing(rpcMode, st.config, TokenParams(st.user.ToValue())), rest))
  {
    assert Rest(st.replies) == rest;
  }

  /** A run whose due key exchange is answered with a truthy `k` goes on to balancing from the session it leaves. */
  lemma KeyAcceptedRun(mode: nat, rpcMode: string, ori: Value, st: Sess, k: Value, rest: seq<Reply>)
    requires SessOk(st) && !Check(st.status, LOGINED) && OpenIdDue(mode, st.status)
    requires st.replies == [Answer(k)] + rest && Truthy(k)
    ensures var a := Sess(Set(st.status, OPEN_ID), st.config, st.user.Put("openid", Field(k, "unionid")),
                          st.sent + [OpenIdRequest(ori, st.config, st.user)], rest);
      var t := BalanceThenLast(mode, rpcMode, ori, a);
      LoginRun(mode, rpcMode, ori, st) == Run(t.result, [OpenIdStep] + t.steps, t.after)
  {
    KeyExchangeAnswered(mode, ori, st, k, rest);
    var a := KeyExchange(mode, ori, st);
    LoginRunComposes(mode, rpcMode, ori, st, a, BalanceThenLast(mode, rpcMode, ori, a.after));
  }

  /** Due load balancing turned down by `m`: the run stops with 'lb error' after the balancing request. */
  lemma LbRefusedRun(mode: nat, rpcMode: string, ori: Value, st: Sess, m: Value, rest: seq<Reply>)
    requires SessOk(st) && LbDue(mode, st.status) && st.replies == [Answer(m)] + rest && !Succeeded(m)
    ensures BalanceThenLast(mode, rpcMode, ori, st) ==
      Run(Throw(LbError), [LbStep],
          Sess(0, LbConfig(st.config, ori, Ok(m)), st.user.Put("token", Null), st.sent + [LbRequest(ori, st.config, st.user)], rest))
  {
    BalanceAnswered(mode, ori, st, m, rest);
  }

  /** A key exchange accepted by `k`, then load balancing turned down by `m`: 'lb error' after both requests. */
  lemma KeyAcceptedLbRefusedRun(mode: nat, rpcMode: string, ori: Value, st: Sess, k: Value, m: Value, rest: seq<Reply>)
    requires SessOk(st) && !Check(st.status, LOGINED) && OpenIdDue(mode, st.status) && LbDue(mode, Set(st.status, OPEN_ID))
    requires st.replies == [Answer(k), Answer(m)] + rest && Truthy(k) && !Succeeded(m)
    ensures var v := st.user.Put("openid", Field(k, "unionid"));
      LoginRun(mode, rpcMode, ori, st) ==
      Run(Throw(LbError), [OpenIdStep, LbStep],
          Sess(0, LbConfig(st.config, ori, Ok(m)), v.Put("token", Null),
               st.sent + [OpenIdRequest(ori, st.config, st.user), LbRequest(ori, st.config, v)], rest))
  {
    var v := st.user.Put("openid", Field(k, "unionid"));
    assert st.replies == [Answer(k)] + ([Answer(m)] + rest);
    KeyAcceptedRun(mode, rpcMode, ori, st, k, [Answer(m)] + rest);
    var a := Sess(Set(st.status, OPEN_ID), st.config, v, st.sent + [OpenIdRequest(ori, st.config, st.user)], [Answer(m)] + rest);
    LbRefusedRun(mode, rpcMode, ori, a, m, rest);
    StepsChain(LoginRun(mode, rpcMode, ori, st), BalanceThenLast(mode, rpcMode, ori, a), OpenIdStep, LbStep,
               Sess(0, LbConfig(st.config, ori, Ok(m)), v.Put("token", Null), st.sent, rest),
               OpenIdRequest(ori, st.config, st.user), LbRequest(ori, st.config, v));
  }

  /**
   * Due load balancing accepted by `m`, then the token request answered
   * with `t`: the run returns whether `t` was accepted, after sending both
   * requests, the token request to the assigned server.
   */
  lemma LbAcceptedTokenRun(mode: nat, rpcMode: string, ori: Value, st: Sess, m: Value, t: Value, rest: seq<Reply>)
    requires SessOk(st) && LbDue(mode, st.status) && st.replies == [Answer(m), Answer(t)] + rest
    requires Succeeded(m) && Prop(Field(m, "data"), "ip").Some?
    requires !SignDue(mode, LB) && TokenReady(mode, LB) && Sends(rpcMode)
    ensures var c := LbConfig(st.config, ori, Ok(m));
      var v := st.user.Put("token", Null);
      BalanceThenLast(mode, rpcMode, ori, st) ==
      Run(Ok(TokenAccepted(t)), [LbStep, TokenStep],
          Sess(if TokenAccepted(t) then Set(LB, LOGINED) else LB, c, if TokenAccepted(t) then LoggedInInfo(v, t) else v,
               st.sent + [LbRequest(ori, st.config, st.user)] + Outgoing(rpcMode, c, TokenParams(v.ToValue())), rest))
  {
    assert st.replies == [Answer(m)] + ([Answer(t)] + rest);
    BalanceAnswered(mode, ori, st, m, [Answer(t)] + rest);
    var b := Balance(mode, ori, st);
    TokenAnswered(mode, rpcMode, b.after, t, rest);
    BalanceThenLastComposes(mode, rpcMode, ori, st, b, LastStep(mode, rpcMode, b.after));
  }

  /**
   * Due load balancing accepted by `m`, then a due signature request
   * answered with a falsy `g`: the run throws 'get sign error' after
   * sending both requests, the LB bit kept.
   */
  lemma LbAcceptedSignRefusedRun(mode: nat, rpcMode: string, ori: Value, st: Sess, m: Value, g: Value, rest: seq<Reply>)
    requires SessOk(st) && LbDue(mode, st.status) && st.replies == [Answer(m), Answer(g)] + rest
    requires Succeeded(m) && Prop(Field(m, "data"), "ip").Some? && SignDue(mode, LB) && !Truthy(g)
    ensures var c := LbConfig(st.config, ori, Ok(m));
      var v := st.user.Put("token", Null);
      BalanceThenLast(mode, rpcMode, ori, st) ==
      Run(Throw(GetSignError), [LbStep, SignStep], Sess(LB, c, v, st.sent + [LbRequest(ori, st.config, st.user)] + [SignRequest(c, v)], rest))
  {
    assert st.replies == [Answer(m)] + ([Answer(g)] + rest);
    BalanceAnswered(mode, ori, st, m, [Answer(g)] + rest);
    var b := Balance(mode, ori, st);
    SignAnswered(mode, rpcMode, b.after, g, rest);
    BalanceThenLastComposes(mode, rpcMode, ori, st, b, LastStep(mode, rpcMode, b.after));
  }

  /**
   * A falsy reply to a due key exchange ends the run with 'keyId error':
   * the exchange request is the only one sent, and the mask and identity
   * are unchanged.
   */
  lemma KeyIdErrorRun(mode: nat, rpcMode: string, ori: Value, s: nat, cfg: Value, u: Props, sent: seq<Request>,
                      k: Value, rest: seq<Reply>)
    requires ConfigOk(cfg) && u.Valid()
    requires !Check(s, LOGINED) && OpenIdDue(mode, s) && !Truthy(k)
    ensures LoginRun(mode, rpcMode, ori, Sess(s, cfg, u, sent, [Answer(k)] + rest)) ==
            Run(Throw(KeyIdError), [OpenIdStep], Sess(s, cfg, u, sent + [OpenIdRequest(ori, cfg, u)], rest))
  {
    assert Rest([Answer(k)] + rest) == rest;
  }

  /** With no reply left, a due key exchange sends its request and propagates the failed fetch. */
  lemma KeyExchangeUnanswered(mode: nat, rpcMode: string, ori: Value, s: nat, cfg: Value, u: Props, sent: seq<Request>)
    requires ConfigOk(cfg) && u.Valid()
    requires !Check(s, LOGINED) && OpenIdDue(mode, s)
    ensures LoginRun(mode, rpcMode, ori, Sess(s, cfg, u, sent, [])) ==
            Run(Throw(TransportFailure), [OpenIdStep], Sess(s, cfg, u, sent + [OpenIdRequest(ori, cfg, u)], []))
  {
  }

  /**
   * A fresh WeChat login whose key exchange succeeds and whose load
   * balancing is turned down ends with 'lb error' and an empty mask; the
   * exchange and balancing requests are sent, the `openid` is stored, the
   * token cleared and the configuration left at the bootstrap server.
   */
  lemma AuthWxLbErrorRun(mode: nat, rpcMode: string, ori: Value, s: nat, cfg: Value, u: Props, sent: seq<Request>,
                         k: Value, m: Value, rest: seq<Reply>)
    requires ConfigOk(cfg) && u.Valid()
    requires AuthWxRequirements(mode) && NoProgress(s) && Truthy(k) && !Succeeded(m)
    ensures var v := u.Put("openid", Field(k, "unionid"));
      LoginRun(mode, rpcMode, ori, Sess(s, cfg, u, sent, [Answer(k), Answer(m)] + rest)) ==
      Run(Throw(LbError), [OpenIdStep, LbStep],
          Sess(0, LbConfig(cfg, ori, Ok(m)), v.Put("token", Null),
               sent + [OpenIdRequest(ori, cfg, u), LbRequest(ori, cfg, v)], rest))
  {
    AuthWxFreshMasks(mode, s);
    KeyAcceptedLbRefusedRun(mode, rpcMode, ori, Sess(s, cfg, u, sent, [Answer(k), Answer(m)] + rest), k, m, rest);
  }

  /**
   * A fresh two-stage login whose load balancing succeeds and whose
   * signature reply is falsy ends with 'get sign error', the LB bit kept,
   * the balancing and signature requests sent, the token cleared, no
   * `auth` stored and the configuration moved to the assigned server.
   */
  lemma Auth2StepSignErrorRun(mode: nat, rpcMode: string, ori: Value, s: nat, cfg: Value, u: Props, sent: seq<Request>,
                              m: Value, g: Value, rest: seq<Reply>)
    requires ConfigOk(cfg) && u.Valid()
    requires Auth2StepRequirements(mode) && NoProgress(s)
    requires Succeeded(m) && Prop(Field(m, "data"), "ip").Some? && !Truthy(g)
    ensures var c := LbConfig(cfg, ori, Ok(m));
      var v := u.Put("token", Null);
      LoginRun(mode, rpcMode, ori, Sess(s, cfg, u, sent, [Answer(m), Answer(g)] + rest)) ==
      Run(Throw(GetSignError), [LbStep, SignStep],
          Sess(LB, c, v, sent + [LbRequest(ori, cfg, u), SignRequest(c, v)], rest))
  {
    Auth2StepFreshMasks(mode, s);
    var st := Sess(s, cfg, u, sent, [Answer(m), Answer(g)] + rest);
    assert !Check(s, LOGINED) && KeyExchange(mode, ori, st) == Phase(None, st);
    LbAcceptedSignRefusedRun(mode, rpcMode, ori, st, m, g, rest);
    LoginRunComposes(mode, rpcMode, ori, st, Phase(None, st), BalanceThenLast(mode, rpcMode, ori, st));
    AppendTwo(sent, LbRequest(ori, cfg, u), SignRequest(LbConfig(cfg, ori, Ok(m)), u.Put("token", Null)));
  }

  /**
   * A fresh WeChat login whose key exchange and load balancing succeed
   * sends the exchange, balancing and token requests, the token request to
   * the assigned server; the run returns whether the token reply was
   * accepted, and only an accepted one sets the logged-in bit and stores
   * the issued identity.
   */
  lemma AuthWxTokenRun(mode: nat, rpcMode: string, ori: Value, s: nat, cfg: Value, u: Props, sent: seq<Request>,
                       k: Value, m: Value, t: Value, rest: seq<Reply>)
    requires ConfigOk(cfg) && u.Valid()
    requires AuthWxRequirements(mode) && NoProgress(s) && Sends(rpcMode)
    requires Truthy(k) && Succeeded(m) && Prop(Field(m, "data"), "ip").Some?
    ensures var v1 := u.Put("openid", Field(k, "unionid"));
      var v := v1.Put("token", Null);
      var c := LbConfig(cfg, ori, Ok(m));
      LoginRun(mode, rpcMode, ori, Sess(s, cfg, u, sent, [Answer(k), Answer(m), Answer(t)] + rest)) ==
      Run(Ok(TokenAccepted(t)), [OpenIdStep, LbStep, TokenStep],
          Sess(if TokenAccepted(t) then Set(LB, LOGINED) else LB, c,
               if TokenAccepted(t) then LoggedInInfo(v, t) else v,
               sent + [OpenIdRequest(ori, cfg, u), LbRequest(ori, cfg, v1)] + Outgoing(rpcMode, c, TokenParams(v.ToValue())),
               rest))
  {
    AuthWxFreshMasks(mode, s);
    var v1 := u.Put("openid", Field(k, "unionid"));
    var st := Sess(s, cfg, u, sent, [Answer(k), Answer(m), Answer(t)] + rest);
    assert st.replies == [Answer(k)] + ([Answer(m), Answer(t)] + rest);
    KeyAcceptedRun(mode, rpcMode, ori, st, k, [Answer(m), Answer(t)] + rest);
    var a := Sess(Set(s, OPEN_ID), cfg, v1, sent + [OpenIdRequest(ori, cfg, u)], [Answer(m), Answer(t)] + rest);
    LbAcceptedTokenRun(mode, rpcMode, ori, a, m, t, rest);
    AppendTwo(sent, OpenIdRequest(ori, cfg, u), LbRequest(ori, cfg, v1));
    PrependOne(OpenIdStep, LbStep, TokenStep);
  }

  /**
   * A run that only has the token request left, given a turned-down token
   * reply, sends that request, returns false and leaves the mask, the
   * configuration and the identity as they were.
   */
  lemma TokenRejectedRun(mode: nat, rpcMode: string, ori: Value, s: nat, cfg: Value, u: Props, sent: seq<Request>,
                         t: Value, rest: seq<Reply>)
    requires ConfigOk(cfg) && u.Valid()
    requires !Check(s, LOGINED) && !OpenIdDue(mode, s) && !LbDue(mode, s) && !SignDue(mode, s)
    requires TokenReady(mode, s) && Sends(rpcMode) && !TokenAccepted(t)
    ensures LoginRun(mode, rpcMode, ori, Sess(s, cfg, u, sent, [Answer(t)] + rest)) ==
            Run(Ok(false), [TokenStep], Sess(s, cfg, u, sent + Outgoing(rpcMode, cfg, TokenParams(u.ToValue())), rest))
  {
    assert Rest([Answer(t)] + rest) == rest;
  }

  /**
   * `onAuthCode` after a first two-stage login sends only the token
   * request and returns whether its reply was accepted; the configuration
   * stays, and an accepted reply stores the issued identity.
   */
  lemma Auth2StepCodeRun(mode: nat, rpcMode: string, ori: Value, cfg: Value, u: Props, sent: seq<Request>,
                         t: Value, rest: seq<Reply>)
    requires ConfigOk(cfg) && u.Valid()
    requires Auth2StepRequirements(mode) && Sends(rpcMode)
    ensures var s := Set(SignedStatus, SIGN_CODE);
      LoginRun(mode, rpcMode, ori, Sess(s, cfg, u, sent, [Answer(t)] + rest)) ==
      Run(Ok(TokenAccepted(t)), [TokenStep],
          Sess(if TokenAccepted(t) then Set(s, LOGINED) else s, cfg, if TokenAccepted(t) then LoggedInInfo(u, t) else u,
               sent + Outgoing(rpcMode, cfg, TokenParams(u.ToValue())), rest))
  {
    var s := Set(SignedStatus, SIGN_CODE);
    assert !Check(s, LOGINED) && Check(s, LB) && Check(s, SIGN) && Check(s, SIGN_CODE);
    assert Rest([Answer(t)] + rest) == rest;
  }

  /**
   * In the WebSocket mode the token request is turned down before anything
   * is sent: the run throws, nothing is consumed and nothing goes out.
   */
  lemma WebSocketModeRejected(mode: nat, ori: Value, st: Sess, p: Props)
    requires SessOk(st)
    requires !Check(st.status, LOGINED) && !OpenIdDue(mode, st.status) && !LbDue(mode, st.status) && !SignDue(mode, st.status)
    requires TokenReady(mode, st.status)
    ensures LoginRun(mode, MODE_WS, ori, st) == Run(Throw(Rejected), [TokenStep], st)
    ensures Outgoing(MODE_WS, st.config, p) == []
  {
  }

  /** On a truthy reply with a numeric code, success is the code `ReturnCode.Success`. */
  lemma SucceededOnNumericCode(msg: Value, n: int)
    requires Truthy(msg) && Field(msg, "code") == Num(n)
    ensures Succeeded(msg) <==> n == SUCCESS
  {
  }

  // ------------------------------------------------------------- Remote

  class Remote {
    var rpcMode: string
    var loginMode: nat
    var status: nat
    const configOri: Value
    var config: Value
    var userInfo: JsObject
    const net: Http
    /** `encodeURIComponent` and `JSON.stringify`, left uninterpreted. */
    const enc: string -> string
    const json: Value -> string
    /** The login steps that have issued a request, in order. */
    ghost var trace: seq<Step>

    ghost predicate Valid()
      reads this, userInfo
    {
      ConfigOk(configOri) && ConfigOk(config) && userInfo.Valid()
    }

    /** `this.userInfo` as a JSON value. */
    function User(): Value
      reads this, userInfo
    {
      userInfo.props.ToValue()
    }

    /** The progress mask, the working configuration, the identity, the requests sent and the replies still to come. */
    function State(): Sess
      reads this, userInfo, net
    {
      Sess(status, config, userInfo.props, net.sent, net.replies)
    }

    constructor (options: Value, net: Http, enc: string -> string, json: Value -> string)
      requires ConfigOk(options)
      ensures Valid() && fresh(userInfo)
      ensures rpcMode == MODE_POST && loginMode == 0 && status == StatusSeed(options)
      ensures configOri == options && config == options && userInfo.props == EmptyProps
      ensures this.net == net && this.enc == enc && this.json == json && trace == []
    {
      rpcMode := MODE_POST;
      loginMode := Indicator.Init();
      configOri := options;
      config := Clone(options);
      userInfo := new JsObject(EmptyProps);
      status := Indicator.Init(StatusSeed(options));
      this.net := net;
      this.enc := enc;
      this.json := json;
      trace := [];
    }

    method SetMode(mode: string)
      modifies this`rpcMode
      ensures rpcMode == mode
    {
      rpcMode := mode;
    }

    /** `clearCache()`: the token is nulled, nothing else. */
    method ClearCache()
      requires Valid()
      modifies userInfo
      ensures Valid() && userInfo.props == old(userInfo.props).Put("token", Null)
    {
      userInfo.Put("token", Null);
    }

    /** `setSign(code)`: only when the variant requires a signature. */
    method SetSign(code: Value)
      requires Valid()
      modifies this`status, userInfo
      ensures Valid()
      ensures Check(loginMode, REQ_SIGN) ==>
        status == Set(old(status), SIGN_CODE) && userInfo.props == old(userInfo.props).Put("openkey", code)
      ensures !Check(loginMode, REQ_SIGN) ==>
        status == old(status) && userInfo.props == old(userInfo.props)
    {
      if Check(loginMode, REQ_SIGN) {
        status := Set(status, SIGN_CODE);
        userInfo.Put("openkey", code);
      }
    }

    /** `setUserInfo(ui, st)`: token cleared, requirements replaced when `st` is non-zero, `ui` merged shallowly. */
    method SetUserInfo(ui: Value, st: nat)
      requires Valid()
      modifies this`loginMode, userInfo
      ensures Valid()
      ensures loginMode == if st != 0 then st else old(loginMode)
      ensures userInfo.props.fields == MergeOne(old(userInfo.props).Put("token", Null).fields, ui, false)
    {
      ClearCache();
      if st != 0 {
        loginMode := Indicator.Init(st);
      }
      var merged := ExtendObj(false, userInfo, [ui]);
      assert [ui][..1] == [ui];
    }

    /** `locate(ip, port)`. */
    method Locate(ip: Value, port: Value)
      requires Valid()
      modifies this`config
      ensures Valid() && config == Relocate(old(config), ip, port)
    {
      config := Relocate(config, ip, port);
    }

    /** `init()`: fresh configuration copy and identity, both masks zero. */
    method Init()
      requires Valid()
      modifies this`config, this`userInfo, this`status, this`loginMode
      ensures Valid() && fresh(userInfo)
      ensures config == configOri && userInfo.props == EmptyProps && status == 0 && loginMode == 0
    {
      config := Clone(configOri);
      userInfo := new JsObject(EmptyProps);
      status := Indicator.Init();
      loginMode := Indicator.Init();
    }

    /** `get new()`: a sibling sharing only the original configuration and the transport mode. */
    method New() returns (r: Remote)
      requires Valid()
      ensures fresh(r) && fresh(r.userInfo) && r.Valid()
      ensures r.configOri == configOri && r.config == configOri && r.rpcMode == rpcMode
      ensures r.loginMode == 0 && r.status == StatusSeed(configOri) && r.userInfo.props == EmptyProps
      ensures r.trace == []
    {
      r := new Remote(configOri, net, enc, json);
      r.SetMode(rpcMode);
    }

    /** `parseParams(params)`; false where the `split` call would throw. */
    method ParseParams(params: JsObject) returns (ok: bool)
      requires Valid() && params.Valid() && params != userInfo
      modifies params
      ensures params.Valid()
      ensures ok == ParseSpec(old(params.props), User()).Some?
      ensures params.props == Parsed(old(params.props), User())
    {
      var f0 := params.props.Get("func");
      if Truthy(f0) && !f0.Str? {
        return false;
      }
      var arr: seq<string>;
      if Truthy(f0) {
        params.Put("func", f0);
        arr := Split(f0.s, '.');
      } else {
        params.Put("func", Str(DefaultCommand));
        // the pieces of 'index.login' (DefaultCommandPieces)
        arr := [DefaultControl, DefaultFunc];
      }
      if |arr| > 1 {
        params.Put("control", Str(arr[0]));
        params.Put("func", Str(arr[1]));
      } else {
        params.Put("func", Str(arr[0]));
      }
      params.Put("oemInfo", User());
      ok := true;
    }

    /** `getRequest(params, authControl)`. */
    method GetRequest(params: JsObject, authControl: Value) returns (r: Ret<Value>)
      requires Valid() && params.Valid() && params != userInfo
      modifies params, net
      ensures params.Valid() && params.props == Parsed(old(params.props), User())
      ensures ParseSpec(old(params.props), User()).None? ==>
        r == Throw(TypeError) && net.sent == old(net.sent) && net.replies == old(net.replies)
      ensures ParseSpec(old(params.props), User()).Some? ==>
        net.sent == old(net.sent) + [GetReq(Target(config, params.props, authControl))] &&
        net.replies == Rest(old(net.replies)) && r == GetOutcome(old(net.replies))
    {
      var ok := ParseParams(params);
      if !ok {
        return Throw(TypeError);
      }
      r := net.Get(Target(config, params.props, authControl));
    }

    /** `postRequest(params, authControl)`. */
    method PostRequest(params: JsObject, authControl: Value) returns (r: Ret<Value>)
      requires Valid() && params.Valid() && params != userInfo
      modifies params, net
      ensures params.Valid() && params.props == Parsed(old(params.props), User())
      ensures ParseSpec(old(params.props), User()).None? ==>
        r == Throw(TypeError) && net.sent == old(net.sent) && net.replies == old(net.replies)
      ensures ParseSpec(old(params.props), User()).Some? ==>
        net.sent == old(net.sent) + [PostReq(Target(config, params.props, authControl), params.props.ToValue())] &&
        net.replies == Rest(old(net.replies)) && r == Ok(PostOutcome(old(net.replies)))
    {
      var ok := ParseParams(params);
      if !ok {
        return Throw(TypeError);
      }
      var v := net.Post(Target(config, params.props, authControl), params.props.ToValue());
      r := Ok(v);
    }

    /**
     * The gateway request shared by `getOpenId` and `getSign`: one GET with
     * fresh parameters `p` (which carry no `func`) to the identity's domain.
     */
    method AskGateway(p: Props) returns (got: Ret<Value>)
      requires Valid() && p.Valid() && !Truthy(p.Get("func"))
      modifies net
      ensures Valid() && userInfo.props == old(userInfo.props)
      ensures net.sent == old(net.sent) + [GetReq(Target(config, Parsed(p, User()), Domain(User())))]
      ensures net.replies == Rest(old(net.replies)) && got == GetOutcome(old(net.replies))
    {
      var params := new JsObject(p);
      got := GetRequest(params, userInfo.props.Get("domain"));
    }

    /** `getOpenId()`: the exchange key is traded for `openid` at the auth port. */
    method GetOpenId() returns (r: Ret<bool>)
      requires Valid()
      modifies userInfo, net, this`trace
      ensures Valid() && trace == old(trace) + [OpenIdStep]
      ensures var w := GatewayWire(OpenIdParams(configOri, old(userInfo.props)), old(User()));
        net.sent == old(net.sent) + [GetReq(Target(config, w, Domain(old(User()))))] &&
        net.replies == Rest(old(net.replies))
      ensures GetOutcome(old(net.replies)).Throw? ==>
        r == Throw(TransportFailure) && userInfo.props == old(userInfo.props)
      ensures GetOutcome(old(net.replies)).Ok? ==>
        var msg := GetOutcome(old(net.replies)).value;
        r == Ok(Truthy(msg)) &&
        userInfo.props == if Truthy(msg) then old(userInfo.props).Put("openid", Field(msg, "unionid")) else old(userInfo.props)
    {
      trace := trace + [OpenIdStep];
      OpenIdParamsParsed(configOri, userInfo.props);
      GatewayParamsShape(configOri, userInfo.props);
      var got := AskGateway(OpenIdParams(configOri, userInfo.props));
      if got.Ok? && Truthy(got.value) {
        userInfo.Put("openid", Field(got.value, "unionid"));
      }
      r := if got.Throw? then Throw(got.error) else Ok(Truthy(got.value));
    }

    /** `getSign()`: the signature payload is stored as `auth`. */
    method GetSign() returns (r: Ret<bool>)
      requires Valid()
      modifies userInfo, net, this`trace
      ensures Valid() && trace == old(trace) + [SignStep]
      ensures var w := GatewayWire(SignParams(old(userInfo.props)), old(User()));
        net.sent == old(net.sent) + [GetReq(Target(config, w, Domain(old(User()))))] &&
        net.replies == Rest(old(net.replies))
      ensures GetOutcome(old(net.replies)).Throw? ==>
        r == Throw(TransportFailure) && userInfo.props == old(userInfo.props)
      ensures GetOutcome(old(net.replies)).Ok? ==>
        var msg := GetOutcome(old(net.replies)).value;
        r == Ok(Truthy(msg)) &&
        userInfo.props == if Truthy(msg) then old(userInfo.props).Put("auth", msg) else old(userInfo.props)
    {
      trace := trace + [SignStep];
      SignParamsParsed(userInfo.props);
      GatewayParamsShape(configOri, userInfo.props);
      var got := AskGateway(SignParams(userInfo.props));
      if got.Ok? && Truthy(got.value) {
        userInfo.Put("auth", got.value);
      }
      r := if got.Throw? then Throw(got.error) else Ok(Truthy(got.value));
    }

    /**
     * `setLB(force)`: unless already balanced, reset progress, ask the
     * bootstrap server (from the original configuration) for an assigned
     * server, and redirect the working configuration there.
     */
    method SetLB(force: bool) returns (r: Ret<bool>)
      requires Valid()
      modifies this`status, this`config, this`trace, userInfo, net
      ensures Valid()
      ensures !force && Check(old(status), LB) ==>
        r == Ok(true) && status == old(status) && config == old(config) && trace == old(trace) &&
        userInfo.props == old(userInfo.props) && net.sent == old(net.sent) && net.replies == old(net.replies)
      ensures !(!force && Check(old(status), LB)) ==>
        var u := old(userInfo.props).Put("token", Null);
        var boot := Relocate(old(config), Field(WebServer(configOri), "host"), Field(WebServer(configOri), "port"));
        trace == old(trace) + [LbStep] && userInfo.props == u &&
        net.sent == old(net.sent) + [GetReq(Target(boot, LbWire(u), Undefined))] &&
        net.replies == Rest(old(net.replies))
      ensures !(!force && Check(old(status), LB)) ==>
        var boot := Relocate(old(config), Field(WebServer(configOri), "host"), Field(WebServer(configOri), "port"));
        var reply := GetOutcome(old(net.replies));
        (reply.Throw? ==> r == Throw(TransportFailure) && status == 0 && config == boot) &&
        (reply.Ok? && !Succeeded(reply.value) ==> r == Ok(false) && status == 0 && config == boot) &&
        (reply.Ok? && Succeeded(reply.value) ==>
          var data := Field(reply.value, "data");
          status == LB &&
          (Prop(data, "ip").None? ==> r == Throw(TypeError) && config == boot) &&
          (Prop(data, "ip").Some? ==> r == Ok(true) && config == Relocate(boot, Field(data, "ip"), Field(data, "port"))))
    {
      if !force && Check(status, LB) {
        return Ok(true);
      }
      ClearCache();
      status := Indicator.Init();
      trace := trace + [LbStep];
      Locate(Field(WebServer(configOri), "host"), Field(WebServer(configOri), "port"));
      LbWireParams(userInfo.props);
      var params := new JsObject(LbParams(userInfo.props));
      var got := GetRequest(params, Undefined);
      if got.Throw? {
        return Throw(got.error);
      }
      var msg := got.value;
      if Succeeded(msg) {
        status := Set(status, LB);
        var data := Field(msg, "data");
        if data.Undefined? || data.Null? {
          return Throw(TypeError);
        }
        Locate(Field(data, "ip"), Field(data, "port"));
        return Ok(true);
      }
      r := Ok(false);
    }

    /**
     * The `await this.setLB()` of `fetching`: its result is dropped, an
     * exception propagates.
     */
    method Preflight() returns (r: Ret<bool>)
      requires Valid()
      modifies this`status, this`config, this`trace, userInfo, net
      ensures Valid()
      ensures !Check(old(status), LB) ==>
        trace == old(trace) + [LbStep] && userInfo.props == old(userInfo.props).Put("token", Null) &&
        net.sent == old(net.sent) + [LbRequest(configOri, old(config), old(userInfo.props))] &&
        net.replies == Rest(old(net.replies)) && (r.Ok? ==> r.value == Check(status, LB))
      ensures LbDue(loginMode, old(status)) ==>
        var b := Balance(loginMode, configOri, old(State()));
        State() == b.after && (r.Throw? <==> Fatal(b.error)) && (r.Throw? ==> r.error == b.error.value)
    {
      r := SetLB(false);
      if r.Ok? {
        SingleBitFacts();
        assert LB == Pow2(0);
      }
    }

    /** The `switch (this.rpcMode)` of `fetching`: GET, POST, or a rejection. */
    method Dispatch(params: JsObject) returns (r: Ret<Value>)
      requires Valid() && params.Valid() && params != userInfo
      requires ParseSpec(params.props, User()).Some?
      modifies params, net
      ensures params.Valid()
      ensures params.props == if Sends(rpcMode) then Parsed(old(params.props), User()) else old(params.props)
      ensures r == Dispatched(rpcMode, old(net.replies)) && net.replies == Consumed(rpcMode, old(net.replies))
      ensures net.sent == old(net.sent) + Outgoing(rpcMode, config, Parsed(old(params.props), User()))
    {
      if rpcMode == MODE_GET {
        r := GetRequest(params, Undefined);
      } else if rpcMode == MODE_POST {
        r := PostRequest(params, Undefined);
      } else {
        r := Throw(Rejected);
      }
    }

    /**
     * `fetching(params)`: parse, run the load-balancing pre-flight when the
     * variant requires it and it has not run, then dispatch by transport
     * mode (the dispatcher parses the parameters a second time).
     */
    method Fetching(params: JsObject) returns (r: Ret<Value>)
      requires Valid() && params.Valid() && params != userInfo
      modifies params, net, this`status, this`config, this`trace, userInfo
      ensures Valid() && params.Valid()
      ensures ParseSpec(old(params.props), old(User())).None? ==> params.props == old(params.props)
      ensures ParseSpec(old(params.props), old(User())).Some? ==>
        var once := Parsed(old(params.props), old(User()));
        var b := if LbDue(loginMode, old(status)) then Balance(loginMode, configOri, old(State())) else Phase(None, old(State()));
        params.props == if Fatal(b.error) || !Sends(rpcMode) then once else Parsed(once, b.after.user.ToValue())
      ensures ParseSpec(old(params.props), old(User())).None? ==>
        r == Throw(TypeError) && status == old(status) && config == old(config) && trace == old(trace) &&
        userInfo.props == old(userInfo.props) && net.sent == old(net.sent) && net.replies == old(net.replies)
      ensures ParseSpec(old(params.props), old(User())).Some? && LbDue(loginMode, old(status)) ==>
        var b := Balance(loginMode, configOri, old(State())).after;
        trace == old(trace) + [LbStep] && status == b.status && config == b.config && userInfo.props == b.user
      ensures ParseSpec(old(params.props), old(User())).Some? && LbDue(loginMode, old(status)) ==>
        var p := Balance(loginMode, configOri, old(State()));
        var lb := LbRequest(configOri, old(config), old(userInfo.props));
        (Fatal(p.error) ==> r == Throw(p.error.value) && net.sent == old(net.sent) + [lb] && net.replies == p.after.replies) &&
        (!Fatal(p.error) ==>
          var twice := Parsed(Parsed(old(params.props), old(User())), p.after.user.ToValue());
          r == Dispatched(rpcMode, p.after.replies) && net.replies == Consumed(rpcMode, p.after.replies) &&
          net.sent == old(net.sent) + [lb] + Outgoing(rpcMode, p.after.config, twice))
      ensures ParseSpec(old(params.props), old(User())).Some? && !LbDue(loginMode, old(status)) ==>
        var twice := Parsed(Parsed(old(params.props), old(User())), old(User()));
        status == old(status) && config == old(config) && trace == old(trace) &&
        userInfo.props == old(userInfo.props) && r == Dispatched(rpcMode, old(net.replies)) &&
        net.sent == old(net.sent) + Outgoing(rpcMode, config, twice) && net.replies == Consumed(rpcMode, old(net.replies))
    {
      var ok := ParseParams(params);
      if !ok {
        return Throw(TypeError);
      }
      ParseLeavesDotFreeFunc(old(params.props), User());
      if LbDue(loginMode, status) {
        var lb := Preflight();
        if lb.Throw? {
          return Throw(lb.error);
        }
      }
      r := Dispatch(params);
    }

    /** The issued identity of an accepted token reply is stored, and the session is logged in. */
    method StoreIssued(msg: Value)
      requires Valid()
      modifies this`status, userInfo
      ensures Valid()
      ensures status == Set(old(status), LOGINED) && userInfo.props == LoggedInInfo(old(userInfo.props), msg)
    {
      var d := Field(msg, "data");
      userInfo.Put("openid", Field(d, "openid"));
      userInfo.Put("id", Field(d, "id"));
      userInfo.Put("token", Field(d, "token"));
      userInfo.Put("name", Field(d, "name"));
      status := Set(status, LOGINED);
    }

    /** The token request of `getToken`: the identity goes out under the command '1000'. */
    method SendToken() returns (r: Ret<Value>)
      requires Valid() && !(Check(loginMode, REQ_LB) && !Check(status, LB))
      modifies net, this`status, this`config, this`trace, userInfo
      ensures Valid() && status == old(status) && config == old(config) && trace == old(trace)
      ensures userInfo.props == old(userInfo.props) && r == Dispatched(rpcMode, old(net.replies))
      ensures net.sent == old(net.sent) + Outgoing(rpcMode, config, TokenParams(old(User())))
      ensures net.replies == Consumed(rpcMode, old(net.replies))
    {
      TokenParamsParsed(User());
      var params := new JsObject(TokenParams(User()));
      r := Fetching(params);
    }

    /**
     * `getToken()`: when every required step is done and the session is
     * not logged in, send the identity; an accepted reply stores the
     * issued identity and sets the logged-in bit.
     */
    method GetToken() returns (r: Ret<bool>)
      requires Valid()
      modifies this`status, this`config, this`trace, userInfo, net
      ensures Valid() && config == old(config)
      ensures !TokenReady(loginMode, old(status)) ==>
        r == Ok(false) && status == old(status) && trace == old(trace) &&
        userInfo.props == old(userInfo.props) && net.sent == old(net.sent) && net.replies == old(net.replies)
      ensures TokenReady(loginMode, old(status)) ==>
        trace == old(trace) + [TokenStep] &&
        net.sent == old(net.sent) + Outgoing(rpcMode, config, TokenParams(old(User()))) &&
        net.replies == Consumed(rpcMode, old(net.replies))
      ensures TokenReady(loginMode, old(status)) ==>
        var reply := Dispatched(rpcMode, old(net.replies));
        (reply.Throw? ==> r == Throw(reply.error)) &&
        (reply.Ok? ==> r == Ok(TokenAccepted(reply.value))) &&
        (r == Ok(true) ==>
          status == Set(old(status), LOGINED) && userInfo.props == LoggedInInfo(old(userInfo.props), reply.value))
      ensures r != Ok(true) ==> status == old(status) && userInfo.props == old(userInfo.props)
    {
      if TokenReady(loginMode, status) {
        trace := trace + [TokenStep];
        var got := SendToken();
        if got.Ok? && TokenAccepted(got.value) {
          StoreIssued(got.value);
        }
        r := if got.Throw? then Throw(got.error) else Ok(TokenAccepted(got.value));
      } else {
        r := Ok(false);
      }
    }

    /**
     * The first half of `login(options)`: a forced login clears the token
     * and the progress mask; a known domain binds its identity fields and
     * requirement mask through `setUserInfo`; another truthy domain throws
     * 'Unknown domain name' (after the forced reset).
     */
    method BindIdentity(options: Value) returns (e: Option<Error>)
      requires Valid()
      modifies this`status, this`loginMode, userInfo
      ensures Valid()
      ensures e.Some? <==> BadDomain(options)
      ensures e.Some? ==> e.value == UnknownDomain
      ensures status == StartStatus(options, old(status)) && loginMode == ModeFor(options, old(loginMode))
      ensures var u1 := if Forced(options) then old(userInfo.props).Put("token", Null) else old(userInfo.props);
        userInfo.props.fields ==
          if Truthy(Domain(options)) && !BadDomain(options) then MergeOne(u1.Put("token", Null).fields, IdentityOf(options), false)
          else u1.fields
      ensures !Forced(options) && !(Truthy(Domain(options)) && !BadDomain(options)) ==> userInfo.props == old(userInfo.props)
    {
      ForceReset(options);
      e := BindDomain(options);
    }

    /** `options.force`: the token and the progress mask are cleared. */
    method ForceReset(options: Value)
      requires Valid()
      modifies this`status, userInfo
      ensures Valid() && status == StartStatus(options, old(status))
      ensures userInfo.props == if Forced(options) then old(userInfo.props).Put("token", Null) else old(userInfo.props)
    {
      if Forced(options) {
        ClearCache();
        status := Indicator.Init();
      }
    }

    /** `switch (options.domain)`: a known domain binds its identity and requirements, another truthy one is an error. */
    method BindDomain(options: Value) returns (e: Option<Error>)
      requires Valid()
      modifies this`loginMode, userInfo
      ensures Valid()
      ensures e.Some? <==> BadDomain(options)
      ensures e.Some? ==> e.value == UnknownDomain
      ensures loginMode == ModeFor(options, old(loginMode))
      ensures Truthy(Domain(options)) && !BadDomain(options) ==>
        userInfo.props.fields == MergeOne(old(userInfo.props).Put("token", Null).fields, IdentityOf(options), false)
      ensures !(Truthy(Domain(options)) && !BadDomain(options)) ==> userInfo.props == old(userInfo.props)
    {
      e := None;
      var d := Domain(options);
      if Truthy(d) {
        VariantMasks();
        if d == Str("authwx") {
          SetUserInfo(IdentityOf(options), Set(REQ_LB, REQ_OPEN_ID));
        } else if d == Str("auth2step") {
          SetUserInfo(IdentityOf(options), Set(REQ_LB, REQ_SIGN));
        } else {
          e := Some(UnknownDomain);
        }
      }
    }

    /** The key-exchange step of `login`: when due, `getOpenId`; success sets the OpenId bit. */
    method OpenIdPhase() returns (e: Option<Error>)
      requires Valid()
      modifies userInfo, net, this`trace, this`status
      ensures Valid() && trace == old(trace) + OpenIdSteps(loginMode, old(status))
      ensures KeyExchange(loginMode, configOri, old(State())) == Phase(e, State())
      ensures !OpenIdDue(loginMode, old(status)) ==> net.sent == old(net.sent)
    {
      e := None;
      if OpenIdDue(loginMode, status) {
        var got := GetOpenId();
        if got.Throw? {
          e := Some(got.error);
        } else if !got.value {
          e := Some(KeyIdError);
        } else {
          status := Set(status, OPEN_ID);
        }
      }
    }

    /**
     * The load-balancing step of `login`: when due, `setLB()`; a false
     * result is an 'lb error'. The step leaves only the LB bit on success
     * and an empty mask on a failed reply.
     */
    method LbPhase() returns (e: Option<Error>)
      requires Valid()
      modifies this`status, this`config, this`trace, userInfo, net
      ensures Valid() && trace == old(trace) + LbSteps(loginMode, old(status))
      ensures Balance(loginMode, configOri, old(State())) == Phase(e, State())
      ensures LbDue(loginMode, old(status)) ==> net.sent == old(net.sent) + [LbRequest(configOri, old(config), old(userInfo.props))]
      ensures !LbDue(loginMode, old(status)) ==> net.sent == old(net.sent)
    {
      e := None;
      if LbDue(loginMode, status) {
        var got := SetLB(false);
        if got.Throw? {
          e := Some(got.error);
        } else if !got.value {
          e := Some(LbError);
        } else {
          status := Set(status, LB);
        }
      }
    }

    /** The last step of `login`: the signature request when due, else `getToken()`. */
    method Finish() returns (r: Ret<bool>)
      requires Valid()
      modifies this`status, this`config, this`trace, userInfo, net
      ensures Valid() && trace == old(trace) + FinalSteps(loginMode, old(status))
      ensures LastStep(loginMode, rpcMode, old(State())) == Run(r, FinalSteps(loginMode, old(status)), State())
      ensures !SignDue(loginMode, old(status)) && !TokenReady(loginMode, old(status)) ==> net.sent == old(net.sent)
      ensures !SignDue(loginMode, old(status)) && TokenReady(loginMode, old(status)) && Sends(rpcMode) ==>
        CarriesOpenKey(net.sent, old(userInfo.props).Get("openkey"))
    {
      if SignDue(loginMode, status) {
        r := SignPhase();
      } else {
        r := TokenPhase();
      }
    }

    /** The signature request of `login`: a falsy reply is a 'get sign error', success sets the Sign bit. */
    method SignPhase() returns (r: Ret<bool>)
      requires Valid() && SignDue(loginMode, status)
      modifies this`status, userInfo, net, this`trace
      ensures Valid() && trace == old(trace) + [SignStep]
      ensures LastStep(loginMode, rpcMode, old(State())) == Run(r, [SignStep], State())
    {
      var got := GetSign();
      if got.Throw? {
        r := Throw(got.error);
      } else if !got.value {
        r := Throw(GetSignError);
      } else {
        status := Set(status, SIGN);
        r := Ok(true);
      }
    }

    /** The token request of `login`, whose parameters carry the identity's `openkey`. */
    method TokenPhase() returns (r: Ret<bool>)
      requires Valid() && !SignDue(loginMode, status)
      modifies this`status, this`config, this`trace, userInfo, net
      ensures Valid() && trace == old(trace) + FinalSteps(loginMode, old(status))
      ensures LastStep(loginMode, rpcMode, old(State())) == Run(r, FinalSteps(loginMode, old(status)), State())
      ensures !TokenReady(loginMode, old(status)) ==> net.sent == old(net.sent)
      ensures TokenReady(loginMode, old(status)) && Sends(rpcMode) ==>
        CarriesOpenKey(net.sent, old(userInfo.props).Get("openkey"))
    {
      r := GetToken();
      if TokenReady(loginMode, old(status)) && Sends(rpcMode) {
        TokenCarriesOpenKey(rpcMode, old(net.sent), config, old(userInfo.props));
      }
    }

    /** Load balancing and then, unless it threw, the last step. */
    method BalanceAndFinish() returns (r: Ret<bool>, ghost steps: seq<Step>)
      requires Valid()
      modifies this`status, this`config, this`trace, userInfo, net
      ensures Valid() && trace == old(trace) + steps
      ensures BalanceThenLast(loginMode, rpcMode, configOri, old(State())) == Run(r, steps, State())
      ensures TokenStep in steps && Sends(rpcMode) ==> CarriesOpenKey(net.sent, old(userInfo.props).Get("openkey"))
    {
      ghost var st := State();
      var e := LbPhase();
      ghost var b := Phase(e, State());
      if e.Some? {
        r, steps := Throw(e.value), LbSteps(loginMode, old(status));
        BalanceThenLastComposes(loginMode, rpcMode, configOri, st, b, Run(r, [], State()));
      } else {
        ghost var s2 := status;
        r := Finish();
        steps := LbSteps(loginMode, old(status)) + FinalSteps(loginMode, s2);
        AppendAssoc(old(trace), LbSteps(loginMode, old(status)), FinalSteps(loginMode, s2));
        BalanceThenLastComposes(loginMode, rpcMode, configOri, st, b, Run(r, FinalSteps(loginMode, s2), State()));
      }
      if Sends(rpcMode) {
        BalanceThenLastCarriesOpenKey(loginMode, rpcMode, configOri, st);
      }
    }

    /** The second half of `login`: nothing once logged in, else the steps in protocol order. */
    method RunSteps() returns (r: Ret<bool>, ghost steps: seq<Step>)
      requires Valid()
      modifies this`status, this`config, this`trace, userInfo, net
      ensures Valid() && trace == old(trace) + steps
      ensures LoginRun(loginMode, rpcMode, configOri, old(State())) == Run(r, steps, State())
      ensures LoginOutcome(loginMode, old(status), steps, r, status)
      ensures userInfo.props.Get("openkey") == old(userInfo.props).Get("openkey")
      ensures userInfo.props.Get("domain") == old(userInfo.props).Get("domain")
      ensures TokenStep in steps && Sends(rpcMode) ==> CarriesOpenKey(net.sent, old(userInfo.props).Get("openkey"))
      ensures Check(old(status), LOGINED) ==>
        net.sent == old(net.sent) && config == old(config) && userInfo.props == old(userInfo.props)
    {
      if Check(status, LOGINED) {
        r, steps := Ok(false), [];
      } else {
        r, steps := RunPlanned();
      }
      LoginRunOutcome(loginMode, rpcMode, configOri, old(State()));
      LoginRunKeepsOthers(loginMode, rpcMode, configOri, old(State()), "openkey");
      LoginRunKeepsOthers(loginMode, rpcMode, configOri, old(State()), "domain");
    }

    /** The steps of a login that is not yet logged in, in protocol order. */
    method RunPlanned() returns (r: Ret<bool>, ghost steps: seq<Step>)
      requires Valid() && !Check(status, LOGINED)
      modifies this`status, this`config, this`trace, userInfo, net
      ensures Valid() && trace == old(trace) + steps
      ensures LoginRun(loginMode, rpcMode, configOri, old(State())) == Run(r, steps, State())
      ensures TokenStep in steps && Sends(rpcMode) ==> CarriesOpenKey(net.sent, old(userInfo.props).Get("openkey"))
    {
      KeyExchangeKeeps(loginMode, configOri, State(), "openkey");
      ghost var st := State();
      var e := OpenIdPhase();
      ghost var a := Phase(e, State());
      if e.Some? {
        r, steps := Throw(e.value), OpenIdSteps(loginMode, old(status));
        LoginRunComposes(loginMode, rpcMode, configOri, st, a, Run(r, [], State()));
      } else {
        ghost var later: seq<Step>;
        r, later := BalanceAndFinish();
        steps := OpenIdSteps(loginMode, old(status)) + later;
        AppendAssoc(old(trace), OpenIdSteps(loginMode, old(status)), later);
        LoginRunComposes(loginMode, rpcMode, configOri, st, a, Run(r, later, State()));
      }
      if Sends(rpcMode) {
        LoginRunCarriesOpenKey(loginMode, rpcMode, configOri, st);
      }
    }

    /**
     * `login(options)`: bind the identity, then run the steps from the
     * resulting masks; an unknown domain throws before any step.
     */
    method Login(options: Value) returns (r: Ret<bool>, ghost steps: seq<Step>, ghost bound: Props)
      requires Valid()
      modifies this`status, this`loginMode, this`config, this`trace, userInfo, net
      ensures Valid() && trace == old(trace) + steps
      ensures loginMode == ModeFor(options, old(loginMode))
      ensures BadDomain(options) ==>
        r == Throw(UnknownDomain) && steps == [] && status == StartStatus(options, old(status)) &&
        net.sent == old(net.sent) && net.replies == old(net.replies) && config == old(config) &&
        (!Forced(options) ==> status == old(status) && userInfo.props == old(userInfo.props))
      ensures bound.Valid()
      ensures var u1 := if Forced(options) then old(userInfo.props).Put("token", Null) else old(userInfo.props);
        bound.fields ==
          if Truthy(Domain(options)) && !BadDomain(options) then MergeOne(u1.Put("token", Null).fields, IdentityOf(options), false)
          else u1.fields
      ensures !Forced(options) && !Truthy(Domain(options)) ==> bound == old(userInfo.props)
      ensures !BadDomain(options) ==>
        LoginRun(loginMode, rpcMode, configOri, Sess(StartStatus(options, old(status)), old(config), bound, old(net.sent), old(net.replies))) ==
        Run(r, steps, State())
      ensures Truthy(Domain(options)) && !BadDomain(options) ==> userInfo.props.Get("domain") == Domain(options)
      ensures !BadDomain(options) && Check(StartStatus(options, old(status)), LOGINED) ==>
        net.sent == old(net.sent) && config == old(config)
      ensures !BadDomain(options) ==> LoginOutcome(loginMode, StartStatus(options, old(status)), steps, r, status)
      ensures !Truthy(Domain(options)) ==>
        userInfo.props.Get("openkey") == old(userInfo.props).Get("openkey") &&
        (TokenStep in steps && Sends(rpcMode) ==> CarriesOpenKey(net.sent, old(userInfo.props).Get("openkey")))
    {
      var e := BindIdentity(options);
      bound := userInfo.props;
      ghost var st := State();
      assert st == Sess(StartStatus(options, old(status)), old(config), bound, old(net.sent), old(net.replies));
      if e.Some? {
        r, steps := Throw(e.value), [];
      } else {
        r, steps := RunSteps();
        if Truthy(Domain(options)) {
          ghost var u1 := if Forced(options) then old(userInfo.props).Put("token", Null) else old(userInfo.props);
          BoundDomain(options, u1.Put("token", Null).fields, bound);
        }
      }
    }

    /**
     * `onAuthCode(code)`: `setSign(code)` then `login()` with no options;
     * in the two-stage variant the code becomes the identity's `openkey`,
     * which the token request then carries.
     */
    method OnAuthCode(code: Value) returns (r: Ret<bool>, ghost steps: seq<Step>)
      requires Valid()
      modifies this`status, this`loginMode, this`config, this`trace, userInfo, net
      ensures Valid() && loginMode == old(loginMode) && trace == old(trace) + steps
      ensures var s := if Check(loginMode, REQ_SIGN) then Set(old(status), SIGN_CODE) else old(status);
        var u := if Check(loginMode, REQ_SIGN) then old(userInfo.props).Put("openkey", code) else old(userInfo.props);
        LoginRun(loginMode, rpcMode, configOri, Sess(s, old(config), u, old(net.sent), old(net.replies))) == Run(r, steps, State()) &&
        LoginOutcome(loginMode, s, steps, r, status)
      ensures Check(loginMode, REQ_SIGN) ==>
        userInfo.props.Get("openkey") == code &&
        (TokenStep in steps && Sends(rpcMode) ==> CarriesOpenKey(net.sent, code))
    {
      SetSign(code);
      ghost var bound;
      r, steps, bound := Login(Undefined);
    }
  }
}
