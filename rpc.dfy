/**
 * The value-level part of the connector's request handling in
 * src/gameConn.js: the outcome and wire types, the `parseParams` rewrite
 * of a parameter object, and the URL and query string that the GET and
 * POST builders produce.
 */
module Rpc {
  import opened Json

  /** The exceptions the connector can raise. */
  datatype Error =
    | UnknownDomain       // 'Unknown domain name'
    | KeyIdError          // 'keyId error'
    | LbError             // 'lb error'
    | GetSignError        // 'get sign error'
    | TypeError           // a property read of undefined, or a `split` on a non-string
    | TransportFailure    // a GET whose fetch failed
    | Rejected            // `Promise.reject()` for an unsupported transport mode

  /** A call that returns a value or throws. */
  datatype Ret<T> = Ok(value: T) | Throw(error: Error)

  /**
   * What a request is aimed at: the working configuration, the parameters
   * as sent, and the path that replaces 'index.html'. `Url` renders it.
   */
  datatype Target = Target(config: Value, params: Props, authControl: Value)

  /** What the connector puts on the wire. */
  datatype Request = GetReq(target: Target) | PostReq(target: Target, body: Value)

  /** What the network hands back for one request: a decoded body, or nothing. */
  datatype Reply = Answer(body: Value) | NoAnswer

  // ------------------------------------------------------------- split

  function IndexOf(s: string, c: char): (i: nat)
    requires c in s
    ensures i < |s| && s[i] == c && c !in s[..i]
  {
    if s[0] == c then 0 else 1 + IndexOf(s[1..], c)
  }

  /** `s.split(sep)` for a one-character separator. */
  function Split(s: string, sep: char): (parts: seq<string>)
    ensures |parts| >= 1
    ensures forall i :: 0 <= i < |parts| ==> sep !in parts[i]
    ensures |parts| > 1 <==> sep in s
    decreases |s|
  {
    if sep !in s then [s]
    else
      var i := IndexOf(s, sep);
      [s[..i]] + Split(s[i + 1..], sep)
  }

  /** `parts.join(sep)`. */
  function JoinWith(parts: seq<string>, sep: string): string
    decreases |parts|
  {
    if parts == [] then ""
    else if |parts| == 1 then parts[0]
    else parts[0] + sep + JoinWith(parts[1..], sep)
  }

  /** Splitting and joining again gives back the original string. */
  lemma {:induction false} SplitThenJoin(s: string, sep: char)
    ensures JoinWith(Split(s, sep), [sep]) == s
    decreases |s|
  {
    if sep in s {
      var i := IndexOf(s, sep);
      var rest := Split(s[i + 1..], sep);
      SplitThenJoin(s[i + 1..], sep);
      var parts := Split(s, sep);
      assert parts == [s[..i]] + rest;
      assert |parts| > 1 && parts[0] == s[..i] && parts[1..] == rest;
      assert JoinWith(parts, [sep]) == parts[0] + [sep] + JoinWith(parts[1..], [sep]);
      assert s == s[..i] + [sep] + s[i + 1..];
    }
  }

  /** Joining pieces free of the separator and splitting again gives back the pieces. */
  lemma {:induction false} JoinThenSplit(parts: seq<string>, sep: char)
    requires |parts| >= 1 && forall i :: 0 <= i < |parts| ==> sep !in parts[i]
    ensures Split(JoinWith(parts, [sep]), sep) == parts
    decreases |parts|
  {
    if |parts| > 1 {
      var rest := JoinWith(parts[1..], [sep]);
      JoinThenSplit(parts[1..], sep);
      SplitAfter(parts[0], sep, rest);
      assert JoinWith(parts, [sep]) == parts[0] + [sep] + rest;
      assert parts == [parts[0]] + parts[1..];
    }
  }

  /** The first separator of `a + [c] + r` is the one after `a`, when `a` has none. */
  lemma {:induction false} IndexOfAfter(a: string, c: char, r: string)
    requires c !in a
    ensures c in a + [c] + r && IndexOf(a + [c] + r, c) == |a|
    decreases |a|
  {
    var s := a + [c] + r;
    assert s[|a|] == c;
    if a != [] {
      assert s[1..] == a[1..] + [c] + r;
      IndexOfAfter(a[1..], c, r);
    }
  }

  /** Splitting at the first separator. */
  lemma SplitAfter(a: string, c: char, r: string)
    requires c !in a
    ensures Split(a + [c] + r, c) == [a] + Split(r, c)
  {
    IndexOfAfter(a, c, r);
    var s := a + [c] + r;
    assert s[..|a|] == a;
    assert s[|a| + 1..] == r;
  }

  /**
   * The first two pieces of `a + "." + b + rest` are `a` and `b` when
   * neither contains a dot and `rest` is empty or starts a new piece.
   */
  lemma FirstTwoPieces(a: string, b: string, rest: string)
    requires '.' !in a && '.' !in b
    requires rest == [] || rest[0] == '.'
    ensures var parts := Split(a + "." + b + rest, '.');
      |parts| > 1 && parts[0] == a && parts[1] == b
  {
    assert a + "." + b + rest == a + ['.'] + (b + rest);
    SplitAfter(a, '.', b + rest);
    if rest == [] {
      assert b + rest == b;
    } else {
      assert b + rest == b + ['.'] + rest[1..];
      SplitAfter(b, '.', rest[1..]);
    }
  }

  // ------------------------------------------------------- parseParams

  /** The command a request without `func` runs: 'index.login'. */
  const DefaultControl: string := "index"
  const DefaultFunc: string := "login"
  const DefaultCommand: string := DefaultControl + "." + DefaultFunc

  /** 'index.login'.split('.') */
  lemma DefaultCommandPieces()
    ensures Split(DefaultCommand, '.') == [DefaultControl, DefaultFunc]
  {
    assert DefaultCommand == DefaultControl + ['.'] + DefaultFunc;
    SplitAfter(DefaultControl, '.', DefaultFunc);
    assert Split(DefaultFunc, '.') == [DefaultFunc];
  }

  /** The writes after `arr = params.func.split('.')`. */
  function ApplyPieces(p: Props, arr: seq<string>): (r: Props)
    requires p.Valid() && |arr| >= 1
    ensures r.Valid()
    ensures |p.keys| <= |r.keys| && r.keys[..|p.keys|] == p.keys
    ensures r.Get("func") == Str(if |arr| > 1 then arr[1] else arr[0])
    ensures r.Get("control") == if |arr| > 1 then Str(arr[0]) else p.Get("control")
    ensures forall k :: k != "func" && k != "control" ==> r.Get(k) == p.Get(k)
  {
    if |arr| > 1 then
      var q := p.Put("control", Str(arr[0]));
      PutExtends(p, "control", Str(arr[0]));
      PutExtends(q, "func", Str(arr[1]));
      PrefixTrans(p.keys, q.keys, q.Put("func", Str(arr[1])).keys);
      q.Put("func", Str(arr[1]))
    else
      PutExtends(p, "func", Str(arr[0]));
      p.Put("func", Str(arr[0]))
  }

  /**
   * `parseParams(params)`: a missing or falsy `func` becomes
   * 'index.login'; a dotted `func` is split into `control` (the first piece)
   * and `func` (the second piece), later pieces are dropped; `oemInfo` is
   * overwritten with the session's identity object. A truthy non-string
   * `func` has no `split` method: None (a TypeError), parameters untouched.
   * The split of the default command is written out (`DefaultCommandPieces`).
   */
  function ParseSpec(p: Props, user: Value): (r: Option<Props>)
    requires p.Valid()
    ensures r.None? <==> Truthy(p.Get("func")) && !p.Get("func").Str?
    ensures r.Some? ==> r.value.Valid()
  {
    var f0 := p.Get("func");
    if Truthy(f0) && !f0.Str? then None
    else if Truthy(f0) then
      Some(ApplyPieces(p.Put("func", f0), Split(f0.s, '.')).Put("oemInfo", user))
    else
      Some(ApplyPieces(p.Put("func", Str(DefaultCommand)), [DefaultControl, DefaultFunc]).Put("oemInfo", user))
  }

  /**
   * Parsing overwrites `oemInfo`, may write `func` and `control`, leaves
   * every other parameter alone and only appends to the key order.
   */
  lemma ParseFrame(p: Props, user: Value)
    requires p.Valid() && ParseSpec(p, user).Some?
    ensures var r := ParseSpec(p, user).value;
      r.Get("oemInfo") == user &&
      (forall k :: k != "func" && k != "control" && k != "oemInfo" ==> r.Get(k) == p.Get(k)) &&
      |p.keys| <= |r.keys| && r.keys[..|p.keys|] == p.keys
  {
    ParseSetsOemInfo(p, user);
    forall k | k != "func" && k != "control" && k != "oemInfo"
      ensures ParseSpec(p, user).value.Get(k) == p.Get(k)
    {
      ParseKeepsOther(p, user, k);
    }
    ParseAppendsKeys(p, user);
  }

  lemma ParseSetsOemInfo(p: Props, user: Value)
    requires p.Valid() && ParseSpec(p, user).Some?
    ensures "oemInfo" in ParseSpec(p, user).value.fields
    ensures ParseSpec(p, user).value.Get("oemInfo") == user
  {
  }

  lemma ParseKeepsOther(p: Props, user: Value, k: string)
    requires p.Valid() && ParseSpec(p, user).Some?
    requires k != "func" && k != "control" && k != "oemInfo"
    ensures ParseSpec(p, user).value.Get(k) == p.Get(k)
  {
    var f0 := p.Get("func");
    var p1 := if Truthy(f0) then p.Put("func", f0) else p.Put("func", Str(DefaultCommand));
    var arr := if Truthy(f0) then Split(f0.s, '.') else [DefaultControl, DefaultFunc];
    StampKeeps(p1, arr, user, k);
    assert ParseSpec(p, user) == Some(ApplyPieces(p1, arr).Put("oemInfo", user));
  }

  /** Applying the pieces and then stamping `oemInfo` keeps every other parameter. */
  lemma StampKeeps(p: Props, arr: seq<string>, user: Value, k: string)
    requires p.Valid() && |arr| >= 1 && k != "func" && k != "control" && k != "oemInfo"
    ensures ApplyPieces(p, arr).Put("oemInfo", user).Get(k) == p.Get(k)
  {
  }

  lemma ParseAppendsKeys(p: Props, user: Value)
    requires p.Valid() && ParseSpec(p, user).Some?
    ensures var r := ParseSpec(p, user).value;
      |p.keys| <= |r.keys| && r.keys[..|p.keys|] == p.keys
  {
    var f0 := p.Get("func");
    var p1 := if Truthy(f0) then p.Put("func", f0) else p.Put("func", Str(DefaultCommand));
    var arr := if Truthy(f0) then Split(f0.s, '.') else [DefaultControl, DefaultFunc];
    var p2 := ApplyPieces(p1, arr);
    var r := p2.Put("oemInfo", user);
    assert ParseSpec(p, user) == Some(r);
    PutExtends(p, "func", p1.fields["func"]);
    PrefixTrans(p.keys, p1.keys, p2.keys);
    PutExtends(p2, "oemInfo", user);
    PrefixTrans(p.keys, p2.keys, r.keys);
  }

  /** Writing a property only appends to the key order. */
  lemma PutExtends(p: Props, k: string, v: Value)
    requires p.Valid()
    ensures |p.keys| <= |p.Put(k, v).keys| && p.Put(k, v).keys[..|p.keys|] == p.keys
  {
  }

  lemma PrefixTrans(a: seq<string>, b: seq<string>, c: seq<string>)
    requires |a| <= |b| && b[..|a|] == a
    requires |b| <= |c| && c[..|b|] == b
    ensures |a| <= |c| && c[..|a|] == a
  {
    assert c[..|a|] == c[..|b|][..|a|];
  }

  /** A missing, empty or otherwise falsy `func` is read as 'index.login'. */
  lemma ParseDefaultsToIndexLogin(p: Props, user: Value)
    requires p.Valid() && !Truthy(p.Get("func"))
    ensures var r := ParseSpec(p, user);
      r.Some? && r.value.Get("control") == Str(DefaultControl) && r.value.Get("func") == Str(DefaultFunc)
  {
  }

  /**
   * `"a.b"` (and `"a.b.c..."`) yields `control = "a"` and `func = "b"`:
   * pieces after the second are dropped.
   */
  lemma ParseSplitsAtFirstDot(p: Props, user: Value, a: string, b: string, rest: string)
    requires p.Valid() && p.Get("func") == Str(a + "." + b + rest)
    requires '.' !in a && '.' !in b && (rest == [] || rest[0] == '.')
    ensures var r := ParseSpec(p, user);
      r.Some? && r.value.Get("control") == Str(a) && r.value.Get("func") == Str(b)
  {
    FirstTwoPieces(a, b, rest);
    ParseSplitsFunc(p, user, a + "." + b + rest);
  }

  /** A non-empty string `func` is split at its dots. */
  lemma ParseSplitsFunc(p: Props, user: Value, s: string)
    requires p.Valid() && p.Get("func") == Str(s) && s != ""
    ensures var parts := Split(s, '.');
      var r := ParseSpec(p, user);
      r.Some? && r.value.Get("control") == (if |parts| > 1 then Str(parts[0]) else p.Get("control")) &&
      r.value.Get("func") == Str(if |parts| > 1 then parts[1] else parts[0])
  {
    var a := ApplyPieces(p.Put("func", Str(s)), Split(s, '.'));
    assert ParseSpec(p, user) == Some(a.Put("oemInfo", user));
  }

  /** A dot-free `func` is kept, and `control` is left as it was. */
  lemma ParseKeepsDotFreeFunc(p: Props, user: Value, f: string)
    requires p.Valid() && p.Get("func") == Str(f) && f != "" && '.' !in f
    ensures var r := ParseSpec(p, user);
      r.Some? && r.value.Get("func") == Str(f) && r.value.Get("control") == p.Get("control")
  {
    var f0 := p.Get("func");
    assert Truthy(f0) && f0.s == f;
    assert Split(f, '.') == [f];
    var q := ApplyPieces(p.Put("func", f0), [f]);
    assert q.Get("control") == p.Get("control");
    assert ParseSpec(p, user) == Some(q.Put("oemInfo", user));
  }

  /** The `func` a parse leaves is a string without a dot. */
  lemma ParseLeavesDotFreeFunc(p: Props, user: Value)
    requires p.Valid() && ParseSpec(p, user).Some?
    ensures var f := ParseSpec(p, user).value.Get("func");
      f.Str? && '.' !in f.s
  {
    var f0 := p.Get("func");
    if Truthy(f0) {
      ParseStringFuncDotFree(p, user, f0.s);
    } else {
      ParseDefaultDotFree(p, user);
    }
  }

  lemma DefaultFuncDotFree()
    ensures '.' !in DefaultFunc
  {
  }

  lemma ParseDefaultDotFree(p: Props, user: Value)
    requires p.Valid() && !Truthy(p.Get("func"))
    ensures ParseSpec(p, user).Some?
    ensures var f := ParseSpec(p, user).value.Get("func");
      f.Str? && '.' !in f.s
  {
    var r := ParseSpec(p, user);
    ParseDefaultsToIndexLogin(p, user);
    assert r.value.Get("func") == Str(DefaultFunc);
    DefaultFuncDotFree();
  }

  lemma ParseStringFuncDotFree(p: Props, user: Value, s: string)
    requires p.Valid() && p.Get("func") == Str(s) && s != ""
    ensures ParseSpec(p, user).Some?
    ensures var f := ParseSpec(p, user).value.Get("func");
      f.Str? && '.' !in f.s
  {
    ParseSplitsFunc(p, user, s);
    var parts := Split(s, '.');
    assert '.' !in (if |parts| > 1 then parts[1] else parts[0]);
  }

  /** Parameters with a non-empty dot-free `func` and this `oemInfo` parse to themselves. */
  lemma ParseFixedPoint(q: Props, user: Value, f: string)
    requires q.Valid() && q.Get("func") == Str(f) && f != "" && '.' !in f
    requires "oemInfo" in q.fields && q.fields["oemInfo"] == user
    ensures ParseSpec(q, user) == Some(q)
  {
    assert "func" in q.fields;
    var p1 := q.Put("func", Str(f));
    assert p1.fields == q.fields;
    assert Split(f, '.') == [f];
    var p2 := ApplyPieces(p1, [f]);
    assert p2.fields == q.fields;
    assert p2 == q;
    assert q.Put("oemInfo", user).fields == q.fields;
  }

  /**
   * Parsing is idempotent exactly when the `func` it leaves is not empty:
   * `"a."` leaves `func = ""`, which a second parse reads as 'index.login'.
   */
  lemma ParseTwiceIffNonEmptyFunc(p: Props, user: Value)
    requires p.Valid() && ParseSpec(p, user).Some?
    ensures var once := ParseSpec(p, user).value;
      ParseSpec(once, user) == Some(once) <==> once.Get("func") != Str("")
  {
    var once := ParseSpec(p, user).value;
    ParseLeavesDotFreeFunc(p, user);
    ParseSetsOemInfo(p, user);
    var f := once.Get("func");
    if f != Str("") {
      ParseFixedPoint(once, user, f.s);
    } else {
      ParseDefaultsToIndexLogin(once, user);
    }
  }

  /**
   * A `func` that ends in its only dot parses to that prefix as `control`
   * and an empty `func`, which a second parse reads as 'index.login'.
   */
  lemma ParseTrailingDot(p: Props, user: Value, a: string)
    requires p.Valid() && p.Get("func") == Str(a + ".") && '.' !in a
    ensures var once := ParseSpec(p, user);
      once.Some? && once.value.Get("func") == Str("") && once.value.Get("control") == Str(a) &&
      ParseSpec(once.value, user).Some? && ParseSpec(once.value, user).value.Get("func") == Str(DefaultFunc)
  {
    FirstTwoPieces(a, "", "");
    assert a + "." + "" + "" == a + ".";
    ParseSplitsFunc(p, user, a + ".");
    ParseDefaultsToIndexLogin(ParseSpec(p, user).value, user);
  }

  /** The concrete case: `func: "a."` parses to `func: ""`, then to the default 'login'. */
  lemma ParseNotIdempotentOnTrailingDot(user: Value)
    ensures var p := Props(["func"], map["func" := Str("a.")]);
      var once := ParseSpec(p, user);
      once.Some? && once.value.Get("func") == Str("") && once.value.Get("control") == Str("a") &&
      ParseSpec(once.value, user).Some? && ParseSpec(once.value, user).value.Get("func") == Str(DefaultFunc)
  {
    var p := Props(["func"], map["func" := Str("a.")]);
    assert "a" + "." == "a.";
    ParseTrailingDot(p, user, "a");
  }

  // ---------------------------------------------------- URL and query

  function WebServer(config: Value): Value {
    Field(config, "webserver")
  }

  /** A configuration whose `webserver` entry is an object, as every request path needs. */
  predicate ConfigOk(config: Value) {
    config.Obj? && WebServer(config).Obj?
  }

  /** `locate(ip, port)`: the working configuration's server host and port. */
  function Relocate(config: Value, ip: Value, port: Value): (r: Value)
    requires ConfigOk(config)
    ensures ConfigOk(r)
    ensures Field(WebServer(r), "host") == ip && Field(WebServer(r), "port") == port
  {
    var ws := WebServer(config).fields["host" := ip]["port" := port];
    Obj(config.fields["webserver" := Obj(ws)])
  }

  /** `locate` changes no other configuration field and no other web-server field. */
  lemma RelocateKeepsOthers(config: Value, ip: Value, port: Value, k: string)
    requires ConfigOk(config)
    ensures k != "webserver" ==> Field(Relocate(config, ip, port), k) == Field(config, k)
    ensures k != "host" && k != "port" ==> Field(WebServer(Relocate(config, ip, port)), k) == Field(WebServer(config), k)
  {
  }

  /**
   * `UrlHead://host:port/path`: the port is `params.port` when truthy, else
   * the configured one; the path is `authControl` when truthy, else
   * 'index.html'.
   */
  function RequestUrl(config: Value, p: Props, authControl: Value): string {
    var port := if Truthy(p.Get("port")) then p.Get("port") else Field(WebServer(config), "port");
    var path := if Truthy(authControl) then ToStr(authControl) else "index.html";
    ToStr(Field(config, "UrlHead")) + "://" + ToStr(Field(WebServer(config), "host")) + ":" + ToStr(port) + "/" + path
  }

  /**
   * After `locate(ip, port)`, a request without its own port goes to `ip`
   * and `port`, under the unchanged scheme.
   */
  lemma RedirectedUrl(config: Value, ip: Value, port: Value, p: Props, authControl: Value)
    requires ConfigOk(config) && !Truthy(p.Get("port"))
    ensures var path := if Truthy(authControl) then ToStr(authControl) else "index.html";
      RequestUrl(Relocate(config, ip, port), p, authControl) ==
        ToStr(Field(config, "UrlHead")) + "://" + ToStr(ip) + ":" + ToStr(port) + "/" + path
  {
    RelocateKeepsOthers(config, ip, port, "UrlHead");
  }

  /** One `key=value` pair: objects (and null) JSON-serialised, then percent-encoded. */
  function Pair(k: string, v: Value, enc: string -> string, json: Value -> string): string {
    k + "=" + (if IsObjectType(v) then enc(json(v)) else enc(ToStr(v)))
  }

  /** The `Object.keys(params).reduce(...)` fold, as written. */
  function QueryFold(acc: string, keys: seq<string>, p: Props, enc: string -> string, json: Value -> string): string
    decreases |keys|
  {
    if keys == [] then acc
    else
      var sep := if acc != "" then acc + "&" else acc;
      QueryFold(sep + Pair(keys[0], p.Get(keys[0]), enc, json), keys[1..], p, enc, json)
  }

  function Query(p: Props, enc: string -> string, json: Value -> string): string {
    QueryFold("", p.keys, p, enc, json)
  }

  /** The pairs of the listed keys, in order. */
  function Pairs(keys: seq<string>, p: Props, enc: string -> string, json: Value -> string): (r: seq<string>)
    ensures |r| == |keys|
  {
    seq(|keys|, i requires 0 <= i < |keys| => Pair(keys[i], p.Get(keys[i]), enc, json))
  }

  /** The URL of a GET request: the base URL, `?`, the query string. */
  function GetUrl(config: Value, p: Props, authControl: Value, enc: string -> string, json: Value -> string): string {
    RequestUrl(config, p, authControl) + "?" + Query(p, enc, json)
  }

  /**
   * The URL of a request: for a GET the base URL and the query string, for
   * a POST the base URL alone (the parameters travel in the body).
   */
  function Url(req: Request, enc: string -> string, json: Value -> string): string {
    var t := req.target;
    if req.GetReq? then GetUrl(t.config, t.params, t.authControl, enc, json)
    else RequestUrl(t.config, t.params, t.authControl)
  }

  lemma {:induction false} QueryFoldJoins(acc: string, keys: seq<string>, p: Props, enc: string -> string, json: Value -> string)
    requires acc != ""
    ensures QueryFold(acc, keys, p, enc, json) ==
      if keys == [] then acc else acc + "&" + JoinWith(Pairs(keys, p, enc, json), "&")
    decreases |keys|
  {
    if keys != [] {
      var first := Pair(keys[0], p.Get(keys[0]), enc, json);
      var ps := Pairs(keys, p, enc, json);
      var tail := Pairs(keys[1..], p, enc, json);
      assert ps == [first] + tail;
      assert QueryFold(acc, keys, p, enc, json) == QueryFold(acc + "&" + first, keys[1..], p, enc, json);
      QueryFoldJoins(acc + "&" + first, keys[1..], p, enc, json);
      if |keys| == 1 {
        assert JoinWith(ps, "&") == first;
      } else {
        assert JoinWith(ps, "&") == first + "&" + JoinWith(tail, "&");
      }
    }
  }

  /**
   * The query string is the `key=value` pairs of all keys, in the
   * object's key order, joined by `&`.
   */
  lemma QueryIsJoinedPairs(p: Props, enc: string -> string, json: Value -> string)
    ensures Query(p, enc, json) == JoinWith(Pairs(p.keys, p, enc, json), "&")
  {
    if p.keys != [] {
      var first := Pair(p.keys[0], p.Get(p.keys[0]), enc, json);
      assert first != "" by {
        assert first[|p.keys[0]|] == '=';
      }
      assert "" + first == first;
      assert Query(p, enc, json) == QueryFold(first, p.keys[1..], p, enc, json);
      QueryFoldJoins(first, p.keys[1..], p, enc, json);
      var ps := Pairs(p.keys, p, enc, json);
      assert ps[0] == first;
      assert ps[1..] == Pairs(p.keys[1..], p, enc, json);
    }
  }

  /**
   * With keys free of `&` and an encoder that never emits `&` (as
   * `encodeURIComponent` does not), splitting the query string at `&`
   * recovers exactly the `key=value` pairs, in key order.
   */
  lemma QuerySplitsIntoPairs(p: Props, enc: string -> string, json: Value -> string)
    requires p.keys != []
    requires forall i :: 0 <= i < |p.keys| ==> '&' !in p.keys[i]
    requires forall s :: '&' !in enc(s)
    ensures Split(Query(p, enc, json), '&') == Pairs(p.keys, p, enc, json)
  {
    QueryIsJoinedPairs(p, enc, json);
    var ps := Pairs(p.keys, p, enc, json);
    forall i | 0 <= i < |ps| ensures '&' !in ps[i] {
      var v := p.Get(p.keys[i]);
      var e := if IsObjectType(v) then enc(json(v)) else enc(ToStr(v));
      assert ps[i] == p.keys[i] + "=" + e;
    }
    assert "&" == ['&'];
    JoinThenSplit(ps, '&');
  }

  /** A character in no part and not in the separator is not in the joined string. */
  lemma {:induction false} JoinWithAvoids(parts: seq<string>, sep: string, c: char)
    requires c !in sep && forall i :: 0 <= i < |parts| ==> c !in parts[i]
    ensures c !in JoinWith(parts, sep)
    decreases |parts|
  {
    if |parts| > 1 {
      JoinWithAvoids(parts[1..], sep, c);
    }
  }

  /**
   * With keys free of `?` and an encoder that never emits `?`, a GET
   * URL whose base has no `?` splits at `?` into its base URL and its
   * query string; a POST URL has no `?` at all.
   */
  lemma UrlSplitsAtQuery(t: Target, body: Value, enc: string -> string, json: Value -> string)
    requires '?' !in RequestUrl(t.config, t.params, t.authControl)
    requires forall i :: 0 <= i < |t.params.keys| ==> '?' !in t.params.keys[i]
    requires forall s :: '?' !in enc(s)
    ensures Split(Url(GetReq(t), enc, json), '?') ==
      [RequestUrl(t.config, t.params, t.authControl), Query(t.params, enc, json)]
    ensures '?' !in Url(PostReq(t, body), enc, json)
  {
    var p := t.params;
    QueryIsJoinedPairs(p, enc, json);
    var ps := Pairs(p.keys, p, enc, json);
    forall i | 0 <= i < |ps| ensures '?' !in ps[i] {
      var v := p.Get(p.keys[i]);
      var e := if IsObjectType(v) then enc(json(v)) else enc(ToStr(v));
      assert ps[i] == p.keys[i] + "=" + e;
    }
    JoinWithAvoids(ps, "&", '?');
    var base := RequestUrl(t.config, p, t.authControl);
    assert Url(GetReq(t), enc, json) == base + ['?'] + Query(p, enc, json);
    SplitAfter(base, '?', Query(p, enc, json));
  }
}
