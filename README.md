# Game-cloud connector: a Dafny model of the login session

The connector (`Remote` in `src/gameConn.js`) logs a client into a game
service. The steps are: an optional key exchange for an `openid`, load
balancing to an assigned server, an optional signature fetch, and a
token request. Each step runs only when the chosen login variant
("authwx" or "auth2step") requires it and it has not already succeeded.
Two bitmasks record this: `loginMode` holds the step requirements and
`status` the completed steps. Requests go out as `GET`s with a query
string or as `POST`s with a JSON body. The helpers in
`src/utils/util.js` supply the flag constants, `extendObj` (shallow and
deep) and `clone`.

The model has five modules:

- `Json`: JavaScript values as the datatype `Value`. This covers
  truthiness, `String(v)` and the loose `v == 0`. `Props` is an object
  with its keys in insertion order. That is the order `Object.keys`
  reports for keys that are not integer-like, and the connector uses no
  integer-like keys. `JsObject` is a mutable object.
- `Indicator`: the bitmask object. `check` holds iff every bit of the
  mask is set, `set` ORs a mask in, and `init` replaces the value. Both
  are defined on `nat` by recursion.
- `Util`: `CommStatus`, `CommMode` and `ReturnCode`, plus `clone` as a
  function. `extendObj` is a method that works on a `JsObject`;
  `MergeAll` and `MergeOne` specify it.
- `Rpc`: the pure request-building logic. `parseParams` is specified by
  `ParseSpec`. The module also covers `locate`'s configuration update,
  the request URL, the query string, and a model of `String.split`.
- `GameConn`:
  - `Http`, the network as an oracle. It logs every request in order
    (`sent`) and answers from a script of replies (`replies`). A missing
    answer makes a `GET` throw and a `POST` return `undefined`, as the
    source's `get` and `post` do.
  - `Remote`, a class with the source's fields. Each source method is a
    method with a `modifies` frame.
  - a ghost `trace` of the login steps issued, in order.
  - the plan functions `Plan` and `LoginOutcome`. They state which
    steps a `login` issues and what it returns, for each starting pair
    of masks.
  - the reference run `LoginRun`. It works on a `Sess` value (the
    progress mask, the working configuration, the identity, the requests
    sent so far and the replies not yet given) and gives the result, the
    steps issued and the session after a `login` against any script of
    replies. The session after includes every request the run sent, in
    order, down to its parsed parameters. Every
    login method is proved equal to it, and
    `LoginRunOutcome` proves that every such run is an outcome of the
    plan.

`encodeURIComponent` and `JSON.stringify` are the uninterpreted
parameters `enc` and `json` of `Remote`. Requests are logged as
structured `Request`s, each holding the configuration, the parsed
parameters and the auth path. `Rpc.Url` gives the URL string of a
logged request in terms of `enc` and `json`.

## Model

| member | source | states |
|---|---|---|
| Json.Truthy | src/gameConn.js:48 | `!!v`: false exactly for undefined, null, false, 0 and the empty string |
| Json.LooseEqualsZero | src/gameConn.js:148 | `v == 0` on an integer number model: false for undefined, null and objects; `!b` for a boolean; a string or array by the text it converts to (its contract is stated by `Json.ZeroTextExamples` and `Json.ZeroTextIgnoresPadding`) |
| Json.ZeroText | src/gameConn.js:106 | a text is loosely equal to zero iff, after trimming JavaScript whitespace, it is empty, a signed or unsigned decimal literal of zero (optional fraction, optional complete exponent) or an unsigned `0x`/`0o`/`0b` literal of zero |
| Json.ZeroTextIgnoresPadding | src/gameConn.js:148 | whitespace before and after a reply code does not change whether it reads as zero |
| Json.ZeroTextExamples | src/gameConn.js:106 | "\t0", " ", "-0", "+0", "0x0", "0.0" and ".0e-5" equal zero; "0 0", "0x", "-0x0", ".", "0e" and "1" do not |
| Json.Props.Put | src/gameConn.js:52 | `o.k = v` sets that field only; a new key is appended to the key order and an existing key keeps its place |
| Json.JsObject.Put | src/gameConn.js:68 | an in-place property write: the object's properties become `Props.Put` of the old ones |
| Indicator.Check | src/gameConn.js:79 | `check(m)` holds iff every bit of `m` is set in the value (stated by `Indicator.CheckIsSubset`) |
| Indicator.Set | src/gameConn.js:149 | `set(b)` ORs `b` into the value (stated by `Indicator.SetMonotone`) |
| Indicator.Init | src/gameConn.js:143 | `init(m)` replaces the value by `m`, by default 0 (stated by `Indicator.InitClears`) |
| Indicator.CheckIsSubset | src/gameConn.js:92-94 | `check(m)` holds exactly when every bit of `m` is set in the value |
| Indicator.CheckSingleBit | src/gameConn.js:204-205 | checking a one-bit flag tests exactly that bit |
| Indicator.SetMonotone | src/gameConn.js:149 | after `set(b)` the flag `b` checks, and every mask that checked before still checks |
| Indicator.InitClears | src/gameConn.js:143 | after `init()` only the empty mask checks |
| Util.CommStatusBits | src/utils/util.js:79-88 | the eight status flags are distinct powers of two in increasing bit order; the five progress flags (bits 0-4) all lie below the three requirement flags (bits 10-12) |
| Util.CommStatusPowers | src/utils/util.js:79-88 | the bit position of each named flag: lb 0, sign 1, signCode 2, OpenId 3, logined 4, reqSign 10, reqLb 11, reqOpenId 12 |
| Util.ProgressIndependentOfRequirements | src/utils/util.js:79-88 | setting a requirement flag never changes a progress check, and setting a progress flag never changes a requirement check, so one mask can hold both |
| Util.Clone | src/utils/util.js:188-213 | a deep copy is equal to the value it copies |
| Util.CloneShape | src/utils/util.js:197-210 | an array clones to an array of the same length whose elements are clones; an object clones to an object with the same keys whose fields are clones |
| Util.MergeOn | src/utils/util.js:146-175 | the target's fields once the inner loop has visited the source keys in `done` (stated by `Util.MergeOnFacts`, `Util.MergeOnNone` and `Util.MergeOnStep`) |
| Util.MergeOnFacts | src/utils/util.js:146-175 | an unfolding of `Util.MergeOn` key by key, used by the proofs about it: a key is present iff the target had it or a visited source key wrote it, and a visited key holds the merged field |
| Util.MergeOnNone | src/utils/util.js:146-175 | before any source key is visited the target is unchanged |
| Util.MergeOnStep | src/utils/util.js:146-175 | visiting one more source key changes only that key, and the merge reads the key's value as it was before the visit |
| Util.StoreAt | src/utils/util.js:158-171 | writing index `i` of an array sets that index, keeps the other elements and pads any gap with undefined |
| Util.MergeOne | src/utils/util.js:146-175 | one source: every target key survives; in a shallow merge each own field of an object source that is not undefined overwrites; keys such a source does not define keep their target value or stay absent |
| Util.MergeAll | src/utils/util.js:142-177 | the fields after merging the sources one after another, left to right (stated by `Util.LastSourceWins`) |
| Util.LastSourceWins | src/utils/util.js:142-177 | over several sources, a key ends with the value of the LAST source that defines it; a key no source defines keeps its target value or stays absent |
| Util.SelfMerge | src/utils/util.js:152-154 | merging an object into itself changes nothing, because every field is skipped as `src === copy` |
| Util.DeepMergesNestedObjects | src/utils/util.js:158-171 | a deep merge of an object field into an object field merges the two field by field and keeps the target's nested fields that the source does not define |
| Util.MergeSource | src/utils/util.js:146-175 | the inner loop over one object source: the target's fields become the merge of all the source's keys, whatever order the keys are visited in, and its old keys stay a prefix of its key order |
| Util.ExtendObj | src/utils/util.js:105-181 | returns the target object itself; its fields become the in-order merge of all sources; its old keys keep their order and new keys are appended |
| Rpc.Split | src/gameConn.js:346 | `split` always gives at least one piece, no piece contains the separator, and there is more than one piece iff the separator occurs |
| Rpc.SplitThenJoin | src/gameConn.js:346 | joining the pieces of a split with the separator gives back the string |
| Rpc.JoinThenSplit | src/gameConn.js:346 | splitting a join of separator-free pieces gives back the pieces |
| Rpc.DefaultCommandPieces | src/gameConn.js:344-346 | the default command 'index.login' splits into control 'index' and func 'login' |
| Rpc.ApplyPieces | src/gameConn.js:347-352 | two or more pieces set control to the first and func to the second; one piece sets only func; every other parameter is kept and keys are only appended |
| Rpc.ParseSpec | src/gameConn.js:343-356 | parsing fails (the `split` call would throw) exactly when `func` is truthy and not a string; otherwise the result is a well-formed object |
| Rpc.ParseFrame | src/gameConn.js:343-356 | a parse sets `oemInfo` to the identity, changes no parameter other than func, control and oemInfo, and only appends keys |
| Rpc.ParseSetsOemInfo | src/gameConn.js:355 | after a parse, `oemInfo` is present and is the identity, whatever it was before |
| Rpc.ParseKeepsOther | src/gameConn.js:343-356 | a parse leaves each parameter other than func, control and oemInfo as it was |
| Rpc.ParseAppendsKeys | src/gameConn.js:343-356 | a parse keeps the existing key order as a prefix |
| Rpc.ParseDefaultsToIndexLogin | src/gameConn.js:344-346 | a missing, empty or otherwise falsy func is read as 'index.login': control 'index', func 'login' |
| Rpc.ParseSplitsAtFirstDot | src/gameConn.js:346-350 | func "a.b" (and "a.b.c…") yields control "a" and func "b"; pieces after the second are dropped |
| Rpc.ParseSplitsFunc | src/gameConn.js:346-352 | a non-empty string func is split at its dots: control becomes the first piece when there are several, and func the second piece or the only one |
| Rpc.ParseKeepsDotFreeFunc | src/gameConn.js:351-352 | a dot-free func is kept and control is left as it was |
| Rpc.ParseLeavesDotFreeFunc | src/gameConn.js:346-352 | the func a parse leaves is always a string without a dot |
| Rpc.ParseFixedPoint | src/gameConn.js:343-356 | parameters with a non-empty dot-free func whose oemInfo is already the identity parse to themselves |
| Rpc.ParseTwiceIffNonEmptyFunc | src/gameConn.js:343-356 | parsing the result of a parse again changes nothing iff the func left by the first parse is non-empty |
| Rpc.ParseNotIdempotentOnTrailingDot | src/gameConn.js:343-356 | func "a." parses to control "a" and func "", and a second parse then turns func into 'login' |
| Rpc.ParseTrailingDot | src/gameConn.js:343-356 | a func that ends in its only dot parses to that prefix as control and an empty func, which a second parse reads as 'login' |
| Rpc.Relocate | src/gameConn.js:320-325 | `locate(ip, port)` sets the web server's host and port and changes no other configuration or web-server field |
| Rpc.RedirectedUrl | src/gameConn.js:415-416 | after `locate(ip, port)`, a request without its own port goes to `scheme://ip:port/` followed by the auth path, or by 'index.html' when there is no auth path |
| Rpc.RequestUrl | src/gameConn.js:415-416 | the base URL: the scheme, the working host, `params.port` when truthy or else the working port, then the auth path or 'index.html' (stated by `Rpc.RedirectedUrl` and `Rpc.UrlSplitsAtQuery`) |
| Rpc.GetUrl | src/gameConn.js:415-425 | the URL of a GET: the base URL, `?` and the query string (stated by `Rpc.UrlSplitsAtQuery`) |
| Rpc.Url | src/gameConn.js:412-439 | the URL a logged request went to: with the query string for a GET, the base URL alone for a POST (stated by `Rpc.UrlSplitsAtQuery`) |
| Rpc.UrlSplitsAtQuery | src/gameConn.js:415-438 | when the base URL, the keys and the encoder's output contain no `?`, a GET URL splits at `?` into exactly the base URL and the query string, and a POST URL contains no `?` |
| Rpc.Pairs | src/gameConn.js:417-423 | one `key=value` pair per parameter key, in key order |
| Rpc.QueryFoldJoins | src/gameConn.js:417-423 | the accumulation loop adds each pair after an `&` once the string is non-empty |
| Rpc.QueryIsJoinedPairs | src/gameConn.js:417-423 | the query string is the `&`-join of the encoded pairs in key order |
| Rpc.QuerySplitsIntoPairs | src/gameConn.js:417-423 | when keys and encoded text contain no `&`, splitting the query at `&` gives back exactly the pairs |
| GameConn.Http.constructor | src/gameConn.js:362-406 | a fresh transport has sent nothing and holds the scripted replies |
| GameConn.Http.Get | src/gameConn.js:362-378 | a GET is logged after the earlier requests and consumes one reply; a missing answer throws |
| GameConn.Http.Post | src/gameConn.js:385-406 | a POST is logged with its body and consumes one reply; a missing answer yields undefined |
| GameConn.LbWireParams | src/gameConn.js:142-146 | the load-balancing parameters go out as exactly the keys func, oemInfo, control in that order: func 'getServerInfo', oemInfo the whole identity (replacing the domain-and-openid object built at line 146) and control 'config' |
| GameConn.DottedParse | src/gameConn.js:344-355 | a func 'a.b' with dot-free a and b is parsed by writing control a, then func b, then oemInfo |
| GameConn.DefaultParse | src/gameConn.js:344-355 | a falsy func is parsed by writing func 'index.login', control 'index', func 'login', then oemInfo, in that order |
| GameConn.DefaultWrites | src/gameConn.js:344-355 | on parameters without func, control and oemInfo, those writes append exactly the keys func, control, oemInfo, holding 'login', 'index' and the identity |
| GameConn.GatewayParsed | src/gameConn.js:343-356 | parsing parameters without func, control and oemInfo keeps them in order and appends func 'login', control 'index' and the identity as oemInfo |
| GameConn.OpenIdParamsParsed | src/gameConn.js:42-45 | the key-exchange request's parameters go out as port and openkey, then func 'login', control 'index' and the identity as oemInfo |
| GameConn.SignParamsParsed | src/gameConn.js:62 | the signature request's parameters go out as openid, addrType and address, then func 'login', control 'index' and the identity as oemInfo |
| GameConn.TokenParamsParsed | src/gameConn.js:101-104 | the token parameters are already parsed, so `fetching` and its dispatcher send them unchanged |
| GameConn.Succeeded | src/gameConn.js:148 | `!!msg && msg.code == ReturnCode.Success` (stated by `GameConn.SucceededOnNumericCode`) |
| GameConn.SucceededOnNumericCode | src/gameConn.js:148 | on a truthy reply with a numeric code, the reply succeeds exactly when the code is `ReturnCode.Success` (0) |
| GameConn.TokenReady | src/gameConn.js:91-95 | the token request's preconditions: balanced if the variant requires it, the sign code recorded if it requires a signature, and not logged in (used in the contract of `GameConn.Remote.GetToken`) |
| GameConn.TokenCarriesOpenKey | src/gameConn.js:101-104 | the token request sends the identity, so its `oemInfo` carries the identity's `openkey` |
| GameConn.OpenKeyKept | src/gameConn.js:52 | writing any identity field other than `openkey` keeps the `openkey` |
| GameConn.LoggedInKeeps | src/gameConn.js:107-110 | storing the issued openid, id, token and name keeps every other identity field, `openkey` and `domain` among them |
| GameConn.VariantMasks | src/gameConn.js:169-193 | "authwx" requires exactly load balancing and the key exchange; "auth2step" requires exactly load balancing and the signature |
| GameConn.PlanInOrder | src/gameConn.js:162-246 | the steps a login plans run in protocol order (key exchange, load balancing, then signature or token), each at most once, and there are at most three |
| GameConn.PlanSkipsDoneSteps | src/gameConn.js:195-245 | nothing is planned once logged in; a step is planned only if the variant requires it and its flag is unset; a signature obtained after the last balancing is not fetched again |
| GameConn.Plan | src/gameConn.js:195-245 | the steps a login issues when every reply succeeds (stated by `GameConn.PlanInOrder` and `GameConn.PlanSkipsDoneSteps`) |
| GameConn.LoginOutcome | src/gameConn.js:195-245 | how a login can end: a prefix of the plan, the whole plan when it returns a value, and each named error from its own step with its own mask (related to `GameConn.LoginRun` by `GameConn.LoginRunOutcome`) |
| GameConn.KeyExchange | src/gameConn.js:204-212 | the key exchange against a session (mask, configuration, identity, replies left): when due it consumes one reply; a falsy reply is 'keyId error' and a failed fetch propagates, both leaving the mask; a truthy reply stores its `unionid` as `openid` and sets the OpenId bit; the configuration is never touched (stated by `GameConn.KeyExchangeFacts`, `GameConn.KeyExchangeKeeps` and the scenario lemmas) |
| GameConn.Balance | src/gameConn.js:215-225 | load balancing against a session: when due it consumes one reply, nulls the token, and moves the configuration to the bootstrap server and then, on success, to the assigned one; the mask becomes just the LB bit on success and empty otherwise (stated by `GameConn.BalanceFacts`, `GameConn.BalanceKeeps` and the scenario lemmas) |
| GameConn.LastStep | src/gameConn.js:230-245 | the signature request when due (a truthy reply stored as `auth`), else the token request when ready (an accepted reply stores the issued identity), else nothing; the configuration is never touched; a rejected transport mode consumes no reply (stated by `GameConn.LastStepFacts` and `GameConn.LastStepKeeps`) |
| GameConn.BalanceThenLast | src/gameConn.js:215-245 | load balancing, then the last step unless balancing threw |
| GameConn.LoginRun | src/gameConn.js:195-245 | the reference run of login's steps against a session and a script of replies: nothing once logged in, else each step in turn up to the first that throws; it gives the result, the steps, and the final mask, configuration, identity and replies left (stated by `GameConn.LoginRunOutcome`, `GameConn.LoginRunKeepsOthers` and the scenario lemmas below) |
| GameConn.LoginRunComposes | src/gameConn.js:203-245 | a login that is not yet logged in is the key exchange followed, unless it threw, by balancing and the last step; steps and requests are those of the exchange followed by the rest |
| GameConn.BalanceThenLastComposes | src/gameConn.js:215-245 | balancing followed, unless it threw, by the last step from the session balancing left; steps and requests are those of balancing followed by the last step's |
| GameConn.KeyExchangeAnswered | src/gameConn.js:204-212 | a due key exchange answered with a reply sends exactly one GET (original auth port, stored `openkey`, the identity's domain as the auth path) and consumes that reply; a truthy reply stores its `unionid` and sets the OpenId bit, a falsy one is 'keyId error' |
| GameConn.BalanceAnswered | src/gameConn.js:215-225 | due balancing answered with a reply sends exactly the load-balancing request to the bootstrap server and consumes the reply; the token is nulled; the mask is the LB bit on success and empty otherwise |
| GameConn.SignAnswered | src/gameConn.js:230-239 | a due signature request answered with a reply sends exactly one GET with the identity's openid and address; a truthy reply is stored as `auth` and sets the sign bit, a falsy one is 'get sign error' |
| GameConn.TokenAnswered | src/gameConn.js:240-244 | a ready token request in a sending mode sends the identity under command '1000' to the working configuration and returns whether the reply was accepted; only an accepted reply stores the issued identity and sets the logged-in bit |
| GameConn.KeyAcceptedRun | src/gameConn.js:204-245 | after an accepted key exchange the run goes on with balancing and the last step from the session with `openid` stored, the OpenId bit set and the exchange request sent |
| GameConn.LbRefusedRun | src/gameConn.js:215-221 | due balancing with an unsuccessful reply ends the run with 'lb error' after the one balancing request, the mask empty and the configuration on the bootstrap server |
| GameConn.KeyAcceptedLbRefusedRun | src/gameConn.js:204-221 | an accepted key exchange followed by an unsuccessful balancing reply ends with 'lb error' after exactly the exchange and the balancing requests, in that order |
| GameConn.LbAcceptedTokenRun | src/gameConn.js:215-244 | successful balancing followed by a ready token request sends the balancing request and then the token request to the assigned server, and returns whether the token reply was accepted |
| GameConn.LbAcceptedSignRefusedRun | src/gameConn.js:215-235 | successful balancing followed by a falsy signature reply throws 'get sign error' after the balancing request and the signature request to the assigned server, the LB bit kept |
| GameConn.LastStepCarriesOpenKey | src/gameConn.js:240-244 | when the last step asks for a token in a sending mode, the last request sent carries the identity's `openkey` |
| GameConn.BalanceThenLastCarriesOpenKey | src/gameConn.js:215-244 | balancing keeps `openkey`, so a token request after it carries the `openkey` the identity had before |
| GameConn.LoginRunCarriesOpenKey | src/gameConn.js:195-245 | in a whole login run, a token request sent carries the identity's `openkey` from before the run |
| GameConn.OpenIdStored | src/gameConn.js:48-52 | the identity after `getOpenId`: a truthy reply's `unionid` becomes `openid`, anything else leaves it; the result is a well-formed object |
| GameConn.AuthStored | src/gameConn.js:64-68 | the identity after `getSign`: a truthy reply becomes `auth`, anything else leaves it; the result is a well-formed object |
| GameConn.LbConfig | src/gameConn.js:145-150 | the working configuration after `setLB`: redirected to the original configuration's host and port, then, on a successful reply with data, to the reply's ip and port; it always names a web server |
| GameConn.LbRequest | src/gameConn.js:142-146 | the request `setLB` sends: the identity with its token nulled, parsed as `config.getServerInfo`, to the bootstrap server |
| GameConn.LoggedInInfo | src/gameConn.js:106-110 | the identity after an accepted token reply: `openid`, `id`, `token` and `name` copied from the reply's `data` (stated by `GameConn.LoggedInKeeps` and `GameConn.AuthWxTokenRun`) |
| GameConn.KeyExchangeKeeps | src/gameConn.js:204-212 | the key exchange changes no identity field other than `openid` |
| GameConn.BalanceKeeps | src/gameConn.js:215-225 | load balancing changes no identity field other than `token` |
| GameConn.LastStepKeeps | src/gameConn.js:230-245 | the last step changes no identity field other than `auth` or the issued `openid`, `id`, `token` and `name` |
| GameConn.LoginRunKeepsOthers | src/gameConn.js:195-245 | a whole run of the login steps keeps every identity field it does not write, so the bound `domain` and `openkey` survive a login |
| GameConn.BoundDomain | src/gameConn.js:169-187 | once a known domain's fields are merged into the identity, the identity's `domain` is that domain |
| GameConn.GatewayParamsShape | src/gameConn.js:42-45 | the parameters of the key-exchange and signature requests are well-formed objects without a `func`, so `parseParams` sends them as 'index.login' |
| GameConn.KeyExchangeFacts | src/gameConn.js:204-212 | the key exchange runs only when due, leaves the mask unchanged on an error, and its only errors are a failed fetch and 'keyId error' |
| GameConn.BalanceFacts | src/gameConn.js:215-225 | balancing runs only when due; success leaves just the LB bit; a failed reply is 'lb error' with an empty mask |
| GameConn.LastStepFacts | src/gameConn.js:230-245 | the last step's result and mask: 'get sign error' or a set sign bit and true; or the token verdict, with the logged-in bit set only on true |
| GameConn.LoginRunOutcome | src/gameConn.js:195-245 | every run of the login steps against any replies is an outcome of the plan |
| GameConn.StepsCompose | src/gameConn.js:195-245 | the outcomes of the three phases in turn add up to the outcome of a whole login |
| GameConn.OutcomeInOrder | src/gameConn.js:162-246 | whatever a login returns, the steps it issued are in protocol order, each at most once |
| GameConn.VariantRequirements | src/gameConn.js:164-193 | the masks "authwx" and "auth2step" install meet their variants' requirement predicates, and a forced reset leaves no progress |
| GameConn.AuthWxFreshPlan | src/gameConn.js:204-245 | an "authwx" login from no progress plans key exchange, load balancing, token |
| GameConn.AuthWxRetryPlan | src/gameConn.js:142-146 | a successful balancing resets the mask to just the LB flag, erasing the key exchange, so the next "authwx" login plans key exchange and token again |
| GameConn.Auth2StepFreshPlan | src/gameConn.js:215-245 | an "auth2step" login from no progress plans load balancing and the signature, but no token |
| GameConn.Auth2StepFirstLogin | src/gameConn.js:230-241 | a first "auth2step" login that does not throw issues balancing then signature, returns true and leaves the LB and sign flags set, without logging in |
| GameConn.Auth2StepWithoutCode | src/gameConn.js:242-245 | before an auth code arrives, another "auth2step" login issues nothing and returns false |
| GameConn.Auth2StepWithCode | src/gameConn.js:77-85 | once `setSign` has recorded the code, the next "auth2step" login issues only the token request, and a true result means logged in |
| GameConn.LoggedInRunsNothing | src/gameConn.js:195-197 | a logged-in session's login issues nothing, returns false and keeps its mask |
| GameConn.AuthWxFreshMasks | src/gameConn.js:204-244 | in a fresh "authwx" login the key exchange is due, then balancing, then no signature and the token request is ready |
| GameConn.Auth2StepFreshMasks | src/gameConn.js:204-233 | in a fresh "auth2step" login the key exchange is skipped, balancing is due, then the signature |
| GameConn.KeyIdErrorRun | src/gameConn.js:204-208 | a falsy reply to a due key exchange ends the login with 'keyId error' after the one exchange request, the mask unchanged and only that reply consumed |
| GameConn.KeyExchangeUnanswered | src/gameConn.js:362-377 | with no reply, a due key exchange propagates the failed fetch after sending its request |
| GameConn.AuthWxLbErrorRun | src/gameConn.js:215-221 | a fresh "authwx" login with a good key reply and an unsuccessful balancing reply ends with 'lb error', an empty mask, two replies consumed and exactly the exchange and balancing requests sent, in that order |
| GameConn.Auth2StepSignErrorRun | src/gameConn.js:230-235 | a fresh "auth2step" login with a good balancing reply and a falsy signature reply ends with 'get sign error', the LB bit kept, after exactly the balancing request and the signature request to the assigned server |
| GameConn.AuthWxTokenRun | src/gameConn.js:204-244 | a fresh "authwx" login with good key and balancing replies sends the exchange, balancing and token requests in that order, the token request to the assigned server, and returns whether its reply was accepted; only an accepted reply sets the logged-in bit |
| GameConn.TokenRejectedRun | src/gameConn.js:106-115 | when only the token request is left, a turned-down reply returns false, keeps the mask, sends only the token request and consumes one reply |
| GameConn.Auth2StepCodeRun | src/gameConn.js:240-241 | after a first "auth2step" login and a recorded code, the run sends only the token request and returns whether it was accepted |
| GameConn.WebSocketModeRejected | src/gameConn.js:303-311 | in the "webSocket" mode the token request is rejected: the login throws, no reply is consumed and nothing is sent |
| GameConn.Remote.constructor | src/gameConn.js:12-21 | POST transport, no requirements, progress seeded from the options, a working copy of the configuration and an empty identity |
| GameConn.Remote.SetMode | src/gameConn.js:32-35 | the transport mode becomes the given one |
| GameConn.Remote.ClearCache | src/gameConn.js:121-125 | only the token is nulled |
| GameConn.Remote.SetSign | src/gameConn.js:77-85 | when the variant requires a signature, the code is stored as `openkey` and the sign-code flag is set; otherwise nothing changes |
| GameConn.Remote.SetUserInfo | src/gameConn.js:255-269 | the token is cleared and the new identity merged shallowly over the old; a non-zero mask replaces the requirements |
| GameConn.Remote.Locate | src/gameConn.js:320-325 | the working configuration is redirected to the given host and port |
| GameConn.Remote.Init | src/gameConn.js:330-337 | a fresh copy of the original configuration, a new empty identity and both masks zero |
| GameConn.Remote.New | src/gameConn.js:275-277 | a new connector sharing only the original configuration and transport mode, with fresh state |
| GameConn.Remote.ParseParams | src/gameConn.js:343-356 | the parameters are rewritten in place to `ParseSpec`'s result; false exactly where the source would throw |
| GameConn.Remote.GetRequest | src/gameConn.js:412-426 | a parameter object that cannot be parsed throws before any request; otherwise exactly one GET with the parsed parameters goes out, and its reply or failure is returned |
| GameConn.Remote.PostRequest | src/gameConn.js:432-439 | as for GET, but one POST whose body is the parsed parameters |
| GameConn.Remote.AskGateway | src/gameConn.js:42-45 | the gateway request of `getOpenId` and `getSign`: exactly one GET with the parsed parameters to the identity's domain, and the identity is untouched |
| GameConn.Remote.GetOpenId | src/gameConn.js:40-55 | one key-exchange GET on the original configuration's `authPort`, with the stored `openkey` and the identity's domain as the auth path; a truthy reply stores its `unionid` as `openid`; the result is the reply's truthiness |
| GameConn.Remote.GetSign | src/gameConn.js:60-71 | one signature GET; a truthy reply is stored as `auth` and the result is its truthiness |
| GameConn.Remote.SetLB | src/gameConn.js:131-155 | when not forced and already balanced, nothing changes. Otherwise: the token and mask are cleared, one request goes to the bootstrap server, and a successful reply sets exactly the LB flag and redirects the configuration to the reply's ip and port |
| GameConn.Remote.Preflight | src/gameConn.js:299-301 | when balancing is due, the session (mask, configuration, identity, replies left) ends as `GameConn.Balance` leaves it, the one request sent is `GameConn.LbRequest`, and only `setLB`'s exceptions (not its false result) propagate |
| GameConn.Remote.Dispatch | src/gameConn.js:303-311 | GET mode sends a GET, POST mode a POST, each consuming one reply and leaving the parameters parsed in place; any other mode is a rejection with nothing sent, nothing consumed and the parameters untouched |
| GameConn.Remote.Fetching | src/gameConn.js:296-312 | a parse failure sends nothing and changes nothing, the parameters included; the parameters are left parsed once when balancing throws or the mode is rejected, and parsed twice otherwise; when balancing is due, the LB request goes first and the session ends as `GameConn.Balance` leaves it; unless balancing threw, the doubly parsed request then goes out by transport mode to the (possibly redirected) configuration with the (possibly token-cleared) identity, consuming one reply, and its reply is the result; without balancing nothing else changes |
| GameConn.Remote.StoreIssued | src/gameConn.js:106-115 | an accepted token reply stores the issued openid, id, token and name, and sets the logged-in flag |
| GameConn.Remote.SendToken | src/gameConn.js:101-104 | the token request carries the whole identity under command '1000', consumes one reply in a sending mode and changes no session state |
| GameConn.Remote.GetToken | src/gameConn.js:90-116 | only when every required step is done and the session is not logged in is the token request sent; true exactly for an accepted reply, which logs the session in; any other outcome leaves mask and identity unchanged |
| GameConn.Remote.ForceReset | src/gameConn.js:163-167 | with `force`, only the token and the progress mask are cleared; without it nothing changes |
| GameConn.Remote.BindDomain | src/gameConn.js:169-193 | "authwx" and "auth2step" install their requirement masks and merge their identity fields after clearing the token; another truthy domain is an 'Unknown domain name' error that changes nothing; no domain changes nothing |
| GameConn.Remote.BindIdentity | src/gameConn.js:163-193 | force clears the token and the progress mask; the identity of a known domain is merged in with its requirement mask; a truthy unknown domain is an 'Unknown domain name' error and, unless forced, changes nothing |
| GameConn.Remote.OpenIdPhase | src/gameConn.js:204-212 | the error and the whole session after it (mask, configuration, identity with the stored `openid`, requests sent, replies left) are those of `GameConn.KeyExchange`: when due, exactly the key-exchange GET is sent; when not due nothing is sent |
| GameConn.Remote.LbPhase | src/gameConn.js:215-225 | the error and the whole session after it (mask, the redirected configuration, identity with the token nulled, requests sent, replies left) are those of `GameConn.Balance`; when due the one request sent is `GameConn.LbRequest`; when not due nothing is sent |
| GameConn.Remote.Finish | src/gameConn.js:230-245 | the result and the whole session after it (mask, unchanged configuration, identity with `auth` or the issued fields stored, requests sent, replies left) are those of `GameConn.LastStep`, which sends exactly the signature GET or the token request; nothing is sent when neither step is due; a token request carries the identity's `openkey` |
| GameConn.Remote.SignPhase | src/gameConn.js:230-239 | the signature request: its result and the session after it (mask with the sign bit on success, identity with the reply stored as `auth`, configuration unchanged, exactly the signature GET sent, replies left) are those of `GameConn.LastStep` |
| GameConn.Remote.TokenPhase | src/gameConn.js:240-244 | the token step: its result and the session after it (mask, unchanged configuration, identity with the issued fields on acceptance, the token request sent by transport mode, replies left) are those of `GameConn.LastStep`; the request carries the identity's `openkey` |
| GameConn.Remote.BalanceAndFinish | src/gameConn.js:215-245 | the result, steps and the whole session after it (mask, redirected configuration, identity, every request sent in order, replies left) are those of `GameConn.BalanceThenLast`; a token request sent carries the `openkey` |
| GameConn.Remote.RunSteps | src/gameConn.js:195-245 | the result, steps and the whole session after it (mask, configuration, identity, every request sent in order, replies left) are those of `GameConn.LoginRun`, hence an outcome of the plan; `openkey` and `domain` are kept; once logged in nothing is sent and nothing changes |
| GameConn.Remote.RunPlanned | src/gameConn.js:199-245 | from a session that is not logged in, the result, steps and the whole session after it (mask, configuration, identity, every request sent in order, replies left) are those of `GameConn.LoginRun` |
| GameConn.Remote.Login | src/gameConn.js:162-246 | the requirements are set by the domain; an unknown domain throws before any request; otherwise the identity bound is the forced reset and domain merge, and the result, steps and the whole session after it (mask, configuration, identity, every request sent in order, replies left) are those of `GameConn.LoginRun` from that identity and the mask left after the forced reset, hence an outcome of the plan; a known domain is still the identity's `domain` afterwards |
| GameConn.Remote.OnAuthCode | src/gameConn.js:23-25 | in the two-stage variant the code is recorded as the `openkey` and the sign-code flag set, and the token request then carries that code; the result, steps and whole session after it, requests sent included, are those of `GameConn.LoginRun` from the resulting mask and identity |

## Left out

- The `Indicator` class (`src/utils/Indicator.js`) is not part of this model. It is modelled from its uses as `check`, `set` and `init` on a non-negative integer. Its factory `inst(v)` (src/gameConn.js:14, 20) is modelled as `init(v)`; for the constructor's `options.status` the model (`GameConn.StatusSeed`) assumes a non-negative integer seeds the mask and that anything else gives an empty mask, which is a guess because the class is not shown.
- `Rpc.Split`: models `String.prototype.split` with a one-character separator only, which is the only kind the connector uses.
- `setFetch` and the custom-fetch branches of `get` and `post`: the transport is the `Http` oracle, whose replies are parameters. The JSON decoding of a reply and the `fetch` call itself are part of that oracle.
- The "webSocket" transport mode: the source has no branch for it in `fetching`, so it is rejected (`GameConn.WebSocketModeRejected`); no WebSocket behaviour is modelled.
- `encodeURIComponent` and `JSON.stringify`: the uninterpreted functions `enc` and `json`.
- `Rpc.Url`: `json` receives a `Value`, whose objects are maps without key order, so the text of a serialized object (the identity in the `oemInfo` query value, src/gameConn.js:422, and the POST body, src/gameConn.js:386) is not determined by the model beyond being a function of the object's contents; the key order of the serialized text is not modelled. The order of the query's own pairs is modelled.
- Concurrency: overlapping `async` calls on one connector are not modelled. Each method runs to completion with no other method running.
- Floating point: numbers are integers.
- `Util.Clone`: the `Date` branch and the throw for unsupported types are not modelled, because `Value` has no dates, functions or other host objects. The model also does not capture that the copy is a fresh object; Dafny values have no identity.
- `Util.MergeOne`: a top-level array or string source contributes no fields, while in JavaScript its indices would be copied. The connector only passes objects.
- `Util.ExtendObj`: the cases where the target is not an object (`this` or a function target), and getters and setters, are not modelled.
- Aliasing: the `userInfo` snapshot stored in `oemInfo`, and objects shared by a shallow or deep merge, are modelled as values, so later writes through an alias are not visible.
- `GameConn.Remote.ParseParams`: requires the parameters not to be the identity object itself. The connector never passes `userInfo` to `parseParams`.
- `Rpc.ConfigOk`: the model requires every configuration to have a `webserver` object. Without one, `locate` would throw a TypeError.
- `Json.LooseEqualsZero`: a text whose value underflows to zero in double precision (such as "1e-400") is not recognised as zero, because floating point is not modelled.
- Integer-like keys: `Object.keys` lists them first, in ascending numeric order, while `Props` keeps insertion order for every key. The connector uses no integer-like keys.
- `src/index.js` (the module exports and `Array.prototype.randObj`) and the time, date and random helpers of `src/utils/util.js`: these are library plumbing outside the login session.
- The `!this.userInfo` guards (`setSign`, `getToken`, `clearCache`, `setLB`, `login`) and the `this.userInfo || {}` fallbacks (`setUserInfo`, `parseParams`): in the model `userInfo` is always an object, which is how the source uses it: the constructor and `init` always set it, so the guards never fire and the fallbacks never apply.

### Behaviour of the code worth noting

- A forced login and `setLB` reset only the progress mask, never the requirements.
- `setLB` replaces the whole mask: a successful balancing erases an earlier key exchange (`GameConn.AuthWxRetryPlan`).
- So a complete "authwx" login ends with the mask LB|logined, not OpenId|LB|logined (`GameConn.AuthWxTokenRun`).
- `parseParams` always overwrites `oemInfo` with the identity, so the one `setLB` sets is replaced (`GameConn.LbWireParams`).
- Parsing twice equals parsing once only when the first parse leaves a non-empty func. `func: "a."` leaves `func: ""`, which a second parse turns into 'login' (`Rpc.ParseTwiceIffNonEmptyFunc`, `Rpc.ParseNotIdempotentOnTrailingDot`).
- With `force` set, an unknown domain throws only after the token and progress mask have been reset.
- `clearCache`, and `setUserInfo` through it, null the token but leave the logined bit, so a session can report itself logged in with no token (`GameConn.Remote.ClearCache`).
