/**
 * The server half of the five proxy classes (`static startProxy`, inject.ts:58-179, 426-562,
 * 701-837, 931-1064, 1204-1288), as one step parameterised by the provider family: filter the
 * message by its channel, run the family's early checks, dispatch to the backend, post one
 * response. The backend's answer is an input (`Outcome`), and a request calls it at most once.
 */
module ProxyServer {
  import opened Base
  import opened Js
  import opened Codec
  import opened Protocol
  import SignDirect

  /** What the server uses of its backend object: which member names hold functions, and `initChainId`. */
  datatype Backend = Backend(functions: set<string>, initChainId: Value)

  /** A thrown Error: its `message` and its `code` property. */
  datatype Thrown = Thrown(message: string, code: Value)

  /** How the backend call ended. */
  datatype Outcome = Returned(value: Value) | Threw(error: Thrown)

  /** `e.message || e.toString()` for an Error `e`: its message, or "Error" when that is empty. */
  function ErrorText(message: string): (t: string)
    ensures t != ""
    ensures message != "" ==> t == message
  {
    if message != "" then message else "Error"
  }

  /** A call of the backend member `member` with these arguments. */
  datatype BackendCall = BackendCall(member: string, args: seq<Value>)

  /** The module-level `localStore` Map and the page's `localStorage` (JSON encoding not modelled). */
  datatype Stores = Stores(localStore: map<string, Value>, localStorage: map<string, Value>)

  datatype Server = Server(family: Family, ns: Namespaces, reactNative: bool, backend: Backend, codec: Codec)

  // ---------------------------------------------------------------------------------------
  // Early checks

  /** The method names a family refuses outright. */
  function DeniedNames(f: Family): set<string> {
    match f
    case OWalletFamily =>
      {"version", "mode", "defaultOptions", "getOfflineSigner", "getOfflineSignerOnlyAmino",
       "getOfflineSignerAuto", "getEnigmaUtils"}
    case TronWebFamily => {"version", "mode"}
    case _ => {"version", "mode", "chainId"}
  }

  /** The names only the OWallet server refuses, all in its own checks. */
  const OWalletOnlyDenied: set<string> :=
    {"defaultOptions", "getOfflineSigner", "getOfflineSignerOnlyAmino", "getOfflineSignerAuto", "getEnigmaUtils"}

  /** The names some family refuses. */
  const AnyDeniedName: set<string> :=
    {"version", "mode", "chainId", "defaultOptions", "getOfflineSigner", "getOfflineSignerOnlyAmino",
     "getOfflineSignerAuto", "getEnigmaUtils"}

  lemma DeniedNamesBounded(f: Family)
    ensures DeniedNames(f) <= AnyDeniedName
  {
  }

  /**
   * The early checks of a family's handler, in the order the source throws: the error of the
   * first that fails, or None when the request may be dispatched.
   */
  function Rejection(f: Family, b: Backend, m: Envelope): (r: Option<string>)
    ensures r.Some? ==> r.value != ""
  {
    if !Truthy(m.id) then Some("Empty id")
    else if m.methodName == Str("version") then Some("Version is not function")
    else if m.methodName == Str("mode") then Some("Mode is not function")
    else match f
      case OWalletFamily => OWalletRejection(b, m)
      case TronWebFamily => None
      case _ => if m.methodName == Str("chainId") then Some("chain id is not function") else None
  }

  /**
   * The OWallet-only checks: defaultOptions, a backend function, and the four signer getters.
   * The backend lookup converts the method to its property key with `String()`; the other
   * tests compare the method itself with `===`.
   */
  function OWalletRejection(b: Backend, m: Envelope): (r: Option<string>)
    ensures r.Some? ==> r.value != ""
    ensures r.None? <==> && ToStr(m.methodName) in b.functions
                         && !(m.methodName.Str? && m.methodName.s in OWalletOnlyDenied)
  {
    if m.methodName == Str("defaultOptions") then Some("DefaultOptions is not function")
    else if ToStr(m.methodName) !in b.functions then Some("Invalid method: " + ToStr(m.methodName))
    else if m.methodName == Str("getOfflineSigner") then Some("GetOfflineSigner method can't be proxy request")
    else if m.methodName == Str("getOfflineSignerOnlyAmino") then Some("GetOfflineSignerOnlyAmino method can't be proxy request")
    else if m.methodName == Str("getOfflineSignerAuto") then Some("GetOfflineSignerAuto method can't be proxy request")
    else if m.methodName == Str("getEnigmaUtils") then Some("GetEnigmaUtils method can't be proxy request")
    else None
  }

  /**
   * A request passes the checks exactly when it has an id, its method is not a string the
   * family denies, and, for OWallet, the method's `String()` names a function of the backend.
   */
  lemma AdmittedExactly(f: Family, b: Backend, m: Envelope)
    ensures Rejection(f, b, m).None?
            <==> && Truthy(m.id)
                 && !(m.methodName.Str? && m.methodName.s in DeniedNames(f))
                 && (f == OWalletFamily ==> ToStr(m.methodName) in b.functions)
  {
    if f == OWalletFamily && Truthy(m.id) && m.methodName.Str? {
      var name := m.methodName.s;
      assert name in DeniedNames(f) <==>
        name in {"version", "mode", "defaultOptions"} || name in {"getOfflineSigner", "getOfflineSignerOnlyAmino",
                                                             "getOfflineSignerAuto", "getEnigmaUtils"};
    }
  }

  // ---------------------------------------------------------------------------------------
  // Dispatch

  /** The `localStore` key of the active chain id of the two Ethereum servers. */
  function ChainIdKey(f: Family): string {
    if f == EthereumOWalletFamily then "eth_owallet.chainId" else "ethereum.chainId"
  }

  const TronAddressKey := "tronWeb.defaultAddress"

  /** `Map.prototype.get`: undefined for an absent key. */
  function Lookup(m: map<string, Value>, key: string): Value {
    if key in m then m[key] else Undefined
  }

  /** `message.args[1] ?? localStore.get(key) ?? initChainId`, which throws only when `args` is null or undefined. */
  function DispatchChainId(f: Family, b: Backend, args: Value, st: Stores): (r: Result<Value>)
    ensures r.Err? <==> Nullish(args)
    ensures r.Ok? && !Nullish(ElementOf(args, 1)) ==> r.value == ElementOf(args, 1)
    ensures r.Ok? && Nullish(ElementOf(args, 1)) && !Nullish(Lookup(st.localStore, ChainIdKey(f)))
            ==> r.value == Lookup(st.localStore, ChainIdKey(f))
    ensures r.Ok? && Nullish(ElementOf(args, 1)) && Nullish(Lookup(st.localStore, ChainIdKey(f)))
            ==> r.value == b.initChainId
  {
    if Nullish(args) then Err(ReadOfNullish)
    else Ok(Coalesce(ElementOf(args, 1), Coalesce(Lookup(st.localStore, ChainIdKey(f)), b.initChainId)))
  }

  /** The `eth_chainId` answer: the chain id when its string starts with "0x", else "0x0". */
  function NormalisedChainId(chainId: Value): (r: Value)
    ensures HasHexPrefix(r)
    ensures HasHexPrefix(chainId) ==> r == chainId
    ensures !HasHexPrefix(chainId) ==> r == Str("0x0")
  {
    if HasHexPrefix(chainId) then chainId else Str("0x0")
  }

  /** The argument of `backend.request(...)`: `{method, params, chainId}`. */
  function RpcRequest(methodName: Value, params: Value, chainId: Value): Value {
    Obj(map["method" := methodName, "params" := params, "chainId" := chainId])
  }

  /** What the server does with the backend's answer. */
  datatype Resumption =
    | AsReturned           // post the value
    | Discarded            // post undefined (wallet_addEthereumChain)
    | RawTxHex             // post the `rawTxHex` field (eth_sendTransaction)
    | SwitchChain(key: string)  // store the value under `key`, post it
    | Receipt              // post the value; a failure posts undefined
    | TronAccounts         // store the address; fold failures into a value
    | SignedDirect         // turn the signed account number back into a string

  /** The dispatch decision for a request that passed the checks. */
  datatype Plan =
    | Fail(message: string)                         // throws before any backend call
    | Answer(value: Value)                          // answers without the backend
    | Invoke(call: BackendCall, resume: Resumption) // calls the backend once

  /** OWallet (inject.ts:118-154): signDirect by its bridge, anything else by name with the unwrapped args spread. */
  function OWalletPlan(srv: Server, m: Envelope): (p: Plan)
    ensures p.Invoke? ==> p.resume == (if m.methodName == Str("signDirect") then SignedDirect else AsReturned)
    ensures p.Invoke? ==> p.call.member == ToStr(m.methodName)
  {
    if m.methodName == Str("signDirect") then
      if Nullish(m.args) then Fail(ReadOfNullish)
      else match SignDirect.ReceivedSignDoc(ElementOf(m.args, 2))
        case Err(e) => Fail(e)
        case Ok(doc) =>
          var a := m.args;
          Invoke(BackendCall("signDirect", [ElementOf(a, 0), ElementOf(a, 1), doc, ElementOf(a, 3)]), SignedDirect)
    else match Spread(srv.codec.unwrap(m.args))
      case Err(e) => Fail(e)
      case Ok(xs) => Invoke(BackendCall(ToStr(m.methodName), xs), AsReturned)
  }

  /** The Ethereum and Ethereum-OWallet switch (inject.ts:468-536, 973-1038). */
  function EthereumPlan(srv: Server, m: Envelope, st: Stores): (p: Plan)
    requires srv.family == EthereumFamily || srv.family == EthereumOWalletFamily
    ensures p.Invoke? && p.resume.SwitchChain? ==>
              m.methodName == Str("wallet_switchEthereumChain") && p.resume.key == ChainIdKey(srv.family)
    ensures p.Invoke? ==> !p.resume.TronAccounts? && !p.resume.SignedDirect?
  {
    match DispatchChainId(srv.family, srv.backend, m.args, st)
    case Err(e) => Fail(e)
    case Ok(chainId) =>
      var name := m.methodName;
      var params := ElementOf(m.args, 0);
      var request := RpcRequest(name, params, chainId);
      if name == Str("eth_signTypedData_v4") then Invoke(BackendCall("signEthereumTypeData", [chainId, params]), AsReturned)
      else if name == Str("public_key") then Invoke(BackendCall("getPublicKey", [chainId]), AsReturned)
      else if name == Str("eth_signDecryptData") then Invoke(BackendCall("signDecryptData", [chainId, params]), AsReturned)
      else if name == Str("eth_signReEncryptData") then Invoke(BackendCall("signReEncryptData", [chainId, params]), AsReturned)
      else if name == Str("wallet_addEthereumChain") then Invoke(BackendCall("experimentalSuggestChain", [params]), Discarded)
      else if name == Str("eth_sendTransaction") then
        if Nullish(params) then Fail(ReadOfNullish)
        else Invoke(BackendCall("signAndBroadcastEthereum", [chainId, ElementOf(params, 0)]), RawTxHex)
      else if name == Str("eth_chainId") then Answer(NormalisedChainId(chainId))
      else if name == Str("eth_initChainId") && srv.family == EthereumFamily then Answer(srv.backend.initChainId)
      else if name == Str("wallet_switchEthereumChain") then
        Invoke(BackendCall("request", [request]), SwitchChain(ChainIdKey(srv.family)))
      else if name == Str("eth_getTransactionReceipt") then Invoke(BackendCall("request", [request]), Receipt)
      else Invoke(BackendCall("request", [request]), AsReturned)
  }

  /** The TronWeb switch (inject.ts:1235-1263). */
  function TronWebPlan(m: Envelope): (p: Plan)
    ensures p.Invoke? ==> (p.resume.TronAccounts? <==> m.methodName == Str("tron_requestAccounts"))
    ensures p.Invoke? ==> p.resume.TronAccounts? || p.resume.AsReturned?
  {
    if m.methodName == Str("tron_requestAccounts") then Invoke(BackendCall("getDefaultAddress", []), TronAccounts)
    else if Nullish(m.args) then Fail(ReadOfNullish)
    else Invoke(BackendCall("sign", [ElementOf(m.args, 0)]), AsReturned)
  }

  function PlanFor(srv: Server, m: Envelope, st: Stores): (p: Plan)
    requires srv.family != BitcoinFamily
    ensures p.Invoke? && p.resume.SwitchChain? ==>
              && (srv.family == EthereumFamily || srv.family == EthereumOWalletFamily)
              && m.methodName == Str("wallet_switchEthereumChain")
              && p.resume.key == ChainIdKey(srv.family)
    ensures p.Invoke? && p.resume.TronAccounts? ==>
              srv.family == TronWebFamily && m.methodName == Str("tron_requestAccounts")
  {
    match srv.family
    case OWalletFamily => OWalletPlan(srv, m)
    case TronWebFamily => TronWebPlan(m)
    case EthereumFamily => EthereumPlan(srv, m, st)
    case EthereumOWalletFamily => EthereumPlan(srv, m, st)
  }

  /** The `{code: 200, ...}` answer of a Tron account request outside React Native. */
  const Whitelisted := Obj(map["code" := Num(200), "message" := Str("The site is already in the whitelist")])

  /** How the handler ends after the backend answered: a value to post, or an error message. */
  datatype Completion = Done(value: Value) | Failed(message: string)

  function Completed(srv: Server, k: Resumption, outcome: Outcome): Completion {
    match outcome
    case Threw(e) =>
      (match k
       case Receipt => Done(Undefined)
       case TronAccounts => Done(Obj(map["code" := e.code, "message" := Str(e.message)]))
       case _ => Failed(e.message))
    case Returned(v) =>
      (match k
       case AsReturned => Done(v)
       case Discarded => Done(Undefined)
       case RawTxHex => if Nullish(v) then Failed(ReadOfNullish) else Done(FieldOf(v, "rawTxHex"))
       case SwitchChain(_) => Done(v)
       case Receipt => Done(v)
       case TronAccounts => Done(if srv.reactNative then v else Whitelisted)
       case SignedDirect =>
         match SignDirect.WireSignResponse(v)
         case Ok(w) => Done(w)
         case Err(e) => Failed(e))
  }

  /** The writes of a successful switch of chain and of a successful Tron account request. */
  function StoresAfter(k: Resumption, outcome: Outcome, st: Stores): (r: Stores)
    ensures r.localStore != st.localStore ==>
              outcome.Returned? && k.SwitchChain? && r.localStore == st.localStore[k.key := outcome.value]
    ensures r.localStorage != st.localStorage ==>
              outcome.Returned? && k.TronAccounts? && r.localStorage == st.localStorage[TronAddressKey := outcome.value]
  {
    match outcome
    case Threw(_) => st
    case Returned(v) =>
      if k.SwitchChain? then st.(localStore := st.localStore[k.key := v])
      else if k.TronAccounts? then st.(localStorage := st.localStorage[TronAddressKey := v])
      else st
  }

  // ---------------------------------------------------------------------------------------
  // The handler

  /** One handler invocation: the backend call it makes, the response it posts, the stores after it. */
  datatype Step = Step(call: Option<BackendCall>, reply: Option<Envelope>, stores: Stores)

  function ReturnReply(srv: Server, id: Value, v: Value): Envelope {
    Reply(srv.family, srv.ns, id, ReturnResult(srv.codec.wrap(v)))
  }

  function ErrorReply(srv: Server, id: Value, message: string): Envelope {
    Reply(srv.family, srv.ns, id, ErrorResult(ErrorText(message)))
  }

  /** The response of a handler that has thrown nothing or `message`. */
  function Finish(srv: Server, id: Value, c: Completion): Envelope {
    match c
    case Done(v) => ReturnReply(srv, id, v)
    case Failed(e) => ErrorReply(srv, id, e)
  }

  /**
   * The handler installed by `startProxy` on one message event: ignore it unless it is on the
   * family's channel, throw the first failing check, else dispatch (the Bitcoin server has no
   * dispatch and answers nothing); what it throws is posted as `{error}`.
   */
  function Handle(srv: Server, msg: Option<Envelope>, outcome: Outcome, st: Stores): (s: Step)
    ensures s.call.Some? ==> s.reply.Some?
    ensures s.stores != st ==> s.call.Some?
  {
    if !OnChannel(srv.family, srv.ns, srv.reactNative, msg) then Step(None, None, st)
    else
      var m := msg.value;
      match Rejection(srv.family, srv.backend, m)
      case Some(e) => Step(None, Some(ErrorReply(srv, m.id, e)), st)
      case None =>
        if srv.family == BitcoinFamily then Step(None, None, st)
        else match PlanFor(srv, m, st)
          case Fail(e) => Step(None, Some(ErrorReply(srv, m.id, e)), st)
          case Answer(v) => Step(None, Some(ReturnReply(srv, m.id, v)), st)
          case Invoke(call, k) =>
            Step(Some(call), Some(Finish(srv, m.id, Completed(srv, k, outcome))), StoresAfter(k, outcome, st))
  }

  // ---------------------------------------------------------------------------------------
  // Properties of the handler

  /** A request that passed the checks and whose plan calls the backend: the call, the response, the writes. */
  lemma InvokeStep(srv: Server, m: Envelope, call: BackendCall, k: Resumption, outcome: Outcome, st: Stores)
    requires srv.family != BitcoinFamily && OnChannel(srv.family, srv.ns, srv.reactNative, Some(m))
    requires Rejection(srv.family, srv.backend, m).None? && PlanFor(srv, m, st) == Invoke(call, k)
    ensures Handle(srv, Some(m), outcome, st)
            == Step(Some(call), Some(Finish(srv, m.id, Completed(srv, k, outcome))), StoresAfter(k, outcome, st))
  {
  }

  /** A request that passed the checks and whose plan answers without the backend. */
  lemma AnswerStep(srv: Server, m: Envelope, v: Value, outcome: Outcome, st: Stores)
    requires srv.family != BitcoinFamily && OnChannel(srv.family, srv.ns, srv.reactNative, Some(m))
    requires Rejection(srv.family, srv.backend, m).None? && PlanFor(srv, m, st) == Answer(v)
    ensures Handle(srv, Some(m), outcome, st) == Step(None, Some(ReturnReply(srv, m.id, v)), st)
  {
  }

  /** A message off this channel is ignored. */
  lemma OffChannelIgnored(srv: Server, msg: Option<Envelope>, outcome: Outcome, st: Stores)
    requires !OnChannel(srv.family, srv.ns, srv.reactNative, msg)
    ensures Handle(srv, msg, outcome, st) == Step(None, None, st)
  {
  }

  /** Every response answers the request's own id on the family's reply namespace, with exactly one branch. */
  lemma RepliesAnswerTheRequest(srv: Server, msg: Option<Envelope>, outcome: Outcome, st: Stores)
    requires Handle(srv, msg, outcome, st).reply.Some?
    ensures var r := Handle(srv, msg, outcome, st).reply.value;
            && OnChannel(srv.family, srv.ns, srv.reactNative, msg)
            && r == Reply(srv.family, srv.ns, msg.value.id, r.result)
            && OneBranch(r.result)
  {
    var m := msg.value;
    match Rejection(srv.family, srv.backend, m) {
      case Some(e) => ErrorReplyShape(srv, m.id, e);
      case None =>
        match PlanFor(srv, m, st) {
          case Fail(e) => ErrorReplyShape(srv, m.id, e);
          case Answer(v) => ReturnReplyShape(srv, m.id, v);
          case Invoke(_, k) =>
            match Completed(srv, k, outcome) {
              case Done(v) => ReturnReplyShape(srv, m.id, v);
              case Failed(e) => ErrorReplyShape(srv, m.id, e);
            }
        }
    }
  }

  lemma ReturnReplyShape(srv: Server, id: Value, v: Value)
    ensures var r := ReturnReply(srv, id, v);
            r == Reply(srv.family, srv.ns, id, r.result) && OneBranch(r.result)
  {
    assert ReturnResult(srv.codec.wrap(v)).fields.Keys == {"return"};
  }

  lemma ErrorReplyShape(srv: Server, id: Value, message: string)
    ensures var r := ErrorReply(srv, id, message);
            r == Reply(srv.family, srv.ns, id, r.result) && OneBranch(r.result)
  {
    assert ErrorResult(ErrorText(message)).fields.Keys == {"error"};
  }

  /** Every request on the channel is answered, except by the Bitcoin server. */
  lemma EveryRequestAnswered(srv: Server, msg: Option<Envelope>, outcome: Outcome, st: Stores)
    requires OnChannel(srv.family, srv.ns, srv.reactNative, msg) && srv.family != BitcoinFamily
    ensures Handle(srv, msg, outcome, st).reply.Some?
  {
  }

  /** A failing check is answered with its error, the backend is not called and nothing is stored. */
  lemma RejectedRequestGetsTheError(srv: Server, msg: Option<Envelope>, outcome: Outcome, st: Stores)
    requires OnChannel(srv.family, srv.ns, srv.reactNative, msg) && Rejection(srv.family, srv.backend, msg.value).Some?
    ensures Handle(srv, msg, outcome, st)
            == Step(None, Some(ErrorReply(srv, msg.value.id, Rejection(srv.family, srv.backend, msg.value).value)), st)
  {
  }

  /** The backend is called only for an on-channel request that passed every check, and as the plan says. */
  lemma CallsFollowTheChecks(srv: Server, msg: Option<Envelope>, outcome: Outcome, st: Stores)
    requires Handle(srv, msg, outcome, st).call.Some?
    ensures && OnChannel(srv.family, srv.ns, srv.reactNative, msg) && srv.family != BitcoinFamily
            && Rejection(srv.family, srv.backend, msg.value).None?
            && PlanFor(srv, msg.value, st).Invoke?
            && Handle(srv, msg, outcome, st).call.value == PlanFor(srv, msg.value, st).call
  {
  }

  /** The Bitcoin server never calls its backend, stores nothing and answers only errors. */
  lemma BitcoinAnswersOnlyErrors(srv: Server, msg: Option<Envelope>, outcome: Outcome, st: Stores)
    requires srv.family == BitcoinFamily
    ensures var s := Handle(srv, msg, outcome, st);
            && s.call.None? && s.stores == st
            && (s.reply.Some? ==> s.reply.value.result.Obj? && s.reply.value.result.fields.Keys == {"error"})
  {
  }

  /** The stores change only by a backend call that returned, as its resumption says. */
  lemma StoresChangeOnlyOnSuccess(srv: Server, msg: Option<Envelope>, outcome: Outcome, st: Stores)
    requires Handle(srv, msg, outcome, st).stores != st
    ensures && OnChannel(srv.family, srv.ns, srv.reactNative, msg) && srv.family != BitcoinFamily
            && PlanFor(srv, msg.value, st).Invoke? && outcome.Returned?
            && Handle(srv, msg, outcome, st).stores == StoresAfter(PlanFor(srv, msg.value, st).resume, outcome, st)
  {
  }

  /** A denied method name is answered with an error on the request's own id and never reaches the backend. */
  lemma DeniedNamesNeverReachBackend(srv: Server, msg: Option<Envelope>, outcome: Outcome, st: Stores)
    requires OnChannel(srv.family, srv.ns, srv.reactNative, msg)
    requires msg.value.methodName.Str? && msg.value.methodName.s in DeniedNames(srv.family)
    ensures var s := Handle(srv, msg, outcome, st);
            && s.call.None? && s.stores == st
            && s.reply.Some? && s.reply.value.id == msg.value.id && "error" in s.reply.value.result.fields
  {
    AdmittedExactly(srv.family, srv.backend, msg.value);
  }

  /** A request without an id (or an empty one) is answered with "Empty id" and never reaches the backend. */
  lemma EmptyIdIsRejected(srv: Server, msg: Option<Envelope>, outcome: Outcome, st: Stores)
    requires OnChannel(srv.family, srv.ns, srv.reactNative, msg)
    requires !Truthy(msg.value.id)
    ensures Handle(srv, msg, outcome, st) == Step(None, Some(ErrorReply(srv, msg.value.id, "Empty id")), st)
  {
  }

  /**
   * The OWallet server calls only backend functions, by the `String()` of the requested
   * method, and never a denied one when the method is a string (`DeniedGetterReachesBackend`
   * shows a non-string method that reaches a denied one).
   */
  lemma OWalletCallsOnlyAllowedFunctions(srv: Server, msg: Option<Envelope>, outcome: Outcome, st: Stores)
    requires srv.family == OWalletFamily
    ensures var s := Handle(srv, msg, outcome, st);
            s.call.Some? ==> && s.call.value.member == ToStr(msg.value.methodName)
                             && s.call.value.member in srv.backend.functions
                             && (msg.value.methodName.Str? ==> s.call.value.member !in DeniedNames(OWalletFamily))
  {
    if Handle(srv, msg, outcome, st).call.Some? {
      AdmittedExactly(OWalletFamily, srv.backend, msg.value);
    }
  }

  /**
   * The deny list compares the method with `===` but the lookup uses its `String()`: the
   * one-element array `["getOfflineSigner"]` passes every check and calls the denied getter.
   */
  lemma DeniedGetterReachesBackend(srv: Server, m: Envelope, xs: seq<Value>, outcome: Outcome, st: Stores)
    requires srv.family == OWalletFamily && OnChannel(srv.family, srv.ns, srv.reactNative, Some(m)) && Truthy(m.id)
    requires m.methodName == Arr([Str("getOfflineSigner")]) && "getOfflineSigner" in srv.backend.functions
    requires Spread(srv.codec.unwrap(m.args)) == Ok(xs)
    ensures "getOfflineSigner" in DeniedNames(OWalletFamily)
    ensures Handle(srv, Some(m), outcome, st).call == Some(BackendCall("getOfflineSigner", xs))
  {
    assert ToStr(m.methodName) == "getOfflineSigner";
    assert Rejection(OWalletFamily, srv.backend, m).None?;
    OWalletForwardStep(srv, m, xs, outcome, st);
  }

  /**
   * The OWallet checks as evidently intended: run on the property key the lookup uses, so a
   * request passes exactly when it has an id and names a backend function that is not denied.
   * On string methods it agrees with the checks as written.
   */
  function GuardedRejection(b: Backend, m: Envelope): (r: Option<string>)
    ensures r.None? <==> && Truthy(m.id) && ToStr(m.methodName) in b.functions
                         && ToStr(m.methodName) !in DeniedNames(OWalletFamily)
    ensures m.methodName.Str? ==> r == Rejection(OWalletFamily, b, m)
  {
    var named := m.(methodName := Str(ToStr(m.methodName)));
    AdmittedExactly(OWalletFamily, b, named);
    Rejection(OWalletFamily, b, named)
  }

  /** Behind the corrected checks, the OWallet dispatch calls only backend functions, and never a denied one. */
  lemma GuardedCallsAvoidDeniedNames(srv: Server, m: Envelope, st: Stores)
    requires srv.family == OWalletFamily && GuardedRejection(srv.backend, m).None? && PlanFor(srv, m, st).Invoke?
    ensures PlanFor(srv, m, st).call.member in srv.backend.functions
    ensures PlanFor(srv, m, st).call.member !in DeniedNames(OWalletFamily)
  {
    assert PlanFor(srv, m, st) == OWalletPlan(srv, m);
  }

  /**
   * After a successful `wallet_switchEthereumChain` answered with a non-null chain id, a later
   * request without its own chain id (args[1]) is dispatched on that chain.
   */
  lemma SwitchedChainIsUsed(srv: Server, switchMsg: Envelope, chainId: Value, next: Envelope, st: Stores)
    requires srv.family == EthereumFamily || srv.family == EthereumOWalletFamily
    requires OnChannel(srv.family, srv.ns, srv.reactNative, Some(switchMsg)) && Truthy(switchMsg.id)
    requires switchMsg.methodName == Str("wallet_switchEthereumChain") && !Nullish(switchMsg.args)
    requires !Nullish(chainId)
    requires !Nullish(next.args) && Nullish(ElementOf(next.args, 1))
    ensures var after := Handle(srv, Some(switchMsg), Returned(chainId), st).stores;
            && Lookup(after.localStore, ChainIdKey(srv.family)) == chainId
            && DispatchChainId(srv.family, srv.backend, next.args, after) == Ok(chainId)
  {
    SwitchChainStep(srv, switchMsg, Returned(chainId), st);
  }

  /** Only a switch of chain that succeeded writes the active chain id. */
  lemma OnlySwitchWritesChainId(srv: Server, msg: Option<Envelope>, outcome: Outcome, st: Stores)
    ensures var s := Handle(srv, msg, outcome, st);
            s.stores.localStore != st.localStore ==>
              && (srv.family == EthereumFamily || srv.family == EthereumOWalletFamily)
              && msg.value.methodName == Str("wallet_switchEthereumChain")
              && outcome.Returned?
              && s.stores.localStore == st.localStore[ChainIdKey(srv.family) := outcome.value]
  {
    if Handle(srv, msg, outcome, st).stores != st {
      StoresChangeOnlyOnSuccess(srv, msg, outcome, st);
    }
  }

  /** Any other OWallet method calls the backend member its `String()` names, with the unwrapped args spread. */
  lemma OWalletForwardStep(srv: Server, m: Envelope, xs: seq<Value>, outcome: Outcome, st: Stores)
    requires srv.family == OWalletFamily && OnChannel(srv.family, srv.ns, srv.reactNative, Some(m))
    requires Rejection(OWalletFamily, srv.backend, m).None?
    requires m.methodName != Str("signDirect") && Spread(srv.codec.unwrap(m.args)) == Ok(xs)
    ensures Handle(srv, Some(m), outcome, st)
            == Step(Some(BackendCall(ToStr(m.methodName), xs)), Some(Finish(srv, m.id, Completed(srv, AsReturned, outcome))), st)
  {
    assert PlanFor(srv, m, st) == Invoke(BackendCall(ToStr(m.methodName), xs), AsReturned);
  }

  /** A signDirect request hands the backend the received sign document, read back into a Long. */
  lemma SignDirectStep(srv: Server, m: Envelope, doc: Value, outcome: Outcome, st: Stores)
    requires srv.family == OWalletFamily && OnChannel(srv.family, srv.ns, srv.reactNative, Some(m)) && Truthy(m.id)
    requires m.methodName == Str("signDirect") && "signDirect" in srv.backend.functions && !Nullish(m.args)
    requires SignDirect.ReceivedSignDoc(ElementOf(m.args, 2)) == Ok(doc)
    ensures Handle(srv, Some(m), outcome, st)
            == Step(Some(BackendCall("signDirect", [ElementOf(m.args, 0), ElementOf(m.args, 1), doc, ElementOf(m.args, 3)])),
                    Some(Finish(srv, m.id, Completed(srv, SignedDirect, outcome))), st)
  {
    assert Rejection(srv.family, srv.backend, m).None?;
  }

  /** The `eth_chainId` answer is the resolved chain id when it starts with "0x", else "0x0"; no backend call. */
  lemma ChainIdAnswerIsHex(srv: Server, m: Envelope, outcome: Outcome, st: Stores)
    requires srv.family == EthereumFamily || srv.family == EthereumOWalletFamily
    requires OnChannel(srv.family, srv.ns, srv.reactNative, Some(m)) && Truthy(m.id)
    requires m.methodName == Str("eth_chainId") && !Nullish(m.args)
    ensures var chainId := DispatchChainId(srv.family, srv.backend, m.args, st).value;
            && Handle(srv, Some(m), outcome, st) == Step(None, Some(ReturnReply(srv, m.id, NormalisedChainId(chainId))), st)
            && HasHexPrefix(NormalisedChainId(chainId))
  {
    var chainId := DispatchChainId(srv.family, srv.backend, m.args, st).value;
    assert Rejection(srv.family, srv.backend, m).None?;
    assert EthereumPlan(srv, m, st) == Answer(NormalisedChainId(chainId));
    AnswerStep(srv, m, NormalisedChainId(chainId), outcome, st);
  }

  /** The Ethereum method names the server handles by its own cases. */
  const EthereumCases: set<string> :=
    {"eth_signTypedData_v4", "public_key", "eth_signDecryptData", "eth_signReEncryptData", "wallet_addEthereumChain",
     "eth_sendTransaction", "eth_chainId", "eth_initChainId", "wallet_switchEthereumChain", "eth_getTransactionReceipt"}

  /** The methods the Ethereum servers pass on to `backend.request({method, params, chainId})`, and how each resumes. */
  lemma RequestPlan(srv: Server, m: Envelope, k: Resumption, st: Stores)
    requires (srv.family == EthereumFamily || srv.family == EthereumOWalletFamily) && !Nullish(m.args) && m.methodName.Str?
    requires || (m.methodName.s == "wallet_switchEthereumChain" && k == SwitchChain(ChainIdKey(srv.family)))
             || (m.methodName.s == "eth_getTransactionReceipt" && k == Receipt)
             || (m.methodName.s !in EthereumCases && k == AsReturned)
    ensures var chainId := DispatchChainId(srv.family, srv.backend, m.args, st).value;
            PlanFor(srv, m, st) == Invoke(BackendCall("request", [RpcRequest(m.methodName, ElementOf(m.args, 0), chainId)]), k)
  {
  }

  /** `eth_getTransactionReceipt` is answered with the receipt, or with undefined when the backend throws. */
  lemma ReceiptFailureIsSwallowed(srv: Server, m: Envelope, outcome: Outcome, st: Stores)
    requires srv.family == EthereumFamily || srv.family == EthereumOWalletFamily
    requires OnChannel(srv.family, srv.ns, srv.reactNative, Some(m)) && Truthy(m.id)
    requires m.methodName == Str("eth_getTransactionReceipt") && !Nullish(m.args)
    ensures var chainId := DispatchChainId(srv.family, srv.backend, m.args, st).value;
            Handle(srv, Some(m), outcome, st)
              == Step(Some(BackendCall("request", [RpcRequest(m.methodName, ElementOf(m.args, 0), chainId)])),
                      Some(ReturnReply(srv, m.id, if outcome.Returned? then outcome.value else Undefined)), st)
  {
    var chainId := DispatchChainId(srv.family, srv.backend, m.args, st).value;
    assert Rejection(srv.family, srv.backend, m).None?;
    RequestPlan(srv, m, Receipt, st);
    InvokeStep(srv, m, BackendCall("request", [RpcRequest(m.methodName, ElementOf(m.args, 0), chainId)]), Receipt, outcome, st);
  }

  /**
   * Any other method name reaches `backend.request({method, params: args[0], chainId})` and
   * the caller gets its value or its error.
   */
  lemma EthereumPassThrough(srv: Server, m: Envelope, outcome: Outcome, st: Stores)
    requires srv.family == EthereumFamily || srv.family == EthereumOWalletFamily
    requires OnChannel(srv.family, srv.ns, srv.reactNative, Some(m)) && Truthy(m.id) && !Nullish(m.args)
    requires m.methodName.Str? && m.methodName.s !in EthereumCases && m.methodName.s !in DeniedNames(srv.family)
    ensures var chainId := DispatchChainId(srv.family, srv.backend, m.args, st).value;
            Handle(srv, Some(m), outcome, st)
              == Step(Some(BackendCall("request", [RpcRequest(m.methodName, ElementOf(m.args, 0), chainId)])),
                      Some(Finish(srv, m.id, Completed(srv, AsReturned, outcome))), st)
  {
    var chainId := DispatchChainId(srv.family, srv.backend, m.args, st).value;
    assert Rejection(srv.family, srv.backend, m).None?;
    RequestPlan(srv, m, AsReturned, st);
    InvokeStep(srv, m, BackendCall("request", [RpcRequest(m.methodName, ElementOf(m.args, 0), chainId)]), AsReturned, outcome, st);
  }

  /**
   * The four signing and key cases call their own backend member with the dispatch chain id
   * (and `args[0]`, except `public_key`) and answer with what it returns.
   */
  lemma SignerCasesPlan(srv: Server, m: Envelope, st: Stores)
    requires (srv.family == EthereumFamily || srv.family == EthereumOWalletFamily) && !Nullish(m.args)
    ensures var chainId := DispatchChainId(srv.family, srv.backend, m.args, st).value;
            var params := ElementOf(m.args, 0);
            var p := PlanFor(srv, m, st);
            && (m.methodName == Str("eth_signTypedData_v4") ==>
                  p == Invoke(BackendCall("signEthereumTypeData", [chainId, params]), AsReturned))
            && (m.methodName == Str("public_key") ==> p == Invoke(BackendCall("getPublicKey", [chainId]), AsReturned))
            && (m.methodName == Str("eth_signDecryptData") ==>
                  p == Invoke(BackendCall("signDecryptData", [chainId, params]), AsReturned))
            && (m.methodName == Str("eth_signReEncryptData") ==>
                  p == Invoke(BackendCall("signReEncryptData", [chainId, params]), AsReturned))
  {
    assert PlanFor(srv, m, st) == EthereumPlan(srv, m, st);
  }

  /** `wallet_addEthereumChain` calls `experimentalSuggestChain(args[0])` and answers undefined, whatever it returns. */
  lemma SuggestChainStep(srv: Server, m: Envelope, outcome: Outcome, st: Stores)
    requires srv.family == EthereumFamily || srv.family == EthereumOWalletFamily
    requires OnChannel(srv.family, srv.ns, srv.reactNative, Some(m)) && Truthy(m.id) && !Nullish(m.args)
    requires m.methodName == Str("wallet_addEthereumChain")
    ensures var s := Handle(srv, Some(m), outcome, st);
            && s.call == Some(BackendCall("experimentalSuggestChain", [ElementOf(m.args, 0)]))
            && s.reply == Some(if outcome.Returned? then ReturnReply(srv, m.id, Undefined)
                               else ErrorReply(srv, m.id, outcome.error.message))
            && s.stores == st
  {
    var call := BackendCall("experimentalSuggestChain", [ElementOf(m.args, 0)]);
    assert Rejection(srv.family, srv.backend, m).None?;
    assert PlanFor(srv, m, st) == Invoke(call, Discarded);
    InvokeStep(srv, m, call, Discarded, outcome, st);
  }

  /**
   * `eth_sendTransaction` sends only the first element of `args[0]` to `signAndBroadcastEthereum`
   * and answers with the `rawTxHex` of its result; a nullish `args[0]` or result throws.
   */
  lemma SendTransactionStep(srv: Server, m: Envelope, outcome: Outcome, st: Stores)
    requires srv.family == EthereumFamily || srv.family == EthereumOWalletFamily
    requires OnChannel(srv.family, srv.ns, srv.reactNative, Some(m)) && Truthy(m.id) && !Nullish(m.args)
    requires m.methodName == Str("eth_sendTransaction")
    ensures var chainId := DispatchChainId(srv.family, srv.backend, m.args, st).value;
            var params := ElementOf(m.args, 0);
            var s := Handle(srv, Some(m), outcome, st);
            && s.stores == st
            && (Nullish(params) ==> s.call.None? && s.reply == Some(ErrorReply(srv, m.id, ReadOfNullish)))
            && (!Nullish(params) ==>
                  && s.call == Some(BackendCall("signAndBroadcastEthereum", [chainId, ElementOf(params, 0)]))
                  && (outcome.Returned? && !Nullish(outcome.value) ==>
                        s.reply == Some(ReturnReply(srv, m.id, FieldOf(outcome.value, "rawTxHex"))))
                  && (outcome.Returned? && Nullish(outcome.value) ==> s.reply == Some(ErrorReply(srv, m.id, ReadOfNullish)))
                  && (outcome.Threw? ==> s.reply == Some(ErrorReply(srv, m.id, outcome.error.message))))
  {
    var chainId := DispatchChainId(srv.family, srv.backend, m.args, st).value;
    var params := ElementOf(m.args, 0);
    assert Rejection(srv.family, srv.backend, m).None?;
    if !Nullish(params) {
      var call := BackendCall("signAndBroadcastEthereum", [chainId, ElementOf(params, 0)]);
      assert PlanFor(srv, m, st) == Invoke(call, RawTxHex);
      InvokeStep(srv, m, call, RawTxHex, outcome, st);
    }
  }

  /**
   * `eth_initChainId` is answered with the backend's initial chain by the Ethereum server only;
   * the Ethereum-OWallet server has no such case and passes it to `backend.request`.
   */
  lemma InitChainIdStep(srv: Server, m: Envelope, outcome: Outcome, st: Stores)
    requires srv.family == EthereumFamily || srv.family == EthereumOWalletFamily
    requires OnChannel(srv.family, srv.ns, srv.reactNative, Some(m)) && Truthy(m.id) && !Nullish(m.args)
    requires m.methodName == Str("eth_initChainId")
    ensures var chainId := DispatchChainId(srv.family, srv.backend, m.args, st).value;
            var s := Handle(srv, Some(m), outcome, st);
            && (srv.family == EthereumFamily ==> s == Step(None, Some(ReturnReply(srv, m.id, srv.backend.initChainId)), st))
            && (srv.family == EthereumOWalletFamily ==>
                  && s.call == Some(BackendCall("request", [RpcRequest(m.methodName, ElementOf(m.args, 0), chainId)]))
                  && s.reply == Some(Finish(srv, m.id, Completed(srv, AsReturned, outcome))))
  {
    var chainId := DispatchChainId(srv.family, srv.backend, m.args, st).value;
    assert Rejection(srv.family, srv.backend, m).None?;
    if srv.family == EthereumFamily {
      assert PlanFor(srv, m, st) == Answer(srv.backend.initChainId);
      AnswerStep(srv, m, srv.backend.initChainId, outcome, st);
    } else {
      var call := BackendCall("request", [RpcRequest(m.methodName, ElementOf(m.args, 0), chainId)]);
      assert PlanFor(srv, m, st) == Invoke(call, AsReturned);
      InvokeStep(srv, m, call, AsReturned, outcome, st);
    }
  }

  /** `wallet_switchEthereumChain` asks `backend.request` and, when it returns, keeps its value as the active chain id. */
  lemma SwitchChainStep(srv: Server, m: Envelope, outcome: Outcome, st: Stores)
    requires srv.family == EthereumFamily || srv.family == EthereumOWalletFamily
    requires OnChannel(srv.family, srv.ns, srv.reactNative, Some(m)) && Truthy(m.id) && !Nullish(m.args)
    requires m.methodName == Str("wallet_switchEthereumChain")
    ensures var chainId := DispatchChainId(srv.family, srv.backend, m.args, st).value;
            Handle(srv, Some(m), outcome, st)
              == Step(Some(BackendCall("request", [RpcRequest(m.methodName, ElementOf(m.args, 0), chainId)])),
                      Some(Finish(srv, m.id, Completed(srv, AsReturned, outcome))),
                      if outcome.Returned? then st.(localStore := st.localStore[ChainIdKey(srv.family) := outcome.value])
                      else st)
  {
    var chainId := DispatchChainId(srv.family, srv.backend, m.args, st).value;
    var call := BackendCall("request", [RpcRequest(m.methodName, ElementOf(m.args, 0), chainId)]);
    var k := SwitchChain(ChainIdKey(srv.family));
    assert Rejection(srv.family, srv.backend, m).None?;
    RequestPlan(srv, m, k, st);
    InvokeStep(srv, m, call, k, outcome, st);
    assert Completed(srv, k, outcome) == Completed(srv, AsReturned, outcome);
  }

  /**
   * A Tron account request is always answered as a success: a failure folds into
   * `{code, message}`; outside React Native a found address is answered `{code: 200, ...}`
   * and is kept under 'tronWeb.defaultAddress'.
   */
  lemma TronAccountsAlwaysReturn(srv: Server, msg: Option<Envelope>, outcome: Outcome, st: Stores)
    requires srv.family == TronWebFamily
    requires OnChannel(srv.family, srv.ns, srv.reactNative, msg) && Truthy(msg.value.id)
    requires msg.value.methodName == Str("tron_requestAccounts")
    ensures var s := Handle(srv, msg, outcome, st);
            && s.call == Some(BackendCall("getDefaultAddress", []))
            && (outcome.Threw? ==>
                  && s.stores == st
                  && s.reply == Some(ReturnReply(srv, msg.value.id,
                       Obj(map["code" := outcome.error.code, "message" := Str(outcome.error.message)]))))
            && (outcome.Returned? ==>
                  && s.stores == st.(localStorage := st.localStorage[TronAddressKey := outcome.value])
                  && s.reply == Some(ReturnReply(srv, msg.value.id, if srv.reactNative then outcome.value else Whitelisted)))
  {
    assert Rejection(srv.family, srv.backend, msg.value).None?;
  }

  /** Every Tron method other than the account request signs `args[0]` with the backend's `sign`. */
  lemma TronOtherMethodsSign(srv: Server, m: Envelope, outcome: Outcome, st: Stores)
    requires srv.family == TronWebFamily && OnChannel(srv.family, srv.ns, srv.reactNative, Some(m))
    requires Rejection(TronWebFamily, srv.backend, m).None?
    requires m.methodName != Str("tron_requestAccounts") && !Nullish(m.args)
    ensures Handle(srv, Some(m), outcome, st)
            == Step(Some(BackendCall("sign", [ElementOf(m.args, 0)])),
                    Some(Finish(srv, m.id, Completed(srv, AsReturned, outcome))), st)
  {
    assert PlanFor(srv, m, st) == Invoke(BackendCall("sign", [ElementOf(m.args, 0)]), AsReturned);
  }

  /** A request that passes the Bitcoin server's checks gets no response at all. */
  lemma BitcoinNeverAnswersSuccess(srv: Server, msg: Option<Envelope>, outcome: Outcome, st: Stores)
    requires srv.family == BitcoinFamily
    requires !OnChannel(srv.family, srv.ns, srv.reactNative, msg) || Rejection(BitcoinFamily, srv.backend, msg.value).None?
    ensures Handle(srv, msg, outcome, st) == Step(None, None, st)
  {
  }

  // ---------------------------------------------------------------------------------------
  // The content script that hosts the servers

  /**
   * The relaying context: the state the handlers write (`localStore`, `localStorage`), the
   * responses they post, and the backend calls they make, in order.
   */
  class ContentScript {
    var localStore: map<string, Value>
    var localStorage: map<string, Value>
    var posted: seq<Envelope>
    var backendCalls: seq<BackendCall>

    constructor ()
      ensures localStore == map[] && localStorage == map[] && posted == [] && backendCalls == []
    {
      localStore, localStorage, posted, backendCalls := map[], map[], [], [];
    }

    function CurrentStores(): Stores
      reads this
    {
      Stores(localStore, localStorage)
    }

    method PostError(srv: Server, id: Value, message: string)
      modifies this`posted
      ensures posted == old(posted) + [ErrorReply(srv, id, message)]
    {
      posted := posted + [ErrorReply(srv, id, message)];
    }

    /** The early checks of `srv.family`'s handler, thrown in source order. */
    static method FailedCheck(srv: Server, m: Envelope) returns (violation: Option<string>)
      ensures violation == Rejection(srv.family, srv.backend, m)
    {
      if !Truthy(m.id) {
        return Some("Empty id");
      }
      if m.methodName == Str("version") {
        return Some("Version is not function");
      }
      if m.methodName == Str("mode") {
        return Some("Mode is not function");
      }
      match srv.family {
        case OWalletFamily =>
          if m.methodName == Str("defaultOptions") {
            return Some("DefaultOptions is not function");
          }
          if ToStr(m.methodName) !in srv.backend.functions {
            return Some("Invalid method: " + ToStr(m.methodName));
          }
          if m.methodName == Str("getOfflineSigner") {
            return Some("GetOfflineSigner method can't be proxy request");
          }
          if m.methodName == Str("getOfflineSignerOnlyAmino") {
            return Some("GetOfflineSignerOnlyAmino method can't be proxy request");
          }
          if m.methodName == Str("getOfflineSignerAuto") {
            return Some("GetOfflineSignerAuto method can't be proxy request");
          }
          if m.methodName == Str("getEnigmaUtils") {
            return Some("GetEnigmaUtils method can't be proxy request");
          }
        case TronWebFamily =>
        case _ =>
          if m.methodName == Str("chainId") {
            return Some("chain id is not function");
          }
      }
      return None;
    }

    /** The dispatch of a request that passed the checks (every family but Bitcoin). */
    method Dispatch(srv: Server, m: Envelope, outcome: Outcome)
      requires srv.family != BitcoinFamily
      modifies this
      ensures var p := PlanFor(srv, m, old(CurrentStores()));
              && posted == old(posted) + [match p
                   case Fail(e) => ErrorReply(srv, m.id, e)
                   case Answer(v) => ReturnReply(srv, m.id, v)
                   case Invoke(_, k) => Finish(srv, m.id, Completed(srv, k, outcome))]
              && backendCalls == old(backendCalls) + (if p.Invoke? then [p.call] else [])
              && CurrentStores() == (if p.Invoke? then StoresAfter(p.resume, outcome, old(CurrentStores())) else old(CurrentStores()))
    {
      match PlanFor(srv, m, CurrentStores()) {
        case Fail(e) =>
          PostError(srv, m.id, e);
        case Answer(v) =>
          posted := posted + [ReturnReply(srv, m.id, v)];
        case Invoke(call, k) =>
          backendCalls := backendCalls + [call];
          if outcome.Returned? && k.SwitchChain? {
            localStore := localStore[k.key := outcome.value];
          } else if outcome.Returned? && k.TronAccounts? {
            localStorage := localStorage[TronAddressKey := outcome.value];
          }
          posted := posted + [Finish(srv, m.id, Completed(srv, k, outcome))];
      }
    }

    /** One message event reaching the handler that `srv.family`'s `startProxy` installed. */
    method Serve(srv: Server, msg: Option<Envelope>, outcome: Outcome)
      modifies this
      ensures var s := Handle(srv, msg, outcome, old(CurrentStores()));
              && posted == old(posted) + ToSeq(s.reply)
              && backendCalls == old(backendCalls) + ToSeq(s.call)
              && CurrentStores() == s.stores
    {
      var f := srv.family;
      if msg.None? || msg.value.kind != Str(RequestKind(f, srv.ns, srv.reactNative))
         || msg.value.namespace != Str(ChannelNamespace(f, srv.ns)) {
        return;
      }
      var m := msg.value;
      var violation := FailedCheck(srv, m);
      if violation.Some? {
        PostError(srv, m.id, violation.value);
        return;
      }
      if f == BitcoinFamily {
        return;
      }
      Dispatch(srv, m, outcome);
    }
  }
}
