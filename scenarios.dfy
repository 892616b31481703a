/**
 * Round trips through both halves: a request built by a page-side wrapper, handled by the
 * matching content-script server, and the response read back by the waiting listener.
 */
module Scenarios {
  import opened Base
  import opened Js
  import opened Codec
  import opened Protocol
  import opened CorrelationId
  import opened ProxyServer
  import opened ProxyClient
  import SignDirect

  /** What the caller's promise settles to when the backend ended with `outcome`. */
  function Expected(outcome: Outcome): Settlement {
    match outcome
    case Returned(v) => Resolved(v)
    case Threw(e) => Rejected(ErrorText(e.message))
  }

  /** The backend's value holds no Long, so the codec carries it back to the caller intact. */
  predicate Carried(outcome: Outcome) {
    outcome.Returned? ==> NoLong(outcome.value)
  }

  /** A signed document whose only Long is its account number, which the bridge turns into a string. */
  predicate LongOnlyInAccountNumber(r: SignDirect.DirectSignResponse) {
    && NoLong(r.signed.bodyBytes) && NoLong(r.signed.authInfoBytes) && NoLong(r.signed.chainId)
    && NoLong(r.signature)
  }

  /** The request `request({method, params, chainId})` posts (the wrapper passes `[params, chainId]`). */
  function RpcEnvelope(srv: Server, id: string, methodName: string, params: Value, chainId: Value): Envelope {
    RequestEnvelope(srv.family, srv.ns, srv.reactNative, id, methodName, srv.codec.wrap(Arr([params, chainId])))
  }

  /** A handler that ends by posting the backend's outcome settles the caller with it. */
  lemma SettleOutcome(srv: Server, id: Value, outcome: Outcome)
    requires Lawful(srv.codec) && Carried(outcome)
    ensures Settle(srv.codec, Finish(srv, id, Completed(srv, AsReturned, outcome)).result) == Expected(outcome)
  {
    match outcome {
      case Returned(v) => SettleReturn(srv.codec, v);
      case Threw(e) => SettleError(srv.codec, ErrorText(e.message));
    }
  }

  /** A request with an id and a method no family denies passes every family's checks (OWallet's if the backend has it). */
  lemma NoRejection(srv: Server, m: Envelope)
    requires Truthy(m.id) && m.methodName.Str? && m.methodName.s !in AnyDeniedName
    requires srv.family == OWalletFamily ==> m.methodName.s in srv.backend.functions
    ensures Rejection(srv.family, srv.backend, m).None?
  {
    DeniedNamesBounded(srv.family);
    AdmittedExactly(srv.family, srv.backend, m);
  }

  /**
   * Every OWallet wrapper except signDirect posts its method name and its arguments: the
   * backend member of that name is called with exactly those arguments, and the caller's
   * promise settles with the backend's value or its error message.
   */
  lemma ForwardedCall(srv: Server, name: string, args: seq<Value>, id: string, outcome: Outcome, st: Stores)
    requires srv.family == OWalletFamily && Lawful(srv.codec) && id != ""
    requires name != "signDirect" && name !in AnyDeniedName && name in srv.backend.functions
    requires (forall i | 0 <= i < |args| :: NoLong(args[i])) && Carried(outcome)
    ensures var msg := RequestEnvelope(OWalletFamily, srv.ns, srv.reactNative, id, name, srv.codec.wrap(Arr(args)));
            var s := Handle(srv, Some(msg), outcome, st);
            && s.call == Some(BackendCall(name, args))
            && s.stores == st
            && s.reply.Some? && Matches(id, s.reply)
            && Settle(srv.codec, s.reply.value.result) == Expected(outcome)
  {
    var m := RequestEnvelope(OWalletFamily, srv.ns, srv.reactNative, id, name, srv.codec.wrap(Arr(args)));
    NoRejection(srv, m);
    assert NoLong(Arr(args));
    assert srv.codec.unwrap(m.args) == Arr(args);
    OWalletForwardStep(srv, m, args, outcome, st);
    SettleOutcome(srv, m.id, outcome);
  }

  /** The caller's sign document with the fields the codec wraps on the way, its account number untouched. */
  function WrappedDoc(c: Codec, doc: SignDirect.SignDoc): SignDirect.SignDoc {
    doc.(bodyBytes := c.wrap(doc.bodyBytes), authInfoBytes := c.wrap(doc.authInfoBytes), chainId := c.wrap(doc.chainId))
  }

  /**
   * The codec walks the wire sign document field by field and leaves its account-number
   * string alone, so the server reads it as the wire document of the wrapped fields.
   */
  lemma WrapWireDoc(c: Codec, doc: SignDirect.SignDoc)
    requires Lawful(c)
    ensures SignDirect.ReceivedSignDoc(c.wrap(SignDirect.WireSignDoc(doc)))
            == SignDirect.ReceivedSignDoc(SignDirect.WireSignDoc(WrappedDoc(c, doc)))
  {
    var fields := SignDirect.WireSignDoc(doc).fields;
    WrapFields(c, fields, "bodyBytes");
    WrapFields(c, fields, "authInfoBytes");
    WrapFields(c, fields, "chainId");
    WrapFields(c, fields, "accountNumber");
    var a := SignDirect.WireAccountNumber(doc.accountNumber);
    assert c.wrap(a) == a;
    SignDirect.ReceivedSignDocReadsFields(c.wrap(SignDirect.WireSignDoc(doc)), SignDirect.WireSignDoc(WrappedDoc(c, doc)));
  }

  /** Request leg of signDirect on the wire: the server reads back the caller's account number as the same Long. */
  lemma SignDirectArgsArrive(c: Codec, chainId: Value, signer: Value, doc: SignDirect.SignDoc, options: Value)
    requires Lawful(c)
    ensures var args := c.wrap(Arr([chainId, signer, SignDirect.WireSignDoc(doc), options]));
            && args.Arr? && ElementOf(args, 0) == c.wrap(chainId) && ElementOf(args, 1) == c.wrap(signer)
            && ElementOf(args, 3) == c.wrap(options)
            && SignDirect.ReceivedSignDoc(ElementOf(args, 2)) == Ok(SignDirect.BackendSignDoc(WrappedDoc(c, doc)))
  {
    var wireDoc := SignDirect.WireSignDoc(doc);
    var args := [chainId, signer, wireDoc, options];
    WrapArgs(c, args, 0);
    WrapArgs(c, args, 1);
    WrapArgs(c, args, 2);
    WrapArgs(c, args, 3);
    WrapWireDoc(c, doc);
    SignDirect.RequestLeg(WrappedDoc(c, doc));
  }

  /** Response leg of signDirect on the wire: a signed document with an account number reaches the caller intact. */
  lemma SignDirectAnswerArrives(srv: Server, id: Value, r: SignDirect.DirectSignResponse)
    requires Lawful(srv.codec) && r.signed.accountNumber.Some? && LongOnlyInAccountNumber(r)
    ensures var reply := Finish(srv, id, Completed(srv, SignedDirect, Returned(SignDirect.BackendSignResponse(r))));
            SignDirectResult(Settle(srv.codec, reply.result)) == Ok(r)
  {
    var w := SignDirect.WireSignResponse(SignDirect.BackendSignResponse(r)).value;
    SignedDirectCompletes(srv, r);
    WireAnswerHasNoLong(r);
    assert Finish(srv, id, Done(w)).result == ReturnResult(srv.codec.wrap(w));
    SettleReturn(srv.codec, w);
  }

  /** The server's wire answer carries the account number as a string, so it holds no Long. */
  lemma WireAnswerHasNoLong(r: SignDirect.DirectSignResponse)
    requires r.signed.accountNumber.Some? && LongOnlyInAccountNumber(r)
    ensures SignDirect.WireSignResponse(SignDirect.BackendSignResponse(r)).Ok?
    ensures NoLong(SignDirect.WireSignResponse(SignDirect.BackendSignResponse(r)).value)
  {
    var result := SignDirect.BackendSignResponse(r);
    var signed := FieldOf(result, "signed");
    assert signed == SignDirect.BackendSignDoc(r.signed);
    assert FieldOf(result, "signature") == r.signature;
    assert FieldOf(signed, "bodyBytes") == r.signed.bodyBytes;
    assert FieldOf(signed, "authInfoBytes") == r.signed.authInfoBytes;
    assert FieldOf(signed, "chainId") == r.signed.chainId;
    var doc := SignDirect.DocObject(r.signed.bodyBytes, r.signed.authInfoBytes, r.signed.chainId,
                                    Str(ToStr(FieldOf(signed, "accountNumber"))));
    assert NoLong(doc);
    assert SignDirect.WireSignResponse(result) == Ok(Obj(map["signed" := doc, "signature" := r.signature]));
  }

  /** The server turns the backend's signed document into the wire answer the client reads back. */
  lemma SignedDirectCompletes(srv: Server, r: SignDirect.DirectSignResponse)
    requires r.signed.accountNumber.Some?
    ensures SignDirect.WireSignResponse(SignDirect.BackendSignResponse(r)).Ok?
    ensures var w := SignDirect.WireSignResponse(SignDirect.BackendSignResponse(r)).value;
            && Completed(srv, SignedDirect, Returned(SignDirect.BackendSignResponse(r))) == Done(w)
            && SignDirectResult(Resolved(w)) == Ok(r)
  {
    SignDirect.ResponseLeg(r);
  }

  /**
   * signDirect end to end: the backend receives the caller's account number as the same Long
   * (the other sign-document fields as the codec wrapped them), and a signed document it
   * returns reaches the caller with its account number intact.
   */
  lemma SignDirectRoundTrip(srv: Server, chainId: Value, signer: Value, doc: SignDirect.SignDoc, options: Value,
                            id: string, r: SignDirect.DirectSignResponse, st: Stores)
    requires srv.family == OWalletFamily && Lawful(srv.codec) && id != ""
    requires "signDirect" in srv.backend.functions
    requires r.signed.accountNumber.Some? && LongOnlyInAccountNumber(r)
    ensures var c := srv.codec;
            var msg := RequestEnvelope(OWalletFamily, srv.ns, srv.reactNative, id, "signDirect",
                                       c.wrap(Arr([chainId, signer, SignDirect.WireSignDoc(doc), options])));
            Handle(srv, Some(msg), Returned(SignDirect.BackendSignResponse(r)), st)
              == Step(Some(BackendCall("signDirect", [c.wrap(chainId), c.wrap(signer),
                                                      SignDirect.BackendSignDoc(WrappedDoc(c, doc)), c.wrap(options)])),
                      Some(Finish(srv, Str(id), Completed(srv, SignedDirect, Returned(SignDirect.BackendSignResponse(r))))),
                      st)
            && SignDirectResult(Settle(c, Finish(srv, Str(id), Completed(srv, SignedDirect,
                                                  Returned(SignDirect.BackendSignResponse(r)))).result)) == Ok(r)
  {
    var c := srv.codec;
    var m := RequestEnvelope(OWalletFamily, srv.ns, srv.reactNative, id, "signDirect",
                             c.wrap(Arr([chainId, signer, SignDirect.WireSignDoc(doc), options])));
    SignDirectArgsArrive(c, chainId, signer, doc, options);
    SignDirectStep(srv, m, SignDirect.BackendSignDoc(WrappedDoc(c, doc)), Returned(SignDirect.BackendSignResponse(r)), st);
    SignDirectAnswerArrives(srv, Str(id), r);
  }

  /**
   * A `request({method, params, chainId})` on the Ethereum objects: the server dispatches on
   * the caller's chain id when it gives one, else on the active chain id, else on the
   * backend's initial one.
   */
  lemma RequestChainId(srv: Server, methodName: string, params: Value, chainId: Value, id: string, st: Stores)
    requires (srv.family == EthereumFamily || srv.family == EthereumOWalletFamily) && Lawful(srv.codec)
    ensures var m := RpcEnvelope(srv, id, methodName, params, chainId);
            var active := Lookup(st.localStore, ChainIdKey(srv.family));
            DispatchChainId(srv.family, srv.backend, m.args, st)
              == Ok(if !Nullish(chainId) then srv.codec.wrap(chainId)
                    else if !Nullish(active) then active else srv.backend.initChainId)
  {
    WrapArgs(srv.codec, [params, chainId], 1);
    if Nullish(chainId) {
      assert srv.codec.wrap(chainId) == chainId;
    }
  }

  /**
   * A method the Ethereum server has no case for goes to `backend.request` with the caller's
   * method, params and resolved chain id, and the caller gets the backend's answer.
   */
  lemma PassThroughRequest(srv: Server, methodName: string, params: Value, chainId: Value, id: string, outcome: Outcome, st: Stores)
    requires (srv.family == EthereumFamily || srv.family == EthereumOWalletFamily) && Lawful(srv.codec) && id != ""
    requires methodName !in DeniedNames(srv.family) && methodName !in EthereumCases && Carried(outcome)
    ensures var msg := RpcEnvelope(srv, id, methodName, params, chainId);
            var resolved := DispatchChainId(srv.family, srv.backend, msg.args, st).value;
            var s := Handle(srv, Some(msg), outcome, st);
            && s.call == Some(BackendCall("request", [RpcRequest(Str(methodName), srv.codec.wrap(params), resolved)]))
            && s.stores == st
            && s.reply.Some? && Matches(id, s.reply)
            && Settle(srv.codec, s.reply.value.result) == Expected(outcome)
  {
    var m := RpcEnvelope(srv, id, methodName, params, chainId);
    WrapArgs(srv.codec, [params, chainId], 0);
    EthereumPassThrough(srv, m, outcome, st);
    SettleOutcome(srv, m.id, outcome);
  }

  /** A switch of chain that the backend answers with `switched` settles with it and keeps it as the active chain id. */
  lemma SwitchChainAnswered(srv: Server, params: Value, id: string, switched: Value, st: Stores)
    requires (srv.family == EthereumFamily || srv.family == EthereumOWalletFamily) && Lawful(srv.codec) && id != ""
    requires NoLong(switched)
    ensures var s := Handle(srv, Some(RpcEnvelope(srv, id, "wallet_switchEthereumChain", params, Undefined)), Returned(switched), st);
            && s.reply.Some?
            && Settle(srv.codec, s.reply.value.result) == Resolved(switched)
            && s.stores == st.(localStore := st.localStore[ChainIdKey(srv.family) := switched])
  {
    var m := RpcEnvelope(srv, id, "wallet_switchEthereumChain", params, Undefined);
    WrapArgs(srv.codec, [params, Undefined], 0);
    SwitchChainStep(srv, m, Returned(switched), st);
    SettleOutcome(srv, m.id, Returned(switched));
  }

  /** Asking for the chain id without giving one answers the active chain id, when it is hex, without the backend. */
  lemma ChainIdFromActive(srv: Server, id: string, st: Stores)
    requires (srv.family == EthereumFamily || srv.family == EthereumOWalletFamily) && Lawful(srv.codec) && id != ""
    requires HasHexPrefix(Lookup(st.localStore, ChainIdKey(srv.family))) && NoLong(Lookup(st.localStore, ChainIdKey(srv.family)))
    ensures var s := Handle(srv, Some(RpcEnvelope(srv, id, "eth_chainId", Arr([]), Undefined)), Returned(Null), st);
            && s.call.None? && s.reply.Some?
            && Settle(srv.codec, s.reply.value.result) == Resolved(Lookup(st.localStore, ChainIdKey(srv.family)))
  {
    var active := Lookup(st.localStore, ChainIdKey(srv.family));
    var m := RpcEnvelope(srv, id, "eth_chainId", Arr([]), Undefined);
    WrapArgs(srv.codec, [Arr([]), Undefined], 1);
    assert DispatchChainId(srv.family, srv.backend, m.args, st) == Ok(active);
    ChainIdAnswerIsHex(srv, m, Returned(Null), st);
    SettleReturn(srv.codec, active);
  }

  /**
   * Switching chain, then asking for the chain id without giving one: the answer is the chain
   * the backend switched to, when that is a hex string.
   */
  lemma SwitchThenAskChainId(srv: Server, params: Value, id1: string, id2: string, switched: Value, st: Stores)
    requires (srv.family == EthereumFamily || srv.family == EthereumOWalletFamily) && Lawful(srv.codec)
    requires id1 != "" && id2 != "" && HasHexPrefix(switched) && NoLong(switched)
    ensures var s1 := Handle(srv, Some(RpcEnvelope(srv, id1, "wallet_switchEthereumChain", params, Undefined)), Returned(switched), st);
            var s2 := Handle(srv, Some(RpcEnvelope(srv, id2, "eth_chainId", Arr([]), Undefined)), Returned(Null), s1.stores);
            && s1.reply.Some? && Settle(srv.codec, s1.reply.value.result) == Resolved(switched)
            && s2.call.None?
            && s2.reply.Some? && Settle(srv.codec, s2.reply.value.result) == Resolved(switched)
  {
    SwitchChainAnswered(srv, params, id1, switched, st);
    var st1 := st.(localStore := st.localStore[ChainIdKey(srv.family) := switched]);
    assert Lookup(st1.localStore, ChainIdKey(srv.family)) == switched;
    ChainIdFromActive(srv, id2, st1);
  }

  /** `eth_getTransactionReceipt` never rejects: a failing backend resolves the caller with undefined. */
  lemma ReceiptNeverRejects(srv: Server, params: Value, chainId: Value, id: string, outcome: Outcome, st: Stores)
    requires (srv.family == EthereumFamily || srv.family == EthereumOWalletFamily) && Lawful(srv.codec) && id != ""
    requires Carried(outcome)
    ensures var s := Handle(srv, Some(RpcEnvelope(srv, id, "eth_getTransactionReceipt", params, chainId)), outcome, st);
            && s.reply.Some?
            && Settle(srv.codec, s.reply.value.result) == (if outcome.Returned? then Resolved(outcome.value) else Resolved(Undefined))
  {
    var m := RpcEnvelope(srv, id, "eth_getTransactionReceipt", params, chainId);
    WrapArgs(srv.codec, [params, chainId], 0);
    ReceiptFailureIsSwallowed(srv, m, outcome, st);
    SettleReturn(srv.codec, if outcome.Returned? then outcome.value else Undefined);
  }

  /**
   * `tron_requestAccounts` never rejects: outside React Native the caller always gets either
   * `{code: 200, ...}` or the backend error's `{code, message}`.
   */
  lemma TronAccountsNeverReject(srv: Server, params: Value, chainId: Value, id: string, outcome: Outcome, st: Stores)
    requires srv.family == TronWebFamily && Lawful(srv.codec) && id != "" && !srv.reactNative
    requires outcome.Threw? ==> NoLong(outcome.error.code)
    ensures var s := Handle(srv, Some(RpcEnvelope(srv, id, "tron_requestAccounts", params, chainId)), outcome, st);
            && s.reply.Some?
            && Settle(srv.codec, s.reply.value.result)
                 == (if outcome.Returned? then Resolved(Whitelisted)
                     else Resolved(Obj(map["code" := outcome.error.code, "message" := Str(outcome.error.message)])))
  {
    var v := if outcome.Returned? then Whitelisted else Obj(map["code" := outcome.error.code, "message" := Str(outcome.error.message)]);
    TronAccountsReply(srv, params, chainId, id, outcome, st);
    assert NoLong(v);
    SettleReturn(srv.codec, v);
    assert Settle(srv.codec, ReturnReply(srv, Str(id), v).result) == Resolved(v);
  }

  /** The Tron server's reply to the page's account request: `Whitelisted`, or the folded error. */
  lemma TronAccountsReply(srv: Server, params: Value, chainId: Value, id: string, outcome: Outcome, st: Stores)
    requires srv.family == TronWebFamily && Lawful(srv.codec) && id != "" && !srv.reactNative
    ensures var m := RpcEnvelope(srv, id, "tron_requestAccounts", params, chainId);
            Handle(srv, Some(m), outcome, st).reply
              == Some(ReturnReply(srv, m.id, if outcome.Returned? then Whitelisted
                                             else Obj(map["code" := outcome.error.code, "message" := Str(outcome.error.message)])))
  {
    var m := RpcEnvelope(srv, id, "tron_requestAccounts", params, chainId);
    TronAccountsAlwaysReturn(srv, Some(m), outcome, st);
  }

  /** `trx.sign(tx)` reaches the backend's `sign` with the transaction as wrapped for the wire. */
  lemma TrxSignForwarded(srv: Server, tx: Value, id: string, outcome: Outcome, st: Stores)
    requires srv.family == TronWebFamily && Lawful(srv.codec) && id != "" && Carried(outcome)
    ensures var msg := RequestEnvelope(TronWebFamily, srv.ns, srv.reactNative, id, "sign", srv.codec.wrap(Arr([tx])));
            var s := Handle(srv, Some(msg), outcome, st);
            && s.call == Some(BackendCall("sign", [srv.codec.wrap(tx)]))
            && s.reply.Some? && Settle(srv.codec, s.reply.value.result) == Expected(outcome)
  {
    var c := srv.codec;
    var m := RequestEnvelope(TronWebFamily, srv.ns, srv.reactNative, id, "sign", c.wrap(Arr([tx])));
    AdmittedExactly(TronWebFamily, srv.backend, m);
    WrapArgs(c, [tx], 0);
    TronOtherMethodsSign(srv, m, outcome, st);
    SettleOutcome(srv, m.id, outcome);
  }

  /** The request the Bitcoin object's `enable()` posts, on the Ethereum channel. */
  function BitcoinEnable(btc: Server, id: string): Envelope {
    RequestEnvelope(BitcoinFamily, btc.ns, btc.reactNative, id, "eth_requestAccounts", btc.codec.wrap(Arr([Arr([])])))
  }

  /** The Bitcoin server takes the Bitcoin object's `enable()` request and leaves it unanswered. */
  lemma BitcoinServerIgnoresEnable(btc: Server, id: string, outcome: Outcome, st: Stores)
    requires btc.family == BitcoinFamily && id != ""
    ensures Handle(btc, Some(BitcoinEnable(btc, id)), outcome, st) == Step(None, None, st)
  {
    var m := BitcoinEnable(btc, id);
    assert Rejection(BitcoinFamily, btc.backend, m).None?;
    BitcoinNeverAnswersSuccess(btc, Some(m), outcome, st);
  }

  /** The Ethereum server on the same channel answers the Bitcoin object's `enable()` through `backend.request`. */
  lemma EthereumServerAnswersEnable(btc: Server, eth: Server, id: string, outcome: Outcome, st: Stores)
    requires btc.family == BitcoinFamily && eth.family == EthereumFamily
    requires btc.ns == eth.ns && btc.reactNative == eth.reactNative && btc.codec == eth.codec && Lawful(eth.codec)
    requires id != "" && Carried(outcome)
    ensures var msg := BitcoinEnable(btc, id);
            var s := Handle(eth, Some(msg), outcome, st);
            && s.call == Some(BackendCall("request",
                 [RpcRequest(Str("eth_requestAccounts"), eth.codec.wrap(Arr([])), DispatchChainId(EthereumFamily, eth.backend, msg.args, st).value)]))
            && s.reply.Some? && Settle(eth.codec, s.reply.value.result) == Expected(outcome)
  {
    var m := BitcoinEnable(btc, id);
    EnableReachesRequest(btc, eth, id, outcome, st);
    WrapArgs(eth.codec, [Arr([])], 0);
    SettleOutcome(eth, m.id, outcome);
  }

  /** The Ethereum server's step on the Bitcoin object's `enable()`: its default case. */
  lemma EnableReachesRequest(btc: Server, eth: Server, id: string, outcome: Outcome, st: Stores)
    requires btc.family == BitcoinFamily && eth.family == EthereumFamily
    requires btc.ns == eth.ns && btc.reactNative == eth.reactNative && btc.codec == eth.codec && Lawful(eth.codec) && id != ""
    ensures var m := BitcoinEnable(btc, id);
            Handle(eth, Some(m), outcome, st)
              == Step(Some(BackendCall("request",
                        [RpcRequest(m.methodName, ElementOf(m.args, 0), DispatchChainId(EthereumFamily, eth.backend, m.args, st).value)])),
                      Some(Finish(eth, m.id, Completed(eth, AsReturned, outcome))), st)
  {
    var m := BitcoinEnable(btc, id);
    assert "eth_requestAccounts" !in EthereumCases && "eth_requestAccounts" !in DeniedNames(EthereumFamily) by {
      assert DeniedNames(EthereumFamily) == {"version", "mode", "chainId"};
    }
    assert OnChannel(EthereumFamily, eth.ns, eth.reactNative, Some(m));
    assert !Nullish(m.args) by {
      assert !Nullish(Arr([Arr([])]));
    }
    assert Truthy(m.id);
    EthereumPassThrough(eth, m, outcome, st);
  }

  /** A response reaches exactly the listeners waiting under its id. */
  lemma ResponseCorrelation(srv: Server, msg: Option<Envelope>, outcome: Outcome, st: Stores, waiting: string)
    requires Handle(srv, msg, outcome, st).reply.Some?
    ensures Matches(waiting, Handle(srv, msg, outcome, st).reply) <==> msg.value.id == Str(waiting)
  {
    RepliesAnswerTheRequest(srv, msg, outcome, st);
  }

  /**
   * Two different random draws can give the same id, and then every response for one of
   * them also settles the other.
   */
  lemma CollidingCallsSettleTogether()
    ensures exists a: seq<Byte>, b: seq<Byte> :: |a| == 8 && |b| == 8 && a != b &&
              forall msg :: Matches(Id(a), msg) <==> Matches(Id(b), msg)
  {
    IdsCanCollide();
    var a: seq<Byte> := [0x1, 0x23, 0, 0, 0, 0, 0, 0];
    var b: seq<Byte> := [0x12, 0x3, 0, 0, 0, 0, 0, 0];
    assert Id(a) == Id(b);
  }
}
