/**
 * The client half of the five proxy classes: `requestMethod` (inject.ts:181-228 and its four
 * siblings), the wrapper methods that call it, the signDirect post-processing, and the
 * OWallet class's cache of enigma utilities (inject.ts:404-413).
 */
module ProxyClient {
  import opened Base
  import opened Js
  import opened Codec
  import opened Protocol
  import opened CorrelationId
  import SignDirect
  import ProxyServer

  /** How a pending request's promise settled. */
  datatype Settlement = Resolved(value: Value) | Rejected(message: string)

  /**
   * A listener's reading of a matched response's `result` (inject.ts:207-222): a missing result
   * rejects, a truthy `error` rejects even beside a `return`, anything else resolves with `return`.
   */
  function Settle(c: Codec, result: Value): (r: Settlement)
    ensures !Truthy(c.unwrap(result)) ==> r == Rejected("Result is null")
    ensures r.Resolved? <==> Truthy(c.unwrap(result)) && !Truthy(FieldOf(c.unwrap(result), "error"))
    ensures r.Resolved? ==> r.value == FieldOf(c.unwrap(result), "return")
  {
    var r := c.unwrap(result);
    if !Truthy(r) then Rejected("Result is null")
    else if Truthy(FieldOf(r, "error")) then Rejected(ToStr(FieldOf(r, "error")))
    else Resolved(FieldOf(r, "return"))
  }

  /** A server's `{return: wrap(v)}` resolves the promise with `v` itself, when `v` holds no Long. */
  lemma SettleReturn(c: Codec, v: Value)
    requires Lawful(c) && NoLong(v)
    ensures Settle(c, ReturnResult(c.wrap(v))) == Resolved(v)
  {
    UnwrapReturn(c, v);
  }

  /** A server's `{error: e}` rejects the promise with the message `e`. */
  lemma SettleError(c: Codec, e: string)
    requires Lawful(c) && e != ""
    ensures Settle(c, ErrorResult(e)) == Rejected(e)
  {
    UnwrapError(c, e);
  }

  /** A response without a result (or with a null one) rejects with "Result is null". */
  lemma SettleMissingResult(c: Codec, result: Value)
    requires Lawful(c) && Nullish(result)
    ensures Settle(c, result) == Rejected("Result is null")
  {
    assert c.unwrap(c.wrap(Undefined)) == Undefined;
    assert c.unwrap(c.wrap(Null)) == Null;
  }

  /** A listener takes a message that is a response carrying its own id; the namespace is not looked at. */
  predicate Matches(id: string, msg: Option<Envelope>) {
    msg.Some? && msg.value.kind == Str(ResponseKind) && msg.value.id == Str(id)
  }

  // ---------------------------------------------------------------------------------------
  // The page-side proxy object

  /**
   * One proxy object of family `family`: the listeners it has registered (one per pending
   * call, by the call's id), how each finished call settled, and the requests it posted.
   */
  class Client {
    const family: Family
    const ns: Namespaces
    const reactNative: bool
    const codec: Codec
    var listening: map<nat, string>
    var settlements: map<nat, Settlement>
    var posted: seq<Envelope>
    var issued: nat

    /** Calls are numbered in issue order; a call is pending (listening) or settled, never both. */
    predicate Valid()
      reads this
    {
      && (forall k | k in listening :: k < issued && k !in settlements)
      && (forall k | k in settlements :: k < issued)
    }

    constructor (family: Family, ns: Namespaces, reactNative: bool, codec: Codec)
      ensures Valid()
      ensures this.family == family && this.ns == ns && this.reactNative == reactNative && this.codec == codec
      ensures listening == map[] && settlements == map[] && posted == [] && issued == 0
    {
      this.family, this.ns, this.reactNative, this.codec := family, ns, reactNative, codec;
      listening, settlements, posted, issued := map[], map[], [], 0;
    }

    /**
     * `requestMethod(method, args)`: draw an id from eight random bytes, register a listener
     * for it, post the request with the wrapped args. The new call is pending.
     */
    method RequestMethod(methodName: string, args: seq<Value>, random: seq<Byte>) returns (call: nat, id: string)
      requires Valid() && |random| == 8
      modifies this
      ensures Valid()
      ensures call == old(issued) && issued == old(issued) + 1
      ensures id == Id(random) && 8 <= |id| <= 16
      ensures listening == old(listening)[call := id] && settlements == old(settlements)
      ensures posted == old(posted) + [RequestEnvelope(family, ns, reactNative, id, methodName, codec.wrap(Arr(args)))]
    {
      IdShape(random);
      id := Id(random);
      call := issued;
      issued := issued + 1;
      listening := listening[call := id];
      posted := posted + [RequestEnvelope(family, ns, reactNative, id, methodName, codec.wrap(Arr(args)))];
    }

    /**
     * One invocation of a pending call's `receiveResponse`: a matching response removes the
     * listener and settles the call; anything else is ignored.
     */
    method Deliver(call: nat, msg: Option<Envelope>)
      requires Valid() && call in listening
      modifies this`listening, this`settlements
      ensures Valid()
      ensures !Matches(old(listening)[call], msg) ==> listening == old(listening) && settlements == old(settlements)
      ensures Matches(old(listening)[call], msg) ==>
                && listening == old(listening) - {call}
                && settlements == old(settlements)[call := Settle(codec, msg.value.result)]
      // a settled call never settles again
      ensures forall k | k in old(settlements) :: k in settlements && settlements[k] == old(settlements)[k]
    {
      if !Matches(listening[call], msg) {
        return;
      }
      listening := listening - {call};
      settlements := settlements[call := Settle(codec, msg.value.result)];
    }

    /** The window delivers one message event to every listener registered when it arrives. */
    method Receive(msg: Option<Envelope>)
      requires Valid()
      modifies this`listening, this`settlements
      ensures Valid()
      ensures listening == map k | k in old(listening) && !Matches(old(listening)[k], msg) :: old(listening)[k]
      ensures forall k | k in old(settlements) :: k in settlements && settlements[k] == old(settlements)[k]
      ensures forall k | k in old(listening) && Matches(old(listening)[k], msg) ::
                k in settlements && settlements[k] == Settle(codec, msg.value.result)
      ensures forall k | k in settlements :: k in old(settlements) || (k in old(listening) && Matches(old(listening)[k], msg))
    {
      var pending := listening.Keys;
      while pending != {}
        invariant Valid()
        invariant pending <= old(listening).Keys
        invariant forall k | k in pending :: k in listening && listening[k] == old(listening)[k]
        invariant forall k :: k in listening <==> k in old(listening) && (k in pending || !Matches(old(listening)[k], msg))
        invariant forall k | k in listening :: listening[k] == old(listening)[k]
        invariant forall k | k in old(settlements) :: k in settlements && settlements[k] == old(settlements)[k]
        invariant forall k | k in old(listening) && k !in pending && Matches(old(listening)[k], msg) ::
                    k in settlements && settlements[k] == Settle(codec, msg.value.result)
        invariant forall k | k in settlements ::
                    k in old(settlements) || (k in old(listening) && k !in pending && Matches(old(listening)[k], msg))
        decreases pending
      {
        var call :| call in pending;
        Deliver(call, msg);
        pending := pending - {call};
      }
    }

    /** A wrapper method of this object: the Tron `sign` throws; any other hands its name and arguments to requestMethod. */
    method CallWrapper(p: PageCall, random: seq<Byte>) returns (r: Result<(nat, string)>)
      requires Valid() && |random| == 8 && Offers(family, p)
      modifies this
      ensures Valid()
      ensures r.Err? <==> p.Sign?
      ensures r.Err? ==> && listening == old(listening) && settlements == old(settlements) && posted == old(posted)
                         && issued == old(issued)
      ensures r.Ok? ==> var (name, args) := Outgoing(p).value;
                        var (call, id) := r.value;
                        && call == old(issued) && issued == old(issued) + 1 && id == Id(random)
                        && listening == old(listening)[call := id] && settlements == old(settlements)
                        && posted == old(posted) + [RequestEnvelope(family, ns, reactNative, id, name, codec.wrap(Arr(args)))]
    {
      match Outgoing(p) {
        case Err(e) =>
          return Err(e);
        case Ok((name, args)) =>
          var call, id := RequestMethod(name, args, random);
          return Ok((call, id));
      }
    }

    /** The OWallet class's `signDirect`: the bridged request, then the resolved value read back into Longs. */
    method SignDirectRequest(chainId: Value, signer: Value, doc: SignDirect.SignDoc, options: Value, random: seq<Byte>)
      returns (call: nat, id: string)
      requires Valid() && |random| == 8 && family == OWalletFamily
      modifies this
      ensures Valid() && call == old(issued) && issued == old(issued) + 1 && id == Id(random)
      ensures listening == old(listening)[call := id] && settlements == old(settlements)
      ensures posted == old(posted) + [RequestEnvelope(family, ns, reactNative, id, "signDirect",
                                         codec.wrap(Arr([chainId, signer, SignDirect.WireSignDoc(doc), options])))]
    {
      call, id := RequestMethod("signDirect", [chainId, signer, SignDirect.WireSignDoc(doc), options], random);
    }
  }

  /** What a settled signDirect call gives its caller. */
  function SignDirectResult(s: Settlement): (r: Result<SignDirect.DirectSignResponse>)
    ensures s.Rejected? ==> r == Err(s.message)
  {
    match s
    case Rejected(e) => Err(e)
    case Resolved(v) => SignDirect.ReceivedSignResponse(v)
  }

  // ---------------------------------------------------------------------------------------
  // Wrapper methods

  /**
   * A call of one of the page-side wrapper methods. `options` are the already merged sign
   * options (`deepmerge(defaultOptions.sign ?? {}, signOptions)`).
   */
  datatype PageCall =
    // InjectedOWallet
    | Enable(chainIds: Value)
    | ExperimentalSuggestChain(chainInfo: Value)
    | GetKey(chainId: Value)
    | SendTx(chainId: Value, tx: Value, mode: Value)
    | SignAmino(chainId: Value, signer: Value, signDoc: Value, options: Value)
    | ExperimentalSignEip712CosmosTxV0(chainId: Value, signer: Value, eip712: Value, signDoc: Value, options: Value)
    | SignArbitrary(chainId: Value, signer: Value, data: Value)
    | VerifyArbitrary(chainId: Value, signer: Value, data: Value, signature: Value)
    | SuggestToken(chainId: Value, contractAddress: Value, viewingKey: Value)
    | GetSecret20ViewingKey(chainId: Value, contractAddress: Value)
    | GetEnigmaPubKey(chainId: Value)
    | GetChainInfosWithoutEndpoints
    | GetEnigmaTxEncryptionKey(chainId: Value, nonce: Value)
    | EnigmaEncrypt(chainId: Value, contractCodeHash: Value, msg: Value)
    | EnigmaDecrypt(chainId: Value, ciphertext: Value, nonce: Value)
    // InjectedEthereum, InjectedBitcoin, InjectedEthereumOWallet
    | EnableAccounts
    // these three and InjectedTronWebOWallet
    | Request(methodName: string, params: Value, chainId: Value)
    // InjectedTronWebOWallet
    | TrxSign(transaction: Value)
    | GetDefaultAddress
    | Sign(transaction: Value)

  /** Which family's object offers the wrapper. */
  predicate Offers(f: Family, p: PageCall) {
    match p
    case EnableAccounts => f == EthereumFamily || f == BitcoinFamily || f == EthereumOWalletFamily
    case Request(_, _, _) => f != OWalletFamily
    case TrxSign(_) => f == TronWebFamily
    case GetDefaultAddress => f == TronWebFamily
    case Sign(_) => f == TronWebFamily
    case _ => f == OWalletFamily
  }

  /**
   * The method name and argument list each wrapper hands to `requestMethod`
   * (inject.ts:249-402, 631-639, 906-914, 1133-1141, 1356-1372); the Tron object's own
   * `sign` throws without sending anything.
   */
  function Outgoing(p: PageCall): (r: Result<(string, seq<Value>)>)
    ensures r.Err? <==> p.Sign?
    ensures r.Ok? && p.Request? ==> r.value == (p.methodName, [p.params, p.chainId])
  {
    match p
    case Enable(chainIds) => Ok(("enable", [chainIds]))
    case ExperimentalSuggestChain(chainInfo) => Ok(("experimentalSuggestChain", [chainInfo]))
    case GetKey(chainId) => Ok(("getKey", [chainId]))
    case SendTx(chainId, tx, mode) => Ok(("sendTx", [chainId, tx, mode]))
    case SignAmino(chainId, signer, signDoc, options) => Ok(("signAmino", [chainId, signer, signDoc, options]))
    case ExperimentalSignEip712CosmosTxV0(chainId, signer, eip712, signDoc, options) =>
      Ok(("experimentalSignEIP712CosmosTx_v0", [chainId, signer, eip712, signDoc, options]))
    case SignArbitrary(chainId, signer, data) => Ok(("signArbitrary", [chainId, signer, data]))
    case VerifyArbitrary(chainId, signer, data, signature) => Ok(("verifyArbitrary", [chainId, signer, data, signature]))
    case SuggestToken(chainId, contractAddress, viewingKey) => Ok(("suggestToken", [chainId, contractAddress, viewingKey]))
    case GetSecret20ViewingKey(chainId, contractAddress) => Ok(("getSecret20ViewingKey", [chainId, contractAddress]))
    case GetEnigmaPubKey(chainId) => Ok(("getEnigmaPubKey", [chainId]))
    case GetChainInfosWithoutEndpoints => Ok(("getChainInfosWithoutEndpoints", []))
    case GetEnigmaTxEncryptionKey(chainId, nonce) => Ok(("getEnigmaTxEncryptionKey", [chainId, nonce]))
    case EnigmaEncrypt(chainId, contractCodeHash, msg) => Ok(("enigmaEncrypt", [chainId, contractCodeHash, msg]))
    case EnigmaDecrypt(chainId, ciphertext, nonce) => Ok(("enigmaDecrypt", [chainId, ciphertext, nonce]))
    case EnableAccounts => Ok(("eth_requestAccounts", [Arr([])]))
    case Request(methodName, params, chainId) => Ok((methodName, [params, chainId]))
    case TrxSign(transaction) => Ok(("sign", [transaction]))
    case GetDefaultAddress => Ok(("getDefaultAddress", []))
    case Sign(_) => Err("Method not implemented.")
  }

  /**
   * No wrapper with a fixed method name uses a name that some server refuses, nor the name
   * signDirect, whose request is built by its own bridge.
   */
  lemma WrappersAvoidDeniedNames(p: PageCall)
    requires Outgoing(p).Ok? && !p.Request?
    ensures Outgoing(p).value.0 !in ProxyServer.AnyDeniedName && Outgoing(p).value.0 != "signDirect"
  {
  }

  // ---------------------------------------------------------------------------------------
  // The enigma-utils cache

  /** An `OWalletEnigmaUtils` instance; only the chain it was made for is modelled. */
  class EnigmaUtils {
    const chainId: string

    constructor (chainId: string)
      ensures this.chainId == chainId
    {
      this.chainId := chainId;
    }
  }

  /** The `enigmaUtils` map of an InjectedOWallet. */
  class EnigmaCache {
    var utils: map<string, EnigmaUtils>

    /** Every cached instance was made for the chain it is cached under. */
    predicate Valid()
      reads this, utils.Values
    {
      forall k | k in utils :: utils[k].chainId == k
    }

    constructor ()
      ensures Valid() && utils == map[]
    {
      utils := map[];
    }

    /** `getEnigmaUtils(chainId)`: the cached instance, or a new one that is cached from then on. */
    method Get(chainId: string) returns (u: EnigmaUtils)
      requires Valid()
      modifies this
      ensures Valid()
      ensures u.chainId == chainId
      ensures chainId in old(utils) ==> u == old(utils)[chainId] && utils == old(utils)
      ensures chainId !in old(utils) ==> fresh(u) && utils == old(utils)[chainId := u]
    {
      if chainId in utils {
        return utils[chainId];
      }
      u := new EnigmaUtils(chainId);
      utils := utils[chainId := u];
    }
  }
}
