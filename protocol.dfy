/**
 * The wire envelopes of the proxy protocol and the channel each provider family uses
 * (inject.ts:35-48 and the filters and envelopes of the five proxy classes).
 */
module Protocol {
  import opened Base
  import opened Js

  /**
   * A message event's data. Requests carry kind/namespace/id/method/args, responses
   * kind/namespace/id/result; absent fields read as undefined.
   */
  datatype Envelope = Envelope(kind: Value, namespace: Value, id: Value, methodName: Value, args: Value, result: Value)

  const ResponseKind := "proxy-request-response"

  /** The namespace constants of the provider package, which are not part of this model. */
  datatype Namespaces = Namespaces(owallet: string, ethereum: string, ethereumOWallet: string, tronWeb: string)

  predicate DistinctNamespaces(ns: Namespaces) {
    && ns.owallet != ns.ethereum && ns.owallet != ns.ethereumOWallet && ns.owallet != ns.tronWeb
    && ns.ethereum != ns.ethereumOWallet && ns.ethereum != ns.tronWeb
    && ns.ethereumOWallet != ns.tronWeb
  }

  /** InjectedOWallet, InjectedEthereum, InjectedBitcoin, InjectedEthereumOWallet, InjectedTronWebOWallet. */
  datatype Family = OWalletFamily | EthereumFamily | BitcoinFamily | EthereumOWalletFamily | TronWebFamily

  /** The namespace a family's requests carry and its server filters on (Bitcoin uses Ethereum's). */
  function ChannelNamespace(f: Family, ns: Namespaces): string {
    match f
    case OWalletFamily => ns.owallet
    case EthereumFamily => ns.ethereum
    case BitcoinFamily => ns.ethereum
    case EthereumOWalletFamily => ns.ethereumOWallet
    case TronWebFamily => ns.tronWeb
  }

  /**
   * The request `type` (inject.ts:56, 444, 719, 949, 1218): the OWallet family's depends on
   * the React Native flag and has a hyphen; the others append "proxy-request" directly.
   */
  function RequestKind(f: Family, ns: Namespaces, reactNative: bool): string {
    match f
    case OWalletFamily => if reactNative then "proxy-request" else ns.owallet + "-proxy-request"
    case _ => ChannelNamespace(f, ns) + "proxy-request"
  }

  /** The namespace stamped on responses: the Ethereum-OWallet server stamps Ethereum's. */
  function ReplyNamespace(f: Family, ns: Namespaces): string {
    match f
    case EthereumOWalletFamily => ns.ethereum
    case _ => ChannelNamespace(f, ns)
  }

  /** The request a client posts (inject.ts:189-195 and its four siblings); `args` is already wrapped. */
  function RequestEnvelope(f: Family, ns: Namespaces, reactNative: bool, id: string, methodName: string, args: Value): Envelope {
    Envelope(Str(RequestKind(f, ns, reactNative)), Str(ChannelNamespace(f, ns)), Str(id), Str(methodName), args, Undefined)
  }

  /** The server's filter: a present message with exactly this family's type and namespace. */
  predicate OnChannel(f: Family, ns: Namespaces, reactNative: bool, msg: Option<Envelope>) {
    && msg.Some?
    && msg.value.kind == Str(RequestKind(f, ns, reactNative))
    && msg.value.namespace == Str(ChannelNamespace(f, ns))
  }

  function ReturnResult(v: Value): Value {
    Obj(map["return" := v])
  }

  function ErrorResult(e: string): Value {
    Obj(map["error" := Str(e)])
  }

  /** A response envelope; it has no method and no args. */
  function Reply(f: Family, ns: Namespaces, id: Value, result: Value): Envelope {
    Envelope(Str(ResponseKind), Str(ReplyNamespace(f, ns)), id, Undefined, Undefined, result)
  }

  /** A result object with exactly one of the `return` and `error` keys, an error being a non-empty string. */
  predicate OneBranch(result: Value) {
    && result.Obj?
    && (|| result.fields.Keys == {"return"}
        || (result.fields.Keys == {"error"} && result.fields["error"].Str? && result.fields["error"].s != ""))
  }

  /**
   * With distinct namespace constants, a server accepts the requests of its own family's
   * clients and of no other family's, except that Ethereum and Bitcoin share one channel.
   */
  lemma ChannelIsolation(ns: Namespaces, reactNative: bool, client: Family, server: Family,
                         id: string, methodName: string, args: Value)
    requires DistinctNamespaces(ns)
    ensures OnChannel(server, ns, reactNative, Some(RequestEnvelope(client, ns, reactNative, id, methodName, args)))
        <==> (client == server || ({client, server} == {EthereumFamily, BitcoinFamily}))
  {
  }
}
