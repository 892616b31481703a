# OWallet provider proxy: a Dafny model

The OWallet browser extension puts provider objects into a web page. The page cannot reach the
extension itself, so each object forwards its calls as messages posted on the window. A
content-script server listens for those messages, calls the real provider and posts back one
response. Five classes implement this in `packages/provider/src/inject.ts`:

- `InjectedOWallet` (Cosmos API);
- `InjectedEthereum`;
- `InjectedBitcoin`;
- `InjectedEthereumOWallet`;
- `InjectedTronWebOWallet`.

Each class has two halves:

- **client**: `requestMethod` draws a correlation id from eight random bytes, registers a
  listener, and posts `{type, namespace, id, method, args}` with the args wrapped by the
  typed-array codec. The listener takes the first `proxy-request-response` carrying its id. It
  unwraps the result and resolves with `return` or rejects with `error`. The page-facing
  methods (`enable`, `signAmino`, `request`, `trx.sign`, ...) are thin wrappers around it.
- **server**: `static startProxy` installs a message handler. The handler:
  1. drops messages off its channel (type and namespace);
  2. throws on the family's early checks (empty id, denied method names);
  3. dispatches to the backend provider;
  4. posts `{return: wrap(result)}` or `{error: message}` under the request's id.

The Ethereum servers work out a chain id for each request:

- the request's own, else the one stored in the shared `localStore`, else the backend's
  initial chain;
- they remember the chain a successful `wallet_switchEthereumChain` returns;
- they answer `eth_chainId` themselves, normalised to a `0x` string.

The Tron server folds `tron_requestAccounts` failures into a value and stores the address in
`localStorage`. The OWallet class bridges `signDirect`, whose `Long` account number cannot
cross the message boundary: it travels as a decimal string and is read back with
`Long.fromString` on each side. The OWallet class also caches one `getEnigmaUtils` instance per
chain.

Modules, in dependency order:

- `Base`: Option and Result.
- `Decimal`: decimal digit strings.
- `Long64`: the `Long` type's `toString()` and `fromString()`.
- `Js`: JavaScript values, truthiness, `??`, property reads, `String()`.
- `Codec`: the typed-array codec as a parameter, with its laws (a round trip for Long-free values).
- `CorrelationId`: the hex id.
- `Protocol`: envelopes, channels and families.
- `SignDirect`: the Long bridge.
- `ProxyServer`: the handler as a function `Handle`, and a `ContentScript` class whose `Serve`
  method performs it in place.
- `ProxyClient`: a `Client` class holding listeners, settlements and posted requests; the
  wrapper table; the enigma-utils cache.
- `Scenarios`: round trips through both halves.

## Model

| member | source | states |
|---|---|---|
| Protocol.ChannelIsolation | packages/provider/src/inject.ts:717-723 | with distinct namespace constants, a server accepts a client's request if and only if both belong to the same family, or one is Ethereum and the other Bitcoin (the Bitcoin server filters on Ethereum's channel) |
| CorrelationId.ByteHex | packages/provider/src/inject.ts:184-186 | `toString(16)` of a byte is one lower-case hex digit below 16 and two from 16 on |
| CorrelationId.ByteHexRoundTrip | packages/provider/src/inject.ts:184-186 | a byte's hex rendering reads back as that byte |
| CorrelationId.IdShape | packages/provider/src/inject.ts:182-187 | an id has one or two lower-case hex characters per byte (8 to 16 for eight bytes), and exactly two per byte when every byte is at least 0x10 |
| CorrelationId.IdsCanCollide | packages/provider/src/inject.ts:182-187 | without zero padding, the distinct draws [0x1, 0x23, 0, ...] and [0x12, 0x3, 0, ...] give the same id |
| CorrelationId.IdInjectiveOnWideBytes | packages/provider/src/inject.ts:182-187 | when every byte is at least 0x10, equal ids come from equal draws |
| Long64.ToString | packages/provider/src/inject.ts:299 | `Long.toString()` is non-empty and starts with '-' exactly for negative values |
| Long64.FromString | packages/provider/src/inject.ts:135 | `Long.fromString` rejects the empty string, reads a digit string modulo 2^64, and every rejection has a message |
| Long64.StringRoundTrip | packages/provider/src/inject.ts:299 | every 64-bit value survives `toString()` then `Long.fromString`: negatives, zero, values beyond 2^53 and the minimum |
| Long64.ToStringInjective | packages/provider/src/inject.ts:299 | distinct Longs have distinct decimal strings |
| Codec.UnwrapReturn | packages/provider/src/inject.ts:210 | under the codec laws, the client's unwrap of the server's `{return: wrap(v)}` is `{return: v}` when `v` holds no Long |
| Codec.UnwrapError | packages/provider/src/inject.ts:210 | under the codec laws, the client's unwrap of `{error: e}` leaves it unchanged |
| Codec.WrapArgs | packages/provider/src/inject.ts:194 | under the codec laws, a wrapped argument list is an array of the same length holding each argument wrapped |
| Codec.WrapFields | packages/provider/src/inject.ts:194 | under the codec laws, a wrapped plain object has the same keys, each holding its wrapped value |
| Codec.Identity | packages/provider/src/inject.ts:194 | the codec laws can be met |
| SignDirect.WireAccountNumber | packages/provider/src/inject.ts:299 | a Long becomes a truthy decimal string that `Long.fromString` reads back as that Long; an absent one becomes null |
| SignDirect.LongFromValue | packages/provider/src/inject.ts:135 | `Long.fromString` of any received value: a string is read as `Long64.FromString` says; no other value yields a Long; a nullish one throws a TypeError, a length `=== 0` throws "empty string", and an array with "-" past its first element throws "interior hyphen" |
| SignDirect.ReceivedAccountNumber | packages/provider/src/inject.ts:135 | a falsy account number becomes null; a non-empty string succeeds exactly when `Long.fromString` does, and then with the Long it reads; any other truthy value fails with the error `Long.fromString` throws for it |
| SignDirect.ReceivedSignDoc | packages/provider/src/inject.ts:121-136 | a null or undefined third argument throws when its fields are read |
| SignDirect.ReceivedSignDocReadsFields | packages/provider/src/inject.ts:132-135 | the server reads the received document only through its four fields |
| SignDirect.RequestLeg | packages/provider/src/inject.ts:121-137 | the document the client sends reaches the backend with the same Long (or null) and the other fields unchanged |
| SignDirect.WireSignResponse | packages/provider/src/inject.ts:140-148 | the server's answer fails exactly when the result, its `signed` or the account number is null or undefined |
| SignDirect.ReceivedSignResponse | packages/provider/src/inject.ts:304-321 | a success carries a Long that `Long.fromString` read from the wire string |
| SignDirect.ResponseLeg | packages/provider/src/inject.ts:140-148 | a signed document with a Long reaches the caller with that Long and the other fields unchanged |
| SignDirect.NullAccountNumberIsRejected | packages/provider/src/inject.ts:145 | a backend answer whose account number is null fails at `toString()` |
| ProxyServer.ErrorText | packages/provider/src/inject.ts:172 | `e.message \|\| e.toString()` is never empty and is the message whenever that is non-empty |
| ProxyServer.Rejection | packages/provider/src/inject.ts:79-116 | the early checks in source order; a failing one has a non-empty message |
| ProxyServer.OWalletRejection | packages/provider/src/inject.ts:91-116 | the OWallet-only checks pass if and only if the `String()` of the method names a backend function and the method is not `===` one of the five OWallet-only denied names; a failing check has a non-empty message |
| ProxyServer.AdmittedExactly | packages/provider/src/inject.ts:79-116 | a request passes the checks if and only if its id is truthy, its method is not `===` a name the family denies and, for OWallet, the `String()` of its method names a backend function |
| ProxyServer.DispatchChainId | packages/provider/src/inject.ts:469 | the chain id is `args[1]` when that is not nullish, else the stored chain id when that is not nullish, else `initChainId`; it throws exactly when `args` is nullish |
| ProxyServer.NormalisedChainId | packages/provider/src/inject.ts:500-504 | the `eth_chainId` answer always starts with "0x": it is the chain id when that does, else "0x0" |
| ProxyServer.OWalletPlan | packages/provider/src/inject.ts:118-154 | a backend call resumes through the Long bridge exactly when the method is signDirect, and the member called is the `String()` of the method |
| ProxyServer.EthereumPlan | packages/provider/src/inject.ts:473-536 | only `wallet_switchEthereumChain` resumes by storing the chain id, under the family's own key; no Ethereum case uses the Tron fold or the Long bridge (the receipt case's fold of a failure into `undefined` is `ReceiptFailureIsSwallowed`) |
| ProxyServer.TronWebPlan | packages/provider/src/inject.ts:1235-1263 | a backend call folds its failure into a value exactly for `tron_requestAccounts`; every other call posts its value as is |
| ProxyServer.PlanFor | packages/provider/src/inject.ts:1010-1017 | only an Ethereum family's switch of chain stores a chain id, and only Tron's account request folds failures |
| ProxyServer.StoresAfter | packages/provider/src/inject.ts:508-515 | a store changes only after a backend call returned: `localStore` under the switch's key, `localStorage` under 'tronWeb.defaultAddress', each to the returned value |
| ProxyServer.Handle | packages/provider/src/inject.ts:74-177 | one message event at any of the five servers (OWallet here; Ethereum 441-561, Bitcoin 717-835, Ethereum-OWallet 947-1062, Tron 1218-1287): every backend call is answered, and the stores change only after a backend call |
| ProxyServer.OffChannelIgnored | packages/provider/src/inject.ts:73-76 | a message off the family's channel gets no call, no response and no write |
| ProxyServer.RepliesAnswerTheRequest | packages/provider/src/inject.ts:156-177 | every response answers an on-channel request, under its id and the family's reply namespace, with exactly one of `return` and a non-empty `error` |
| ProxyServer.EveryRequestAnswered | packages/provider/src/inject.ts:538-560 | every on-channel request gets a response, except on the Bitcoin server |
| ProxyServer.RejectedRequestGetsTheError | packages/provider/src/inject.ts:166-177 | a failing check is answered with its error; the backend is not called and nothing is stored |
| ProxyServer.CallsFollowTheChecks | packages/provider/src/inject.ts:79-154 | the backend is called only for an on-channel request that passed every check, and with the call the dispatch chose |
| ProxyServer.BitcoinAnswersOnlyErrors | packages/provider/src/inject.ts:726-835 | the Bitcoin server never calls its backend, stores nothing, and answers only with `{error}` |
| ProxyServer.BitcoinNeverAnswersSuccess | packages/provider/src/inject.ts:742-823 | a request that passes the Bitcoin server's checks gets no response at all |
| ProxyServer.StoresChangeOnlyOnSuccess | packages/provider/src/inject.ts:508-515 | the stores change only after a backend call returned, as its resumption says |
| ProxyServer.DeniedNamesNeverReachBackend | packages/provider/src/inject.ts:451-466 | a denied method name is answered with an error under its id, with no backend call and no write |
| ProxyServer.EmptyIdIsRejected | packages/provider/src/inject.ts:79-81 | a request with a falsy id is answered "Empty id" and does nothing else |
| ProxyServer.OWalletCallsOnlyAllowedFunctions | packages/provider/src/inject.ts:95-150 | the OWallet server calls only backend functions, by the `String()` of the requested method, and never a denied one when the method is a string |
| ProxyServer.DeniedGetterReachesBackend | packages/provider/src/inject.ts:95-150 | as written, the method `["getOfflineSigner"]` passes every check and the server calls the denied `getOfflineSigner` |
| ProxyServer.GuardedRejection | packages/provider/src/inject.ts:79-116 | the corrected checks: a request passes if and only if its id is truthy and the `String()` of its method names a backend function that is not denied; for a string method they agree with `Rejection` |
| ProxyServer.GuardedCallsAvoidDeniedNames | packages/provider/src/inject.ts:102-116 | under the corrected checks, the OWallet server calls only backend functions and never a denied one, whatever the method's type |
| ProxyServer.SwitchedChainIsUsed | packages/provider/src/inject.ts:469-515 | after a switch of chain returns a non-null chain id, a request without its own `args[1]` is dispatched on that chain |
| ProxyServer.OnlySwitchWritesChainId | packages/provider/src/inject.ts:1010-1017 | only a successful `wallet_switchEthereumChain` on an Ethereum server changes `localStore`, and only its key, to the returned value |
| ProxyServer.OWalletForwardStep | packages/provider/src/inject.ts:150-154 | any other OWallet method calls the backend member its `String()` names, with the unwrapped args spread |
| ProxyServer.SignDirectStep | packages/provider/src/inject.ts:118-138 | signDirect calls the backend with `args[0]`, `args[1]`, the received document read back into a Long, and `args[3]` |
| ProxyServer.ChainIdAnswerIsHex | packages/provider/src/inject.ts:500-504 | `eth_chainId` is answered without the backend, with the resolved chain id normalised to a "0x" string |
| ProxyServer.RequestPlan | packages/provider/src/inject.ts:508-535 | the switch, the receipt and every unlisted method go to `backend.request({method, params: args[0], chainId})` |
| ProxyServer.ReceiptFailureIsSwallowed | packages/provider/src/inject.ts:516-527 | `eth_getTransactionReceipt` is answered with the receipt, or with undefined when the backend throws |
| ProxyServer.EthereumPassThrough | packages/provider/src/inject.ts:528-535 | a method with no case of its own that the family does not deny reaches `backend.request`, and its caller gets the backend's value or error |
| ProxyServer.SignerCasesPlan | packages/provider/src/inject.ts:474-486 | `eth_signTypedData_v4`, `eth_signDecryptData` and `eth_signReEncryptData` call their backend member with the dispatch chain id and `args[0]`; `public_key` calls `getPublicKey` with the chain id alone |
| ProxyServer.SuggestChainStep | packages/provider/src/inject.ts:487-489 | `wallet_addEthereumChain` calls `experimentalSuggestChain(args[0])` and answers undefined when it returns, its error when it throws, and writes nothing |
| ProxyServer.SendTransactionStep | packages/provider/src/inject.ts:490-499 | `eth_sendTransaction` sends only `args[0][0]` with the chain id to `signAndBroadcastEthereum` and answers the result's `rawTxHex`; a nullish `args[0]` throws before any call and a nullish result throws after it |
| ProxyServer.InitChainIdStep | packages/provider/src/inject.ts:505-507 | `eth_initChainId` is answered with the backend's initial chain, without a call, by the Ethereum server only; the Ethereum-OWallet server, which has no such case, passes it to `backend.request` |
| ProxyServer.SwitchChainStep | packages/provider/src/inject.ts:508-515 | a switch of chain calls `backend.request`, answers its value or error, and stores the value only when it returned |
| ProxyServer.TronAccountsAlwaysReturn | packages/provider/src/inject.ts:1239-1259 | the Tron account request always answers with a success: the failure's `{code, message}`, or outside React Native `{code: 200, ...}`, storing the address only on success |
| ProxyServer.TronOtherMethodsSign | packages/provider/src/inject.ts:1236-1262 | every other Tron method signs `args[0]` through the backend's `sign` |
| ProxyServer.ContentScript.constructor | packages/provider/src/inject.ts:33 | `localStore` starts empty, as the module creates it; `localStorage` records only this script's writes, since the origin's storage persists; nothing has been posted or called |
| ProxyServer.ContentScript.PostError | packages/provider/src/inject.ts:166-177 | appends one `{error}` response and changes nothing else |
| ProxyServer.ContentScript.FailedCheck | packages/provider/src/inject.ts:79-116 | the step-by-step checks (lookup by `String()`, deny tests by `===`) return the same error as `Rejection` |
| ProxyServer.ContentScript.Dispatch | packages/provider/src/inject.ts:468-560 | posts the dispatch's response, records at most one backend call, and writes the stores as `StoresAfter` says |
| ProxyServer.ContentScript.Serve | packages/provider/src/inject.ts:70-178 | one message event changes the posted responses, the backend calls and the stores exactly as `Handle` does |
| ProxyClient.Settle | packages/provider/src/inject.ts:206-222 | a missing or null result rejects with "Result is null"; a truthy `error` rejects even beside a `return`; every other result resolves with its `return` |
| ProxyClient.SettleReturn | packages/provider/src/inject.ts:210-222 | a server's `{return: wrap(v)}` resolves the caller with `v` when `v` holds no Long |
| ProxyClient.SettleError | packages/provider/src/inject.ts:217-220 | a server's `{error: e}` rejects the caller with `e` |
| ProxyClient.SettleMissingResult | packages/provider/src/inject.ts:212-215 | a missing or null result rejects with "Result is null" |
| ProxyClient.Client.constructor | packages/provider/src/inject.ts:234-247 | a new object has no listeners, settlements or posted requests |
| ProxyClient.Client.RequestMethod | packages/provider/src/inject.ts:181-226 | draws the id from the random bytes, registers exactly one new pending listener under it, and posts exactly one request with the wrapped args |
| ProxyClient.Client.Deliver | packages/provider/src/inject.ts:198-222 | a response of another kind or id changes nothing; a matching one removes the listener and settles the call as `Settle` says; a settled call never changes |
| ProxyClient.Client.Receive | packages/provider/src/inject.ts:198-224 | one message event settles exactly the pending calls it matches, leaves the others listening, and never changes a settled call |
| ProxyClient.Client.CallWrapper | packages/provider/src/inject.ts:249-402 | a wrapper posts exactly the request `Outgoing` names and uses one correlation draw; the Tron object's own `sign` throws and changes nothing |
| ProxyClient.Client.SignDirectRequest | packages/provider/src/inject.ts:279-302 | signDirect posts the document with its Long as a decimal string, and the other arguments, under the id of its random draw |
| ProxyClient.SignDirectResult | packages/provider/src/inject.ts:304-321 | a rejected signDirect call keeps its message |
| ProxyClient.Outgoing | packages/provider/src/inject.ts:1356-1372 | every wrapper sends a request except the Tron object's own `sign`, and `request` sends `[params, chainId]` |
| ProxyClient.WrappersAvoidDeniedNames | packages/provider/src/inject.ts:249-402 | no wrapper with a fixed method name uses a name some server refuses, nor signDirect |
| ProxyClient.EnigmaCache.Get | packages/provider/src/inject.ts:404-413 | returns the cached instance for the chain, or makes one for that chain and caches it; every cached instance belongs to its key |
| Scenarios.SettleOutcome | packages/provider/src/inject.ts:156-177 | a response posted from the backend's outcome settles the caller with that value, or rejects with the error message |
| Scenarios.NoRejection | packages/provider/src/inject.ts:79-116 | a request with an id and a method no family denies passes every family's checks (OWallet's when the backend has it) |
| Scenarios.ForwardedCall | packages/provider/src/inject.ts:181-228 | an OWallet `requestMethod` call with Long-free arguments reaches the backend member with exactly its arguments, and the `requestMethod` promise settles with the backend's outcome (wrappers such as `enable` then discard the value) |
| Scenarios.WrapWireDoc | packages/provider/src/inject.ts:295-300 | the codec wraps the sent document field by field and leaves the account-number string alone |
| Scenarios.SignDirectArgsArrive | packages/provider/src/inject.ts:121-137 | after the codec, the server reads back the caller's account number as the same Long |
| Scenarios.SignedDirectCompletes | packages/provider/src/inject.ts:140-148 | the server turns the backend's signed document into a wire answer that the client reads back as that document |
| Scenarios.SignDirectAnswerArrives | packages/provider/src/inject.ts:304-321 | a signed document with a Long reaches the caller intact |
| Scenarios.WireAnswerHasNoLong | packages/provider/src/inject.ts:140-148 | once the account number is rendered as a string, the answer the server posts for signDirect holds no Long |
| Scenarios.SignDirectRoundTrip | packages/provider/src/inject.ts:279-322 | signDirect end to end: the backend gets the caller's Long, and the backend's signed Long comes back to the caller unchanged |
| Scenarios.RequestChainId | packages/provider/src/inject.ts:469 | a `request({method, params, chainId})` runs on the caller's chain id when it gives one, else on the stored chain, else on the initial one |
| Scenarios.PassThroughRequest | packages/provider/src/inject.ts:528-535 | an Ethereum method with no case of its own that the family does not deny reaches `backend.request` with the caller's method and params, and the caller settles with the backend's outcome |
| Scenarios.SwitchChainAnswered | packages/provider/src/inject.ts:508-515 | a switch of chain settles with the backend's value and stores it as the active chain id |
| Scenarios.ChainIdFromActive | packages/provider/src/inject.ts:500-504 | `eth_chainId` without a chain id answers the stored hex chain id, without the backend |
| Scenarios.SwitchThenAskChainId | packages/provider/src/inject.ts:500-515 | after a switch to a hex chain, `eth_chainId` answers that chain |
| Scenarios.ReceiptNeverRejects | packages/provider/src/inject.ts:516-527 | `eth_getTransactionReceipt` never rejects: a failing backend resolves the caller with undefined |
| Scenarios.TronAccountsNeverReject | packages/provider/src/inject.ts:1239-1259 | outside React Native, `tron_requestAccounts` resolves with `{code: 200, ...}` or the error's `{code, message}` |
| Scenarios.TrxSignForwarded | packages/provider/src/inject.ts:1356-1360 | `trx.sign(tx)` reaches the backend's `sign` with the wrapped transaction, and the caller settles with the outcome |
| Scenarios.BitcoinServerIgnoresEnable | packages/provider/src/inject.ts:906-909 | the Bitcoin server leaves the Bitcoin object's `enable()` unanswered |
| Scenarios.EthereumServerAnswersEnable | packages/provider/src/inject.ts:906-909 | the Ethereum server on the shared channel answers the Bitcoin object's `enable()` through `backend.request` |
| Scenarios.ResponseCorrelation | packages/provider/src/inject.ts:201-207 | a response reaches a listener if and only if the listener waits under the request's id |
| Scenarios.CollidingCallsSettleTogether | packages/provider/src/inject.ts:182-206 | two different random draws can give the same id, and then every response matches both listeners |

## Left out

- The window transport is not modelled: `postMessage`, `addEventListener` and `parseMessage`. A
  message event is an `Option<Envelope>`, where None stands for a falsy message.
- `crypto.getRandomValues` is not modelled. The eight random bytes are an input.
- Asynchrony is left out. Each handler runs to completion on one message, with the backend's
  outcome as an input. Interleavings of handlers, and responses arriving before their
  listener, are not modelled.
- `JSONUint8Array` is not part of this model. It is a pair of functions passed in, and the
  round trips assume only the laws in `Codec.Lawful`.
- A value holding a `Long` is not promised to cross the codec intact: the codec walks a `Long`
  instance as a plain object, so it arrives as one. The round trips therefore require Long-free
  values (`Js.NoLong`); `Scenarios.ForwardedCall`, `Scenarios.SettleOutcome` and the other
  scenarios carrying a backend value state this in their preconditions. signDirect's own Long
  crosses as a decimal string (`SignDirect`).
- The namespace constants are not part of this model. They are a parameter; only their
  distinctness is assumed.
- `isReactNative()` is not modelled. It is a boolean parameter of each object and server.
- `deepmerge` of the default sign options is not modelled. The merged options are an input.
- Not modelled: the CosmJS signer objects of `getOfflineSigner`, `getOfflineSignerOnlyAmino`
  and `getOfflineSignerAuto`, and the internals of `OWalletEnigmaUtils`. An instance records
  only its chain.
- The page-side stubs that never send a request are not modelled: the Ethereum, Bitcoin and
  Ethereum-OWallet objects' `signAndBroadcastEthereum`, `signAndBroadcast`,
  `signAndBroadcastTron`, `experimentalSuggestChain`, `signEthereumTypeData`,
  `signReEncryptData`, `signDecryptData` and `getPublicKey`.
- The page-side accessors that read and write the stores are not modelled: the Ethereum
  object's `chainId` (inject.ts:418-424, `localStore['ethereum.chainId']`) and the Tron object's
  `defaultAddress` (inject.ts:1196-1202, `localStorage['tronWeb.defaultAddress']`). Page code
  can therefore also write the keys the servers use; `ProxyServer.OnlySwitchWritesChainId` is
  about the handler only.
- `console.log` is not modelled. `JSON.stringify` of the value stored in `localStorage` is not
  modelled either; the value itself is stored.
- JavaScript numbers are integers, and floating point is left out.
- The TypeErrors the engine throws carry fixed messages, because their wording is
  engine-specific.
- A thrown value is always an Error with a message.
- The Tron server's `JSON.stringify` of a circular address would throw inside its inner `try`.
  This is not modelled.
- The OWallet server's property lookup `owallet[method]` is modelled as the backend member
  named by `Js.ToStr` of the method. A method object with its own `toString`, or a Symbol, is
  not modelled.
- Long64.FromString: only signed radix-10 strings are modelled. Any other character is an
  error, whereas the `long` library behaves differently (it reads the string in chunks with
  `parseInt`).
- The account number is a signed 64-bit `Long`. `Long.fromString` without its unsigned flag
  always yields a signed Long, so an unsigned account number of 2^63 or more would come back
  negative; unsigned Longs are not modelled.
- ProxyClient.SignDirectResult: it states only its rejection case. Its success case is
  `SignDirect.ReceivedSignResponse`, whose own contract and `Scenarios.SignDirectAnswerArrives`
  state the rest.
- ProxyServer.Rejection: its own contract states only that errors are non-empty. The full
  characterisation is `ProxyServer.AdmittedExactly`.

Behaviour of the source that the model keeps as written:

- The correlation id is not zero-padded, so two draws can share an id (`IdsCanCollide`).
- The Ethereum and Tron servers pass `args` on without unwrapping them.
- signDirect's sign-document fields reach the backend in their wrapped form.
- The client does not check a response's namespace.
- The Ethereum-OWallet server stamps its responses with the Ethereum namespace.
- The Bitcoin server answers only errors. Its `enable()` is answered, if at all, by an
  Ethereum server listening on the same channel.
- The Tron server's `sign` case behaves exactly like its default case.

## Findings

| source | as written | input that shows it | evidently intended | confidence | as-written member | corrected member |
|---|---|---|---|---|---|---|
| packages/provider/src/inject.ts:95-116 | the lookup `owallet[method]` converts the method with `String()`, but the deny tests compare the method itself with `===` | method `["getOfflineSigner"]` (an array), with `getOfflineSigner` a backend function | the deny list applies to the name that is looked up and called | medium, not executed | ProxyServer.DeniedGetterReachesBackend | ProxyServer.GuardedRejection |

The handler `ProxyServer.Handle` keeps the checks as written. `ProxyServer.GuardedRejection`
applies the deny list to the converted name, and `ProxyServer.GuardedCallsAvoidDeniedNames`
proves that a request it admits never calls a denied member.
