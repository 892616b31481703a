/**
 * The signDirect account-number bridge (inject.ts:118-149 on the server, 279-322 on the
 * client). A Long cannot cross the message boundary, so each side turns it into its decimal
 * string before posting and back into a Long after receiving; every other field of the sign
 * document is passed along as it is.
 */
module SignDirect {
  import opened Base
  import opened Js
  import opened Long64

  /** The caller's sign document; `accountNumber` is a Long or absent. */
  datatype SignDoc = SignDoc(bodyBytes: Value, authInfoBytes: Value, chainId: Value, accountNumber: Option<Int64>)

  datatype DirectSignResponse = DirectSignResponse(signed: SignDoc, signature: Value)

  function DocObject(bodyBytes: Value, authInfoBytes: Value, chainId: Value, accountNumber: Value): Value {
    Obj(map["bodyBytes" := bodyBytes, "authInfoBytes" := authInfoBytes, "chainId" := chainId,
            "accountNumber" := accountNumber])
  }

  /** Client, outgoing: a Long (always truthy, zero included) becomes its decimal string, absence becomes null. */
  function WireAccountNumber(a: Option<Int64>): (v: Value)
    ensures a.None? ==> v == Null
    ensures a.Some? ==> v.Str? && Truthy(v) && FromString(v.s) == Ok(a.value)
  {
    if a.Some? then StringRoundTrip(a.value); Str(ToString(a.value)) else Null
  }

  /** The third argument the client passes to requestMethod('signDirect', ...). */
  function WireSignDoc(d: SignDoc): Value {
    DocObject(d.bodyBytes, d.authInfoBytes, d.chainId, WireAccountNumber(d.accountNumber))
  }

  /** `v.length === 0`: an empty array or Uint8Array, or an object whose `length` is the number 0. */
  predicate HasZeroLength(v: Value) {
    || (v.Arr? && |v.items| == 0)
    || (v.Bytes? && |v.bytes| == 0)
    || FieldOf(v, "length") == Num(0)
  }

  /**
   * `Long.fromString(v)` on whatever value arrived. The library reads `v.length` first, so a
   * nullish value throws a TypeError and a length `=== 0` throws "empty string"; a string is
   * then read as `FromString` says. Of the other values only an array has `indexOf`, so a "-"
   * past its first element throws "interior hyphen"; every other path reaches a string method
   * the value lacks and throws a TypeError.
   */
  function LongFromValue(v: Value): (r: Result<Int64>)
    ensures Nullish(v) ==> r == Err(ReadOfNullish)
    ensures v.Str? ==> r == FromString(v.s)
    ensures !v.Str? ==> r.Err?
    ensures !v.Str? && !Nullish(v) ==> (r == Err("empty string") <==> HasZeroLength(v))
    ensures !v.Str? && !Nullish(v) ==>
              (r == Err("interior hyphen") <==> !HasZeroLength(v) && v.Arr? && Str("-") in v.items && v.items[0] != Str("-"))
  {
    if Nullish(v) then Err(ReadOfNullish)
    else if v.Str? then FromString(v.s)
    else if HasZeroLength(v) then Err("empty string")
    else if v.Arr? && Str("-") in v.items && v.items[0] != Str("-") then Err("interior hyphen")
    else Err(NotAFunction)
  }

  /**
   * Server, incoming: a truthy account number is read with `Long.fromString`, anything falsy
   * (absent, null, the empty string) becomes null; `fromString` of a non-string throws.
   */
  function ReceivedAccountNumber(v: Value): (r: Result<Value>)
    ensures !Truthy(v) ==> r == Ok(Null)
    ensures r.Ok? ==> r.value == Null || r.value.LongV?
    ensures v.Str? && v.s != "" ==> (r.Ok? <==> FromString(v.s).Ok?)
    ensures v.Str? && v.s != "" && FromString(v.s).Ok? ==> r == Ok(LongV(FromString(v.s).value))
    ensures Truthy(v) && !v.Str? ==> r.Err?
    ensures Truthy(v) && LongFromValue(v).Err? ==> r == Err(LongFromValue(v).error)
  {
    if !Truthy(v) then Ok(Null)
    else
      match LongFromValue(v)
      case Ok(n) => Ok(LongV(n))
      case Err(e) => Err(e)
  }

  /** The sign document the server hands to the backend, read field by field from the received one. */
  function ReceivedSignDoc(received: Value): (r: Result<Value>)
    ensures Nullish(received) ==> r == Err(ReadOfNullish)
  {
    if Nullish(received) then Err(ReadOfNullish)
    else
      var accountNumber :- ReceivedAccountNumber(FieldOf(received, "accountNumber"));
      Ok(DocObject(FieldOf(received, "bodyBytes"), FieldOf(received, "authInfoBytes"), FieldOf(received, "chainId"),
                   accountNumber))
  }

  /** The server reads a received sign document only through its four fields. */
  lemma ReceivedSignDocReadsFields(x: Value, y: Value)
    requires x.Obj? && y.Obj?
    requires FieldOf(x, "bodyBytes") == FieldOf(y, "bodyBytes") && FieldOf(x, "authInfoBytes") == FieldOf(y, "authInfoBytes")
    requires FieldOf(x, "chainId") == FieldOf(y, "chainId") && FieldOf(x, "accountNumber") == FieldOf(y, "accountNumber")
    ensures ReceivedSignDoc(x) == ReceivedSignDoc(y)
  {
  }

  /** The sign document as the backend sees it: a Long account number, or null. */
  function BackendSignDoc(d: SignDoc): Value {
    DocObject(d.bodyBytes, d.authInfoBytes, d.chainId, if d.accountNumber.Some? then LongV(d.accountNumber.value) else Null)
  }

  /** Request leg: whatever the caller's Long, the backend receives that same Long and the other fields unchanged. */
  lemma {:induction false} RequestLeg(d: SignDoc)
    ensures ReceivedSignDoc(WireSignDoc(d)) == Ok(BackendSignDoc(d))
  {
    var wire := WireAccountNumber(d.accountNumber);
    if d.accountNumber.Some? {
      assert ReceivedAccountNumber(wire) == Ok(LongV(d.accountNumber.value));
    }
  }

  /**
   * Server, outgoing: the backend's signed document with its account number turned into a
   * string by `toString()` (which throws on null and undefined), and its signature.
   */
  function WireSignResponse(result: Value): (r: Result<Value>)
    ensures r.Err? <==> (|| Nullish(result) || Nullish(FieldOf(result, "signed"))
                         || Nullish(FieldOf(FieldOf(result, "signed"), "accountNumber")))
  {
    if Nullish(result) then Err(ReadOfNullish)
    else
      var signed := FieldOf(result, "signed");
      if Nullish(signed) then Err(ReadOfNullish)
      else
        var accountNumber := FieldOf(signed, "accountNumber");
        if Nullish(accountNumber) then Err(ReadOfNullish)
        else
          var doc := DocObject(FieldOf(signed, "bodyBytes"), FieldOf(signed, "authInfoBytes"), FieldOf(signed, "chainId"),
                               Str(ToStr(accountNumber)));
          Ok(Obj(map["signed" := doc, "signature" := FieldOf(result, "signature")]))
  }

  /** Client, incoming: the signed document with its account-number string read back by `Long.fromString`. */
  function ReceivedSignResponse(v: Value): (r: Result<DirectSignResponse>)
    ensures r.Ok? ==> r.value.signed.accountNumber.Some?
    ensures r.Ok? ==> var wire := FieldOf(FieldOf(v, "signed"), "accountNumber");
                      wire.Str? && FromString(wire.s) == Ok(r.value.signed.accountNumber.value)
  {
    if Nullish(v) then Err(ReadOfNullish)
    else
      var signed := FieldOf(v, "signed");
      if Nullish(signed) then Err(ReadOfNullish)
      else
        var wire := FieldOf(signed, "accountNumber");
        match LongFromValue(wire)
        case Err(e) => Err(e)
        case Ok(n) =>
          var doc := SignDoc(FieldOf(signed, "bodyBytes"), FieldOf(signed, "authInfoBytes"), FieldOf(signed, "chainId"), Some(n));
          Ok(DirectSignResponse(doc, FieldOf(v, "signature")))
  }

  /** The backend's answer as a value: the signed document with a Long account number, and the signature. */
  function BackendSignResponse(r: DirectSignResponse): Value {
    Obj(map["signed" := BackendSignDoc(r.signed), "signature" := r.signature])
  }

  /** Response leg: a signed document carrying a Long reaches the caller with that Long and the other fields unchanged. */
  lemma {:induction false} ResponseLeg(r: DirectSignResponse)
    requires r.signed.accountNumber.Some?
    ensures ReceivedSignResponse(WireSignResponse(BackendSignResponse(r)).value) == Ok(r)
    ensures WireSignResponse(BackendSignResponse(r)).Ok?
  {
    var n := r.signed.accountNumber.value;
    StringRoundTrip(n);
    var wire := WireSignResponse(BackendSignResponse(r));
    assert wire.Ok?;
    assert GetField(GetField(wire.value, "signed").value, "accountNumber") == Ok(Str(ToString(n)));
  }

  /** A backend answer whose account number is null fails at the server's `toString()` instead of reaching the caller. */
  lemma NullAccountNumberIsRejected(r: DirectSignResponse)
    requires r.signed.accountNumber.None?
    ensures WireSignResponse(BackendSignResponse(r)) == Err(ReadOfNullish)
  {
  }
}
