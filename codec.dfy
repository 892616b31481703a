/**
 * The typed-array codec (`JSONUint8Array.wrap` / `unwrap` of the router package). Its
 * implementation is not part of this model, so the codec is a pair of functions passed in,
 * and the properties that need it assume only the laws of `Lawful`.
 */
module Codec {
  import opened Js

  datatype Codec = Codec(wrap: Value -> Value, unwrap: Value -> Value)

  /** wrap walks an array element by element. */
  ghost predicate WalksArray(c: Codec, xs: seq<Value>) {
    c.wrap(Arr(xs)) == Arr(seq(|xs|, i requires 0 <= i < |xs| => c.wrap(xs[i])))
  }

  /** wrap walks a plain object key by key. */
  ghost predicate WalksObject(c: Codec, m: map<string, Value>) {
    c.wrap(Obj(m)) == Obj(map k | k in m :: c.wrap(m[k]))
  }

  /**
   * unwrap undoes wrap on values without a Long (a Long is a class instance the codec walks as
   * a plain object, so it does not come back as a Long); wrap leaves strings, undefined and
   * null alone, never turns another value into null or undefined, and walks arrays element by
   * element and plain objects key by key (only typed arrays change form).
   */
  ghost predicate Lawful(c: Codec) {
    && (forall v | NoLong(v) :: c.unwrap(c.wrap(v)) == v)
    && (forall v | !Nullish(v) :: !Nullish(c.wrap(v)))
    && (forall s :: c.wrap(Str(s)) == Str(s))
    && c.wrap(Undefined) == Undefined
    && c.wrap(Null) == Null
    && (forall xs :: WalksArray(c, xs))
    && (forall m :: WalksObject(c, m))
  }

  /** The codec that changes nothing: the laws can be met. */
  function Identity(): (c: Codec)
    ensures Lawful(c)
  {
    var c := Codec(v => v, v => v);
    forall xs: seq<Value> ensures WalksArray(c, xs) {
      assert xs == seq(|xs|, i requires 0 <= i < |xs| => xs[i]);
    }
    forall m: map<string, Value> ensures WalksObject(c, m) {
      assert m == map k | k in m :: m[k];
    }
    c
  }

  /** Under the laws, the client's unwrap of a server's `{return: wrap(v)}` gives `{return: v}` when `v` holds no Long. */
  lemma UnwrapReturn(c: Codec, v: Value)
    requires Lawful(c) && NoLong(v)
    ensures c.unwrap(Obj(map["return" := c.wrap(v)])) == Obj(map["return" := v])
  {
    var m := map["return" := v];
    assert (map k | k in m :: c.wrap(m[k])) == map["return" := c.wrap(v)];
    assert WalksObject(c, m);
    assert NoLong(Obj(m));
  }

  /** Under the laws, the client's unwrap of a server's `{error: e}` gives it back unchanged. */
  lemma UnwrapError(c: Codec, e: string)
    requires Lawful(c)
    ensures c.unwrap(Obj(map["error" := Str(e)])) == Obj(map["error" := Str(e)])
  {
    var m := map["error" := Str(e)];
    assert WalksObject(c, m);
    assert NoLong(Obj(m));
    assert (map k | k in m :: c.wrap(m[k])) == m;
  }

  /** Under the laws, a wrapped argument list is an array of the wrapped arguments. */
  lemma WrapArgs(c: Codec, xs: seq<Value>, i: nat)
    requires Lawful(c)
    ensures c.wrap(Arr(xs)).Arr? && |c.wrap(Arr(xs)).items| == |xs|
    ensures i < |xs| ==> c.wrap(Arr(xs)).items[i] == c.wrap(xs[i])
  {
    assert WalksArray(c, xs);
  }

  /** Under the laws, a wrapped plain object has the same keys, each holding the wrapped value. */
  lemma WrapFields(c: Codec, m: map<string, Value>, k: string)
    requires Lawful(c)
    ensures c.wrap(Obj(m)).Obj? && c.wrap(Obj(m)).fields.Keys == m.Keys
    ensures k in m ==> c.wrap(Obj(m)).fields[k] == c.wrap(m[k])
  {
    assert WalksObject(c, m);
  }
}
