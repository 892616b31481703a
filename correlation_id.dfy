/**
 * The correlation id of a proxied call (inject.ts:182-187): eight random bytes, each
 * rendered by `Number.prototype.toString(16)` (lower-case, no zero padding), concatenated.
 * The random bytes are an input of the model.
 */
module CorrelationId {
  import opened Js

  predicate IsLowerHex(c: char) {
    '0' <= c <= '9' || 'a' <= c <= 'f'
  }

  function HexDigit(d: nat): (c: char)
    requires d < 16
    ensures IsLowerHex(c)
  {
    if d < 10 then (48 + d) as char else (87 + d) as char
  }

  function HexDigitValue(c: char): (d: nat)
    requires IsLowerHex(c)
    ensures d < 16 && HexDigit(d) == c
  {
    if c <= '9' then c as int - 48 else c as int - 87
  }

  /** `b.toString(16)`: one digit below 16, two digits from 16 on. */
  function ByteHex(b: Byte): (s: string)
    ensures |s| == (if b < 16 then 1 else 2)
    ensures forall i | 0 <= i < |s| :: IsLowerHex(s[i])
  {
    if b < 16 then [HexDigit(b)] else [HexDigit(b / 16), HexDigit(b % 16)]
  }

  /** The value of a string of lower-case hex digits. */
  function HexValue(s: string): nat
    requires forall i | 0 <= i < |s| :: IsLowerHex(s[i])
  {
    if s == [] then 0 else 16 * HexValue(s[..|s| - 1]) + HexDigitValue(s[|s| - 1])
  }

  /** Each byte's rendering reads back as that byte. */
  lemma ByteHexRoundTrip(b: Byte)
    ensures HexValue(ByteHex(b)) == b
  {
    var s := ByteHex(b);
    if b >= 16 {
      assert s[..1] == [HexDigit(b / 16)];
      assert [HexDigit(b / 16)][..0] == [];
      assert HexValue(s[..1]) == b / 16;
      assert HexValue(s) == 16 * (b / 16) + b % 16;
    } else {
      assert s[..0] == [];
    }
  }

  /** `Array.from(bytes).map(b => b.toString(16)).join('')` */
  function Id(bytes: seq<Byte>): string {
    if bytes == [] then "" else ByteHex(bytes[0]) + Id(bytes[1..])
  }

  /** An id has between one and two lower-case hex characters per byte: 8 to 16 for the 8 bytes drawn. */
  lemma {:induction false} IdShape(bytes: seq<Byte>)
    ensures |bytes| <= |Id(bytes)| <= 2 * |bytes|
    ensures forall i | 0 <= i < |Id(bytes)| :: IsLowerHex(Id(bytes)[i])
    ensures (forall k | 0 <= k < |bytes| :: bytes[k] >= 16) ==> |Id(bytes)| == 2 * |bytes|
  {
    if bytes != [] {
      IdShape(bytes[1..]);
      var h, t := ByteHex(bytes[0]), Id(bytes[1..]);
      assert Id(bytes) == h + t;
      forall i | 0 <= i < |h + t| ensures IsLowerHex((h + t)[i]) {
        if i >= |h| {
          assert (h + t)[i] == t[i - |h|];
        }
      }
      if forall k | 0 <= k < |bytes| :: bytes[k] >= 16 {
        assert forall k | 0 <= k < |bytes[1..]| :: bytes[1..][k] >= 16 by {
          forall k | 0 <= k < |bytes[1..]| ensures bytes[1..][k] >= 16 {
            assert bytes[1..][k] == bytes[k + 1];
          }
        }
      }
    }
  }

  /** The id of a byte followed by more bytes. */
  lemma IdCons(x: Byte, rest: seq<Byte>)
    ensures Id([x] + rest) == ByteHex(x) + Id(rest)
  {
    assert ([x] + rest)[1..] == rest;
  }

  /** Without padding, distinct byte sequences can share an id: [0x1, 0x23, ...] and [0x12, 0x3, ...]. */
  lemma IdsCanCollide()
    ensures var a, b := [0x1, 0x23, 0, 0, 0, 0, 0, 0], [0x12, 0x3, 0, 0, 0, 0, 0, 0];
            a != b && Id(a) == Id(b) == "123" + Id([0, 0, 0, 0, 0, 0])
  {
    var z: seq<Byte> := [0, 0, 0, 0, 0, 0];
    var zeros := Id(z);
    assert ByteHex(0x1) == "1" && ByteHex(0x23) == "23" && ByteHex(0x12) == "12" && ByteHex(0x3) == "3";
    IdCons(0x23, z);
    IdCons(0x1, [0x23] + z);
    assert [0x1, 0x23, 0, 0, 0, 0, 0, 0] == [0x1] + ([0x23] + z);
    assert "1" + ("23" + zeros) == ("1" + "23") + zeros;
    assert "1" + "23" == "123";
    IdCons(0x3, z);
    IdCons(0x12, [0x3] + z);
    assert [0x12, 0x3, 0, 0, 0, 0, 0, 0] == [0x12] + ([0x3] + z);
    assert "12" + ("3" + zeros) == ("12" + "3") + zeros;
    assert "12" + "3" == "123";
  }

  /** When every byte is at least 0x10 each rendering has two digits, and the id determines the bytes. */
  lemma {:induction false} IdInjectiveOnWideBytes(a: seq<Byte>, b: seq<Byte>)
    requires |a| == |b|
    requires forall k | 0 <= k < |a| :: a[k] >= 16 && b[k] >= 16
    requires Id(a) == Id(b)
    ensures a == b
  {
    if a != [] {
      var ha, hb := ByteHex(a[0]), ByteHex(b[0]);
      assert Id(a) == ha + Id(a[1..]) && Id(b) == hb + Id(b[1..]);
      assert |ha| == 2 && |hb| == 2;
      assert ha == Id(a)[..2] && hb == Id(b)[..2];
      ByteHexRoundTrip(a[0]);
      ByteHexRoundTrip(b[0]);
      assert Id(a[1..]) == Id(a)[2..] && Id(b[1..]) == Id(b)[2..];
      IdInjectiveOnWideBytes(a[1..], b[1..]);
      assert a == [a[0]] + a[1..] && b == [b[0]] + b[1..];
    }
  }
}
