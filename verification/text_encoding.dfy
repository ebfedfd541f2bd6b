/** Bytes are text exactly when they are some characters encoded (section 3 of RFC 3629). */
module TextEncoding {
  import opened CheckpointState

  /** A code point that is not a surrogate. */
  type Scalar = c: int | 0 <= c < 0xD800 || 0xE000 <= c < 0x11_0000

  function Encode(c: Scalar): (s: Bytes)
    ensures 1 <= |s| <= 4
  {
    if c < 0x80 then [c]
    else if c < 0x800 then [0xC0 + c / 0x40, 0x80 + c % 0x40]
    else if c < 0x1_0000 then [0xE0 + c / 0x1000, 0x80 + c / 0x40 % 0x40, 0x80 + c % 0x40]
    else [0xF0 + c / 0x4_0000, 0x80 + c / 0x1000 % 0x40, 0x80 + c / 0x40 % 0x40, 0x80 + c % 0x40]
  }

  function EncodeAll(cs: seq<Scalar>): Bytes {
    if cs == [] then [] else Encode(cs[0]) + EncodeAll(cs[1..])
  }

  lemma EncodedLength(c: Scalar, rest: Bytes)
    ensures CharLength(Encode(c) + rest) == |Encode(c)|
  {
    var s := Encode(c) + rest;
    assert forall i :: 0 <= i < |Encode(c)| ==> s[i] == Encode(c)[i];
  }

  lemma Digits(high: nat, low: nat)
    requires low < 0x40
    ensures (high * 0x40 + low) / 0x40 == high && (high * 0x40 + low) % 0x40 == low
  {
  }

  lemma Decode2(a: int, b: int) returns (c: Scalar)
    requires 0xC2 <= a < 0xE0 && 0x80 <= b < 0xC0
    ensures Encode(c) == [a, b]
  {
    Digits(a - 0xC0, b - 0x80);
    c := (a - 0xC0) * 0x40 + (b - 0x80);
  }

  lemma Decode3(a: int, b: int, d: int) returns (c: Scalar)
    requires 0xE0 <= a < 0xF0 && 0x80 <= b < 0xC0 && 0x80 <= d < 0xC0
    requires (a == 0xE0 ==> b >= 0xA0) && (a == 0xED ==> b < 0xA0)
    ensures Encode(c) == [a, b, d]
  {
    var high: nat := (a - 0xE0) * 0x40 + (b - 0x80);
    Digits(a - 0xE0, b - 0x80);
    Digits(high, d - 0x80);
    c := high * 0x40 + (d - 0x80);
    assert c / 0x1000 == a - 0xE0;
  }

  lemma Decode4(a: int, b: int, d: int, e: int) returns (c: Scalar)
    requires 0xF0 <= a < 0xF5 && 0x80 <= b < 0xC0 && 0x80 <= d < 0xC0 && 0x80 <= e < 0xC0
    requires (a == 0xF0 ==> b >= 0x90) && (a == 0xF4 ==> b < 0x90)
    ensures Encode(c) == [a, b, d, e]
  {
    var top: nat := (a - 0xF0) * 0x40 + (b - 0x80);
    var high: nat := top * 0x40 + (d - 0x80);
    Digits(a - 0xF0, b - 0x80);
    Digits(top, d - 0x80);
    Digits(high, e - 0x80);
    c := high * 0x40 + (e - 0x80);
    assert c / 0x1000 == top && c / 0x4_0000 == a - 0xF0;
  }

  lemma DecodeFirst(s: Bytes) returns (c: Scalar)
    requires s != [] && CharLength(s) > 0
    ensures s[..CharLength(s)] == Encode(c)
  {
    if s[0] < 0x80 {
      c := s[0];
    } else if s[0] < 0xE0 {
      c := Decode2(s[0], s[1]);
    } else if s[0] < 0xF0 {
      c := Decode3(s[0], s[1], s[2]);
    } else {
      c := Decode4(s[0], s[1], s[2], s[3]);
    }
  }

  lemma {:induction false} EncodedIsText(cs: seq<Scalar>)
    ensures IsText(EncodeAll(cs))
  {
    if cs != [] {
      var rest := EncodeAll(cs[1..]);
      EncodedIsText(cs[1..]);
      EncodedLength(cs[0], rest);
      assert (Encode(cs[0]) + rest)[|Encode(cs[0])|..] == rest;
    }
  }

  lemma {:induction false} TextDecodes(s: Bytes) returns (cs: seq<Scalar>)
    requires IsText(s)
    ensures EncodeAll(cs) == s
    decreases |s|
  {
    if s == [] {
      cs := [];
    } else {
      var c := DecodeFirst(s);
      var rest := TextDecodes(s[CharLength(s)..]);
      cs := [c] + rest;
      assert cs[1..] == rest && s == s[..CharLength(s)] + s[CharLength(s)..];
    }
  }

  lemma IsTextIffEncoded(s: Bytes)
    ensures IsText(s) <==> exists cs: seq<Scalar> :: EncodeAll(cs) == s
  {
    if IsText(s) {
      var cs := TextDecodes(s);
    }
    forall cs: seq<Scalar> | EncodeAll(cs) == s ensures IsText(s) {
      EncodedIsText(cs);
    }
  }
}
