// The text check of the descriptor loader (runtime/src/descriptor.cpp) accepts exactly
// well-formed UTF-8.
module Utf8Text {
  import opened Common
  import opened Descriptor

  predicate Continuation(x: byte) {
    128 <= x < 192
  }

  // The payload bits of a continuation byte and of a lead byte.
  function Low(x: byte): int {
    x as int - 128
  }

  function Top(x: byte, base: int): int {
    x as int - base
  }

  // Length of the sequence a lead byte announces, beyond itself.
  function Following(c: byte): nat {
    if 0xc2 <= c <= 0xdf then 1 else if 0xe0 <= c <= 0xef then 2 else if 0xf0 <= c <= 0xf4 then 3 else 99
  }

  // The code point whose encoding starts at the head of `s`, with its length.
  function Decode(s: bytes): (r: Option<(nat, nat)>)
    ensures r.Some? ==> 1 <= r.value.1 <= |s|
  {
    if s == [] then None
    else if s[0] < 128 then Some((s[0], 1))
    else
      var len := Following(s[0]);
      if len == 99 || len > |s| - 1 then None
      else if exists j :: 1 <= j <= len && !Continuation(s[j]) then None
      else
        var code := if len == 1 then Top(s[0], 0xc0) * 64 + Low(s[1])
                    else if len == 2 then (Top(s[0], 0xe0) * 64 + Low(s[1])) * 64 + Low(s[2])
                    else ((Top(s[0], 0xf0) * 64 + Low(s[1])) * 64 + Low(s[2])) * 64 + Low(s[3]);
        if (len == 1 && code < 128) || (len == 2 && code < 2048) || (len == 3 && code < 65536) || code > 0x10ffff
           || 0xd800 <= code <= 0xdfff then None
        else Some((code, len + 1))
  }

  predicate Utf8(s: bytes)
    decreases |s|
  {
    s == [] || (Decode(s).Some? && Utf8(s[Decode(s).value.1..]))
  }

  // Unicode scalar values and their one encoding.
  predicate Scalar(c: nat) {
    c <= 0x10ffff && !(0xd800 <= c <= 0xdfff)
  }

  function Encode(c: nat): bytes
    requires Scalar(c)
  {
    if c < 128 then [c]
    else if c < 2048 then [0xc0 + c / 64, 128 + c % 64]
    else if c < 65536 then [0xe0 + c / 4096, 128 + c / 64 % 64, 128 + c % 64]
    else [0xf0 + c / 262144, 128 + c / 4096 % 64, 128 + c / 64 % 64, 128 + c % 64]
  }

  function EncodeAll(cs: seq<nat>): bytes
    requires forall i :: 0 <= i < |cs| ==> Scalar(cs[i])
  {
    if cs == [] then [] else Encode(cs[0]) + EncodeAll(cs[1..])
  }

  lemma Split2(c: nat)
    requires 128 <= c < 2048
    ensures 2 <= c / 64 < 32 && c == (c / 64) * 64 + c % 64
  {
  }

  lemma Split3(c: nat)
    requires 2048 <= c < 65536
    ensures c / 4096 < 16 && c / 64 == (c / 4096) * 64 + c / 64 % 64 && c == (c / 64) * 64 + c % 64
  {
    assert c / 64 / 64 == c / 4096;
  }

  lemma Split4(c: nat)
    requires 65536 <= c <= 0x10ffff
    ensures c / 262144 < 5 && c / 4096 == (c / 262144) * 64 + c / 4096 % 64
    ensures c / 64 == (c / 4096) * 64 + c / 64 % 64 && c == (c / 64) * 64 + c % 64
  {
    assert c / 64 / 64 == c / 4096 && c / 4096 / 64 == c / 262144;
  }

  // Decoding undoes encoding, whatever follows.
  lemma DecodeEncode(c: nat, rest: bytes)
    requires Scalar(c)
    ensures Decode(Encode(c) + rest) == Some((c, |Encode(c)|))
  {
    var s := Encode(c) + rest;
    if 128 <= c < 2048 {
      Split2(c);
      assert Top(s[0], 0xc0) == c / 64 && Low(s[1]) == c % 64;
    } else if 2048 <= c < 65536 {
      Split3(c);
      assert Top(s[0], 0xe0) == c / 4096 && Low(s[1]) == c / 64 % 64 && Low(s[2]) == c % 64;
    } else if 65536 <= c {
      Split4(c);
      assert Top(s[0], 0xf0) == c / 262144 && Low(s[1]) == c / 4096 % 64 && Low(s[2]) == c / 64 % 64 && Low(s[3]) == c % 64;
    }
  }

  // And what decodes is the encoding of a scalar value.
  lemma Decode2(s: bytes)
    requires Decode(s).Some? && Decode(s).value.1 == 2
    ensures Scalar(Decode(s).value.0) && s[..2] == Encode(Decode(s).value.0)
  {
    assert Continuation(s[1]);
    Join(Top(s[0], 0xc0), Low(s[1]));
  }

  lemma Decode3(s: bytes)
    requires Decode(s).Some? && Decode(s).value.1 == 3
    ensures Scalar(Decode(s).value.0) && s[..3] == Encode(Decode(s).value.0)
  {
    assert Continuation(s[1]) && Continuation(s[2]);
    var a := Top(s[0], 0xe0) * 64 + Low(s[1]);
    Join(a, Low(s[2]));
    Join(Top(s[0], 0xe0), Low(s[1]));
    Twice(Decode(s).value.0);
  }

  lemma Decode4(s: bytes)
    requires Decode(s).Some? && Decode(s).value.1 == 4
    ensures Scalar(Decode(s).value.0) && s[..4] == Encode(Decode(s).value.0)
  {
    assert Continuation(s[1]) && Continuation(s[2]) && Continuation(s[3]);
    var a := Top(s[0], 0xf0) * 64 + Low(s[1]);
    var d := a * 64 + Low(s[2]);
    Join(d, Low(s[3]));
    Join(a, Low(s[2]));
    Join(Top(s[0], 0xf0), Low(s[1]));
    Twice(Decode(s).value.0);
    Twice(d);
  }

  lemma EncodeDecode(s: bytes)
    requires Decode(s).Some?
    ensures Scalar(Decode(s).value.0) && s[..Decode(s).value.1] == Encode(Decode(s).value.0)
  {
    var n := Decode(s).value.1;
    if n == 2 {
      Decode2(s);
    } else if n == 3 {
      Decode3(s);
    } else if n == 4 {
      Decode4(s);
    }
  }

  lemma Join(a: int, x: int)
    requires 0 <= x < 64
    ensures (a * 64 + x) / 64 == a && (a * 64 + x) % 64 == x
  {
  }

  lemma Twice(c: int)
    ensures c / 64 / 64 == c / 4096 && c / 64 / 64 / 64 == c / 262144
  {
  }

  ghost predicate EncodesSome(s: bytes) {
    exists cs: seq<nat> :: (forall i :: 0 <= i < |cs| ==> Scalar(cs[i])) && EncodeAll(cs) == s
  }

  lemma {:induction false} Utf8Sound(s: bytes) returns (cs: seq<nat>)
    requires Utf8(s)
    ensures (forall i :: 0 <= i < |cs| ==> Scalar(cs[i])) && EncodeAll(cs) == s
    decreases |s|
  {
    if s == [] {
      cs := [];
    } else {
      var (c, n) := Decode(s).value;
      EncodeDecode(s);
      var rest := Utf8Sound(s[n..]);
      cs := [c] + rest;
      assert cs[1..] == rest && s == s[..n] + s[n..];
    }
  }

  lemma {:induction false} Utf8Complete(cs: seq<nat>)
    requires forall i :: 0 <= i < |cs| ==> Scalar(cs[i])
    ensures Utf8(EncodeAll(cs))
  {
    if cs != [] {
      var rest := EncodeAll(cs[1..]);
      Utf8Complete(cs[1..]);
      DecodeEncode(cs[0], rest);
      assert (Encode(cs[0]) + rest)[|Encode(cs[0])|..] == rest;
    }
  }

  // The text check accepts exactly the byte strings that encode scalar values, each in its
  // one shortest form.
  lemma Utf8Exact(s: bytes)
    ensures Utf8(s) <==> EncodesSome(s)
  {
    if Utf8(s) {
      var cs := Utf8Sound(s);
    }
    if EncodesSome(s) {
      var cs: seq<nat> :| (forall i :: 0 <= i < |cs| ==> Scalar(cs[i])) && EncodeAll(cs) == s;
      Utf8Complete(cs);
    }
  }

  // The loop over an index.
  lemma Utf8Skip(s: bytes, i: nat, n: nat)
    requires i < |s| && Decode(s[i..]).Some? && Decode(s[i..]).value.1 == n
    ensures i + n <= |s| && Utf8(s[i..]) == Utf8(s[i + n..])
  {
    assert s[i..][n..] == s[i + n..];
  }

  method CheckUtf8(s: bytes) returns (ok: bool)
    ensures ok == Utf8(s)
  {
    var i := 0;
    while i < |s|
      invariant 0 <= i <= |s| && Utf8(s[i..]) == Utf8(s)
      decreases |s| - i
    {
      var d := Decode(s[i..]);
      if d.None? {
        return false;
      }
      Utf8Skip(s, i, d.value.1);
      i := i + d.value.1;
    }
    return true;
  }
}
