/** What the strings of the containers say: their code points (section 3 of RFC 3629),
    and what the string reader makes of bytes that are no UTF-8 (src/nsfe.rs:385-402). */
module CodePointText {
  import opened Words
  import opened ContainerText

  /** A Unicode scalar value. */
  predicate Scalar(c: nat) {
    c < 0xD800 || 0xE000 <= c <= 0x10_FFFF
  }

  /** A code point as UTF-8: seven bits, or six in each continuation byte. */
  function EncodedScalar(c: nat): Bytes
    requires Scalar(c)
  {
    if c < 0x80 then [c]
    else if c < 0x800 then [0xC0 + c / 0x40, 0x80 + c % 0x40]
    else if c < 0x1_0000 then [0xE0 + c / 0x1000, 0x80 + c / 0x40 % 0x40, 0x80 + c % 0x40]
    else [0xF0 + c / 0x4_0000, 0x80 + c / 0x1000 % 0x40, 0x80 + c / 0x40 % 0x40, 0x80 + c % 0x40]
  }

  function EncodedText(cs: seq<nat>): Bytes
    requires forall c :: c in cs ==> Scalar(c)
  {
    if cs == [] then [] else EncodedScalar(cs[0]) + EncodedText(cs[1..])
  }

  /** The six payload bits of a continuation byte. */
  function Six(b: u8): int {
    b - 0x80
  }

  /** The code point at the front of a string. */
  function FirstCodePoint(s: Bytes): nat
    requires s != [] && SequenceLength(s) > 0
  {
    var n := SequenceLength(s);
    var lead: int := s[0];
    if n == 1 then lead
    else if n == 2 then (lead - 0xC0) * 0x40 + Six(s[1])
    else if n == 3 then (lead - 0xE0) * 0x1000 + Six(s[1]) * 0x40 + Six(s[2])
    else (lead - 0xF0) * 0x4_0000 + Six(s[1]) * 0x1000 + Six(s[2]) * 0x40 + Six(s[3])
  }

  function CodePoints(s: Bytes): seq<nat>
    requires ValidUtf8(s)
    decreases |s|
  {
    if s == [] then [] else [FirstCodePoint(s)] + CodePoints(s[SequenceLength(s)..])
  }

  /** Base-64 digits. */
  lemma Digits(a: int, b: int, c: int, d: int)
    requires 0 <= a && 0 <= b < 0x40 && 0 <= c < 0x40 && 0 <= d < 0x40
    ensures var x := ((a * 0x40 + b) * 0x40 + c) * 0x40 + d;
            && x % 0x40 == d && x / 0x40 % 0x40 == c && x / 0x1000 % 0x40 == b && x / 0x4_0000 == a
            && x / 0x1000 == a * 0x40 + b && x / 0x40 == (a * 0x40 + b) * 0x40 + c
  {
  }

  lemma FirstDecodes(s: Bytes)
    requires s != [] && SequenceLength(s) > 0
    ensures var c := FirstCodePoint(s);
            Scalar(c) && EncodedScalar(c) == s[..SequenceLength(s)]
  {
    var n := SequenceLength(s);
    if n == 1 {
      assert s[..1] == [s[0]];
    } else if n == 2 {
      TwoDigits(s[0] - 0xC0, Six(s[1]));
      assert s[..2] == [s[0], s[1]];
    } else if n == 3 {
      ThreeDigits(s[0] - 0xE0, Six(s[1]), Six(s[2]));
      assert s[..3] == [s[0], s[1], s[2]];
    } else {
      FourDigits(s[0] - 0xF0, Six(s[1]), Six(s[2]), Six(s[3]));
      assert s[..4] == [s[0], s[1], s[2], s[3]];
    }
  }

  lemma TwoDigits(a: int, b: int)
    requires 2 <= a < 0x20 && 0 <= b < 0x40
    ensures var c := a * 0x40 + b;
            0x80 <= c < 0x800 && EncodedScalar(c) == [0xC0 + a, 0x80 + b]
  {
    Digits(0, 0, a, b);
  }

  lemma ThreeDigits(a: int, b: int, c: int)
    requires 0 <= a < 0x10 && 0 <= b < 0x40 && 0 <= c < 0x40 && (a == 0 ==> b >= 0x20) && (a == 0xD ==> b < 0x20)
    ensures var x := a * 0x1000 + b * 0x40 + c;
            0x800 <= x < 0x1_0000 && Scalar(x) && EncodedScalar(x) == [0xE0 + a, 0x80 + b, 0x80 + c]
  {
    Digits(0, a, b, c);
  }

  lemma FourDigits(a: int, b: int, c: int, d: int)
    requires 0 <= a <= 4 && 0 <= b < 0x40 && 0 <= c < 0x40 && 0 <= d < 0x40 && (a == 0 ==> b >= 0x10) && (a == 4 ==> b < 0x10)
    ensures var x := a * 0x4_0000 + b * 0x1000 + c * 0x40 + d;
            0x1_0000 <= x <= 0x10_FFFF && EncodedScalar(x) == [0xF0 + a, 0x80 + b, 0x80 + c, 0x80 + d]
  {
    Digits(a, b, c, d);
  }

  lemma FirstEncodes(c: nat, rest: Bytes)
    requires Scalar(c)
    ensures var s := EncodedScalar(c) + rest;
            s != [] && SequenceLength(s) == |EncodedScalar(c)| && FirstCodePoint(s) == c
            && s[SequenceLength(s)..] == rest
  {
    var u := EncodedScalar(c);
    var s := u + rest;
    assert forall i :: 0 <= i < |u| ==> s[i] == u[i];
    EncodedLength(c, s);
    hide SequenceLength, Scalar;
    assert s[|u|..] == rest;
  }

  lemma EncodedLength(c: nat, s: Bytes)
    requires Scalar(c) && |s| >= |EncodedScalar(c)|
    requires forall i :: 0 <= i < |EncodedScalar(c)| ==> s[i] == EncodedScalar(c)[i]
    ensures SequenceLength(s) == |EncodedScalar(c)| && FirstCodePoint(s) == c
  {
    var u := EncodedScalar(c);
    if c < 0x80 {
    } else if c < 0x800 {
      assert s[0] == u[0] && s[1] == u[1];
    } else if c < 0x1_0000 {
      assert s[0] == u[0] && s[1] == u[1] && s[2] == u[2];
      ThreeBytes(c);
    } else {
      assert s[0] == u[0] && s[1] == u[1] && s[2] == u[2] && s[3] == u[3];
      FourBytes(c);
    }
  }

  lemma ThreeBytes(c: nat)
    requires 0x800 <= c < 0x1_0000 && Scalar(c)
    ensures var lead, second := 0xE0 + c / 0x1000, 0x80 + c / 0x40 % 0x40;
            && lead <= 0xEF && (lead == 0xE0 ==> second >= 0xA0) && (lead == 0xED ==> second <= 0x9F)
            && c / 0x1000 * 0x1000 + c / 0x40 % 0x40 * 0x40 + c % 0x40 == c
  {
  }

  lemma FourBytes(c: nat)
    requires 0x1_0000 <= c <= 0x10_FFFF
    ensures var lead, second := 0xF0 + c / 0x4_0000, 0x80 + c / 0x1000 % 0x40;
            && lead <= 0xF4 && (lead == 0xF0 ==> second >= 0x90) && (lead == 0xF4 ==> second <= 0x8F)
            && c / 0x4_0000 * 0x4_0000 + c / 0x1000 % 0x40 * 0x1000 + c / 0x40 % 0x40 * 0x40 + c % 0x40 == c
  {
  }

  /** A string is valid exactly if it is the encoding of scalar values: every valid one
      is that of its code points, */
  lemma {:induction false} ValidIsEncoded(s: Bytes)
    requires ValidUtf8(s)
    ensures (forall c :: c in CodePoints(s) ==> Scalar(c)) && EncodedText(CodePoints(s)) == s
    decreases |s|
  {
    hide SequenceLength, FirstCodePoint, EncodedScalar;
    if s != [] {
      var n := SequenceLength(s);
      FirstDecodes(s);
      ValidIsEncoded(s[n..]);
      var c, rest := FirstCodePoint(s), CodePoints(s[n..]);
      var cs := [c] + rest;
      assert CodePoints(s) == cs && cs[0] == c && cs[1..] == rest;
      assert EncodedText(cs) == EncodedScalar(c) + EncodedText(rest);
      assert s == s[..n] + s[n..];
    }
  }

  /** and every encoding is valid and gives its scalar values back. */
  lemma {:induction false} EncodedIsValid(cs: seq<nat>)
    requires forall c :: c in cs ==> Scalar(c)
    ensures ValidUtf8(EncodedText(cs)) && CodePoints(EncodedText(cs)) == cs
  {
    hide SequenceLength, FirstCodePoint, EncodedScalar;
    if cs != [] {
      EncodedIsValid(cs[1..]);
      FirstEncodes(cs[0], EncodedText(cs[1..]));
      assert cs == [cs[0]] + cs[1..];
    }
  }

  lemma {:induction false} Latin1Means(s: Bytes)
    ensures ValidUtf8(Latin1(s)) && CodePoints(Latin1(s)) == s
  {
    if s != [] {
      Latin1Means(s[1..]);
      FirstEncodes(s[0], Latin1(s[1..]));
      hide SequenceLength, FirstCodePoint;
      assert Latin1(s) == EncodedScalar(s[0]) + Latin1(s[1..]);
      assert s == [s[0]] + s[1..];
    }
  }

  lemma {:induction false} TrimDrops(s: Bytes)
    ensures Trim(s) <= s && forall i :: |Trim(s)| <= i < |s| ==> s[i] == 0x20 || s[i] == 0x09
  {
    if s != [] && Blank(s[|s| - 1]) {
      TrimDrops(s[..|s| - 1]);
    }
  }

  /** What a field reads as. Only spaces and tabs at its end are dropped, and all of
      them; what is left is the string if it is valid UTF-8, and otherwise the string
      has exactly its bytes as code points, one for one. */
  lemma ReadStringMeans(field: Bytes) returns (kept: Bytes)
    ensures kept <= field && forall i :: |kept| <= i < |field| ==> field[i] == 0x20 || field[i] == 0x09
    ensures kept != [] ==> kept[|kept| - 1] != 0x20 && kept[|kept| - 1] != 0x09
    ensures var r := ReadString(field);
            if ValidUtf8(kept) then r == kept else ValidUtf8(r) && CodePoints(r) == kept
  {
    kept := Trim(field);
    TrimDrops(field);
    Latin1Means(kept);
  }
}
