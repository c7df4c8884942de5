/** Bytes, little-endian words and the string fields of the containers
    (src/nsfe.rs:278-299, 392-402; src/header.rs:864-867; src/writer.rs:99-106).
    A string is the sequence of its UTF-8 bytes. */
module ContainerText {
  import opened Words

  type Bytes = seq<u8>
  type i16 = x: int | -0x8000 <= x < 0x8000
  type i32 = x: int | -0x8000_0000 <= x < 0x8000_0000

  // ------------------------------------------------------------------ words

  function U16Le(x: u16): Bytes {
    [x % 0x100, x / 0x100]
  }

  function U32Le(x: u32): Bytes {
    [x % 0x100, x / 0x100 % 0x100, x / 0x1_0000 % 0x100, x / 0x100_0000]
  }

  function Word16(b: Bytes, i: nat): u16
    requires i + 2 <= |b|
  {
    var low: int, high: int := b[i], b[i + 1];
    low + high * 0x100
  }

  function Word32(b: Bytes, i: nat): u32
    requires i + 4 <= |b|
  {
    var low: int, high: int := Word16(b, i), Word16(b, i + 2);
    low + high * 0x1_0000
  }

  /** Two's complement. */
  function Unsigned16(x: i16): u16 {
    if x < 0 then x + 0x1_0000 else x
  }

  function Signed16(x: u16): i16 {
    if x >= 0x8000 then x - 0x1_0000 else x
  }

  function Unsigned32(x: i32): u32 {
    if x < 0 then x + 0x1_0000_0000 else x
  }

  function Signed32(x: u32): i32 {
    if x >= 0x8000_0000 then x - 0x1_0000_0000 else x
  }

  lemma WordsRoundTrip(x: u16, y: u32)
    ensures Word16(U16Le(x), 0) == x && Word32(U32Le(y), 0) == y
  {
  }

  // ------------------------------------------------------------------ UTF-8

  predicate Continuation(b: u8) {
    0x80 <= b <= 0xBF
  }

  /** Length of the well-formed sequence at the front of `s` (table 3-7 of the Unicode
      Standard, section 4 of RFC 3629), or 0 if there is none. */
  function SequenceLength(s: Bytes): (n: nat)
    ensures n <= |s| && n <= 4
    ensures n > 0 && |s| > 0 && s[0] == 0 ==> n == 1
  {
    if |s| == 0 then 0
    else if s[0] < 0x80 then 1
    else if 0xC2 <= s[0] <= 0xDF then
      if |s| >= 2 && Continuation(s[1]) then 2 else 0
    else if 0xE0 <= s[0] <= 0xEF then
      if |s| >= 3 && Continuation(s[1]) && Continuation(s[2])
         && (s[0] == 0xE0 ==> s[1] >= 0xA0) && (s[0] == 0xED ==> s[1] <= 0x9F) then 3 else 0
    else if 0xF0 <= s[0] <= 0xF4 then
      if |s| >= 4 && Continuation(s[1]) && Continuation(s[2]) && Continuation(s[3])
         && (s[0] == 0xF0 ==> s[1] >= 0x90) && (s[0] == 0xF4 ==> s[1] <= 0x8F) then 4 else 0
    else 0
  }

  predicate ValidUtf8(s: Bytes)
    decreases |s|
  {
    s == [] || (SequenceLength(s) > 0 && ValidUtf8(s[SequenceLength(s)..]))
  }

  /** The 1:1 byte-to-char fallback for legacy text, as UTF-8. */
  function Latin1(s: Bytes): Bytes {
    if s == [] then []
    else (if s[0] < 0x80 then [s[0]] else [0xC0 + s[0] / 0x40, 0x80 + s[0] % 0x40]) + Latin1(s[1..])
  }

  predicate Blank(b: u8) {
    b == 0x20 || b == 0x09
  }

  function Trim(s: Bytes): (t: Bytes)
    ensures t <= s && (t == [] || !Blank(t[|t| - 1]))
  {
    if s != [] && Blank(s[|s| - 1]) then Trim(s[..|s| - 1]) else s
  }

  /** `read_string`: trailing padding trimmed, then UTF-8, else byte by byte. */
  function ReadString(field: Bytes): Bytes {
    var t := Trim(field);
    if ValidUtf8(t) then t else Latin1(t)
  }

  predicate NulFree(s: Bytes) {
    0 !in s
  }

  /** A string that reads back as itself. */
  predicate TextOk(s: Bytes) {
    ValidUtf8(s) && NulFree(s) && (s == [] || !Blank(s[|s| - 1]))
  }

  lemma {:induction false} Latin1IsText(s: Bytes)
    ensures ValidUtf8(Latin1(s))
    ensures NulFree(s) ==> NulFree(Latin1(s))
    ensures s != [] ==> Latin1(s) != [] && (!Blank(s[|s| - 1]) ==> !Blank(Latin1(s)[|Latin1(s)| - 1]))
  {
    if s != [] {
      Latin1IsText(s[1..]);
      var unit := if s[0] < 0x80 then [s[0]] else [0xC0 + s[0] / 0x40, 0x80 + s[0] % 0x40];
      var rest := Latin1(s[1..]);
      assert Latin1(s) == unit + rest;
      assert (unit + rest)[|unit|..] == rest;
      assert SequenceLength(unit + rest) == |unit|;
      if |s| == 1 {
        assert rest == [] && Latin1(s) == unit;
      } else {
        assert s[1..][|s[1..]| - 1] == s[|s| - 1];
      }
    }
  }

  /** Whatever bytes a field holds, what is read from it reads back as itself. */
  lemma ReadStringIsText(field: Bytes)
    requires NulFree(field)
    ensures TextOk(ReadString(field))
  {
    var t := Trim(field);
    assert NulFree(t) by {
      assert forall i :: 0 <= i < |t| ==> t[i] == field[i];
    }
    Latin1IsText(t);
  }

  lemma TextReadsBack(s: Bytes)
    requires TextOk(s)
    ensures ReadString(s) == s
  {
  }

  // ---------------------------------------------------------- NUL-separated

  function FirstNul(s: Bytes): (n: nat)
    ensures n <= |s| && NulFree(s[..n]) && (n < |s| ==> s[n] == 0)
  {
    if s == [] || s[0] == 0 then 0
    else
      assert s[..FirstNul(s[1..]) + 1] == [s[0]] + s[1..][..FirstNul(s[1..])];
      FirstNul(s[1..]) + 1
  }

  /** The pieces between NULs: one more than there are NULs. */
  function SplitNul(s: Bytes): (ps: seq<Bytes>)
    ensures |ps| > 0 && forall p :: p in ps ==> NulFree(p)
    decreases |s|
  {
    var n := FirstNul(s);
    if n == |s| then
      assert s[..n] == s;
      [s]
    else [s[..n]] + SplitNul(s[n + 1..])
  }

  function ReadAll(ps: seq<Bytes>): (r: seq<Bytes>)
    ensures |r| == |ps| && forall i :: 0 <= i < |ps| ==> r[i] == ReadString(ps[i])
  {
    seq(|ps|, i requires 0 <= i < |ps| => ReadString(ps[i]))
  }

  /** `split_null_strings`: a trailing empty piece is no string. */
  function SplitStrings(body: Bytes): seq<Bytes> {
    var ps := SplitNul(body);
    ReadAll(if ps[|ps| - 1] == [] then ps[..|ps| - 1] else ps)
  }

  function CStrings(ss: seq<Bytes>): Bytes {
    if ss == [] then [] else ss[0] + [0] + CStrings(ss[1..])
  }

  lemma FirstNulUnique(t: Bytes, n: nat)
    requires n < |t| && t[n] == 0 && forall i :: 0 <= i < n ==> t[i] != 0
    ensures FirstNul(t) == n
  {
    if t[0] != 0 {
      FirstNulUnique(t[1..], n - 1);
    }
  }

  lemma FirstNulAt(s: Bytes, rest: Bytes)
    requires NulFree(s)
    ensures FirstNul(s + [0] + rest) == |s|
    ensures (s + [0] + rest)[..|s|] == s && (s + [0] + rest)[|s| + 1..] == rest
  {
    var t := s + [0] + rest;
    assert t[|s|] == 0 && forall i :: 0 <= i < |s| ==> t[i] == s[i];
    FirstNulUnique(t, |s|);
  }

  lemma {:induction false} SplitOfCStrings(ss: seq<Bytes>)
    requires forall s :: s in ss ==> NulFree(s)
    ensures SplitNul(CStrings(ss)) == ss + [[]]
  {
    if ss != [] {
      FirstNulAt(ss[0], CStrings(ss[1..]));
      SplitOfCStrings(ss[1..]);
    }
  }

  /** Lists of strings, empty ones included, survive their chunk. */
  lemma StringsRoundTrip(ss: seq<Bytes>)
    requires forall s :: s in ss ==> TextOk(s)
    ensures SplitStrings(CStrings(ss)) == ss
  {
    SplitOfCStrings(ss);
    assert (ss + [[]])[..|ss|] == ss;
    forall i | 0 <= i < |ss|
      ensures ReadString(ss[i]) == ss[i]
    {
      TextReadsBack(ss[i]);
    }
  }

  lemma SplitStringsAreText(body: Bytes)
    ensures forall s :: s in SplitStrings(body) ==> TextOk(s)
  {
    var ps := SplitNul(body);
    var kept := if ps[|ps| - 1] == [] then ps[..|ps| - 1] else ps;
    forall i | 0 <= i < |kept|
      ensures TextOk(ReadString(kept[i]))
    {
      assert kept[i] in ps;
      ReadStringIsText(kept[i]);
    }
  }

  lemma {:induction false} SplitOfParts(ss: seq<Bytes>, last: Bytes)
    requires NulFree(last) && forall s :: s in ss ==> NulFree(s)
    ensures SplitNul(CStrings(ss) + last) == ss + [last]
  {
    hide FirstNul, NulFree, SplitNul;
    if ss == [] {
      assert CStrings(ss) + last == last;
      SplitOfLast(last);
    } else {
      var rest := CStrings(ss[1..]) + last;
      assert CStrings(ss) + last == ss[0] + [0] + rest;
      SplitFirst(ss[0], rest);
      SplitOfParts(ss[1..], last);
      hide CStrings;
      assert [ss[0]] + (ss[1..] + [last]) == ss + [last];
    }
  }

  lemma SplitFirst(s: Bytes, rest: Bytes)
    requires NulFree(s)
    ensures SplitNul(s + [0] + rest) == [s] + SplitNul(rest)
  {
    FirstNulAt(s, rest);
    hide FirstNul, NulFree;
  }

  lemma SplitOfLast(s: Bytes)
    requires NulFree(s)
    ensures SplitNul(s) == [s]
  {
    FirstNulOfNone(s);
    hide FirstNul, NulFree;
    assert s[..|s|] == s;
  }

  lemma FirstNulOfNone(s: Bytes)
    requires NulFree(s)
    ensures FirstNul(s) == |s|
  {
    var n := FirstNul(s);
    if n < |s| {
      assert s[n] in s;
    }
  }

  /** Every body is a list of terminated strings and what follows the last of them, */
  lemma {:induction false} EveryBody(body: Bytes) returns (ss: seq<Bytes>, last: Bytes)
    ensures body == CStrings(ss) + last && NulFree(last) && forall s :: s in ss ==> NulFree(s)
    decreases |body|
  {
    var n := FirstNul(body);
    if n == |body| {
      ss, last := [], body;
      assert body[..n] == body;
      assert CStrings([]) + body == body;
    } else {
      ss, last := EveryBody(body[n + 1..]);
      var all := [body[..n]] + ss;
      assert all[1..] == ss;
      assert body == body[..n] + [0] + body[n + 1..];
      assert CStrings(all) + last == body[..n] + [0] + (CStrings(ss) + last);
      ss := all;
    }
  }

  /** and its strings are those, and what follows too unless it is empty. */
  lemma PartsAreStrings(ss: seq<Bytes>, last: Bytes)
    requires NulFree(last) && forall s :: s in ss ==> NulFree(s)
    ensures SplitStrings(CStrings(ss) + last) == ReadAll(if last == [] then ss else ss + [last])
  {
    SplitOfParts(ss, last);
    assert (ss + [last])[..|ss|] == ss;
  }
}
