/** The chunk layer shared by both containers: `[u32 length][fourcc][body]`
    (src/nsfe.rs:209-231, src/header.rs:658-678, src/writer.rs:90-96). A fourcc is
    the little-endian number its four bytes spell. */
module ChunkLayer {
  import opened Words
  import opened ContainerText

  const INFO: u32 := 0x4F46_4E49
  const DATA: u32 := 0x4154_4144
  const BANK: u32 := 0x4B4E_4142
  const NSF2: u32 := 0x3246_534E
  const NEND: u32 := 0x444E_454E
  const AUTH: u32 := 0x6874_7561
  const TLBL: u32 := 0x6C62_6C74
  const TAUT: u32 := 0x7475_6174
  const TEXT: u32 := 0x7478_6574
  const TIME: u32 := 0x656D_6974
  const FADE: u32 := 0x6564_6166
  const PLST: u32 := 0x7473_6C70
  const PSFX: u32 := 0x7866_7370
  const MIXE: u32 := 0x6578_696D
  const REGN: u32 := 0x6E67_6572
  const RATE: u32 := 0x4554_4152
  const VRC7: u32 := 0x3743_5256

  /** The first character of the fourcc is an ASCII capital. */
  predicate Mandatory(tag: u32) {
    0x41 <= tag % 0x100 <= 0x5A
  }

  predicate HeaderTag(tag: u32) {
    tag == INFO || tag == DATA || tag == BANK || tag == NSF2
  }

  /** `is_known_extended`. */
  predicate Extended(tag: u32) {
    || tag == AUTH || tag == TLBL || tag == TAUT || tag == TEXT || tag == TIME || tag == FADE
    || tag == PLST || tag == PSFX || tag == MIXE || tag == REGN || tag == RATE || tag == VRC7
  }

  datatype Frame = Truncated | Overflow | Chunk(tag: u32, body: Bytes, rest: Bytes)

  /** The chunk at the front of a nonempty run. */
  function NextChunk(b: Bytes): (f: Frame)
    requires b != []
    ensures f.Chunk? ==> |f.rest| + |f.body| + 8 == |b| && |f.body| <= U32_MAX
  {
    if |b| < 8 then Truncated
    else
      var size: int := Word32(b, 0);
      if 8 + size > |b| then Overflow
      else Chunk(Word32(b, 4), b[8..8 + size], b[8 + size..])
  }

  datatype Piece = Piece(tag: u32, body: Bytes)

  predicate Fits(p: Piece) {
    |p.body| <= U32_MAX
  }

  function Encoded(p: Piece): (b: Bytes)
    requires Fits(p)
    ensures |b| == 8 + |p.body|
  {
    U32Le(|p.body|) + U32Le(p.tag) + p.body
  }

  function Encode(ps: seq<Piece>): Bytes
    requires forall p :: p in ps ==> Fits(p)
  {
    if ps == [] then [] else Encoded(ps[0]) + Encode(ps[1..])
  }

  lemma ChunkReadsBack(p: Piece, rest: Bytes)
    requires Fits(p)
    ensures NextChunk(Encoded(p) + rest) == Chunk(p.tag, p.body, rest)
  {
    var b := Encoded(p) + rest;
    WordsRoundTrip(0, |p.body|);
    WordsRoundTrip(0, p.tag);
    assert forall i :: 0 <= i < 4 ==> b[i] == U32Le(|p.body|)[i] && b[4 + i] == U32Le(p.tag)[i];
    assert b[8..8 + |p.body|] == p.body && b[8 + |p.body|..] == rest;
  }

  lemma {:induction false} EncodeAdd(ps: seq<Piece>, qs: seq<Piece>)
    requires forall p :: p in ps + qs ==> Fits(p)
    ensures (forall p :: p in ps ==> Fits(p)) && (forall p :: p in qs ==> Fits(p))
    ensures Encode(ps + qs) == Encode(ps) + Encode(qs)
  {
    assert forall p :: p in ps ==> p in ps + qs;
    assert forall p :: p in qs ==> p in ps + qs;
    if ps == [] {
      assert ps + qs == qs;
    } else {
      assert (ps + qs)[1..] == ps[1..] + qs;
      EncodeAdd(ps[1..], qs);
    }
  }

  /** Cutting a run inside its first chunk leaves no chunk; cutting it later leaves
      the first chunk alone. */
  lemma NextOfPrefix(b: Bytes, k: nat)
    requires 0 < k <= |b| && NextChunk(b).Chunk?
    ensures var f := NextChunk(b); var n := |b| - |f.rest|;
            NextChunk(b[..k]) == if k < 8 then Truncated else if k < n then Overflow
                                 else Chunk(f.tag, f.body, f.rest[..k - n])
  {
    var f := NextChunk(b);
    var c := b[..k];
    if k >= 8 {
      assert forall i :: 0 <= i < 8 ==> c[i] == b[i];
      var n := |b| - |f.rest|;
      if n <= k {
        assert c[8..n] == b[8..n];
        assert c[n..] == b[n..][..k - n];
      }
    }
  }
}
