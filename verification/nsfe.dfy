/** The extended-metadata chunk parser (src/nsfe.rs). The parser is given twice: as
    the functions that say what a chunk run means, and as the cursor loops of the
    source, proved to compute them. */
module NsfeMetadataParser {
  import opened Words
  import opened ContainerText
  import opened ChunkLayer

  datatype Auth = Auth(title: Bytes, artist: Bytes, copyright: Bytes, ripper: Bytes)

  datatype MixerEntry = MixerEntry(device: u8, millibel: i16)

  datatype Regions = Regions(mask: u8, preferred: Option<u8>)

  datatype Rate = Rate(ntsc: Option<u16>, pal: Option<u16>, dendy: Option<u16>)

  datatype Vrc7 = Vrc7(device: u8, patches: Option<Bytes>)

  datatype Metadata = Metadata(
    auth: Option<Auth>,
    trackLabels: seq<Bytes>,
    trackAuthors: seq<Bytes>,
    text: Option<Bytes>,
    times: seq<i32>,
    fades: seq<i32>,
    playlist: Bytes,
    sfxPlaylist: Bytes,
    mixer: seq<MixerEntry>,
    regions: Option<Regions>,
    rate: Option<Rate>,
    vrc7: Option<Vrc7>)

  const NOTHING := Metadata(None, [], [], None, [], [], [], [], [], None, None, None)

  datatype MetaError =
    | TruncatedChunk
    | ChunkOverflow
    | UnknownMandatory(tag: u32)
    | ForbiddenChunk(tag: u32)
    | BadChunkPayload(tag: u32, len: nat)

  // ------------------------------------------------------------ chunk bodies

  function PieceAt(ps: seq<Bytes>, i: nat): Bytes {
    if i < |ps| then ReadString(ps[i]) else []
  }

  function ParseAuth(body: Bytes): Auth {
    var ps := SplitNul(body);
    Auth(PieceAt(ps, 0), PieceAt(ps, 1), PieceAt(ps, 2), PieceAt(ps, 3))
  }

  /** `parse_text`, and the fixed header's `read_nsf_string`: up to the first NUL. */
  function ParseText(body: Bytes): Bytes {
    ReadString(body[..FirstNul(body)])
  }

  function ReadI32s(body: Bytes): seq<i32> {
    if |body| < 4 then [] else [Signed32(Word32(body, 0))] + ReadI32s(body[4..])
  }

  function ReadMixer(body: Bytes): seq<MixerEntry> {
    if |body| < 3 then []
    else [MixerEntry(body[0], Signed16(Word16(body, 1)))] + ReadMixer(body[3..])
  }

  function WordAt(body: Bytes, i: nat): Option<u16> {
    if |body| >= i + 2 then Some(Word16(body, i)) else None
  }

  predicate PatchesOk(patches: Option<Bytes>) {
    patches.Some? ==> |patches.value| == 128 || |patches.value| == 152
  }

  predicate BadPayload(tag: u32, body: Bytes) {
    || (tag == MIXE && |body| % 3 != 0)
    || (tag == REGN && |body| == 0)
    || (tag == RATE && |body| < 4)
    || (tag == VRC7 && |body| != 1 && |body| != 129 && |body| != 153)
  }

  /** What one chunk other than `NEND` adds to the metadata. */
  function Apply(m: Metadata, tag: u32, body: Bytes): Result<Metadata, MetaError> {
    if HeaderTag(tag) then Err(ForbiddenChunk(tag))
    else if BadPayload(tag, body) then Err(BadChunkPayload(tag, |body|))
    else if tag == AUTH then Ok(m.(auth := Some(ParseAuth(body))))
    else if tag == TLBL then Ok(m.(trackLabels := SplitStrings(body)))
    else if tag == TAUT then Ok(m.(trackAuthors := SplitStrings(body)))
    else if tag == TEXT then Ok(m.(text := Some(ParseText(body))))
    else if tag == TIME then Ok(m.(times := ReadI32s(body)))
    else if tag == FADE then Ok(m.(fades := ReadI32s(body)))
    else if tag == PLST then Ok(m.(playlist := body))
    else if tag == PSFX then Ok(m.(sfxPlaylist := body))
    else if tag == MIXE then Ok(m.(mixer := ReadMixer(body)))
    else if tag == REGN then Ok(m.(regions := Some(Regions(body[0], if |body| > 1 then Some(body[1]) else None))))
    else if tag == RATE then Ok(m.(rate := Some(Rate(WordAt(body, 0), WordAt(body, 2), WordAt(body, 4)))))
    else if tag == VRC7 then Ok(m.(vrc7 := Some(Vrc7(body[0], if |body| > 1 then Some(body[1..]) else None))))
    else if Mandatory(tag) then Err(UnknownMandatory(tag))
    else Ok(m)
  }

  /** The meaning of a chunk run: chunks apply in order until `NEND`, the end of the
      run or the first malformed chunk. */
  function Collect(b: Bytes, m: Metadata): Result<Metadata, MetaError>
    decreases |b|
  {
    if b == [] then Ok(m)
    else match NextChunk(b)
      case Truncated => Err(TruncatedChunk)
      case Overflow => Err(ChunkOverflow)
      case Chunk(tag, body, rest) =>
        if tag == NEND then Ok(m)
        else match Apply(m, tag, body)
          case Err(e) => Err(e)
          case Ok(m') => Collect(rest, m')
  }

  function ParseMetadata(blob: Bytes): Result<Metadata, MetaError> {
    Collect(blob, NOTHING)
  }

  // ----------------------------------------------------------- the invariant

  ghost predicate AllText(ss: seq<Bytes>) {
    forall s :: s in ss ==> TextOk(s)
  }

  /** What every parsed metadata value satisfies, and what the writer needs for the
      value to read back: strings without NULs or trailing padding, both mandatory
      words in `RATE`, and a legal patch table. */
  ghost predicate WellFormed(m: Metadata) {
    && (m.auth.Some? ==> AllText([m.auth.value.title, m.auth.value.artist, m.auth.value.copyright,
                                  m.auth.value.ripper]))
    && AllText(m.trackLabels)
    && AllText(m.trackAuthors)
    && (m.text.Some? ==> TextOk(m.text.value))
    && (m.rate.Some? ==> m.rate.value.ntsc.Some? && m.rate.value.pal.Some?)
    && (m.vrc7.Some? ==> PatchesOk(m.vrc7.value.patches))
  }

  lemma ParsedTextIsText(body: Bytes)
    ensures TextOk(ParseText(body))
    ensures var a := ParseAuth(body); AllText([a.title, a.artist, a.copyright, a.ripper])
    ensures AllText(SplitStrings(body))
  {
    ReadStringIsText(body[..FirstNul(body)]);
    var ps := SplitNul(body);
    forall i | 0 <= i < |ps|
      ensures TextOk(ReadString(ps[i]))
    {
      assert ps[i] in ps;
      ReadStringIsText(ps[i]);
    }
    SplitStringsAreText(body);
  }

  lemma ApplyKeeps(m: Metadata, tag: u32, body: Bytes)
    requires WellFormed(m)
    ensures Apply(m, tag, body).Ok? ==> WellFormed(Apply(m, tag, body).value)
  {
    hide ParseText, ParseAuth, SplitStrings, TextOk, ReadI32s, ReadMixer;
    ParsedTextIsText(body);
  }

  lemma {:induction false} CollectKeeps(b: Bytes, m: Metadata)
    requires WellFormed(m)
    ensures Collect(b, m).Ok? ==> WellFormed(Collect(b, m).value)
    decreases |b|
  {
    hide WellFormed, Apply;
    if b != [] {
      match NextChunk(b)
      case Chunk(tag, body, rest) =>
        ApplyKeeps(m, tag, body);
        if tag != NEND && Apply(m, tag, body).Ok? {
          CollectKeeps(rest, Apply(m, tag, body).value);
        }
      case _ =>
    }
  }

  /** Whatever bytes are parsed, the result is well formed. */
  lemma ParsedIsWellFormed(blob: Bytes)
    ensures ParseMetadata(blob).Ok? ==> WellFormed(ParseMetadata(blob).value)
  {
    CollectKeeps(blob, NOTHING);
  }

  // --------------------------------------------------------- runs of pieces

  /** Pieces applied in order. */
  function ApplyAll(m: Metadata, ps: seq<Piece>): Result<Metadata, MetaError>
    decreases |ps|
  {
    if ps == [] then Ok(m)
    else match Apply(m, ps[0].tag, ps[0].body)
      case Err(e) => Err(e)
      case Ok(m') => ApplyAll(m', ps[1..])
  }

  lemma {:induction false} ApplyAllAdd(m: Metadata, ps: seq<Piece>, qs: seq<Piece>)
    requires ApplyAll(m, ps).Ok?
    ensures ApplyAll(m, ps + qs) == ApplyAll(ApplyAll(m, ps).value, qs)
    decreases |ps|
  {
    hide Apply;
    if ps == [] {
      assert ps + qs == qs;
    } else {
      assert (ps + qs)[1..] == ps[1..] + qs;
      ApplyAllAdd(Apply(m, ps[0].tag, ps[0].body).value, ps[1..], qs);
    }
  }

  lemma {:induction false} CollectPieces(ps: seq<Piece>, rest: Bytes, m: Metadata)
    requires forall p :: p in ps ==> Fits(p) && p.tag != NEND
    requires ApplyAll(m, ps).Ok?
    ensures Collect(Encode(ps) + rest, m) == Collect(rest, ApplyAll(m, ps).value)
  {
    hide Apply, NextChunk, Encoded;
    if ps == [] {
      assert Encode(ps) + rest == rest;
    } else {
      var tail := Encode(ps[1..]) + rest;
      assert Encode(ps) + rest == Encoded(ps[0]) + tail;
      assert Encoded(ps[0]) + tail != [];
      ChunkReadsBack(ps[0], tail);
      CollectPieces(ps[1..], rest, Apply(m, ps[0].tag, ps[0].body).value);
    }
  }

  // ------------------------------------------------------- the source's loops

  method ReadStringField(field: Bytes) returns (s: Bytes)
    ensures s == ReadString(field)
  {
    var last := |field|;
    assert field[..last] == field;
    while last > 0 && Blank(field[last - 1])
      invariant 0 <= last <= |field|
      invariant Trim(field[..last]) == Trim(field)
    {
      assert field[..last][..last - 1] == field[..last - 1];
      last := last - 1;
    }
    s := field[..last];
    if !ValidUtf8(s) {
      s := Latin1(s);
    }
  }

  /** The loop over a peekable split iterator: a piece is dropped only when it is
      both last and empty. */
  method SplitNullStrings(body: Bytes) returns (out: seq<Bytes>)
    ensures out == SplitStrings(body)
  {
    out := [];
    var rest := SplitNul(body);
    ghost var ps := rest;
    ghost var kept := if ps[|ps| - 1] == [] then ps[..|ps| - 1] else ps;
    while rest != []
      invariant |out| + |rest| == |ps| && rest == ps[|out|..]
      invariant |out| <= |kept| && out == ReadAll(kept[..|out|])
      decreases |rest|
    {
      var s := rest[0];
      rest := rest[1..];
      if rest == [] && s == [] {
        break;
      }
      var text := ReadStringField(s);
      out := out + [text];
    }
    assert kept[..|out|] == kept;
  }

  method ParseI32Array(body: Bytes) returns (out: seq<i32>)
    ensures out == ReadI32s(body)
  {
    out := [];
    var i := 0;
    while i + 4 <= |body|
      invariant i <= |body| && out + ReadI32s(body[i..]) == ReadI32s(body)
    {
      assert body[i..][4..] == body[i + 4..];
      out := out + [Signed32(Word32(body[i..], 0))];
      i := i + 4;
    }
  }

  method ParseMixer(body: Bytes) returns (r: Result<seq<MixerEntry>, MetaError>)
    ensures r == if |body| % 3 != 0 then Err(BadChunkPayload(MIXE, |body|)) else Ok(ReadMixer(body))
  {
    if |body| % 3 != 0 {
      return Err(BadChunkPayload(MIXE, |body|));
    }
    var out: seq<MixerEntry> := [];
    var i := 0;
    while i + 3 <= |body|
      invariant i <= |body| && out + ReadMixer(body[i..]) == ReadMixer(body)
    {
      assert body[i..][3..] == body[i + 3..];
      out := out + [MixerEntry(body[i..][0], Signed16(Word16(body[i..], 1)))];
      i := i + 3;
    }
    assert out == ReadMixer(body);
    return Ok(out);
  }

  /** One turn of the parser's `match` on the fourcc. */
  method DecodeChunk(m: Metadata, tag: u32, body: Bytes) returns (r: Result<Metadata, MetaError>)
    ensures r == Apply(m, tag, body)
  {
    hide ReadI32s, ReadMixer, SplitStrings, ParseAuth, ParseText;
    if tag == TLBL || tag == TAUT {
      var names := SplitNullStrings(body);
      r := Ok(if tag == TLBL then m.(trackLabels := names) else m.(trackAuthors := names));
    } else if tag == TIME || tag == FADE {
      var ms := ParseI32Array(body);
      r := Ok(if tag == TIME then m.(times := ms) else m.(fades := ms));
    } else if tag == MIXE {
      var entries := ParseMixer(body);
      match entries
      case Ok(mixer) => r := Ok(m.(mixer := mixer));
      case Err(e) => r := Err(e);
    } else {
      r := Apply(m, tag, body);
    }
  }

  method ParseMetadataChunks(blob: Bytes) returns (r: Result<Metadata, MetaError>)
    ensures r == ParseMetadata(blob)
  {
    hide Apply;
    var out := NOTHING;
    var cursor := 0;
    while cursor < |blob|
      invariant cursor <= |blob|
      invariant Collect(blob[cursor..], out) == ParseMetadata(blob)
    {
      if |blob| - cursor < 8 {
        return Err(TruncatedChunk);
      }
      ghost var here := blob[cursor..];
      var size: int := Word32(blob, cursor);
      var tag := Word32(blob, cursor + 4);
      var bodyStart := cursor + 8;
      var bodyEnd := bodyStart + size;
      assert size == Word32(here, 0) && tag == Word32(here, 4);
      if bodyEnd > |blob| {
        return Err(ChunkOverflow);
      }
      var body := blob[bodyStart..bodyEnd];
      assert here[8..8 + size] == body && here[8 + size..] == blob[bodyEnd..];
      if tag == NEND {
        return Ok(out);
      }
      var next := DecodeChunk(out, tag, body);
      match next {
        case Err(e) => return Err(e);
        case Ok(m) => out := m;
      }
      cursor := bodyEnd;
    }
    return Ok(out);
  }
}
