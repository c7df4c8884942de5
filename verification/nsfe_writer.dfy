/** The extended-metadata writer (src/writer.rs:90-218): twelve sections in a fixed
    order, each absent, refused, or one chunk; the first refusal ends the write. */
module NsfeMetadataWriter {
  import opened Words
  import opened ContainerText
  import opened ChunkLayer
  import opened NsfeMetadataParser

  datatype WriteError =
    | NoSongs
    | BadVersion(version: u8)
    | FeaturesRequireV2
    | StringTooLong(field: string, len: nat)
    | StringContainsNul(field: string)
    | ProgramTooLong(len: nat)
    | BadVrc7PatchLen(len: nat)
    | ChunkTooLong(tag: u32)

  datatype Section = Absent | Refused(error: WriteError) | Present(piece: Piece)

  const SECTIONS := 12

  function Or0(w: Option<u16>): u16 {
    if w.Some? then w.value else 0
  }

  function RateBody(rate: Rate): Bytes {
    U16Le(Or0(rate.ntsc)) + U16Le(Or0(rate.pal)) + if rate.dendy.Some? then U16Le(rate.dendy.value) else []
  }

  function Vrc7Section(vrc7: Vrc7): Section {
    if !PatchesOk(vrc7.patches) then Refused(BadVrc7PatchLen(|vrc7.patches.value|))
    else Present(Piece(VRC7, [vrc7.device] + if vrc7.patches.Some? then vrc7.patches.value else []))
  }

  function RegionsBody(regions: Regions): Bytes {
    [regions.mask] + if regions.preferred.Some? then [regions.preferred.value] else []
  }

  function I32sBody(xs: seq<i32>): Bytes {
    if xs == [] then [] else U32Le(Unsigned32(xs[0])) + I32sBody(xs[1..])
  }

  function MixerBody(es: seq<MixerEntry>): Bytes {
    if es == [] then [] else [es[0].device] + U16Le(Unsigned16(es[0].millibel)) + MixerBody(es[1..])
  }

  predicate AllNulFree(ss: seq<Bytes>) {
    forall s :: s in ss ==> NulFree(s)
  }

  function NamesSection(tag: u32, field: string, ss: seq<Bytes>): Section {
    if ss == [] then Absent
    else if AllNulFree(ss) then Present(Piece(tag, CStrings(ss)))
    else Refused(StringContainsNul(field))
  }

  function AuthSection(auth: Auth): Section {
    if !NulFree(auth.title) then Refused(StringContainsNul("auth title"))
    else if !NulFree(auth.artist) then Refused(StringContainsNul("auth artist"))
    else if !NulFree(auth.copyright) then Refused(StringContainsNul("auth copyright"))
    else if !NulFree(auth.ripper) then Refused(StringContainsNul("auth ripper"))
    else Present(Piece(AUTH, CStrings([auth.title, auth.artist, auth.copyright, auth.ripper])))
  }

  function BytesSection(tag: u32, body: Bytes): Section {
    if body == [] then Absent else Present(Piece(tag, body))
  }

  /** The k-th section in the order of the writer. */
  function Part(meta: Metadata, labels: seq<Bytes>, k: nat): Section
    requires k < SECTIONS
  {
    match k
    case 0 => if meta.rate.Some? then Present(Piece(RATE, RateBody(meta.rate.value))) else Absent
    case 1 => if meta.vrc7.Some? then Vrc7Section(meta.vrc7.value) else Absent
    case 2 => if meta.regions.Some? then Present(Piece(REGN, RegionsBody(meta.regions.value))) else Absent
    case 3 => BytesSection(PLST, meta.playlist)
    case 4 => BytesSection(PSFX, meta.sfxPlaylist)
    case 5 => BytesSection(TIME, I32sBody(meta.times))
    case 6 => BytesSection(FADE, I32sBody(meta.fades))
    case 7 => NamesSection(TLBL, "tlbl label", labels)
    case 8 => NamesSection(TAUT, "taut author", meta.trackAuthors)
    case 9 => if meta.auth.Some? then AuthSection(meta.auth.value) else Absent
    case 10 => if meta.text.Some? then NamesSection(TEXT, "text", [meta.text.value]) else Absent
    case _ => BytesSection(MIXE, MixerBody(meta.mixer))
  }

  function Sections(meta: Metadata, labels: seq<Bytes>): (ss: seq<Section>)
    ensures |ss| == SECTIONS && forall k :: 0 <= k < SECTIONS ==> ss[k] == Part(meta, labels, k)
  {
    seq(SECTIONS, k requires 0 <= k < SECTIONS => Part(meta, labels, k))
  }

  /** What is written after one more section. */
  function Then(r: Result<Bytes, WriteError>, s: Section): Result<Bytes, WriteError> {
    if r.Err? then r
    else match s
      case Absent => r
      case Refused(e) => Err(e)
      case Present(p) => if Fits(p) then Ok(r.value + Encoded(p)) else Err(ChunkTooLong(p.tag))
  }

  function Emit(ss: seq<Section>): Result<Bytes, WriteError> {
    if ss == [] then Ok([]) else Then(Emit(ss[..|ss| - 1]), ss[|ss| - 1])
  }

  function WriteMetadata(meta: Metadata, labels: seq<Bytes>): Result<Bytes, WriteError> {
    Emit(Sections(meta, labels))
  }

  // ------------------------------------------------------- when writing fails

  function PiecesOf(ss: seq<Section>): (ps: seq<Piece>)
    ensures forall p :: p in ps ==> Present(p) in ss
  {
    if ss == [] then []
    else
      var s := ss[|ss| - 1];
      PiecesOf(ss[..|ss| - 1]) + if s.Present? then [s.piece] else []
  }

  predicate Emitted(s: Section) {
    !s.Refused? && (s.Present? ==> Fits(s.piece))
  }

  /** A write succeeds exactly when every section does, and then it is the chunks of
      the present sections in order. */
  lemma EmitIsEncode(ss: seq<Section>)
    ensures Emit(ss).Ok? <==> forall k :: 0 <= k < |ss| ==> Emitted(ss[k])
    ensures Emit(ss).Ok? ==> (forall p :: p in PiecesOf(ss) ==> Fits(p)) && Emit(ss).value == Encode(PiecesOf(ss))
  {
    hide Emit, Emitted, PiecesOf, Encode;
    EmitSucceeds(ss);
    if Emit(ss).Ok? {
      EmitValue(ss);
    }
  }

  lemma {:induction false} EmitSucceeds(ss: seq<Section>)
    ensures Emit(ss).Ok? <==> forall k :: 0 <= k < |ss| ==> Emitted(ss[k])
  {
    hide Encoded, Fits;
    if ss != [] {
      var front := ss[..|ss| - 1];
      EmitSucceeds(front);
      assert forall k :: 0 <= k < |front| ==> ss[k] == front[k];
    }
  }

  lemma {:induction false} EmitValue(ss: seq<Section>)
    requires Emit(ss).Ok?
    ensures (forall p :: p in PiecesOf(ss) ==> Fits(p)) && Emit(ss).value == Encode(PiecesOf(ss))
  {
    hide Encoded, Fits;
    if ss != [] {
      var front, s := ss[..|ss| - 1], ss[|ss| - 1];
      EmitValue(front);
      if s.Present? {
        EncodeAdd(PiecesOf(front), [s.piece]);
        assert Encode([s.piece]) == Encoded(s.piece) + Encode([]) == Encoded(s.piece);
      } else {
        assert PiecesOf(ss) == PiecesOf(front);
      }
    }
  }

  lemma {:induction false} EmitStops(ss: seq<Section>, k: nat)
    requires k <= |ss| && Emit(ss[..k]).Err?
    ensures Emit(ss) == Emit(ss[..k])
    decreases |ss| - k
  {
    if k == |ss| {
      assert ss[..k] == ss;
    } else {
      assert ss[..k + 1][..k] == ss[..k];
      EmitStops(ss, k + 1);
    }
  }

  /** Well-formed metadata can only be refused for a body of four gigabytes or more. */
  lemma WellFormedWrites(meta: Metadata, labels: seq<Bytes>)
    requires WellFormed(meta) && AllText(labels)
    ensures forall s :: s in Sections(meta, labels) ==> !s.Refused?
    ensures WriteMetadata(meta, labels).Err? ==> WriteMetadata(meta, labels).error.ChunkTooLong?
  {
    hide Sections, Emit, ValidUtf8, CStrings, I32sBody, MixerBody;
    var ss := Sections(meta, labels);
    forall k | 0 <= k < SECTIONS
      ensures !Part(meta, labels, k).Refused?
    {
      if k == 9 && meta.auth.Some? {
        var a := meta.auth.value;
        var names := [a.title, a.artist, a.copyright, a.ripper];
        assert names[0] in names && names[1] in names && names[2] in names && names[3] in names;
      }
    }
    OnlyTooLong(ss);
  }

  lemma {:induction false} OnlyTooLong(ss: seq<Section>)
    requires forall s :: s in ss ==> !s.Refused?
    ensures Emit(ss).Err? ==> Emit(ss).error.ChunkTooLong?
  {
    if ss != [] {
      OnlyTooLong(ss[..|ss| - 1]);
    }
  }

  // --------------------------------------------------------- the round trip

  lemma {:induction false} I32sRoundTrip(xs: seq<i32>)
    ensures ReadI32s(I32sBody(xs)) == xs && (I32sBody(xs) == [] <==> xs == [])
  {
    if xs != [] {
      var w := U32Le(Unsigned32(xs[0]));
      var rest := I32sBody(xs[1..]);
      WordsRoundTrip(0, Unsigned32(xs[0]));
      assert forall i :: 0 <= i < 4 ==> (w + rest)[i] == w[i];
      assert Word32(w + rest, 0) == Word32(w, 0);
      assert (w + rest)[4..] == rest;
      I32sRoundTrip(xs[1..]);
    }
  }

  lemma {:induction false} MixerRoundTrip(es: seq<MixerEntry>)
    ensures |MixerBody(es)| == 3 * |es| && ReadMixer(MixerBody(es)) == es
  {
    if es != [] {
      var w := U16Le(Unsigned16(es[0].millibel));
      var rest := MixerBody(es[1..]);
      var b := [es[0].device] + w + rest;
      WordsRoundTrip(Unsigned16(es[0].millibel), 0);
      assert b[1] == w[0] && b[2] == w[1];
      assert Word16(b, 1) == Word16(w, 0);
      assert b[3..] == rest;
      MixerRoundTrip(es[1..]);
    }
  }

  lemma RateRoundTrip(rate: Rate)
    requires rate.ntsc.Some? && rate.pal.Some?
    ensures |RateBody(rate)| >= 4
    ensures var b := RateBody(rate); Rate(WordAt(b, 0), WordAt(b, 2), WordAt(b, 4)) == rate
  {
    WordsRoundTrip(rate.ntsc.value, 0);
    WordsRoundTrip(rate.pal.value, 0);
    if rate.dendy.Some? {
      WordsRoundTrip(rate.dendy.value, 0);
    }
  }

  lemma AuthRoundTrip(auth: Auth)
    requires AllText([auth.title, auth.artist, auth.copyright, auth.ripper])
    ensures ParseAuth(CStrings([auth.title, auth.artist, auth.copyright, auth.ripper])) == auth
  {
    hide ValidUtf8, Trim;
    var names := [auth.title, auth.artist, auth.copyright, auth.ripper];
    assert names[0] in names && names[1] in names && names[2] in names && names[3] in names;
    SplitOfCStrings(names);
    TextReadsBack(auth.title);
    TextReadsBack(auth.artist);
    TextReadsBack(auth.copyright);
    TextReadsBack(auth.ripper);
  }

  lemma TextRoundTrip(text: Bytes)
    requires TextOk(text)
    ensures ParseText(CStrings([text])) == text
  {
    assert CStrings([text]) == text + [0] + [];
    FirstNulAt(text, []);
    TextReadsBack(text);
  }

  /** Metadata after the first `k` sections have been read back. */
  function Filled(meta: Metadata, labels: seq<Bytes>, k: nat): Metadata {
    Metadata(
      if k > 9 then meta.auth else None,
      if k > 7 then labels else [],
      if k > 8 then meta.trackAuthors else [],
      if k > 10 then meta.text else None,
      if k > 5 then meta.times else [],
      if k > 6 then meta.fades else [],
      if k > 3 then meta.playlist else [],
      if k > 4 then meta.sfxPlaylist else [],
      if k > 11 then meta.mixer else [],
      if k > 2 then meta.regions else None,
      if k > 0 then meta.rate else None,
      if k > 1 then meta.vrc7 else None)
  }

  lemma PartReadsBack(meta: Metadata, labels: seq<Bytes>, k: nat)
    requires k < SECTIONS && WellFormed(meta) && AllText(labels)
    ensures var s := Part(meta, labels, k);
            var m, m' := Filled(meta, labels, k), Filled(meta, labels, k + 1);
            if s.Present? then Apply(m, s.piece.tag, s.piece.body) == Ok(m') && Extended(s.piece.tag) else m == m'
  {
    hide CStrings, ReadI32s, ReadMixer, SplitStrings, ParseAuth, ParseText, RateBody, WordAt, TextOk, NulFree,
         I32sBody, MixerBody;
    WellFormedWrites(meta, labels);
    assert !Part(meta, labels, k).Refused? by {
      assert Sections(meta, labels)[k] in Sections(meta, labels);
    }
    match k
    case 0 => if meta.rate.Some? { RateRoundTrip(meta.rate.value); }
    case 5 => I32sRoundTrip(meta.times);
    case 6 => I32sRoundTrip(meta.fades);
    case 7 => StringsRoundTrip(labels);
    case 8 => StringsRoundTrip(meta.trackAuthors);
    case 9 => if meta.auth.Some? { AuthRoundTrip(meta.auth.value); }
    case 10 => if meta.text.Some? { TextRoundTrip(meta.text.value); }
    case 11 => MixerRoundTrip(meta.mixer);
    case _ =>
  }

  lemma AppendPiece(m: Metadata, ps: seq<Piece>, p: Piece, m1: Metadata, m2: Metadata)
    requires ApplyAll(m, ps) == Ok(m1) && Apply(m1, p.tag, p.body) == Ok(m2)
    ensures ApplyAll(m, ps + [p]) == Ok(m2)
  {
    hide Apply;
    ApplyAllAdd(m, ps, [p]);
    assert ApplyAll(m2, [p][1..]) == Ok(m2);
  }

  lemma PiecesStep(ss: seq<Section>, k: nat)
    requires 0 < k <= |ss|
    ensures PiecesOf(ss[..k]) == PiecesOf(ss[..k - 1]) + if ss[k - 1].Present? then [ss[k - 1].piece] else []
  {
    assert ss[..k][..k - 1] == ss[..k - 1];
  }

  lemma {:induction false} PartsReadBack(meta: Metadata, labels: seq<Bytes>, k: nat)
    requires k <= SECTIONS && WellFormed(meta) && AllText(labels)
    ensures var ps := PiecesOf(Sections(meta, labels)[..k]);
            && ApplyAll(NOTHING, ps) == Ok(Filled(meta, labels, k))
            && forall p :: p in ps ==> Extended(p.tag)
  {
    hide Apply, Part, WellFormed, AllText, Sections;
    if k > 0 {
      hide *;
      var ss := Sections(meta, labels);
      PartsReadBack(meta, labels, k - 1);
      PartReadsBack(meta, labels, k - 1);
      PiecesStep(ss, k);
      var s := ss[k - 1];
      var before := PiecesOf(ss[..k - 1]);
      if s.Present? {
        AppendPiece(NOTHING, before, s.piece, Filled(meta, labels, k - 1), Filled(meta, labels, k));
      } else {
        assert PiecesOf(ss[..k]) == before;
      }
    }
  }

  /** Metadata round trip: whatever well-formed metadata is written reads back, with
      the labels hoisted out of the header put back in. */
  lemma MetadataRoundTrip(meta: Metadata, labels: seq<Bytes>)
    requires WellFormed(meta) && AllText(labels) && WriteMetadata(meta, labels).Ok?
    ensures ParseMetadata(WriteMetadata(meta, labels).value) == Ok(meta.(trackLabels := labels))
  {
    hide WellFormed, AllText, Part, Apply, PiecesOf, ApplyAll;
    var ss := Sections(meta, labels);
    assert ss[..SECTIONS] == ss;
    PartsReadBack(meta, labels, SECTIONS);
    EmitIsEncode(ss);
    var b := Encode(PiecesOf(ss));
    CollectPieces(PiecesOf(ss), [], NOTHING);
    assert b + [] == b;
  }

  /** Exactly the well-formed values survive: strings a NUL or trailing padding would
      change, a `RATE` with a missing word and an illegal patch table do not. */
  lemma RoundTripIffWellFormed(meta: Metadata, labels: seq<Bytes>)
    requires WriteMetadata(meta, labels).Ok?
    ensures ParseMetadata(WriteMetadata(meta, labels).value) == Ok(meta.(trackLabels := labels))
            <==> WellFormed(meta.(trackLabels := labels))
  {
    hide Emit;
    var full := meta.(trackLabels := labels);
    assert Sections(full, labels) == Sections(meta, labels);
    if WellFormed(full) {
      MetadataRoundTrip(full, labels);
    }
    ParsedIsWellFormed(WriteMetadata(meta, labels).value);
  }

  // ------------------------------------------------------- the source's code

  /** One section of the writer, by `put_chunk`. */
  method PutSection(out: Bytes, s: Section, ghost ss: seq<Section>, ghost k: nat)
    returns (r: Result<Bytes, WriteError>)
    requires k < |ss| && s == ss[k] && Emit(ss[..k]) == Ok(out)
    ensures r == Emit(ss[..k + 1])
    ensures r.Err? ==> r == Emit(ss)
  {
    assert ss[..k + 1][..k] == ss[..k];
    match s {
      case Absent => r := Ok(out);
      case Refused(e) => r := Err(e);
      case Present(p) =>
        if |p.body| <= U32_MAX {
          r := Ok(out + U32Le(|p.body|) + U32Le(p.tag) + p.body);
          assert r.value == out + Encoded(p);
        } else {
          r := Err(ChunkTooLong(p.tag));
        }
    }
    assert r == Then(Emit(ss[..k + 1][..k]), s) == Emit(ss[..k + 1]);
    if r.Err? {
      EmitStops(ss, k + 1);
    }
  }

  method PutI32s(xs: seq<i32>) returns (body: Bytes)
    ensures body == I32sBody(xs)
  {
    body := [];
    for i := 0 to |xs|
      invariant body + I32sBody(xs[i..]) == I32sBody(xs)
    {
      assert xs[i..][0] == xs[i] && xs[i..][1..] == xs[i + 1..];
      body := body + U32Le(Unsigned32(xs[i]));
    }
  }

  method PutMixer(es: seq<MixerEntry>) returns (body: Bytes)
    ensures body == MixerBody(es)
  {
    body := [];
    for i := 0 to |es|
      invariant body + MixerBody(es[i..]) == MixerBody(es)
    {
      MixerEntryNext(es[i..], body);
      assert es[i..][0] == es[i] && es[i..][1..] == es[i + 1..];
      hide MixerBody, U16Le, Unsigned16;
      body := body + [es[i].device];
      body := body + U16Le(Unsigned16(es[i].millibel));
    }
  }

  lemma MixerEntryNext(es: seq<MixerEntry>, body: Bytes)
    requires es != []
    ensures body + [es[0].device] + U16Le(Unsigned16(es[0].millibel)) + MixerBody(es[1..]) == body + MixerBody(es)
  {
    hide U16Le, Unsigned16;
  }

  /** `put_cstr` over a list, stopping at the first interior NUL. */
  method PutNames(tag: u32, field: string, ss: seq<Bytes>) returns (s: Section)
    ensures s == NamesSection(tag, field, ss)
  {
    if ss == [] {
      return Absent;
    }
    var body: Bytes := [];
    for i := 0 to |ss|
      invariant AllNulFree(ss[..i])
      invariant body + CStrings(ss[i..]) == CStrings(ss)
    {
      if 0 in ss[i] {
        assert ss[i] in ss && !NulFree(ss[i]);
        return Refused(StringContainsNul(field));
      }
      assert ss[..i + 1] == ss[..i] + [ss[i]];
      assert ss[i..][0] == ss[i] && ss[i..][1..] == ss[i + 1..];
      body := body + ss[i];
      body := body + [0];
    }
    assert ss[..|ss|] == ss;
    return Present(Piece(tag, body));
  }

  method WriteMetadataChunks(meta: Metadata, labels: seq<Bytes>) returns (r: Result<Bytes, WriteError>)
    ensures r == WriteMetadata(meta, labels)
  {
    hide Emit, Sections, PatchesOk, NulFree;
    ghost var ss := Sections(meta, labels);
    r := WriteFixedSections(meta, labels);
    if r.Err? {
      EmitStops(ss, 5);
      return;
    }
    var times := PutI32s(meta.times);
    r := PutSection(r.value, BytesSection(TIME, times), ss, 5);
    if r.Err? { return; }
    var fades := PutI32s(meta.fades);
    r := PutSection(r.value, BytesSection(FADE, fades), ss, 6);
    if r.Err? { return; }
    var tlbl := PutNames(TLBL, "tlbl label", labels);
    r := PutSection(r.value, tlbl, ss, 7);
    if r.Err? { return; }
    var taut := PutNames(TAUT, "taut author", meta.trackAuthors);
    r := PutSection(r.value, taut, ss, 8);
    if r.Err? { return; }
    r := PutSection(r.value, if meta.auth.Some? then AuthSection(meta.auth.value) else Absent, ss, 9);
    if r.Err? { return; }
    var text := Absent;
    if meta.text.Some? {
      text := PutNames(TEXT, "text", [meta.text.value]);
    }
    r := PutSection(r.value, text, ss, 10);
    if r.Err? { return; }
    var mixer := PutMixer(meta.mixer);
    r := PutSection(r.value, BytesSection(MIXE, mixer), ss, 11);
    assert ss[..SECTIONS] == ss;
  }

  /** The five sections whose bodies are not built by a loop. */
  method WriteFixedSections(meta: Metadata, labels: seq<Bytes>) returns (r: Result<Bytes, WriteError>)
    ensures r == Emit(Sections(meta, labels)[..5])
  {
    hide Sections;
    ghost var ss := Sections(meta, labels);
    ghost var five := ss[..5];
    r := Ok([]);
    r := PutSection(r.value, if meta.rate.Some? then Present(Piece(RATE, RateBody(meta.rate.value))) else Absent, five, 0);
    if r.Err? { return; }
    r := PutSection(r.value, if meta.vrc7.Some? then Vrc7Section(meta.vrc7.value) else Absent, five, 1);
    if r.Err? { return; }
    r := PutSection(r.value, if meta.regions.Some? then Present(Piece(REGN, RegionsBody(meta.regions.value))) else Absent, five, 2);
    if r.Err? { return; }
    r := PutSection(r.value, BytesSection(PLST, meta.playlist), five, 3);
    if r.Err? { return; }
    r := PutSection(r.value, BytesSection(PSFX, meta.sfxPlaylist), five, 4);
    assert five[..5] == five;
  }
}
