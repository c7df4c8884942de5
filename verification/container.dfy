/** What the containers are for: every header a parser accepts can be written to
    NSFe, reads back, and writes to the same bytes again; the fixed-header shape keeps
    the same promise whenever it can be written; NSFe files delimit themselves. */
module ContainerLaws {
  import opened Words
  import opened ContainerText
  import opened ChunkLayer
  import opened NsfeMetadataParser
  import opened NsfeMetadataWriter
  import opened NsfHeaders
  import opened NsfWriters

  // --------------------------------------------------- what parsers guarantee

  ghost predicate NamesOk(n: Names) {
    TextOk(n.song) && TextOk(n.artist) && TextOk(n.copyright)
  }

  /** Holds of every parsed header, and is all the writers need. */
  ghost predicate HeaderOk(h: Header) {
    && h.version >= 1
    && h.totalSongs >= 1
    && (h.version < 2 ==> h.nsf2 == 0)
    && NamesOk(h.names)
    && AllText(h.trackLabels)
    && WellFormed(h.metadata)
    && h.metadata.trackLabels == []
    && h.names == LiftedNames(h.names, h.metadata.auth)
    && h.speeds == RatedSpeeds(h.metadata, h.speeds)
    && h.region == PreferredRegion(h.metadata, h.region)
    && (h.region == Dendy ==> PreferredRegion(h.metadata, Ntsc) == Dendy)
    && (h.isNsfe ==> NsfeOk(h))
  }

  /** An NSFe header has nothing but its chunks to carry names and periods. */
  ghost predicate NsfeOk(h: Header) {
    && h.version == (if h.nsf2 != 0 then 2 else 1)
    && h.nsf2Metadata == []
    && h.names == LiftedNames(Names([], [], []), h.metadata.auth)
    && h.speeds == RatedSpeeds(h.metadata, Speeds(0, 0))
  }

  lemma LiftedNamesOk(n: Names, m: Metadata)
    requires NamesOk(n) && WellFormed(m)
    ensures NamesOk(LiftedNames(n, m.auth))
  {
    hide TextOk;
    if m.auth.Some? {
      var a := m.auth.value;
      var all := [a.title, a.artist, a.copyright, a.ripper];
      assert all[0] in all && all[1] in all && all[2] in all;
    }
  }

  lemma FromFixedOk(f: Fixed, program: Bytes, blob: Bytes, m: Metadata)
    requires f.version >= 1 && f.totalSongs >= 1 && NamesOk(f.names) && WellFormed(m)
    ensures HeaderOk(FromFixed(f, program, blob, m))
  {
    hide TextOk;
    LiftedNamesOk(f.names, m);
  }

  lemma FromScanOk(info: Info, st: Scan, program: Bytes, m: Metadata)
    requires info.totalSongs >= 1 && WellFormed(m)
    ensures HeaderOk(FromScan(info, st, program, m))
  {
    assert NamesOk(Names([], [], []));
    LiftedNamesOk(Names([], [], []), m);
    hide TextOk;
  }

  ghost predicate ScanOk(st: Scan) {
    st.info.Some? ==> st.info.value.totalSongs >= 1
  }

  lemma {:induction false} WalkKeeps(b: Bytes, st: Scan)
    requires ScanOk(st)
    ensures Walk(b, st).Ended? ==> ScanOk(Walk(b, st).scan)
    decreases |b|
  {
    hide Extended, Mandatory, Encoded;
    if b != [] && NextChunk(b).Chunk? {
      var f := NextChunk(b);
      if f.tag != NEND && ScanStep(st, f.tag, f.body).Ok? {
        WalkKeeps(f.rest, ScanStep(st, f.tag, f.body).value);
      }
    }
  }

  /** Every header either parser accepts satisfies the invariant. */
  lemma ParsedHeaderOk(b: Bytes)
    ensures ParseNsf(b).Ok? ==> HeaderOk(ParseNsf(b).value)
  {
    hide HeaderOk, Walk, ParseMetadata, WellFormed, FromFixed, FromScan;
    if ParseNsf(b).Err? {
    } else if IsNsfe(b) {
      WalkKeeps(b[4..], UNREAD);
      var st := Walk(b[4..], UNREAD).scan;
      ParsedIsWellFormed(st.blob);
      FromScanOk(st.info.value, st, st.data.value, ParseMetadata(st.blob).value);
    } else {
      var f, tail := ReadFixed(b[..HEADER_LEN]), b[HEADER_LEN..];
      var blob := if f.declared == 0 then [] else tail[f.declared..];
      var fixed := b[..HEADER_LEN];
      ParsedTextIsText(fixed[0xE..0x2E]);
      ParsedTextIsText(fixed[0x2E..0x4E]);
      ParsedTextIsText(fixed[0x4E..0x6E]);
      ParsedIsWellFormed(blob);
      FromFixedOk(f, if f.declared == 0 then tail else tail[..f.declared], blob, ParseMetadata(blob).value);
    }
  }

  // ------------------------------------------------------ effective metadata

  lemma EffectiveOk(h: Header, rateAndAuth: bool)
    requires HeaderOk(h)
    ensures WellFormed(Effective(h, rateAndAuth)) && Effective(h, rateAndAuth).trackLabels == []
  {
    assert TextOk([]);
    hide TextOk;
  }

  // ------------------------------------------------------------ NSFe walking

  lemma WalkChunk(p: Piece, rest: Bytes, st: Scan)
    requires Fits(p) && p.tag != NEND && ScanStep(st, p.tag, p.body).Ok?
    ensures Walk(Encoded(p) + rest, st) == Advance(Walk(rest, ScanStep(st, p.tag, p.body).value), |Encoded(p)|)
  {
    hide ScanStep, NextChunk;
    assert Encoded(p) + rest != [];
    ChunkReadsBack(p, rest);
  }

  lemma {:induction false} WalkPieces(ps: seq<Piece>, rest: Bytes, st: Scan)
    requires forall p :: p in ps ==> Fits(p) && Extended(p.tag)
    ensures Walk(Encode(ps) + rest, st) == Advance(Walk(rest, st.(blob := st.blob + Encode(ps))), |Encode(ps)|)
  {
    hide Walk, Encoded, Extended;
    if ps == [] {
      assert Encode(ps) + rest == rest;
      assert st.blob + Encode(ps) == st.blob;
    } else {
      var p, tail := ps[0], Encode(ps[1..]) + rest;
      assert p.tag != INFO && p.tag != DATA && p.tag != BANK && p.tag != NSF2 && p.tag != NEND by {
        ExtendedIsOther(p.tag);
      }
      assert Encode(ps) + rest == Encoded(p) + tail;
      WalkChunk(p, tail, st);
      var st' := st.(blob := st.blob + Encoded(p));
      assert st.blob + Encode(ps) == st'.blob + Encode(ps[1..]);
      WalkPieces(ps[1..], rest, st');
    }
  }

  lemma ExtendedIsOther(tag: u32)
    requires Extended(tag)
    ensures !HeaderTag(tag) && tag != NEND
  {
  }

  function InfoOf(h: Header): Info {
    Info(h.addresses, RegionByte(h.region), h.expansion, h.totalSongs, StartingSongIndex(h))
  }

  lemma InfoReadsBack(h: Header)
    requires h.totalSongs >= 1
    ensures ParseInfo(InfoBody(h)) == Ok(InfoOf(h))
  {
    var b, a := InfoBody(h), h.addresses;
    WordsRoundTrip(a.load, 0);
    WordsRoundTrip(a.init, 0);
    WordsRoundTrip(a.play, 0);
    assert b[0] == U16Le(a.load)[0] && b[1] == U16Le(a.load)[1];
    assert b[2] == U16Le(a.init)[0] && b[3] == U16Le(a.init)[1];
    assert b[4] == U16Le(a.play)[0] && b[5] == U16Le(a.play)[1];
  }

  /** What the walk has gathered at the end of a written file. */
  function Gathered(h: Header, blob: Bytes): Scan {
    Scan(Some(InfoOf(h)), Some(h.program), if h.bank != Zeros(8) then Some(h.bank) else None,
         if h.nsf2 != 0 then Some(h.nsf2) else None, blob)
  }

  /** The walk over a written file, whatever follows it. */
  lemma WalkWritten(h: Header, ps: seq<Piece>, junk: Bytes)
    requires h.totalSongs >= 1 && |h.program| <= U32_MAX
    requires forall p :: p in ps ==> Fits(p) && Extended(p.tag)
    ensures var run := NsfeRun(h, Encode(ps));
            Walk(run + junk, UNREAD) == Ended(Gathered(h, Encode(ps)), true, |run|)
  {
    hide Walk, Encoded, Encode, InfoBody, Extended, ParseInfo;
    var blob := Encode(ps);
    var info, data, nend := Piece(INFO, InfoBody(h)), Piece(DATA, h.program), Piece(NEND, []);
    var banks := if h.bank != Zeros(8) then Encoded(Piece(BANK, h.bank)) else [];
    var features := if h.nsf2 != 0 then Encoded(Piece(NSF2, [h.nsf2])) else [];
    var atNend := Encoded(nend) + junk;
    var atData := Encoded(data) + atNend;
    var atMeta := blob + atData;
    var atFeatures := features + atMeta;
    var atBanks := banks + atFeatures;
    assert NsfeRun(h, blob) + junk == Encoded(info) + atBanks;
    InfoReadsBack(h);
    WalkChunk(info, atBanks, UNREAD);
    var st1 := UNREAD.(info := Some(InfoOf(h)));
    WalkBank(h, atFeatures, st1);
    var st2 := st1.(bank := if h.bank != Zeros(8) then Some(h.bank) else None);
    WalkFeatures(h, atMeta, st2);
    var st3 := st2.(features := if h.nsf2 != 0 then Some(h.nsf2) else None);
    WalkPieces(ps, atData, st3);
    var st4 := st3.(blob := blob);
    assert st3.blob + blob == blob;
    WalkChunk(data, atNend, st4);
    WalkNend(junk, st4.(data := Some(h.program)));
  }

  lemma WalkBank(h: Header, rest: Bytes, st: Scan)
    requires st.bank.None?
    ensures var banks := if h.bank != Zeros(8) then Encoded(Piece(BANK, h.bank)) else [];
            Walk(banks + rest, st) == Advance(Walk(rest, st.(bank := if h.bank != Zeros(8) then Some(h.bank) else None)), |banks|)
  {
    hide Walk, Encoded;
    assert [] + rest == rest;
    if h.bank != Zeros(8) {
      assert BankOf(h.bank) == h.bank;
      WalkChunk(Piece(BANK, h.bank), rest, st);
    }
  }

  lemma WalkFeatures(h: Header, rest: Bytes, st: Scan)
    requires st.features.None?
    ensures var features := if h.nsf2 != 0 then Encoded(Piece(NSF2, [h.nsf2])) else [];
            Walk(features + rest, st)
            == Advance(Walk(rest, st.(features := if h.nsf2 != 0 then Some(h.nsf2) else None)), |features|)
  {
    hide Walk, Encoded;
    assert [] + rest == rest;
    if h.nsf2 != 0 {
      WalkChunk(Piece(NSF2, [h.nsf2]), rest, st);
    }
  }

  lemma WalkNend(junk: Bytes, st: Scan)
    ensures Walk(Encoded(Piece(NEND, [])) + junk, st) == Ended(st, true, 8)
  {
    hide NextChunk, ScanStep;
    assert Encoded(Piece(NEND, [])) + junk != [];
    ChunkReadsBack(Piece(NEND, []), junk);
  }

  /** What a metadata write leaves behind: a run of known chunks that reads back. */
  lemma WrittenBlob(m: Metadata, labels: seq<Bytes>) returns (ps: seq<Piece>)
    requires WellFormed(m) && AllText(labels) && WriteMetadata(m, labels).Ok?
    ensures forall p :: p in ps ==> Fits(p) && Extended(p.tag)
    ensures WriteMetadata(m, labels) == Ok(Encode(ps))
    ensures ParseMetadata(Encode(ps)) == Ok(m.(trackLabels := labels))
  {
    hide WellFormed, AllText, Extended, Sections, Emit, ParseMetadata, ApplyAll;
    var ss := Sections(m, labels);
    ps := PiecesOf(ss);
    MetadataRoundTrip(m, labels);
    EmitIsEncode(ss);
    PartsReadBack(m, labels, SECTIONS);
    assert ss[..SECTIONS] == ss;
  }

  // -------------------------------------------------------- NSFe canonical form

  /** The header an NSFe write of `h` means. */
  function NsfeForm(h: Header): Header {
    var m := Effective(h, true);
    h.(version := if h.nsf2 != 0 then 2 else 1,
       startingSong := StartingSongIndex(h),
       names := LiftedNames(Names([], [], []), m.auth),
       speeds := RatedSpeeds(m, Speeds(0, 0)),
       isNsfe := true,
       nsf2Metadata := [],
       metadata := m)
  }

  lemma RunParses(h: Header, b: Bytes, blob: Bytes)
    requires HeaderOk(h) && |b| >= 4
    ensures var end := Walk(b[4..], UNREAD);
            ParseMetadata(blob) == Ok(Effective(h, true).(trackLabels := h.trackLabels))
            && end.Ended? && end.nend && end.scan == Gathered(h, blob)
            ==> ParseNsfe(b) == Ok(NsfeForm(h))
  {
    hide ParseMetadata, Walk, WellFormed, NamesOk, AllText;
    EffectiveOk(h, true);
    RegionSurvives(h, true);
    assert h.bank == if h.bank != Zeros(8) then h.bank else Zeros(8);
  }

  /** The region byte and the `regn` chunk together carry the region, Dendy included. */
  lemma RegionSurvives(h: Header, rateAndAuth: bool)
    requires HeaderOk(h)
    ensures PreferredRegion(Effective(h, rateAndAuth), RegionFromByte(RegionByte(h.region))) == h.region
  {
  }

  /** A written NSFe file, whatever follows it, parses to the written header. */
  lemma NsfeReadsBack(h: Header, junk: Bytes)
    requires HeaderOk(h) && WriteNsfe(h).Ok?
    ensures ParseNsf(WriteNsfe(h).value + junk) == Ok(NsfeForm(h))
    ensures Walk(WriteNsfe(h).value[4..], UNREAD).Ended?
            && Walk(WriteNsfe(h).value[4..], UNREAD).nend
            && Walk(WriteNsfe(h).value[4..], UNREAD).used + 4 == |WriteNsfe(h).value|
  {
    hide *;
    var m := Effective(h, true);
    EffectiveOk(h, true);
    HeaderBasics(h);
    WrittenParts(h);
    var ps := WrittenBlob(m, h.trackLabels);
    var blob := Encode(ps);
    var run, file := NsfeRun(h, blob), WriteNsfe(h).value;
    WalkWritten(h, ps, junk);
    WalkWritten(h, ps, []);
    MagicFirst(run, junk);
    assert file[4..] == run && run + [] == run;
    RunParses(h, file + junk, blob);
  }

  lemma HeaderBasics(h: Header)
    requires HeaderOk(h)
    ensures AllText(h.trackLabels) && h.totalSongs >= 1
  {
  }

  lemma WrittenParts(h: Header)
    ensures WriteNsfe(h).Ok? ==>
            && |h.program| <= U32_MAX && WriteMetadata(Effective(h, true), h.trackLabels).Ok?
            && WriteNsfe(h).value == NSFE_MAGIC + NsfeRun(h, WriteMetadata(Effective(h, true), h.trackLabels).value)
  {
    hide WriteMetadata, NsfeRun;
  }

  lemma MagicFirst(run: Bytes, junk: Bytes)
    ensures |NSFE_MAGIC| == 4 && (NSFE_MAGIC + run)[4..] == run
    ensures var b := NSFE_MAGIC + run + junk; |b| >= 4 && b[4..] == run + junk && ParseNsf(b) == ParseNsfe(b)
  {
    hide ParseNsfe, ParseV1;
    assert (NSFE_MAGIC + run + junk)[..4] == NSFE_MAGIC;
  }

  /** The written form is a fixed point of writing. */
  lemma NsfeFormWritesTheSame(h: Header)
    requires HeaderOk(h)
    ensures WriteNsfe(NsfeForm(h)) == WriteNsfe(h)
  {
    hide WriteMetadata, WellFormed, NamesOk, AllText, Encoded;
    assert Effective(NsfeForm(h), true) == Effective(h, true);
    assert InfoBody(NsfeForm(h)) == InfoBody(h);
  }

  /** Only a chunk body of four gigabytes or more keeps a parsed header out of NSFe. */
  lemma NsfeWriteFailure(h: Header)
    requires HeaderOk(h)
    ensures WriteNsfe(h).Ok? <==>
            |h.program| <= U32_MAX && forall s :: s in Sections(Effective(h, true), h.trackLabels) && s.Present? ==> Fits(s.piece)
    ensures WriteNsfe(h).Err? ==> WriteNsfe(h).error.ChunkTooLong?
  {
    hide WellFormed, AllText, Sections;
    EffectiveOk(h, true);
    HeaderBasics(h);
    var ss := Sections(Effective(h, true), h.trackLabels);
    WellFormedWrites(Effective(h, true), h.trackLabels);
    EmitIsEncode(ss);
    assert forall k :: 0 <= k < |ss| ==> ss[k] in ss;
  }

  /** Canonical form: for every accepted input, the NSFe write reads back, reads back
      with anything appended, and writes to the same bytes again. */
  lemma CanonicalNsfe(b: Bytes)
    ensures ParseNsf(b).Ok? && WriteNsfe(ParseNsf(b).value).Ok? ==>
            var file := WriteNsfe(ParseNsf(b).value).value;
            && ParseNsf(file) == Ok(NsfeForm(ParseNsf(b).value))
            && WriteNsfe(ParseNsf(file).value) == Ok(file)
  {
    hide HeaderOk, ParseNsf, WriteNsfe, NsfeForm;
    ParsedHeaderOk(b);
    if ParseNsf(b).Ok? && WriteNsfe(ParseNsf(b).value).Ok? {
      var h := ParseNsf(b).value;
      NsfeReadsBack(h, []);
      assert WriteNsfe(h).value + [] == WriteNsfe(h).value;
      NsfeFormWritesTheSame(h);
    }
  }

  /** The optional chunks of a run that no field of the metadata holds. A header keeps
      them only in its raw copy of the run. */
  function UnknownChunks(b: Bytes): seq<Piece>
    decreases |b|
  {
    if b == [] then []
    else match NextChunk(b)
      case Chunk(tag, body, rest) =>
        if tag == NEND then []
        else (if Extended(tag) then [] else [Piece(tag, body)]) + UnknownChunks(rest)
      case _ => []
  }

  /** A written run has none, whatever ends it. */
  lemma {:induction false} WrittenChunksKnown(ps: seq<Piece>, rest: Bytes)
    requires forall p :: p in ps ==> Fits(p) && Extended(p.tag)
    ensures UnknownChunks(Encode(ps) + rest) == UnknownChunks(rest)
  {
    hide Encoded, NextChunk, Extended;
    if ps == [] {
      assert Encode(ps) + rest == rest;
    } else {
      var p, tail := ps[0], Encode(ps[1..]) + rest;
      ExtendedIsOther(p.tag);
      assert Encode(ps) + rest == Encoded(p) + tail;
      assert Encoded(p) + tail != [];
      ChunkReadsBack(p, tail);
      WrittenChunksKnown(ps[1..], rest);
    }
  }

  /** Everything a header says, in whatever container it came: of its raw metadata run
      the chunks that nothing else holds. */
  predicate SameFields(g: Header, h: Header) {
    && g.version == h.version && g.totalSongs == h.totalSongs && StartingSongIndex(g) == StartingSongIndex(h)
    && g.addresses == h.addresses && g.names == h.names && g.speeds == h.speeds && g.bank == h.bank
    && g.region == h.region && g.expansion == h.expansion && g.program == h.program
    && g.trackLabels == h.trackLabels && g.nsf2 == h.nsf2
    && UnknownChunks(g.nsf2Metadata) == UnknownChunks(h.nsf2Metadata)
  }

  /** The metadata of `h`, with `auth` and `RATE` chunks only added where it has none. */
  predicate MetadataKept(g: Metadata, h: Metadata) {
    && g.(auth := h.auth, rate := h.rate) == h
    && (h.auth.Some? ==> g.auth == h.auth) && (h.rate.Some? ==> g.rate == h.rate)
  }

  /** The names an `auth` chunk gives a header that has none of its own. */
  function AuthNames(a: Auth): Names {
    Names(a.title, a.artist, a.copyright)
  }

  /** A Dendy header's `regn` chunk says so in its mask as well. */
  predicate DendyInMask(h: Header) {
    h.region == Dendy ==> h.metadata.regions.Some? && Bit(h.metadata.regions.value.mask, 4)
  }

  /** Exactly when converting to NSFe loses nothing, for a header from either container:
      an `auth` chunk, if there is one, agrees with the names; the version is the one
      the feature byte implies; a Dendy mask bit is set; and the raw metadata run holds
      no unknown chunk. NSFe headers always meet all but the mask bit. */
  lemma NsfeIsLossless(h: Header)
    requires HeaderOk(h)
    ensures SameFields(NsfeForm(h), h) && MetadataKept(NsfeForm(h).metadata, h.metadata)
            <==> && (h.metadata.auth.Some? ==> h.names == AuthNames(h.metadata.auth.value))
                 && h.version == (if h.nsf2 != 0 then 2 else 1)
                 && DendyInMask(h)
                 && UnknownChunks(h.nsf2Metadata) == []
    ensures h.isNsfe ==> NsfeForm(h).(metadata := h.metadata) == h
    ensures h.isNsfe ==> (NsfeForm(h) == h <==> DendyInMask(h))
  {
    EffectiveLossless(h);
    hide WellFormed, NamesOk, AllText, NextChunk, Extended;
  }

  lemma EffectiveLossless(h: Header)
    requires HeaderOk(h)
    ensures MetadataKept(Effective(h, true), h.metadata) <==> DendyInMask(h)
    ensures Effective(h, false) == h.metadata <==> DendyInMask(h)
    ensures RatedSpeeds(Effective(h, true), Speeds(0, 0)) == h.speeds
    ensures LiftedNames(Names([], [], []), Effective(h, true).auth)
            == if h.metadata.auth.Some? then AuthNames(h.metadata.auth.value) else h.names
  {
    hide NamesOk, AllText;
  }

  /** The same of the file: what `write_nsfe` wrote parses back with everything kept
      exactly under that condition; the raw copy of the run itself is never carried. */
  lemma NsfeKeepsIff(h: Header)
    requires HeaderOk(h)
    ensures WriteNsfe(h).Ok? ==>
            var g := ParseNsf(WriteNsfe(h).value);
            && g.Ok?
            && (SameFields(g.value, h) && MetadataKept(g.value.metadata, h.metadata)
                <==> && (h.metadata.auth.Some? ==> h.names == AuthNames(h.metadata.auth.value))
                     && h.version == (if h.nsf2 != 0 then 2 else 1)
                     && DendyInMask(h)
                     && UnknownChunks(h.nsf2Metadata) == [])
            && (g.value.nsf2Metadata == h.nsf2Metadata <==> h.nsf2Metadata == [])
  {
    NsfeIsLossless(h);
    assert NsfeForm(h).nsf2Metadata == [];
    hide HeaderOk, ParseNsf, WriteNsfe, NsfeForm, SameFields, MetadataKept, DendyInMask, UnknownChunks;
    if WriteNsfe(h).Ok? {
      NsfeReadsBack(h, []);
      assert WriteNsfe(h).value + [] == WriteNsfe(h).value;
    }
  }

  // ---------------------------------------------------- NSFe delimits itself

  /** Cutting a walk that reached `NEND` anywhere before its end keeps it from
      reaching `NEND`. */
  lemma {:induction false} WalkOfPrefix(b: Bytes, st: Scan, k: nat)
    requires Walk(b, st).Ended? && Walk(b, st).nend && k < Walk(b, st).used
    ensures k <= |b| && var cut := Walk(b[..k], st); cut.Ended? ==> !cut.nend
    decreases |b|
  {
    hide ScanStep, NextChunk;
    WalkUsed(b, st);
    if k > 0 {
      NextOfPrefix(b, k);
      var f := NextChunk(b);
      var n := |b| - |f.rest|;
      if n <= k {
        WalkOfPrefix(f.rest, ScanStep(st, f.tag, f.body).value, k - n);
      }
    }
  }

  /** A walk reads no further than it says. */
  lemma {:induction false} WalkUsed(b: Bytes, st: Scan)
    ensures Walk(b, st).Ended? ==> Walk(b, st).used <= |b|
    decreases |b|
  {
    hide ScanStep;
    if b != [] && NextChunk(b).Chunk? {
      var f := NextChunk(b);
      if f.tag != NEND && ScanStep(st, f.tag, f.body).Ok? {
        WalkUsed(f.rest, ScanStep(st, f.tag, f.body).value);
      }
    }
  }

  /** A walk that reached `NEND` depends on nothing behind it. */
  lemma {:induction false} WalkOfExtension(b: Bytes, st: Scan, c: Bytes)
    requires Walk(b, st).Ended? && Walk(b, st).nend
    requires Walk(b, st).used <= |c| && Walk(b, st).used <= |b| && c[..Walk(b, st).used] == b[..Walk(b, st).used]
    ensures Walk(c, st) == Walk(b, st)
    decreases |b|
  {
    hide ScanStep, NextChunk;
    var f, used := NextChunk(b), Walk(b, st).used;
    var n := |b| - |f.rest|;
    if f.tag != NEND {
      WalkUsed(f.rest, ScanStep(st, f.tag, f.body).value);
    }
    assert forall i :: 0 <= i < used ==> c[i] == c[..used][i] == b[i];
    NextOfExtension(b, c);
    if f.tag != NEND {
      assert f.rest == b[n..] by { RestIsSuffix(b); }
      assert c[n..][..used - n] == f.rest[..used - n];
      WalkOfExtension(f.rest, ScanStep(st, f.tag, f.body).value, c[n..]);
    }
  }

  lemma RestIsSuffix(b: Bytes)
    requires b != [] && NextChunk(b).Chunk?
    ensures NextChunk(b).rest == b[|b| - |NextChunk(b).rest|..]
  {
  }

  lemma NextOfExtension(b: Bytes, c: Bytes)
    requires b != [] && NextChunk(b).Chunk?
    requires var n := |b| - |NextChunk(b).rest|; n <= |c| && forall i :: 0 <= i < n ==> c[i] == b[i]
    ensures c != [] && NextChunk(c) == NextChunk(b).(rest := c[|b| - |NextChunk(b).rest|..])
  {
    var n := |b| - |NextChunk(b).rest|;
    assert c[8..n] == b[8..n];
  }

  /** Where an accepted NSFe file ends. */
  function FileEnd(b: Bytes): nat
    requires IsNsfe(b) && ParseNsf(b).Ok?
  {
    4 + Walk(b[4..], UNREAD).used
  }

  /** Every accepted NSFe file delimits itself: no strict prefix of the part up to its
      `NEND` is accepted, and what follows that part does not matter. */
  lemma SelfDelimiting(b: Bytes)
    requires IsNsfe(b) && ParseNsf(b).Ok?
    ensures FileEnd(b) <= |b|
    ensures forall k :: 0 <= k < FileEnd(b) ==> ParseNsf(b[..k]).Err?
    ensures forall c: Bytes :: |c| >= FileEnd(b) && c[..FileEnd(b)] == b[..FileEnd(b)] ==> ParseNsf(c) == ParseNsf(b)
  {
    hide Walk, Finish;
    var walked := Walk(b[4..], UNREAD);
    assert walked.Ended? && walked.nend by { FinishNeedsNend(b); }
    WalkUsed(b[4..], UNREAD);
    var end := FileEnd(b);
    forall k | 0 <= k < end
      ensures ParseNsf(b[..k]).Err?
    {
      if k >= 4 {
        assert b[..k][4..] == b[4..][..k - 4] && b[..k][..4] == b[..4];
        WalkOfPrefix(b[4..], UNREAD, k - 4);
        NoNendNoHeader(b[..k]);
      }
    }
    forall c: Bytes | |c| >= end && c[..end] == b[..end]
      ensures ParseNsf(c) == ParseNsf(b)
    {
      assert forall i :: 0 <= i < end ==> c[i] == c[..end][i] == b[i];
      assert c[..4] == b[..4] && c[4..][..end - 4] == b[4..][..end - 4];
      WalkOfExtension(b[4..], UNREAD, c[4..]);
    }
  }

  lemma FinishNeedsNend(b: Bytes)
    requires IsNsfe(b) && ParseNsf(b).Ok?
    ensures Walk(b[4..], UNREAD).Ended? && Walk(b[4..], UNREAD).nend
  {
    hide Walk, ParseMetadata;
  }

  lemma NoNendNoHeader(b: Bytes)
    requires |b| >= 4 && (Walk(b[4..], UNREAD).Ended? ==> !Walk(b[4..], UNREAD).nend)
    ensures ParseNsfe(b).Err?
  {
    hide Walk, ParseMetadata;
  }

  /** Written NSFe files are prefix-free: no strict prefix of one is accepted, so no
      written file is a strict prefix of another. */
  lemma WrittenFilesArePrefixFree(h: Header, k: nat)
    requires HeaderOk(h)
    ensures WriteNsfe(h).Ok? && k < |WriteNsfe(h).value| ==>
            && ParseNsf(WriteNsfe(h).value[..k]).Err?
            && forall g :: HeaderOk(g) ==> WriteNsfe(g) != Ok(WriteNsfe(h).value[..k])
  {
    hide HeaderOk, WriteNsfe, ParseNsf, NsfeForm;
    if WriteNsfe(h).Err? || k >= |WriteNsfe(h).value| {
      return;
    }
    var file := WriteNsfe(h).value;
    NsfeReadsBack(h, []);
    assert file + [] == file;
    assert IsNsfe(file) by { StartsWithMagic(h); }
    SelfDelimiting(file);
    forall g | HeaderOk(g) && WriteNsfe(g).Ok?
      ensures WriteNsfe(g).value != file[..k]
    {
      NsfeReadsBack(g, []);
      assert WriteNsfe(g).value + [] == WriteNsfe(g).value;
    }
  }

  lemma StartsWithMagic(h: Header)
    ensures WriteNsfe(h).Ok? ==> IsNsfe(WriteNsfe(h).value)
  {
    hide WriteMetadata, NsfeRun;
  }
}
