/** The fixed-header shape: it reads back, its writes are byte-idempotent, and exactly
    when it can be written at all and keeps the metadata. */
module FixedHeaderLaws {
  import opened Words
  import opened ContainerText
  import opened ChunkLayer
  import opened NsfeMetadataParser
  import opened NsfeMetadataWriter
  import opened NsfHeaders
  import opened NsfWriters
  import opened ContainerLaws

  lemma PaddedReadsBack(s: Bytes)
    requires TextOk(s) && |s| <= 31
    ensures ParseText(Padded(s)) == s
  {
    hide ValidUtf8;
    var p := Padded(s);
    assert forall i :: 0 <= i < |s| ==> p[i] == s[i] && s[i] in s;
    assert p[|s|] == Zeros(32 - |s|)[0];
    FirstNulUnique(p, |s|);
    assert p[..|s|] == s;
    TextReadsBack(s);
  }

  lemma FrontReadsBack(f: Fixed)
    ensures var b, a := FrontBytes(f), f.addresses;
            && b[..5] == NSF_MAGIC && b[5] == f.version && b[6] == f.totalSongs && b[7] == f.startingSong
            && Word16(b, 8) == a.load && Word16(b, 0xA) == a.init && Word16(b, 0xC) == a.play
  {
    WordsRoundTrip(f.addresses.load, 0);
    WordsRoundTrip(f.addresses.init, 0);
    WordsRoundTrip(f.addresses.play, 0);
  }

  lemma BackReadsBack(f: Fixed)
    requires f.declared < 0x100_0000
    ensures var b := BackBytes(f);
            && Word16(b, 0) == f.speeds.ntsc && b[2..10] == f.bank && Word16(b, 10) == f.speeds.pal
            && b[12] == f.region && b[13] == f.expansion && b[14] == f.features && Word24(b, 15) == f.declared
  {
    WordsRoundTrip(f.speeds.ntsc, 0);
    WordsRoundTrip(f.speeds.pal, 0);
    var d := f.declared;
    assert d == d % 0x100 + 0x100 * (d / 0x100 % 0x100) + 0x1_0000 * (d / 0x1_0000);
  }

  /** Every field of the fixed header is read from where it was written. */
  lemma FixedReadsBack(f: Fixed)
    requires Short(f.names) && NamesOk(f.names) && f.declared < 0x100_0000
    ensures ReadFixed(FixedBytes(f)) == f
    ensures var b := FixedBytes(f); b[..5] == NSF_MAGIC && b[5] == f.version && b[6] == f.totalSongs && !IsNsfe(b)
  {
    hide FrontBytes, BackBytes, Padded, TextOk, ParseText;
    FrontReadsBack(f);
    BackReadsBack(f);
    PaddedReadsBack(f.names.song);
    PaddedReadsBack(f.names.artist);
    PaddedReadsBack(f.names.copyright);
    Slots(FrontBytes(f), Padded(f.names.song), Padded(f.names.artist), Padded(f.names.copyright), BackBytes(f));
    assert FixedBytes(f)[..4][2] == 0x53;
  }

  lemma Slots(front: Bytes, s: Bytes, t: Bytes, u: Bytes, back: Bytes)
    requires |front| == 14 && |s| == |t| == |u| == 32 && |back| == 18
    ensures var b := front + s + t + u + back;
            && (forall i :: 0 <= i < 14 ==> b[i] == front[i]) && b[..5] == front[..5]
            && b[0xE..0x2E] == s && b[0x2E..0x4E] == t && b[0x4E..0x6E] == u
            && (forall i :: 0x6E <= i < 0x80 ==> b[i] == back[i - 0x6E]) && b[0x70..0x78] == back[2..10]
  {
  }

  // -------------------------------------------------------- NSF canonical form

  /** Without declared length the parser takes the metadata for program. */
  function NsfForm(h: Header, blob: Bytes): Header {
    var declared, tail := DeclaredLength(h, blob), Terminated(blob);
    if declared == 0 then FromFixed(FixedOf(h, 0), h.program + tail, [], NOTHING)
    else FromFixed(FixedOf(h, declared), h.program, tail, Effective(h, false).(trackLabels := h.trackLabels))
  }

  lemma TerminatedParses(ps: seq<Piece>)
    requires forall p :: p in ps ==> Fits(p) && Extended(p.tag)
    ensures ParseMetadata(Encode(ps)).Ok? ==> ParseMetadata(Terminated(Encode(ps))) == ParseMetadata(Encode(ps))
  {
    hide Apply, Encode, NextChunk, Extended;
    if Encode(ps) != [] && ParseMetadata(Encode(ps)).Ok? {
      assert forall p :: p in ps ==> p.tag != NEND by { forall p | p in ps ensures p.tag != NEND { ExtendedIsOther(p.tag); } }
      RunAppliesFrom(ps, NOTHING);
      CollectPieces(ps, END_OF_RUN, NOTHING);
      ChunkReadsBack(Piece(NEND, []), []);
      assert END_OF_RUN + [] == END_OF_RUN;
    }
  }

  /** A run of chunks without `NEND` parses exactly when its chunks apply. */
  lemma {:induction false} RunAppliesFrom(ps: seq<Piece>, m0: Metadata)
    requires forall p :: p in ps ==> Fits(p) && p.tag != NEND
    ensures Collect(Encode(ps), m0).Ok? ==> ApplyAll(m0, ps) == Collect(Encode(ps), m0)
    decreases |ps|
  {
    hide Apply, NextChunk, Encoded;
    if ps != [] {
      assert Encode(ps) == Encoded(ps[0]) + Encode(ps[1..]);
      assert Encoded(ps[0]) + Encode(ps[1..]) != [];
      ChunkReadsBack(ps[0], Encode(ps[1..]));
      if Apply(m0, ps[0].tag, ps[0].body).Ok? {
        RunAppliesFrom(ps[1..], Apply(m0, ps[0].tag, ps[0].body).value);
      }
    }
  }

  /** A file that starts with a written fixed header is that header and its tail. */
  lemma FixedOpens(f: Fixed, tail: Bytes)
    requires Short(f.names) && NamesOk(f.names) && f.declared < 0x100_0000 && f.version >= 1 && f.totalSongs >= 1
    ensures ParseNsf(FixedBytes(f) + tail) == ParseTail(f, tail)
  {
    FixedReadsBack(f);
    hide FixedBytes, ReadFixed, ParseTail, NamesOk;
    var fixed, b := FixedBytes(f), FixedBytes(f) + tail;
    assert b[..HEADER_LEN] == fixed && b[HEADER_LEN..] == tail;
    assert b[5] == fixed[5] && b[6] == fixed[6];
    assert b[..5] == fixed[..5] && b[..4] == fixed[..4];
  }

  lemma TailParses(f: Fixed, program: Bytes, tail: Bytes, m: Metadata)
    requires f.declared == 0 || (f.declared == |program| && ParseMetadata(tail) == Ok(m))
    ensures ParseTail(f, program + tail)
            == Ok(if f.declared == 0 then FromFixed(f, program + tail, [], NOTHING) else FromFixed(f, program, tail, m))
  {
    assert ParseMetadata([]) == Ok(NOTHING);
    hide FromFixed, ParseMetadata;
    assert (program + tail)[..|program|] == program && (program + tail)[|program|..] == tail;
  }

  lemma NsfWriteFacts(h: Header)
    requires HeaderOk(h) && WriteNsf(h).Ok?
    ensures Short(h.names) && NamesOk(h.names) && 1 <= h.version <= 2 && h.totalSongs >= 1
    ensures WriteMetadata(Effective(h, false), h.trackLabels).Ok?
    ensures var blob := WriteMetadata(Effective(h, false), h.trackLabels).value;
            && DeclaredLength(h, blob) < 0x100_0000
            && WriteNsf(h).value == FixedBytes(FixedOf(h, DeclaredLength(h, blob))) + h.program + Terminated(blob)
  {
    hide WriteMetadata, Effective, FixedBytes, TextOk, WellFormed, AllText, NulFree;
  }

  lemma FormIsTail(h: Header, blob: Bytes)
    requires 1 <= h.version && 1 <= h.totalSongs
    ensures var d := DeclaredLength(h, blob); var f := FixedOf(h, d);
            && f.declared == d && f.version >= 1 && f.totalSongs >= 1 && f.names == h.names
            && (d == 0 || d == |h.program|)
            && NsfForm(h, blob) == if d == 0 then FromFixed(f, h.program + Terminated(blob), [], NOTHING)
               else FromFixed(f, h.program, Terminated(blob), Effective(h, false).(trackLabels := h.trackLabels))
  {
    hide FromFixed, Effective, Terminated;
  }

  /** A written NSF file parses to the written header. */
  lemma NsfReadsBack(h: Header)
    requires HeaderOk(h) && WriteNsf(h).Ok?
    ensures ParseNsf(WriteNsf(h).value) == Ok(NsfForm(h, WriteMetadata(Effective(h, false), h.trackLabels).value))
  {
    hide *;
    NsfWriteFacts(h);
    EffectiveOk(h, false);
    HeaderBasics(h);
    var m := Effective(h, false).(trackLabels := h.trackLabels);
    var ps := WrittenBlob(Effective(h, false), h.trackLabels);
    TerminatedParses(ps);
    var blob := Encode(ps);
    FormIsTail(h, blob);
    var f := FixedOf(h, DeclaredLength(h, blob));
    var tail := h.program + Terminated(blob);
    assert FixedBytes(f) + tail == FixedBytes(f) + h.program + Terminated(blob);
    FixedOpens(f, tail);
    TailParses(f, h.program, Terminated(blob), m);
  }

  /** What survives a write: everything but the base of the starting song, unless an
      empty program leaves the metadata undelimited. */
  lemma NsfFormKeeps(h: Header, blob: Bytes)
    requires HeaderOk(h) && h.version <= 2 && WriteMetadata(Effective(h, false), h.trackLabels) == Ok(blob)
    requires h.program != [] || blob == []
    ensures NsfForm(h, blob) == h.(startingSong := StartingSongNumber(h), isNsfe := false,
                                   nsf2Metadata := Terminated(blob), metadata := Effective(h, false))
  {
    EffectiveOk(h, false);
    RegionSurvives(h, false);
    NoBlobNoMetadata(h);
    hide WriteMetadata, WellFormed, NamesOk, AllText, Terminated;
    var m := Effective(h, false);
    assert LiftedNames(h.names, m.auth) == h.names && RatedSpeeds(m, h.speeds) == h.speeds;
    if blob == [] {
      assert Terminated(blob) == [] && h.program + [] == h.program by { EmptyEnd(); }
      assert m == NOTHING && h.trackLabels == [];
    }
  }

  lemma EmptyEnd()
    ensures Terminated([]) == []
  {
  }

  /** No metadata is written exactly when there is none. */
  lemma NoBlobNoMetadata(h: Header)
    requires HeaderOk(h) && WriteMetadata(Effective(h, false), h.trackLabels).Ok?
    ensures WriteMetadata(Effective(h, false), h.trackLabels).value == []
            <==> Effective(h, false).(trackLabels := h.trackLabels) == NOTHING
  {
    var m := Effective(h, false);
    EffectiveOk(h, false);
    HeaderBasics(h);
    EmptyRoundTrips();
    hide HeaderOk, WriteMetadata, Effective, ParseMetadata, WellFormed, AllText;
    MetadataRoundTrip(m, h.trackLabels);
  }

  lemma EmptyRoundTrips()
    ensures WriteMetadata(NOTHING, []) == Ok([]) && ParseMetadata([]) == Ok(NOTHING)
  {
    AbsentEmitsNothing(Sections(NOTHING, []));
  }

  lemma {:induction false} AbsentEmitsNothing(ss: seq<Section>)
    requires forall k :: 0 <= k < |ss| ==> ss[k] == Absent
    ensures Emit(ss) == Ok([])
  {
    if ss != [] {
      AbsentEmitsNothing(ss[..|ss| - 1]);
    }
  }

  lemma NsfFormWritesTheSame(h: Header, blob: Bytes)
    requires HeaderOk(h) && WriteNsf(h).Ok? && WriteMetadata(Effective(h, false), h.trackLabels) == Ok(blob)
    ensures WriteNsf(NsfForm(h, blob)) == WriteNsf(h)
  {
    NsfWriteFacts(h);
    if h.program != [] || blob == [] {
      NsfFormKeeps(h, blob);
      KeptWritesTheSame(h, blob);
    } else {
      SwallowedWritesTheSame(h, blob);
    }
  }

  lemma KeptWritesTheSame(h: Header, blob: Bytes)
    requires HeaderOk(h)
    ensures WriteNsf(h.(startingSong := StartingSongNumber(h), isNsfe := false, nsf2Metadata := Terminated(blob),
                        metadata := Effective(h, false))) == WriteNsf(h)
  {
    hide WriteMetadata, WellFormed, NamesOk, AllText, FixedBytes, Terminated, NamesProblem;
    var g := h.(startingSong := StartingSongNumber(h), isNsfe := false, nsf2Metadata := Terminated(blob),
                metadata := Effective(h, false));
    assert Effective(g, false) == Effective(h, false);
    assert forall d :: FixedOf(g, d) == FixedOf(h, d);
  }

  lemma SwallowedForm(h: Header, blob: Bytes)
    requires HeaderOk(h) && h.version <= 2 && h.program == [] && blob != []
    ensures var g := NsfForm(h, blob);
            && g.program == Terminated(blob) && g.trackLabels == [] && Effective(g, false) == NOTHING
            && FixedOf(g, 0) == FixedOf(h, 0) && g.names == h.names && g.totalSongs == h.totalSongs
            && g.version == h.version && (g.version < 2 ==> g.nsf2 == 0) && (h.version < 2 ==> h.nsf2 == 0)
  {
    hide WellFormed, NamesOk, AllText, Terminated;
    assert [] + Terminated(blob) == Terminated(blob);
  }

  /** Metadata behind an empty program is read as program, and written back as such. */
  lemma SwallowedWritesTheSame(h: Header, blob: Bytes)
    requires HeaderOk(h) && WriteNsf(h).Ok? && WriteMetadata(Effective(h, false), h.trackLabels) == Ok(blob)
    requires h.program == [] && blob != []
    ensures WriteNsf(NsfForm(h, blob)) == WriteNsf(h)
  {
    EmptyRoundTrips();
    EmptyEnd();
    NsfWriteFacts(h);
    SwallowedForm(h, blob);
    ProblemIsLength(h);
    hide *;
    var g, f := NsfForm(h, blob), FixedOf(h, 0);
    WriteNsfIs(h, blob);
    WriteNsfIs(g, []);
    Regroup(FixedBytes(f), Terminated(blob));
  }

  lemma Regroup(a: Bytes, b: Bytes)
    ensures a + [] + b == a + b + []
  {
  }

  lemma WriteNsfIs(h: Header, blob: Bytes)
    requires h.totalSongs >= 1 && 1 <= h.version <= 2 && (h.version < 2 ==> h.nsf2 == 0)
    requires Short(h.names) && NamesProblem(h.names).None?
    requires WriteMetadata(Effective(h, false), h.trackLabels) == Ok(blob)
    requires blob == [] || h.program == []
    ensures WriteNsf(h) == Ok(FixedBytes(FixedOf(h, 0)) + h.program + Terminated(blob))
  {
    hide WriteMetadata, Effective, NamesProblem, FixedBytes, Terminated;
  }

  /** Canonical form: for every accepted input whose header fits the fixed shape, the
      write reads back and a second write gives the same bytes. */
  lemma CanonicalNsf(b: Bytes)
    ensures ParseNsf(b).Ok? && WriteNsf(ParseNsf(b).value).Ok? ==>
            var file := WriteNsf(ParseNsf(b).value).value;
            ParseNsf(file).Ok? && WriteNsf(ParseNsf(file).value) == Ok(file)
  {
    hide *;
    ParsedHeaderOk(b);
    if ParseNsf(b).Ok? && WriteNsf(ParseNsf(b).value).Ok? {
      var h := ParseNsf(b).value;
      NsfWriteFacts(h);
      NsfReadsBack(h);
      NsfFormWritesTheSame(h, WriteMetadata(Effective(h, false), h.trackLabels).value);
    }
  }

  /** The write keeps the program and the metadata exactly when the program is not
      empty or there is no metadata to keep. */
  lemma NsfKeepsMetadataIff(h: Header)
    requires HeaderOk(h) && WriteNsf(h).Ok?
    ensures ParseNsf(WriteNsf(h).value).Ok?
    ensures var g := ParseNsf(WriteNsf(h).value).value;
            g.program == h.program && g.metadata == Effective(h, false) && g.trackLabels == h.trackLabels
            <==> h.program != [] || Effective(h, false).(trackLabels := h.trackLabels) == NOTHING
  {
    NsfWriteFacts(h);
    NsfReadsBack(h);
    NoBlobNoMetadata(h);
    var blob := WriteMetadata(Effective(h, false), h.trackLabels).value;
    if h.program != [] || blob == [] {
      NsfFormKeeps(h, blob);
    }
    hide HeaderOk, WriteNsf, ParseNsf, WriteMetadata, Effective;
  }

  /** The raw metadata run a parser finds behind the program: none if the length that
      delimits the program is zero. */
  function RawRun(h: Header, blob: Bytes): Bytes {
    if DeclaredLength(h, blob) == 0 then [] else Terminated(blob)
  }

  lemma RawRunKnown(h: Header)
    requires HeaderOk(h) && WriteMetadata(Effective(h, false), h.trackLabels).Ok?
    ensures UnknownChunks(RawRun(h, WriteMetadata(Effective(h, false), h.trackLabels).value)) == []
  {
    EffectiveOk(h, false);
    HeaderBasics(h);
    hide HeaderOk, WriteMetadata, Effective, WellFormed, AllText, Extended, Encoded, NextChunk, ParseMetadata;
    var ps := WrittenBlob(Effective(h, false), h.trackLabels);
    WrittenChunksKnown(ps, END_OF_RUN);
    ChunkReadsBack(Piece(NEND, []), []);
    assert END_OF_RUN + [] == END_OF_RUN;
  }

  /** Exactly when the fixed-header write keeps everything a header says: there is a
      program or no metadata to delimit; the starting song is not the index 255, whose
      number saturates; a Dendy mask bit is set; and the raw metadata run holds no
      unknown chunk. The raw copy itself comes back as the run that was written. */
  lemma NsfKeepsIff(h: Header)
    requires HeaderOk(h)
    ensures WriteNsf(h).Ok? ==>
            var g := ParseNsf(WriteNsf(h).value);
            && g.Ok?
            && (SameFields(g.value, h) && g.value.metadata == h.metadata
                <==> && (h.program != [] || h.metadata.(trackLabels := h.trackLabels) == NOTHING)
                     && !(h.isNsfe && h.startingSong == 255)
                     && DendyInMask(h)
                     && UnknownChunks(h.nsf2Metadata) == [])
            && g.value.nsf2Metadata == RawRun(h, WriteMetadata(Effective(h, false), h.trackLabels).value)
  {
    if WriteNsf(h).Ok? {
      NsfWriteFacts(h);
      NsfReadsBack(h);
      NoBlobNoMetadata(h);
      EffectiveLossless(h);
      NothingIsNothing(h);
      var blob := WriteMetadata(Effective(h, false), h.trackLabels).value;
      RawRunKnown(h);
      if h.program != [] || blob == [] {
        NsfFormKeeps(h, blob);
        hide HeaderOk, WriteNsf, ParseNsf, WriteMetadata, Effective, DendyInMask, NsfForm, Terminated, UnknownChunks;
      } else {
        hide HeaderOk, WriteNsf, ParseNsf, WriteMetadata, Effective, DendyInMask, UnknownChunks;
      }
    }
  }

  lemma NothingIsNothing(h: Header)
    requires HeaderOk(h)
    ensures Effective(h, false).(trackLabels := h.trackLabels) == NOTHING
            <==> h.metadata.(trackLabels := h.trackLabels) == NOTHING
  {
    hide WellFormed, NamesOk, AllText;
  }

  /** Exactly which parsed headers fit the fixed shape, and how the others fail. */
  lemma NsfWriteFailure(h: Header)
    requires HeaderOk(h)
    ensures WriteNsf(h).Ok? <==>
            && h.version <= 2
            && Short(h.names)
            && (forall s :: s in Sections(Effective(h, false), h.trackLabels) && s.Present? ==> Fits(s.piece))
            && (|h.program| <= 0xFF_FFFF || Effective(h, false).(trackLabels := h.trackLabels) == NOTHING)
    ensures WriteNsf(h).Err? ==>
            match WriteNsf(h).error
            case BadVersion(v) => v == h.version > 2
            case StringTooLong(_, len) => !Short(h.names) && len > 31
            case ChunkTooLong(_) => true
            case ProgramTooLong(len) => len == |h.program| > 0xFF_FFFF
            case _ => false
  {
    var m := Effective(h, false);
    EffectiveOk(h, false);
    HeaderBasics(h);
    WellFormedWrites(m, h.trackLabels);
    EmitIsEncode(Sections(m, h.trackLabels));
    if WriteMetadata(m, h.trackLabels).Ok? {
      NoBlobNoMetadata(h);
    }
    ProblemIsLength(h);
    NsfWriteCases(h);
  }

  lemma ProblemIsLength(h: Header)
    requires HeaderOk(h)
    ensures NamesProblem(h.names).None? <==> Short(h.names)
    ensures NamesProblem(h.names).Some? ==> NamesProblem(h.names).value.StringTooLong?
    ensures NamesProblem(h.names).Some? ==> NamesProblem(h.names).value.len > 31
  {
    hide WellFormed, AllText;
  }

  lemma NsfWriteCases(h: Header)
    requires HeaderOk(h)
    ensures var blob := WriteMetadata(Effective(h, false), h.trackLabels);
            WriteNsf(h).Ok? <==> h.version <= 2 && NamesProblem(h.names).None? && blob.Ok?
                                 && (blob.value == [] || |h.program| <= 0xFF_FFFF)
    ensures WriteNsf(h).Err? ==>
            || (h.version > 2 && WriteNsf(h).error == BadVersion(h.version))
            || (NamesProblem(h.names).Some? && WriteNsf(h).error == NamesProblem(h.names).value)
            || (WriteMetadata(Effective(h, false), h.trackLabels).Err?
                && WriteNsf(h).error == WriteMetadata(Effective(h, false), h.trackLabels).error)
            || (|h.program| > 0xFF_FFFF && WriteNsf(h).error == ProgramTooLong(|h.program|))
  {
    hide WriteMetadata, Effective, FixedBytes, NamesProblem, WellFormed, AllText, NamesOk;
  }

  // -------------------------------------- a promise the writer does not keep

  /** A sixteen-megabyte program with an empty `text` chunk. */
  function LongProgram(): Header {
    Header(1, 1, 0, Addresses(0x8000, 0x8000, 0x8000), Names([], [], []), Speeds(0, 0), Zeros(8), Ntsc, 0,
           Zeros(0x100_0000), [], true, 0, [], NOTHING.(text := Some([])))
  }

  /** fuzz/fuzz_targets/roundtrip.rs:13-16 lets a parsed header fail `write_nsf` only
      for its version or a long string. This accepted file fails for its program. */
  lemma LongProgramCounterexample()
    ensures var h := LongProgram(); HeaderOk(h) && WriteNsfe(h).Ok?
    ensures var file := WriteNsfe(LongProgram()).value;
            ParseNsf(file).Ok? && WriteNsf(ParseNsf(file).value) == Err(ProgramTooLong(0x100_0000))
  {
    var h := LongProgram();
    LongProgramIsOk();
    LongProgramWrites();
    NsfeReadsBack(h, []);
    hide ParseNsf, WriteNsfe, HeaderOk, Zeros, WriteMetadata, NOTHING;
    var file := WriteNsfe(h).value;
    assert file + [] == file;
    var g := NsfeForm(h);
    assert ParseNsf(file) == Ok(g);
  }

  lemma LongProgramIsOk()
    ensures HeaderOk(LongProgram())
  {
    assert TextOk([]);
    hide TextOk;
  }

  lemma LongProgramSections(k: nat)
    requires k < SECTIONS
    ensures var s := Part(LongProgram().metadata, [], k);
            s == if k == 10 then Present(Piece(TEXT, [0])) else Absent
  {
    hide Zeros;
    assert CStrings([[]]) == [0] + CStrings([]) == [0];
  }

  lemma LongProgramMetadataWrites()
    ensures WriteMetadata(LongProgram().metadata, []).Ok? && WriteMetadata(LongProgram().metadata, []).value != []
  {
    var m := LongProgram().metadata;
    EffectiveOk(LongProgram(), false) by { LongProgramIsOk(); }
    hide LongProgram, Part, Emit, WellFormed, AllText;
    forall k | 0 <= k < SECTIONS
      ensures Emitted(Sections(m, [])[k])
    {
      LongProgramSections(k);
    }
    EmitIsEncode(Sections(m, []));
    LongProgramHasMetadata();
    MetadataRoundTrip(m, []);
    EmptyRoundTrips();
  }

  lemma LongProgramHasMetadata()
    ensures LongProgram().metadata.(trackLabels := []) != NOTHING
    ensures Effective(LongProgram(), false) == Effective(LongProgram(), true) == LongProgram().metadata
    ensures Effective(NsfeForm(LongProgram()), false) == LongProgram().metadata
  {
    hide Zeros;
  }

  lemma LongProgramWrites()
    ensures WriteNsfe(LongProgram()).Ok?
    ensures Effective(NsfeForm(LongProgram()), false) == LongProgram().metadata
    ensures WriteMetadata(LongProgram().metadata, []).Ok? && WriteMetadata(LongProgram().metadata, []).value != []
  {
    hide WriteMetadata, Zeros, Effective, NsfeRun, NsfeForm;
    LongProgramMetadataWrites();
    LongProgramHasMetadata();
  }

  function PlainHeader(): Fixed {
    Fixed(1, 1, 1, Addresses(0x8000, 0x8000, 0x8000), Names([], [], []), Speeds(0, 0), Zeros(8), 0, 0, 0, 0)
  }

  /** fuzz/fuzz_targets/roundtrip.rs:7-12 lets no parsed header fail `write_nsfe`. A
      program of four gigabytes, which no fixed header bounds, does. */
  lemma HugeProgramCounterexample()
    ensures var file := FixedBytes(PlainHeader()) + Zeros(0x1_0000_0000);
            ParseNsf(file).Ok? && WriteNsfe(ParseNsf(file).value) == Err(ChunkTooLong(DATA))
  {
    var f, program := PlainHeader(), Zeros(0x1_0000_0000);
    assert NamesOk(f.names) by { assert TextOk([]); }
    FixedOpens(f, program);
    TailParses(f, program, [], NOTHING);
    assert program + [] == program;
    EmptyRoundTrips();
    hide FixedBytes, ParseNsf, WriteMetadata, Zeros, ParseTail;
  }

  // ------------------------------------------------ what conversions can lose

  /** Metadata of a single section writes, and is not empty. */
  lemma OneSectionWrites(m: Metadata, k: nat)
    requires k < SECTIONS && WellFormed(m) && m.trackLabels == [] && m != NOTHING
    requires forall j :: 0 <= j < SECTIONS && j != k ==> Part(m, [], j) == Absent
    requires Emitted(Part(m, [], k))
    ensures WriteMetadata(m, []).Ok? && WriteMetadata(m, []).value != []
    ensures forall s :: s in Sections(m, []) && s.Present? ==> Fits(s.piece)
  {
    hide Part, Emit, WellFormed;
    var ss := Sections(m, []);
    EmitSucceeds(ss);
    EmptyRoundTrips();
    MetadataRoundTrip(m, []);
    forall s | s in ss && s.Present?
      ensures Fits(s.piece)
    {
      var j :| 0 <= j < SECTIONS && ss[j] == s;
      assert Emitted(ss[j]);
    }
  }

  /** A one-byte program titled "X" whose appended `auth` chunk says "Y". */
  function Retitled(): Header {
    Header(1, 1, 1, Addresses(0x8000, 0x8000, 0x8000), Names([0x58], [], []), Speeds(0, 0), Zeros(8), Ntsc, 0,
           [0x60], [], false, 0, [], NOTHING.(auth := Some(Auth([0x59], [], [], []))))
  }

  lemma RetitledWrites()
    ensures HeaderOk(Retitled()) && Effective(Retitled(), true) == Effective(Retitled(), false) == Retitled().metadata
    ensures WriteMetadata(Retitled().metadata, []).Ok? && WriteMetadata(Retitled().metadata, []).value != []
  {
    var m := Retitled().metadata;
    assert TextOk([]) && TextOk([0x58]) && TextOk([0x59]);
    hide TextOk, Zeros;
    assert WellFormed(m);
    assert CStrings([[0x59], [], [], []]) == [0x59, 0, 0, 0, 0] by { RetitledBody(); }
    OneSectionWrites(m, 9);
  }

  lemma RetitledBody()
    ensures CStrings([[0x59], [], [], []]) == [0x59, 0, 0, 0, 0]
  {
    var none: Bytes := [];
    var tail: seq<Bytes> := [none, none, none];
    assert tail[1..] == [none, none] && [none, none][1..] == [none] && [none][1..] == [];
    assert CStrings([none]) == [0] && CStrings([none, none]) == [0, 0] && CStrings(tail) == [0, 0, 0];
    assert ([[0x59]] + tail)[1..] == tail && [[0x59]] + tail == [[0x59], none, none, none];
  }

  /** src/writer.rs:380-384 promises that converting a parsed fixed-header file to NSFe
      loses nothing. This accepted file is renamed from "X" to "Y". */
  lemma RetitledCounterexample()
    ensures WriteNsf(Retitled()).Ok?
    ensures var h := ParseNsf(WriteNsf(Retitled()).value);
            && h.Ok? && !h.value.isNsfe && h.value.names.song == [0x58] && WriteNsfe(h.value).Ok?
            && var g := ParseNsf(WriteNsfe(h.value).value);
               g.Ok? && g.value.names.song == [0x59]
  {
    var h0 := Retitled();
    RetitledWrites();
    var blob := WriteMetadata(h0.metadata, []).value;
    RetitledFits();
    NsfReadsBack(h0);
    NsfFormKeeps(h0, blob);
    var h := NsfForm(h0, blob);
    NsfWriteFacts(h0);
    ParsedHeaderOk(WriteNsf(h0).value);
    RetitledForm(h, blob);
    hide ParseNsf, WriteNsf, WriteNsfe, HeaderOk, WriteMetadata, Effective, NsfForm, NsfeForm, Retitled;
    NsfeReadsBack(h, []);
    assert WriteNsfe(h).value + [] == WriteNsfe(h).value;
  }

  lemma RetitledFits()
    ensures WriteNsf(Retitled()).Ok?
  {
    RetitledWrites();
    assert NulFree([0x58]) && NulFree([]);
    hide WriteMetadata, Effective, Zeros, FixedBytes;
  }

  lemma RetitledForm(h: Header, blob: Bytes)
    requires h == Retitled().(nsf2Metadata := Terminated(blob))
    ensures !h.isNsfe && h.names.song == [0x58] && WriteNsfe(h).Ok? && NsfeForm(h).names.song == [0x59]
  {
    RetitledWrites();
    hide WriteMetadata, Zeros, NsfeRun, Terminated;
    assert Effective(h, true) == Retitled().metadata;
  }

  /** An accepted NSFe file with an empty program and a `text` chunk: the fixed-header
      write leaves the chunk undelimited, and it comes back as program. */
  lemma EmptyProgramCounterexample()
    ensures var h0 := LongProgram().(program := []);
            && HeaderOk(h0) && WriteNsfe(h0).Ok?
            && var h := ParseNsf(WriteNsfe(h0).value);
               && h == Ok(h0) && WriteNsf(h0).Ok?
               && var g := ParseNsf(WriteNsf(h0).value);
                  g.Ok? && g.value.program != [] && g.value.metadata == NOTHING
  {
    var h0 := LongProgram().(program := []);
    LongProgramMetadataWrites();
    EmptyProgramFacts();
    NsfeReadsBack(h0, []);
    NsfReadsBack(h0);
    NsfWriteFacts(h0);
    SwallowedForm(h0, WriteMetadata(h0.metadata, []).value);
    EmptyProgramForm(WriteMetadata(h0.metadata, []).value);
    hide ParseNsf, WriteNsf, WriteNsfe, HeaderOk, WriteMetadata, Effective, NsfForm, NsfeForm, LongProgram;
    assert WriteNsfe(h0).value + [] == WriteNsfe(h0).value;
  }

  lemma EmptyProgramForm(blob: Bytes)
    requires blob != []
    ensures var g := NsfForm(LongProgram().(program := []), blob); g.program != [] && g.metadata == NOTHING
  {
    hide Zeros, Encoded;
  }

  lemma EmptyProgramFacts()
    ensures var h0 := LongProgram().(program := []);
            && HeaderOk(h0) && NsfeForm(h0) == h0 && Effective(h0, false) == LongProgram().metadata && h0.trackLabels == []
            && WriteNsfe(h0).Ok? && WriteNsf(h0).Ok?
  {
    LongProgramMetadataWrites();
    LongProgramIsOk();
    assert NulFree([]);
    hide WriteMetadata, Zeros, NsfeRun, FixedBytes, TextOk, WellFormed;
    var h0 := LongProgram().(program := []);
    assert Effective(h0, true) == Effective(h0, false) == LongProgram().metadata;
  }

  /** An accepted NSFe file that starts with song 256, the index 255. */
  function LastSong(): Header {
    Header(1, 255, 255, Addresses(0x8000, 0x8000, 0x8000), Names([], [], []), Speeds(0, 0), Zeros(8), Ntsc, 0,
           [0x60], [], true, 0, [], NOTHING)
  }

  /** Its starting song moves from index 255 to 254 in the fixed-header write. */
  lemma LastSongCounterexample()
    ensures var h0 := LastSong();
            && HeaderOk(h0) && WriteNsfe(h0).Ok? && ParseNsf(WriteNsfe(h0).value) == Ok(h0) && WriteNsf(h0).Ok?
            && var g := ParseNsf(WriteNsf(h0).value);
               g.Ok? && StartingSongIndex(h0) == 255 && StartingSongIndex(g.value) == 254
  {
    var h0 := LastSong();
    EmptyRoundTrips();
    LastSongFacts();
    NsfeReadsBack(h0, []);
    NsfReadsBack(h0);
    NsfFormKeeps(h0, []);
    hide ParseNsf, WriteNsf, WriteNsfe, HeaderOk, WriteMetadata, Effective, NsfForm, NsfeForm, Zeros, Terminated;
    assert WriteNsfe(h0).value + [] == WriteNsfe(h0).value;
  }

  lemma LastSongFacts()
    ensures var h0 := LastSong();
            && HeaderOk(h0) && NsfeForm(h0) == h0 && Effective(h0, false) == NOTHING
            && WriteNsfe(h0).Ok? && WriteNsf(h0).Ok?
  {
    EmptyRoundTrips();
    assert TextOk([]) && NulFree([]);
    hide WriteMetadata, Zeros, NsfeRun, FixedBytes, TextOk;
    assert Effective(LastSong(), true) == Effective(LastSong(), false) == NOTHING;
  }

  /** A chunk "cstm": lower-case, hence optional, and unknown to the parser. */
  const CUSTOM := Piece(0x6D74_7363, [1])

  /** A fixed-header file with a one-byte program and that chunk behind it. */
  function WithCustom(): Bytes {
    FixedBytes(PlainHeader().(declared := 1)) + ([0x60] + Encoded(CUSTOM))
  }

  function CustomHeader(): Header {
    FromFixed(PlainHeader().(declared := 1), [0x60], Encoded(CUSTOM), NOTHING)
  }

  lemma CustomParses()
    ensures ParseNsf(WithCustom()) == Ok(CustomHeader()) && UnknownChunks(Encoded(CUSTOM)) == [CUSTOM]
  {
    var f := PlainHeader().(declared := 1);
    assert NamesOk(f.names) by { assert TextOk([]); }
    ChunkReadsBack(CUSTOM, []);
    assert Encoded(CUSTOM) + [] == Encoded(CUSTOM);
    assert ParseMetadata(Encoded(CUSTOM)) == Ok(NOTHING) by {
      assert Collect([], NOTHING) == Ok(NOTHING);
    }
    assert UnknownChunks([]) == [];
    FixedOpens(f, [0x60] + Encoded(CUSTOM));
    TailParses(f, [0x60], Encoded(CUSTOM), NOTHING);
    hide ParseNsf, ParseTail, FromFixed, FixedBytes, ParseMetadata;
  }

  /** Everything else about it survives either write, but the chunk is gone. */
  lemma UnknownChunkCounterexample()
    ensures var h := CustomHeader();
            && ParseNsf(WithCustom()) == Ok(h) && h.metadata == NOTHING && UnknownChunks(h.nsf2Metadata) == [CUSTOM]
            && WriteNsf(h).Ok? && WriteNsfe(h).Ok?
            && ParseNsf(WriteNsf(h).value) == Ok(h.(nsf2Metadata := []))
            && ParseNsf(WriteNsfe(h).value) == Ok(h.(startingSong := 0, isNsfe := true, nsf2Metadata := []))
  {
    var h := CustomHeader();
    CustomParses();
    ParsedHeaderOk(WithCustom());
    CustomWrites();
    NsfReadsBack(h);
    NsfFormKeeps(h, []);
    EmptyEnd();
    NsfeReadsBack(h, []);
    hide ParseNsf, WriteNsf, WriteNsfe, HeaderOk, WriteMetadata, Effective, NsfForm, NsfeForm, WithCustom, CustomHeader, UnknownChunks;
    assert WriteNsfe(h).value + [] == WriteNsfe(h).value;
  }

  lemma CustomWrites()
    ensures var h := CustomHeader();
            && WriteMetadata(Effective(h, false), h.trackLabels) == Ok([])
            && WriteNsf(h).Ok? && WriteNsfe(h).Ok? && h.version == 1 && h.program != [] && h.metadata == NOTHING
            && h.nsf2Metadata == Encoded(CUSTOM) && Effective(h, false) == NOTHING && StartingSongNumber(h) == h.startingSong == 1
            && !h.isNsfe && NsfeForm(h) == h.(startingSong := 0, isNsfe := true, nsf2Metadata := [])
  {
    var h := CustomHeader();
    assert NulFree([]);
    EmptyRoundTrips();
    hide Zeros, FixedBytes, NsfeRun, WriteMetadata, Encoded;
    assert Effective(h, false) == NOTHING && Effective(h, true) == NOTHING && h.trackLabels == [];
  }

  /** A fixed-header file with a one-byte program and a `regn` chunk that prefers Dendy
      without listing it. */
  function UnlistedDendy(): Bytes {
    FixedBytes(PlainHeader().(declared := 1)) + ([0x60] + Encoded(Piece(REGN, [0, 2])))
  }

  function UnlistedHeader(): Header {
    FromFixed(PlainHeader().(declared := 1), [0x60], Encoded(Piece(REGN, [0, 2])),
              NOTHING.(regions := Some(Regions(0, Some(2)))))
  }

  lemma UnlistedParses()
    ensures ParseNsf(UnlistedDendy()) == Ok(UnlistedHeader())
  {
    var f := PlainHeader().(declared := 1);
    var p := Piece(REGN, [0, 2]);
    var m := NOTHING.(regions := Some(Regions(0, Some(2))));
    assert NamesOk(f.names) by { assert TextOk([]); }
    assert ParseMetadata(Encoded(p)) == Ok(m) by {
      ChunkReadsBack(p, []);
      assert Encoded(p) + [] == Encoded(p);
      assert Collect([], m) == Ok(m);
    }
    FixedOpens(f, [0x60] + Encoded(p));
    TailParses(f, [0x60], Encoded(p), m);
    hide ParseNsf, ParseTail, FromFixed, FixedBytes, ParseMetadata;
  }

  /** Its `regn` chunk comes back with the Dendy bit set, from either container. */
  lemma UnlistedDendyCounterexample()
    ensures var h := UnlistedHeader();
            && ParseNsf(UnlistedDendy()) == Ok(h) && h.region == Dendy && WriteNsf(h).Ok? && WriteNsfe(h).Ok?
            && (var g := ParseNsf(WriteNsf(h).value); g.Ok? && g.value.metadata != h.metadata)
            && (var g := ParseNsf(WriteNsfe(h).value); g.Ok? && !MetadataKept(g.value.metadata, h.metadata))
  {
    var h := UnlistedHeader();
    UnlistedParses();
    ParsedHeaderOk(UnlistedDendy());
    UnlistedWrites();
    NsfReadsBack(h);
    NsfFormKeeps(h, WriteMetadata(Effective(h, false), h.trackLabels).value);
    NsfeReadsBack(h, []);
    EffectiveLossless(h);
    hide ParseNsf, WriteNsf, WriteNsfe, HeaderOk, WriteMetadata, Effective, NsfForm, UnlistedDendy, Terminated, MetadataKept;
    assert WriteNsfe(h).value + [] == WriteNsfe(h).value;
  }

  lemma UnlistedWrites()
    ensures var h := UnlistedHeader();
            && h.region == Dendy && !DendyInMask(h) && h.program != [] && h.version == 1
            && WriteMetadata(Effective(h, false), h.trackLabels).Ok?
            && WriteNsf(h).Ok? && WriteNsfe(h).Ok?
  {
    var h := UnlistedHeader();
    assert NulFree([]);
    hide Zeros, FixedBytes, NsfeRun, WriteMetadata, Encoded;
    var m := NOTHING.(regions := Some(Regions(4, Some(2))));
    assert Effective(h, false) == m && Effective(h, true) == m && h.trackLabels == [];
    assert WriteMetadata(m, []).Ok? by { OneSectionWrites(m, 2); }
  }
}
