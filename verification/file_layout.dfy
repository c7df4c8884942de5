/** The layout of the files in absolute terms: which byte of an accepted file means what
    (src/header.rs:500-660, 803-862; src/nsfe.rs:209-390), and the PLAY period that
    comes of it (src/header.rs:284-309, src/player.rs:195-215). */
module FileLayout {
  import opened Words
  import opened ContainerText
  import opened ChunkLayer
  import opened NsfeMetadataParser
  import opened NsfHeaders
  import opened NsfWriters
  import opened PlayerSchedule

  // -------------------------------------------------------------------- names

  predicate Spells(tag: u32, name: string) {
    && |name| == 4
    && tag == name[0] as int + 0x100 * name[1] as int + 0x1_0000 * name[2] as int + 0x100_0000 * name[3] as int
  }

  /** Every chunk name, and which of them an unknowing reader may not skip: those that
      begin with a capital. */
  lemma TagsSpell()
    ensures Spells(INFO, "INFO") && Spells(DATA, "DATA") && Spells(BANK, "BANK") && Spells(NSF2, "NSF2") && Spells(NEND, "NEND")
    ensures Spells(AUTH, "auth") && Spells(TLBL, "tlbl") && Spells(TAUT, "taut") && Spells(TEXT, "text")
    ensures Spells(TIME, "time") && Spells(FADE, "fade") && Spells(PLST, "plst") && Spells(PSFX, "psfx")
    ensures Spells(MIXE, "mixe") && Spells(REGN, "regn") && Spells(RATE, "RATE") && Spells(VRC7, "VRC7")
  {
  }

  lemma CapitalsAreMandatory(tag: u32, name: string)
    requires Spells(tag, name) && name[0] as int < 0x100
    ensures Mandatory(tag) <==> 'A' <= name[0] <= 'Z'
  {
  }

  // ------------------------------------------------------------ fixed header

  /** A little-endian word at a position of the file. */
  function Le16(b: Bytes, i: nat): int
    requires i + 2 <= |b|
  {
    var low: int, high: int := b[i], b[i + 1];
    low + 0x100 * high
  }

  function Declared(b: Bytes): int
    requires |b| >= 0x80
  {
    var high: int := b[0x7F];
    Le16(b, 0x7D) + 0x1_0000 * high
  }

  /** What a file behind a fixed header says about its metadata. */
  function Appended(b: Bytes): Bytes
    requires |b| >= 0x80
  {
    if 0 < Declared(b) <= |b| - 0x80 then b[0x80 + Declared(b)..] else []
  }

  function Program(b: Bytes): Bytes
    requires |b| >= 0x80
  {
    if 0 < Declared(b) <= |b| - 0x80 then b[0x80..0x80 + Declared(b)] else b[0x80..]
  }

  /** Exactly which files that are no NSFe are accepted. */
  lemma FixedAccepts(b: Bytes)
    requires !IsNsfe(b)
    ensures ParseNsf(b).Ok? <==>
            && |b| >= 0x80 && b[..5] == [0x4E, 0x45, 0x53, 0x4D, 0x1A] && b[5] >= 1 && b[6] >= 1
            && Declared(b) <= |b| - 0x80 && ParseMetadata(Appended(b)).Ok?
  {
    hide ParseMetadata;
    if |b| >= 0x80 {
      FixedReads(b);
      hide ReadFixed;
    }
  }

  lemma FixedReads(b: Bytes)
    requires |b| >= 0x80
    ensures var f := ReadFixed(b[..HEADER_LEN]);
            && f.version == b[5] && f.totalSongs == b[6] && f.startingSong == b[7]
            && f.addresses == Addresses(Le16(b, 8), Le16(b, 0xA), Le16(b, 0xC))
            && f.names == Names(ParseText(b[0xE..0x2E]), ParseText(b[0x2E..0x4E]), ParseText(b[0x4E..0x6E]))
            && f.speeds == Speeds(Le16(b, 0x6E), Le16(b, 0x78)) && f.bank == b[0x70..0x78]
            && f.region == b[0x7A] && f.expansion == b[0x7B] && f.features == b[0x7C] && f.declared == Declared(b)
  {
    hide ParseText;
    var c := b[..HEADER_LEN];
    assert c[0xE..0x2E] == b[0xE..0x2E] && c[0x2E..0x4E] == b[0x2E..0x4E] && c[0x4E..0x6E] == b[0x4E..0x6E];
    assert c[0x70..0x78] == b[0x70..0x78];
  }

  /** Byte by byte, what an accepted file says; names, speeds and region as far as no
      metadata overrides them. */
  lemma FixedLayout(b: Bytes)
    requires !IsNsfe(b)
    ensures ParseNsf(b).Ok? ==>
            var h := ParseNsf(b).value;
            && |b| >= 0x80 && !h.isNsfe
            && h.version == b[5] && h.totalSongs == b[6] && h.startingSong == b[7]
            && h.addresses == Addresses(Le16(b, 8), Le16(b, 0xA), Le16(b, 0xC))
            && h.bank == b[0x70..0x78] && h.expansion == b[0x7B]
            && h.nsf2 == (if b[5] >= 2 then b[0x7C] else 0)
            && h.nsf2Metadata == Appended(b)
            && h.program == Program(b)
            && (h.metadata.auth.None? ==>
                  h.names == Names(ParseText(b[0xE..0x2E]), ParseText(b[0x2E..0x4E]), ParseText(b[0x4E..0x6E])))
            && (h.metadata.rate.None? ==> h.speeds == Speeds(Le16(b, 0x6E), Le16(b, 0x78)))
            && (h.metadata.regions.None? ==>
                  h.region == if b[0x7A] / 2 % 2 == 1 then Dual else if b[0x7A] % 2 == 1 then Pal else Ntsc)
  {
    hide ParseMetadata, ParseText;
    if ParseNsf(b).Ok? {
      FixedReads(b);
      hide ReadFixed;
      var tail := b[HEADER_LEN..];
      assert Declared(b) <= |tail|;
      assert tail[..Declared(b)] == b[0x80..0x80 + Declared(b)] && tail[Declared(b)..] == b[0x80 + Declared(b)..];
    }
  }

  // ------------------------------------------------------------ chunk bodies

  /** The `INFO` chunk. */
  lemma InfoLayout(body: Bytes)
    ensures ParseInfo(body).Ok? <==> |body| >= 9 && body[8] >= 1
    ensures ParseInfo(body).Ok? ==>
            ParseInfo(body).value == Info(Addresses(Le16(body, 0), Le16(body, 2), Le16(body, 4)), body[6], body[7], body[8],
                                          if |body| >= 10 then body[9] else 0)
  {
  }

  /** `RATE`: the NTSC, PAL and Dendy periods in this order. `regn`: the supported bits
      and the preferred region. */
  lemma RateLayout(m: Metadata, body: Bytes)
    ensures Apply(m, RATE, body).Ok? <==> |body| >= 4
    ensures |body| >= 4 ==>
            Apply(m, RATE, body) == Ok(m.(rate := Some(Rate(Some(Le16(body, 0)), Some(Le16(body, 2)),
                                                            if |body| >= 6 then Some(Le16(body, 4)) else None))))
    ensures Apply(m, REGN, body).Ok? <==> |body| >= 1
    ensures |body| >= 1 ==>
            Apply(m, REGN, body) == Ok(m.(regions := Some(Regions(body[0], if |body| >= 2 then Some(body[1]) else None))))
  {
  }

  /** A two's complement number of `k` bytes, by its unsigned value. */
  function Complement(word: int, half: int): int {
    if word >= half then word - 2 * half else word
  }

  /** `time` and `fade`: one signed number for each four bytes, the low byte first. */
  lemma {:induction false} NumbersLayout(body: Bytes)
    ensures var ns := ReadI32s(body);
            && |ns| == |body| / 4
            && forall i :: 0 <= i < |ns| ==>
                 ns[i] == Complement(Le16(body, 4 * i) + 0x1_0000 * Le16(body, 4 * i + 2), 0x8000_0000)
  {
    if |body| >= 4 {
      var rest := body[4..];
      NumbersLayout(rest);
      var ns := ReadI32s(body);
      assert ns == [ns[0]] + ReadI32s(rest);
      forall i | 1 <= i < |ns|
        ensures ns[i] == Complement(Le16(body, 4 * i) + 0x1_0000 * Le16(body, 4 * i + 2), 0x8000_0000)
      {
        assert ns[i] == ReadI32s(rest)[i - 1];
        assert Le16(rest, 4 * (i - 1)) == Le16(body, 4 * i) && Le16(rest, 4 * (i - 1) + 2) == Le16(body, 4 * i + 2);
      }
    }
  }

  /** `mixe`: a device and a signed level for each three bytes. */
  lemma {:induction false} MixerLayout(body: Bytes)
    ensures var es := ReadMixer(body);
            && |es| == |body| / 3
            && forall i :: 0 <= i < |es| ==>
                 es[i].device == body[3 * i] && es[i].millibel == Complement(Le16(body, 3 * i + 1), 0x8000)
  {
    if |body| >= 3 {
      var rest := body[3..];
      MixerLayout(rest);
      var es := ReadMixer(body);
      assert es == [es[0]] + ReadMixer(rest);
      forall i | 1 <= i < |es|
        ensures es[i].device == body[3 * i] && es[i].millibel == Complement(Le16(body, 3 * i + 1), 0x8000)
      {
        assert es[i] == ReadMixer(rest)[i - 1];
        assert Le16(rest, 3 * (i - 1) + 1) == Le16(body, 3 * i + 1) && rest[3 * (i - 1)] == body[3 * i];
      }
    }
  }

  /** `auth`: title, artist, copyright and ripper in this order, empty where the body
      ends before them. */
  lemma AuthLayout(m: Metadata, ss: seq<Bytes>, last: Bytes)
    requires NulFree(last) && forall s :: s in ss ==> NulFree(s)
    ensures var ps := ss + [last];
            Apply(m, AUTH, CStrings(ss) + last)
            == Ok(m.(auth := Some(Auth(ReadString(ps[0]),
                                       if |ps| > 1 then ReadString(ps[1]) else [],
                                       if |ps| > 2 then ReadString(ps[2]) else [],
                                       if |ps| > 3 then ReadString(ps[3]) else []))))
  {
    hide SplitNul, CStrings, ReadString;
    SplitOfParts(ss, last);
  }

  /** Which field the other chunks of text set, */
  lemma TextLayout(m: Metadata, body: Bytes)
    ensures Apply(m, TLBL, body) == Ok(m.(trackLabels := SplitStrings(body)))
    ensures Apply(m, TAUT, body) == Ok(m.(trackAuthors := SplitStrings(body)))
    ensures Apply(m, TEXT, body) == Ok(m.(text := Some(ParseText(body))))
  {
    hide SplitStrings, ParseText, ReadI32s, ReadMixer, ParseAuth;
  }

  /** and those of numbers, */
  lemma ListsLayout(m: Metadata, body: Bytes)
    ensures Apply(m, TIME, body) == Ok(m.(times := ReadI32s(body))) && Apply(m, FADE, body) == Ok(m.(fades := ReadI32s(body)))
    ensures Apply(m, PLST, body) == Ok(m.(playlist := body)) && Apply(m, PSFX, body) == Ok(m.(sfxPlaylist := body))
  {
    hide SplitStrings, ParseText, ReadI32s, ReadMixer, ParseAuth;
  }

  /** and those that describe devices. */
  lemma DevicesLayout(m: Metadata, body: Bytes)
    ensures |body| % 3 == 0 ==> Apply(m, MIXE, body) == Ok(m.(mixer := ReadMixer(body)))
    ensures |body| == 1 || |body| == 129 || |body| == 153 ==>
            Apply(m, VRC7, body) == Ok(m.(vrc7 := Some(Vrc7(body[0], if |body| == 1 then None else Some(body[1..])))))
  {
    hide SplitStrings, ParseText, ReadI32s, ReadMixer, ParseAuth;
  }

  /** What metadata may say in the header's place: a name only where the header has
      none, a period always. */
  lemma MetadataFills(n: Names, speeds: Speeds, m: Metadata)
    ensures m.auth.Some? && n.song == [] ==> LiftedNames(n, m.auth).song == m.auth.value.title
    ensures m.auth.Some? && n.artist == [] ==> LiftedNames(n, m.auth).artist == m.auth.value.artist
    ensures m.auth.Some? && n.copyright == [] ==> LiftedNames(n, m.auth).copyright == m.auth.value.copyright
    ensures n.song != [] && n.artist != [] && n.copyright != [] ==> LiftedNames(n, m.auth) == n
    ensures m.auth.None? ==> LiftedNames(n, m.auth) == n
    ensures m.rate.Some? && m.rate.value.ntsc.Some? ==> RatedSpeeds(m, speeds).ntsc == m.rate.value.ntsc.value
    ensures m.rate.Some? && m.rate.value.pal.Some? ==> RatedSpeeds(m, speeds).pal == m.rate.value.pal.value
    ensures m.rate.None? ==> RatedSpeeds(m, speeds) == speeds
  {
  }

  /** Preferred regions are numbered NTSC, PAL, Dendy. */
  lemma PreferredNumbers(m: Metadata, fallback: Region)
    ensures m.regions.Some? && m.regions.value.preferred == Some(0) ==> PreferredRegion(m, fallback) == Ntsc
    ensures m.regions.Some? && m.regions.value.preferred == Some(1) ==> PreferredRegion(m, fallback) == Pal
    ensures m.regions.Some? && m.regions.value.preferred == Some(2) ==> PreferredRegion(m, fallback) == Dendy
    ensures m.regions.None? || m.regions.value.preferred.None? || m.regions.value.preferred.value > 2
            ==> PreferredRegion(m, fallback) == fallback
  {
  }

  // ------------------------------------------------------------- PLAY period

  /** The period in microseconds by region: its own word of the `RATE` chunk or of the
      header, and for Dendy the PAL word in its place; the region's default for zero. */
  function Microseconds(region: Region, ntsc: int, pal: int, dendy: int): int {
    match region
    case Pal => if pal != 0 then pal else 19_997
    case Dendy => if dendy != 0 then dendy else if pal != 0 then pal else 19_997
    case _ => if ntsc != 0 then ntsc else 16_666
  }

  function DendyWord(m: Metadata): int {
    if m.rate.Some? && m.rate.value.dendy.Some? then m.rate.value.dendy.value else 0
  }

  /** The PLAY period in CPU cycles of the region's own clock. */
  lemma PeriodWords(h: Header)
    ensures var us := Microseconds(h.region, h.speeds.ntsc, h.speeds.pal, DendyWord(h.metadata));
            PlayPeriodCycles(h) == us * (if h.region == Pal then 1_662_607 else if h.region == Dendy then 1_773_448
                                         else 1_789_773) / 1_000_000
  {
    PeriodInRange(h);
  }

  /** The defaults, for a header that names no period. */
  lemma DefaultPeriods(h: Header)
    requires h.speeds == Speeds(0, 0) && DendyWord(h.metadata) == 0
    ensures PlayPeriodCycles(h) == if h.region == Pal then 33_247 else if h.region == Dendy then 35_463 else 29_828
  {
    PeriodWords(h);
    hide PlayPeriodCycles;
  }

  /** And from the file: a fixed header without metadata, by its region byte and its two
      speed words. */
  lemma FilePeriod(b: Bytes)
    requires !IsNsfe(b) && ParseNsf(b).Ok? && ParseNsf(b).value.metadata == NOTHING
    ensures |b| >= 0x80
    ensures PlayPeriodCycles(ParseNsf(b).value)
         == if b[0x7A] % 2 == 1 && b[0x7A] / 2 % 2 == 0
            then Microseconds(Pal, 0, Le16(b, 0x78), 0) * 1_662_607 / 1_000_000
            else Microseconds(Ntsc, Le16(b, 0x6E), 0, 0) * 1_789_773 / 1_000_000
  {
    FixedLayout(b);
    var h := ParseNsf(b).value;
    PeriodWords(h);
    hide PlayPeriodCycles, ParseNsf, ParseText;
  }

  // -------------------------------------------------------- what is accepted

  /** Which chunks a metadata run may hold: no header chunk, no unknown one that begins
      with a capital, and bodies of a possible length. */
  lemma ChunkAccepts(m: Metadata, tag: u32, body: Bytes)
    ensures Apply(m, tag, body).Ok? <==>
            && tag != INFO && tag != DATA && tag != BANK && tag != NSF2
            && (Mandatory(tag) ==> tag == RATE || tag == VRC7)
            && (tag == MIXE ==> |body| % 3 == 0) && (tag == REGN ==> |body| >= 1) && (tag == RATE ==> |body| >= 4)
            && (tag == VRC7 ==> |body| == 1 || |body| == 129 || |body| == 153)
    ensures !Extended(tag) && Apply(m, tag, body).Ok? ==> Apply(m, tag, body) == Ok(m)
  {
    hide ReadI32s, ReadMixer, SplitStrings, ParseAuth, ParseText, WordAt;
  }

  /** The starting song counts from 0 in an NSFe header and from 1 in a fixed one, where
      0 is read as 1; its number is one more than its index, but for index 255. */
  lemma StartingSong(h: Header)
    ensures StartingSongIndex(h) == (if h.isNsfe then h.startingSong else Max(h.startingSong, 1) - 1)
    ensures StartingSongNumber(h) == Min(StartingSongIndex(h) + 1, 255)
  {
  }
}
