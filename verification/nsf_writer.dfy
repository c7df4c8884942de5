/** The container writers (src/writer.rs:220-418) and the starting-song
    normalization they rely on (src/header.rs:319-335). */
module NsfWriters {
  import opened Words
  import opened ContainerText
  import opened ChunkLayer
  import opened NsfeMetadataParser
  import opened NsfeMetadataWriter
  import opened NsfHeaders

  /** 1-based, from a field that is 0-based in NSFe headers. */
  function StartingSongNumber(h: Header): u8 {
    if h.isNsfe then (if h.startingSong == 0xFF then 0xFF else h.startingSong + 1)
    else if h.startingSong == 0 then 1 else h.startingSong
  }

  function StartingSongIndex(h: Header): u8 {
    if h.isNsfe then h.startingSong
    else if h.startingSong == 0 then 0 else h.startingSong - 1
  }

  function RegionByte(r: Region): u8 {
    match r
    case Ntsc => 0
    case Pal => 1
    case Dendy => 1
    case Dual => 2
  }

  function WithDendy(mask: u8): u8 {
    if Bit(mask, 4) then mask else mask + 4
  }

  /** `effective_metadata`. */
  function Effective(h: Header, rateAndAuth: bool): Metadata {
    var m := h.metadata;
    Metadata(
      if rateAndAuth && m.auth.None? && h.names != Names([], [], [])
        then Some(Auth(h.names.song, h.names.artist, h.names.copyright, [])) else m.auth,
      m.trackLabels, m.trackAuthors, m.text, m.times, m.fades, m.playlist, m.sfxPlaylist, m.mixer,
      if h.region == Dendy
        then Some(Regions(WithDendy(if m.regions.Some? then m.regions.value.mask else 4), Some(2))) else m.regions,
      if rateAndAuth && m.rate.None? && h.speeds != Speeds(0, 0)
        then Some(Rate(Some(h.speeds.ntsc), Some(h.speeds.pal), None)) else m.rate,
      m.vrc7)
  }

  // -------------------------------------------------------------------- NSFe

  function InfoBody(h: Header): (b: Bytes)
    ensures |b| == 10
  {
    U16Le(h.addresses.load) + U16Le(h.addresses.init) + U16Le(h.addresses.play)
    + [RegionByte(h.region), h.expansion, h.totalSongs, StartingSongIndex(h)]
  }

  function WriteNsfe(h: Header): Result<Bytes, WriteError> {
    if h.totalSongs == 0 then Err(NoSongs)
    else match WriteMetadata(Effective(h, true), h.trackLabels)
      case Err(e) => Err(e)
      case Ok(blob) =>
        if |h.program| > U32_MAX then Err(ChunkTooLong(DATA))
        else Ok(NSFE_MAGIC + NsfeRun(h, blob))
  }

  /** The chunks after the magic. */
  function NsfeRun(h: Header, blob: Bytes): Bytes
    requires |h.program| <= U32_MAX
  {
    Encoded(Piece(INFO, InfoBody(h)))
    + ((if h.bank != Zeros(8) then Encoded(Piece(BANK, h.bank)) else [])
    + ((if h.nsf2 != 0 then Encoded(Piece(NSF2, [h.nsf2])) else [])
    + (blob
    + (Encoded(Piece(DATA, h.program))
    + Encoded(Piece(NEND, []))))))
  }

  // --------------------------------------------------------------------- NSF

  function U24Le(x: nat): Bytes
    requires x < 0x100_0000
  {
    [x % 0x100, x / 0x100 % 0x100, x / 0x1_0000]
  }

  function NameProblem(field: string, s: Bytes): Option<WriteError> {
    if !NulFree(s) then Some(StringContainsNul(field))
    else if |s| > 31 then Some(StringTooLong(field, |s|))
    else None
  }

  function NamesProblem(n: Names): Option<WriteError> {
    var song, artist, copyright :=
      NameProblem("song name", n.song), NameProblem("artist", n.artist), NameProblem("copyright", n.copyright);
    if song.Some? then song else if artist.Some? then artist else copyright
  }

  predicate Short(n: Names) {
    |n.song| <= 31 && |n.artist| <= 31 && |n.copyright| <= 31
  }

  function Padded(s: Bytes): (b: Bytes)
    requires |s| <= 32
    ensures |b| == 32
  {
    s + Zeros(32 - |s|)
  }

  function FrontBytes(f: Fixed): (b: Bytes)
    ensures |b| == 14
  {
    NSF_MAGIC + [f.version, f.totalSongs, f.startingSong]
    + U16Le(f.addresses.load) + U16Le(f.addresses.init) + U16Le(f.addresses.play)
  }

  function BackBytes(f: Fixed): (b: Bytes)
    requires f.declared < 0x100_0000
    ensures |b| == 18
  {
    U16Le(f.speeds.ntsc) + f.bank + U16Le(f.speeds.pal) + [f.region, f.expansion, f.features] + U24Le(f.declared)
  }

  function FixedBytes(f: Fixed): (b: Bytes)
    requires Short(f.names) && f.declared < 0x100_0000
    ensures |b| == HEADER_LEN
  {
    FrontBytes(f) + Padded(f.names.song) + Padded(f.names.artist) + Padded(f.names.copyright) + BackBytes(f)
  }

  function FixedOf(h: Header, declared: nat): Fixed {
    Fixed(h.version, h.totalSongs, StartingSongNumber(h), h.addresses, h.names, h.speeds, h.bank,
          RegionByte(h.region), h.expansion, if h.version >= 2 then h.nsf2 else 0, declared)
  }

  const END_OF_RUN: Bytes := Encoded(Piece(NEND, []))

  function Terminated(blob: Bytes): Bytes {
    if blob == [] then [] else blob + END_OF_RUN
  }

  function DeclaredLength(h: Header, blob: Bytes): nat {
    if blob == [] then 0 else |h.program|
  }

  function WriteNsf(h: Header): Result<Bytes, WriteError> {
    if h.totalSongs == 0 then Err(NoSongs)
    else if h.version != 1 && h.version != 2 then Err(BadVersion(h.version))
    else if h.version < 2 && h.nsf2 != 0 then Err(FeaturesRequireV2)
    else if NamesProblem(h.names).Some? then Err(NamesProblem(h.names).value)
    else match WriteMetadata(Effective(h, false), h.trackLabels)
      case Err(e) => Err(e)
      case Ok(blob) =>
        if blob != [] && |h.program| > 0xFF_FFFF then Err(ProgramTooLong(|h.program|))
        else Ok(FixedBytes(FixedOf(h, DeclaredLength(h, blob))) + h.program + Terminated(blob))
  }

  // ------------------------------------------------------- the source's code

  method WriteNsfeFile(h: Header) returns (r: Result<Bytes, WriteError>)
    ensures r == WriteNsfe(h)
  {
    hide Encoded, WriteMetadata, InfoBody, Effective;
    if h.totalSongs == 0 {
      return Err(NoSongs);
    }
    var out := NSFE_MAGIC;
    out := out + Encoded(Piece(INFO, InfoBody(h)));
    ghost var banks := if h.bank != Zeros(8) then Encoded(Piece(BANK, h.bank)) else [];
    if h.bank != Zeros(8) {
      out := out + Encoded(Piece(BANK, h.bank));
    }
    ghost var features := if h.nsf2 != 0 then Encoded(Piece(NSF2, [h.nsf2])) else [];
    if h.nsf2 != 0 {
      out := out + Encoded(Piece(NSF2, [h.nsf2]));
    }
    var blob := WriteMetadataChunks(Effective(h, true), h.trackLabels);
    match blob {
      case Err(e) => return Err(e);
      case Ok(b) => out := out + b;
    }
    if |h.program| > U32_MAX {
      return Err(ChunkTooLong(DATA));
    }
    out := out + Encoded(Piece(DATA, h.program));
    out := out + Encoded(Piece(NEND, []));
    assert out == NSFE_MAGIC + NsfeRun(h, blob.value);
    r := Ok(out);
  }

  /** Copies `bytes` into a zeroed buffer right behind what is already written. */
  method PutNext(buf: array<u8>, ghost front: Bytes, at: nat, bytes: Bytes)
    requires at == |front| && at + |bytes| <= buf.Length
    requires buf[..] == front + Zeros(buf.Length - at)
    modifies buf
    ensures buf[..] == front + bytes + Zeros(buf.Length - at - |bytes|)
  {
    var i := 0;
    while i < |bytes|
      invariant i <= |bytes|
      invariant buf[..] == front + bytes[..i] + Zeros(buf.Length - at - i)
    {
      buf[at + i] := bytes[i];
      i := i + 1;
    }
    assert bytes[..i] == bytes;
  }

  /** `put_fixed_string` into a 32-byte slot. */
  method PutFixedString(buf: array<u8>, ghost front: Bytes, at: nat, s: Bytes, field: string)
    returns (problem: Option<WriteError>)
    requires at == |front| && at + 32 <= buf.Length
    requires buf[..] == front + Zeros(buf.Length - at)
    modifies buf
    ensures problem == NameProblem(field, s)
    ensures problem.None? ==> |s| <= 31 && buf[..] == front + Padded(s) + Zeros(buf.Length - at - 32)
  {
    if 0 in s {
      return Some(StringContainsNul(field));
    }
    if |s| > 31 {
      return Some(StringTooLong(field, |s|));
    }
    PutNext(buf, front, at, s);
    problem := None;
  }

  /** The fixed fields before the strings. */
  method PutFront(buf: array<u8>, h: Header)
    requires buf.Length == HEADER_LEN && buf[..] == Zeros(HEADER_LEN)
    modifies buf
    ensures buf[..] == FrontBytes(FixedOf(h, 0)) + Zeros(HEADER_LEN - 14)
  {
    var a := h.addresses;
    PutNext(buf, [], 0, NSF_MAGIC);
    PutNext(buf, NSF_MAGIC, 5, [h.version, h.totalSongs, StartingSongNumber(h)]);
    ghost var front := NSF_MAGIC + [h.version, h.totalSongs, StartingSongNumber(h)];
    PutNext(buf, front, 8, U16Le(a.load));
    PutNext(buf, front + U16Le(a.load), 10, U16Le(a.init));
    PutNext(buf, front + U16Le(a.load) + U16Le(a.init), 12, U16Le(a.play));
  }

  /** The fixed fields after the strings, up to the 24-bit length. */
  method PutBack(buf: array<u8>, ghost front: Bytes, h: Header)
    requires buf.Length == HEADER_LEN && |front| == 0x6E && buf[..] == front + Zeros(18)
    modifies buf
    ensures buf[..] == front + BackBytes(FixedOf(h, 0))[..15] + Zeros(3)
  {
    PutNext(buf, front, 0x6E, U16Le(h.speeds.ntsc));
    ghost var done := front + U16Le(h.speeds.ntsc);
    PutNext(buf, done, 0x70, h.bank);
    PutNext(buf, done + h.bank, 0x78, U16Le(h.speeds.pal));
    done := done + h.bank + U16Le(h.speeds.pal);
    var flags := [RegionByte(h.region), h.expansion, if h.version >= 2 then h.nsf2 else 0];
    PutNext(buf, done, 0x7A, flags);
    assert BackBytes(FixedOf(h, 0)) == U16Le(h.speeds.ntsc) + h.bank + U16Le(h.speeds.pal) + flags + U24Le(0);
    assert BackBytes(FixedOf(h, 0))[..15] == U16Le(h.speeds.ntsc) + h.bank + U16Le(h.speeds.pal) + flags;
  }

  method PutHeaderNames(buf: array<u8>, ghost front: Bytes, n: Names) returns (problem: Option<WriteError>)
    requires buf.Length == HEADER_LEN && |front| == 14 && buf[..] == front + Zeros(HEADER_LEN - 14)
    modifies buf
    ensures problem == NamesProblem(n)
    ensures problem.None? ==> Short(n) && buf[..] == front + Padded(n.song) + Padded(n.artist) + Padded(n.copyright) + Zeros(18)
  {
    problem := PutFixedString(buf, front, 0xE, n.song, "song name");
    if problem.Some? { return; }
    problem := PutFixedString(buf, front + Padded(n.song), 0x2E, n.artist, "artist");
    if problem.Some? { return; }
    problem := PutFixedString(buf, front + Padded(n.song) + Padded(n.artist), 0x4E, n.copyright, "copyright");
  }

  method WriteNsfFile(h: Header) returns (r: Result<Bytes, WriteError>)
    ensures r == WriteNsf(h)
  {
    hide WriteMetadata, Effective, NamesProblem, FrontBytes, BackBytes, Padded;
    if h.totalSongs == 0 {
      return Err(NoSongs);
    }
    if h.version != 1 && h.version != 2 {
      return Err(BadVersion(h.version));
    }
    if h.version < 2 && h.nsf2 != 0 {
      return Err(FeaturesRequireV2);
    }
    var buf := new u8[HEADER_LEN](_ => 0);
    assert buf[..] == Zeros(HEADER_LEN);
    PutFront(buf, h);
    ghost var front := FrontBytes(FixedOf(h, 0));
    var problem := PutHeaderNames(buf, front, h.names);
    if problem.Some? {
      return Err(problem.value);
    }
    ghost var named := front + Padded(h.names.song) + Padded(h.names.artist) + Padded(h.names.copyright);
    PutBack(buf, named, h);
    ghost var back := BackBytes(FixedOf(h, 0))[..15];
    var written := WriteMetadataChunks(Effective(h, false), h.trackLabels);
    if written.Err? {
      return Err(written.error);
    }
    var blob := written.value;
    if blob != [] {
      blob := blob + END_OF_RUN;
      if |h.program| > 0xFF_FFFF {
        return Err(ProgramTooLong(|h.program|));
      }
      PutNext(buf, named + back, 0x7D, U24Le(|h.program|));
    }
    var declared := DeclaredLength(h, written.value);
    LengthIsLast(h, declared);
    assert buf[..] == FixedBytes(FixedOf(h, declared));
    return Ok(buf[..] + h.program + blob);
  }

  lemma LengthIsLast(h: Header, declared: nat)
    requires declared < 0x100_0000
    ensures FrontBytes(FixedOf(h, declared)) == FrontBytes(FixedOf(h, 0))
    ensures BackBytes(FixedOf(h, declared)) == BackBytes(FixedOf(h, 0))[..15] + U24Le(declared)
    ensures U24Le(0) == Zeros(3)
  {
  }
}
