/** The container parsers (src/header.rs): the fixed 128-byte NSF / NSF2 header with
    its appended metadata, and the NSFe chunk walk. */
module NsfHeaders {
  import opened Words
  import opened ContainerText
  import opened ChunkLayer
  import opened NsfeMetadataParser

  const HEADER_LEN := 0x80
  const NSF_MAGIC: Bytes := [0x4E, 0x45, 0x53, 0x4D, 0x1A]
  const NSFE_MAGIC: Bytes := [0x4E, 0x53, 0x46, 0x45]

  datatype Region = Ntsc | Pal | Dual | Dendy

  datatype Addresses = Addresses(load: u16, init: u16, play: u16)

  datatype Names = Names(song: Bytes, artist: Bytes, copyright: Bytes)

  /** PLAY periods in microseconds. */
  datatype Speeds = Speeds(ntsc: u16, pal: u16)

  type Bank = b: Bytes | |b| == 8 witness [0, 0, 0, 0, 0, 0, 0, 0]

  datatype Header = Header(
    version: u8,
    totalSongs: u8,
    startingSong: u8,
    addresses: Addresses,
    names: Names,
    speeds: Speeds,
    bank: Bank,
    region: Region,
    expansion: u8,
    program: Bytes,
    trackLabels: seq<Bytes>,
    isNsfe: bool,
    nsf2: u8,
    nsf2Metadata: Bytes,
    metadata: Metadata)

  datatype NsfError =
    | TooShort(needed: nat, got: nat)
    | BadMagic
    | UnknownVersion(version: u8)
    | ZeroSongs
    | NsfeTruncatedChunk
    | NsfeChunkOverflow
    | NsfeMissingRequired(name: string)
    | NsfeUnknownMandatory(tag: u32)
    | NsfeDataBeforeInfo
    | Nsf2DataLengthOverflow(declared: nat, available: nat)
    | InMetadata(error: MetaError)

  function RegionFromByte(b: u8): Region {
    if Bit(b, 2) then Dual else if Bit(b, 1) then Pal else Ntsc
  }

  /** The `regn` chunk's preferred byte overrides the header's region byte. */
  function PreferredRegion(m: Metadata, fallback: Region): Region {
    if m.regions.None? then fallback
    else match m.regions.value.preferred
      case Some(p) => if p == 0 then Ntsc else if p == 1 then Pal else if p == 2 then Dendy else fallback
      case None => fallback
  }

  /** The `RATE` chunk overrides the header's period words. */
  function RatedSpeeds(m: Metadata, fallback: Speeds): Speeds {
    if m.rate.None? then fallback
    else Speeds(if m.rate.value.ntsc.Some? then m.rate.value.ntsc.value else fallback.ntsc,
                if m.rate.value.pal.Some? then m.rate.value.pal.value else fallback.pal)
  }

  function OrElse(s: Bytes, t: Bytes): Bytes {
    if s == [] then t else s
  }

  /** Names left empty are lifted from the `auth` chunk. */
  function LiftedNames(names: Names, auth: Option<Auth>): Names {
    match auth
    case None => names
    case Some(a) => Names(OrElse(names.song, a.title), OrElse(names.artist, a.artist), OrElse(names.copyright, a.copyright))
  }

  // -------------------------------------------------------- the fixed header

  /** The 128 bytes as fields. */
  datatype Fixed = Fixed(
    version: u8,
    totalSongs: u8,
    startingSong: u8,
    addresses: Addresses,
    names: Names,
    speeds: Speeds,
    bank: Bank,
    region: u8,
    expansion: u8,
    features: u8,
    declared: nat)

  function Word24(b: Bytes, i: nat): nat
    requires i + 3 <= |b|
  {
    var low: int, high: int := Word16(b, i), b[i + 2];
    low + high * 0x1_0000
  }

  function ReadFixed(b: Bytes): Fixed
    requires |b| == HEADER_LEN
  {
    Fixed(b[5], b[6], b[7],
          Addresses(Word16(b, 8), Word16(b, 0xA), Word16(b, 0xC)),
          Names(ParseText(b[0xE..0x2E]), ParseText(b[0x2E..0x4E]), ParseText(b[0x4E..0x6E])),
          Speeds(Word16(b, 0x6E), Word16(b, 0x78)),
          b[0x70..0x78],
          b[0x7A], b[0x7B], b[0x7C], Word24(b, 0x7D))
  }

  function FromFixed(f: Fixed, program: Bytes, blob: Bytes, m: Metadata): Header {
    Header(
      f.version, f.totalSongs, f.startingSong, f.addresses,
      LiftedNames(f.names, m.auth),
      RatedSpeeds(m, f.speeds),
      f.bank,
      PreferredRegion(m, RegionFromByte(f.region)),
      f.expansion,
      program,
      m.trackLabels,
      false,
      if f.version >= 2 then f.features else 0,
      blob,
      m.(trackLabels := []))
  }

  /** The program and the metadata behind a fixed header. */
  function ParseTail(f: Fixed, tail: Bytes): Result<Header, NsfError> {
    if f.declared > |tail| then Err(Nsf2DataLengthOverflow(f.declared, |tail|))
    else
      var program, blob :=
        if f.declared == 0 then tail else tail[..f.declared], if f.declared == 0 then [] else tail[f.declared..];
      match ParseMetadata(blob)
      case Err(e) => Err(InMetadata(e))
      case Ok(m) => Ok(FromFixed(f, program, blob, m))
  }

  function ParseV1(b: Bytes): Result<Header, NsfError> {
    if |b| < HEADER_LEN then Err(TooShort(HEADER_LEN, |b|))
    else if b[..5] != NSF_MAGIC then Err(BadMagic)
    else if b[5] == 0 then Err(UnknownVersion(0))
    else if b[6] == 0 then Err(ZeroSongs)
    else ParseTail(ReadFixed(b[..HEADER_LEN]), b[HEADER_LEN..])
  }

  // --------------------------------------------------------------- the walk

  datatype Info = Info(addresses: Addresses, region: u8, expansion: u8, totalSongs: u8, startingSong: u8)

  function ParseInfo(body: Bytes): Result<Info, NsfError> {
    if |body| < 9 then Err(NsfeTruncatedChunk)
    else if body[8] == 0 then Err(ZeroSongs)
    else Ok(Info(Addresses(Word16(body, 0), Word16(body, 2), Word16(body, 4)), body[6], body[7], body[8],
                 if |body| > 9 then body[9] else 0))
  }

  function Zeros(n: nat): (z: Bytes)
    ensures |z| == n && forall i :: 0 <= i < n ==> z[i] == 0
  {
    seq(n, _ => 0)
  }

  /** A short `BANK` chunk leaves the remaining banks at zero. */
  function BankOf(body: Bytes): Bank {
    if |body| >= 8 then body[..8] else body + Zeros(8 - |body|)
  }

  datatype Scan = Scan(
    info: Option<Info>,
    data: Option<Bytes>,
    bank: Option<Bank>,
    features: Option<u8>,
    blob: Bytes)

  const UNREAD := Scan(None, None, None, None, [])

  /** One chunk other than `NEND`. */
  function ScanStep(st: Scan, tag: u32, body: Bytes): Result<Scan, NsfError>
    requires |body| <= U32_MAX
  {
    if tag == INFO then
      match ParseInfo(body)
      case Err(e) => Err(e)
      case Ok(info) => Ok(st.(info := Some(info)))
    else if tag == DATA then
      if st.info.None? then Err(NsfeDataBeforeInfo) else Ok(st.(data := Some(body)))
    else if tag == BANK then Ok(st.(bank := Some(BankOf(body))))
    else if tag == NSF2 then Ok(st.(features := Some(if |body| > 0 then body[0] else 0)))
    else if !Extended(tag) && Mandatory(tag) then Err(NsfeUnknownMandatory(tag))
    else Ok(st.(blob := st.blob + Encoded(Piece(tag, body))))
  }

  datatype ScanEnd = Failed(error: NsfError) | Ended(scan: Scan, nend: bool, used: nat)

  function Advance(e: ScanEnd, n: nat): ScanEnd {
    match e
    case Failed(_) => e
    case Ended(s, nend, used) => Ended(s, nend, n + used)
  }

  /** The walk; `used` counts the bytes read, `NEND` included. */
  function Walk(b: Bytes, st: Scan): ScanEnd
    decreases |b|
  {
    if b == [] then Ended(st, false, 0)
    else match NextChunk(b)
      case Truncated => Failed(NsfeTruncatedChunk)
      case Overflow => Failed(NsfeChunkOverflow)
      case Chunk(tag, body, rest) =>
        if tag == NEND then Ended(st, true, |b| - |rest|)
        else match ScanStep(st, tag, body)
          case Err(e) => Failed(e)
          case Ok(st') => Advance(Walk(rest, st'), |b| - |rest|)
  }

  function FromScan(info: Info, st: Scan, program: Bytes, m: Metadata): Header {
    var features := if st.features.Some? then st.features.value else 0;
    Header(
      if features != 0 then 2 else 1,
      info.totalSongs, info.startingSong, info.addresses,
      LiftedNames(Names([], [], []), m.auth),
      RatedSpeeds(m, Speeds(0, 0)),
      if st.bank.Some? then st.bank.value else Zeros(8),
      PreferredRegion(m, RegionFromByte(info.region)),
      info.expansion,
      program,
      m.trackLabels,
      true,
      features,
      [],
      m.(trackLabels := []))
  }

  function Finish(st: Scan, nend: bool): Result<Header, NsfError> {
    if st.info.None? then Err(NsfeMissingRequired("INFO"))
    else if st.data.None? then Err(NsfeMissingRequired("DATA"))
    else if !nend then Err(NsfeMissingRequired("NEND"))
    else match ParseMetadata(st.blob)
      case Err(e) => Err(InMetadata(e))
      case Ok(m) => Ok(FromScan(st.info.value, st, st.data.value, m))
  }

  function Outcome(e: ScanEnd): Result<Header, NsfError> {
    match e
    case Failed(error) => Err(error)
    case Ended(st, nend, _) => Finish(st, nend)
  }

  function ParseNsfe(b: Bytes): Result<Header, NsfError>
    requires |b| >= 4
  {
    Outcome(Walk(b[4..], UNREAD))
  }

  predicate IsNsfe(b: Bytes) {
    |b| >= 4 && b[..4] == NSFE_MAGIC
  }

  function ParseNsf(b: Bytes): Result<Header, NsfError> {
    if IsNsfe(b) then ParseNsfe(b) else ParseV1(b)
  }

  // ------------------------------------------------------- the source's loop

  method ScanNsfe(bytes: Bytes) returns (r: Result<Header, NsfError>)
    requires |bytes| >= 4
    ensures r == ParseNsfe(bytes)
  {
    hide Finish, ParseInfo, Extended, Mandatory;
    var info: Option<Info>, data: Option<Bytes>, bank: Option<Bank>, features: Option<u8>, blob: Bytes :=
      None, None, None, None, [];
    var sawNend := false;
    var cursor := 4;
    while cursor < |bytes| && !sawNend
      invariant 4 <= cursor <= |bytes|
      invariant if sawNend then ParseNsfe(bytes) == Finish(Scan(info, data, bank, features, blob), true)
                else Outcome(Walk(bytes[cursor..], Scan(info, data, bank, features, blob))) == ParseNsfe(bytes)
      decreases |bytes| - cursor, if sawNend then 0 else 1
    {
      if |bytes| - cursor < 8 {
        return Err(NsfeTruncatedChunk);
      }
      ghost var here := bytes[cursor..];
      var size: int := Word32(bytes, cursor);
      var fcc := Word32(bytes, cursor + 4);
      var bodyStart := cursor + 8;
      var bodyEnd := bodyStart + size;
      assert size == Word32(here, 0) && fcc == Word32(here, 4);
      if bodyEnd > |bytes| {
        return Err(NsfeChunkOverflow);
      }
      var body := bytes[bodyStart..bodyEnd];
      assert here[8..8 + size] == body && here[8 + size..] == bytes[bodyEnd..];
      if fcc == INFO {
        match ParseInfo(body) {
          case Err(e) => return Err(e);
          case Ok(i) => info := Some(i);
        }
      } else if fcc == DATA {
        if info.None? {
          return Err(NsfeDataBeforeInfo);
        }
        data := Some(body);
      } else if fcc == BANK {
        bank := Some(BankOf(body));
      } else if fcc == NSF2 {
        features := Some(if |body| > 0 then body[0] else 0);
      } else if fcc == NEND {
        sawNend := true;
      } else {
        if !Extended(fcc) && Mandatory(fcc) {
          return Err(NsfeUnknownMandatory(fcc));
        }
        blob := blob + Encoded(Piece(fcc, body));
      }
      if !sawNend {
        cursor := bodyEnd;
      }
    }
    return Finish(Scan(info, data, bank, features, blob), sawNend);
  }
}
