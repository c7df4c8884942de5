/** Which NSFe files are accepted, chunk by chunk, and what each chunk contributes
    (src/header.rs:644-801). */
module NsfeAcceptance {
  import opened Words
  import opened ContainerText
  import opened ChunkLayer
  import opened NsfeMetadataParser
  import opened NsfHeaders
  import opened ContainerLaws
  import opened FileLayout

  /** The walk lets chunk `i` through: an `INFO` is long enough and counts a song, `DATA`
      stands behind an `INFO`, and nothing unknown begins with a capital. */
  predicate Allowed(ps: seq<Piece>, i: nat)
    requires i < |ps|
  {
    var p := ps[i];
    && (p.tag == INFO ==> |p.body| >= 9 && p.body[8] >= 1)
    && (p.tag == DATA ==> exists j :: 0 <= j < i && ps[j].tag == INFO)
    && (Mandatory(p.tag) ==> HeaderTag(p.tag) || p.tag == RATE || p.tag == VRC7)
  }

  /** What is said of a chunk that is not. */
  function Complaint(ps: seq<Piece>, i: nat): NsfError
    requires i < |ps|
  {
    var p := ps[i];
    if p.tag == INFO then if |p.body| < 9 then NsfeTruncatedChunk else ZeroSongs
    else if p.tag == DATA then NsfeDataBeforeInfo
    else NsfeUnknownMandatory(p.tag)
  }

  /** The body of the last chunk of that name. */
  function LastOf(ps: seq<Piece>, tag: u32): Option<Bytes> {
    if ps == [] then None
    else if ps[|ps| - 1].tag == tag then Some(ps[|ps| - 1].body)
    else LastOf(ps[..|ps| - 1], tag)
  }

  lemma {:induction false} LastIs(ps: seq<Piece>, tag: u32)
    ensures LastOf(ps, tag).Some? <==> exists i :: 0 <= i < |ps| && ps[i].tag == tag
    ensures forall i :: 0 <= i < |ps| && ps[i].tag == tag && (forall k :: i < k < |ps| ==> ps[k].tag != tag)
                        ==> LastOf(ps, tag) == Some(ps[i].body)
  {
    if ps != [] {
      var front := ps[..|ps| - 1];
      LastIs(front, tag);
      assert forall i :: 0 <= i < |front| ==> front[i] == ps[i];
    }
  }

  /** The chunks that belong to the metadata. */
  function Kept(ps: seq<Piece>): (ks: seq<Piece>)
    ensures forall k :: k in ks ==> k in ps && !HeaderTag(k.tag)
  {
    if ps == [] then []
    else
      var p := ps[|ps| - 1];
      Kept(ps[..|ps| - 1]) + if HeaderTag(p.tag) then [] else [p]
  }

  /** What has been read once these chunks are. */
  function Read(ps: seq<Piece>): Scan
    requires forall p :: p in ps ==> Fits(p)
  {
    Scan(match LastOf(ps, INFO)
           case Some(body) => if ParseInfo(body).Ok? then Some(ParseInfo(body).value) else None
           case None => None,
         LastOf(ps, DATA),
         match LastOf(ps, BANK) case Some(body) => Some(BankOf(body)) case None => None,
         match LastOf(ps, NSF2) case Some(body) => Some(if |body| > 0 then body[0] else 0) case None => None,
         Encode(Kept(ps)))
  }

  lemma OneMore(ps: seq<Piece>, i: nat)
    requires i < |ps|
    ensures forall tag :: LastOf(ps[..i + 1], tag) == if ps[i].tag == tag then Some(ps[i].body) else LastOf(ps[..i], tag)
    ensures Kept(ps[..i + 1]) == if HeaderTag(ps[i].tag) then Kept(ps[..i]) else Kept(ps[..i]) + [ps[i]]
    ensures forall p :: p in ps[..i] || p in ps[..i + 1] ==> p in ps
  {
    var next := ps[..i + 1];
    assert |next| == i + 1 && next[..i] == ps[..i] && next[i] == ps[i];
    assert Kept(ps[..i]) + [] == Kept(ps[..i]);
    forall tag: u32
      ensures LastOf(next, tag) == if ps[i].tag == tag then Some(ps[i].body) else LastOf(ps[..i], tag)
    {
    }
  }

  lemma StepReads(ps: seq<Piece>, i: nat)
    requires i < |ps| && (forall p :: p in ps ==> Fits(p) && p.tag != NEND) && forall k :: 0 <= k < i ==> Allowed(ps, k)
    requires Fits(ps[i])
    ensures var r := ScanStep(Read(ps[..i]), ps[i].tag, ps[i].body);
            if Allowed(ps, i) then r == Ok(Read(ps[..i + 1])) else r == Err(Complaint(ps, i))
  {
    hide ParseInfo, Encode, Encoded, BankOf, LastOf, Kept;
    var p, front := ps[i], ps[..i];
    OneMore(ps, i);
    InfoLayout(p.body);
    InfoFirst(ps, i);
    if !HeaderTag(p.tag) {
      EncodeAdd(Kept(front), [p]);
      OneEncoded(p);
    } else if p.tag == INFO {
      InfoSays(p.body);
    }
  }

  lemma InfoSays(body: Bytes)
    ensures ParseInfo(body).Err? ==> ParseInfo(body).error == if |body| < 9 then NsfeTruncatedChunk else ZeroSongs
  {
  }

  lemma InfoFirst(ps: seq<Piece>, i: nat)
    requires i < |ps| && (forall p :: p in ps ==> Fits(p)) && forall k :: 0 <= k < i ==> Allowed(ps, k)
    ensures forall p :: p in ps[..i] ==> p in ps
    ensures Read(ps[..i]).info.Some? <==> exists j :: 0 <= j < i && ps[j].tag == INFO
  {
    LastIs(ps[..i], INFO);
    InfosRead(ps, i);
    hide ParseInfo, LastOf, Allowed, Kept;
    assert forall j :: 0 <= j < i ==> ps[..i][j] == ps[j];
  }

  lemma OneEncoded(p: Piece)
    requires Fits(p)
    ensures Encode([p]) == Encoded(p)
  {
    hide Encoded;
    assert Encoded(p) + [] == Encoded(p);
  }

  /** An `INFO` that was let through was read. */
  lemma {:induction false} InfosRead(ps: seq<Piece>, i: nat)
    requires i <= |ps| && forall k :: 0 <= k < i ==> Allowed(ps, k)
    ensures LastOf(ps[..i], INFO).Some? ==> ParseInfo(LastOf(ps[..i], INFO).value).Ok?
  {
    if i > 0 {
      OneMore(ps, i - 1);
      InfosRead(ps, i - 1);
      InfoLayout(ps[i - 1].body);
      hide ParseInfo, LastOf;
      assert LastOf(ps[..i], INFO) == if ps[i - 1].tag == INFO then Some(ps[i - 1].body) else LastOf(ps[..i - 1], INFO);
      assert Allowed(ps, i - 1);
    }
  }

  /** The walk reads the chunks up to the first one that is not allowed. */
  lemma {:induction false} WalkReads(ps: seq<Piece>, i: nat, rest: Bytes)
    requires i <= |ps| && (forall p :: p in ps ==> Fits(p) && p.tag != NEND) && forall k :: 0 <= k < i ==> Allowed(ps, k)
    ensures var w := Walk(Encode(ps[i..]) + rest, Read(ps[..i]));
            && ((forall k :: 0 <= k < |ps| ==> Allowed(ps, k)) ==> w == Advance(Walk(rest, Read(ps)), |Encode(ps[i..])|))
            && forall k :: 0 <= k < |ps| && !Allowed(ps, k) && (forall j :: 0 <= j < k ==> Allowed(ps, j))
                           ==> w == Failed(Complaint(ps, k))
    decreases |ps| - i
  {
    hide Walk, ScanStep, Allowed, Complaint, Read, Encoded;
    if i == |ps| {
      assert ps[..i] == ps && ps[i..] == [] && Encode(ps[i..]) + rest == rest;
    } else {
      var p, tail := ps[i], Encode(ps[i + 1..]) + rest;
      assert ps[i..][1..] == ps[i + 1..];
      assert Encode(ps[i..]) + rest == Encoded(p) + tail;
      StepReads(ps, i);
      if Allowed(ps, i) {
        WalkChunk(p, tail, Read(ps[..i]));
        WalkReads(ps, i + 1, rest);
      } else {
        WalkFails(p, tail, Read(ps[..i]));
      }
    }
  }

  lemma WalkFails(p: Piece, rest: Bytes, st: Scan)
    requires Fits(p) && p.tag != NEND && ScanStep(st, p.tag, p.body).Err?
    ensures Walk(Encoded(p) + rest, st) == Failed(ScanStep(st, p.tag, p.body).error)
  {
    hide ScanStep, NextChunk;
    assert Encoded(p) + rest != [];
    ChunkReadsBack(p, rest);
  }

  // --------------------------------------------------------- the metadata run

  /** A metadata chunk that the parser refuses to take. */
  predicate Malformed(p: Piece) {
    || (p.tag == MIXE && |p.body| % 3 != 0)
    || (p.tag == REGN && |p.body| < 1)
    || (p.tag == RATE && |p.body| < 4)
    || (p.tag == VRC7 && |p.body| != 1 && |p.body| != 129 && |p.body| != 153)
  }

  lemma {:induction false} MetadataAccepts(m: Metadata, ks: seq<Piece>)
    requires forall k :: k in ks ==> !HeaderTag(k.tag) && (Mandatory(k.tag) ==> k.tag == RATE || k.tag == VRC7)
    ensures ApplyAll(m, ks).Ok? <==> forall k :: k in ks ==> !Malformed(k)
    decreases |ks|
  {
    hide Apply, Mandatory, Malformed;
    if ks != [] {
      var k := ks[0];
      assert k in ks && ks == [k] + ks[1..];
      ChunkAccepts(m, k.tag, k.body);
      assert Apply(m, k.tag, k.body).Ok? <==> !Malformed(k) by { TakenIff(m, k); }
      if Apply(m, k.tag, k.body).Ok? {
        MetadataAccepts(Apply(m, k.tag, k.body).value, ks[1..]);
      }
    }
  }

  lemma TakenIff(m: Metadata, k: Piece)
    requires !HeaderTag(k.tag) && (Mandatory(k.tag) ==> k.tag == RATE || k.tag == VRC7)
    ensures Apply(m, k.tag, k.body).Ok? <==> !Malformed(k)
  {
    ChunkAccepts(m, k.tag, k.body);
    hide Apply, Mandatory;
  }

  /** A run without `NEND` means its chunks applied in order, refusals included. */
  lemma {:induction false} RunMeans(ks: seq<Piece>, m: Metadata)
    requires forall k :: k in ks ==> Fits(k) && k.tag != NEND
    ensures Collect(Encode(ks), m) == ApplyAll(m, ks)
    decreases |ks|
  {
    hide Apply, NextChunk, Encoded;
    if ks != [] {
      var tail := Encode(ks[1..]);
      assert Encoded(ks[0]) + tail != [];
      ChunkReadsBack(ks[0], tail);
      if Apply(m, ks[0].tag, ks[0].body).Ok? {
        RunMeans(ks[1..], Apply(m, ks[0].tag, ks[0].body).value);
      }
    }
  }

  // ------------------------------------------------------------- whole files

  /** A file: the magic, chunks, `NEND`, and anything. */
  function FileOf(ps: seq<Piece>, end: Bytes, rest: Bytes): Bytes
    requires (forall p :: p in ps ==> Fits(p)) && |end| <= U32_MAX
  {
    [0x4E, 0x53, 0x46, 0x45] + (Encode(ps) + (Encoded(Piece(NEND, end)) + rest))
  }

  /** Exactly which files are accepted: those whose every chunk is allowed, with `DATA`
      among them and no malformed metadata. Otherwise the first chunk that is not allowed
      gives the error. */
  lemma NsfeAcceptsIff(ps: seq<Piece>, end: Bytes, rest: Bytes)
    requires (forall p :: p in ps ==> Fits(p) && p.tag != NEND) && |end| <= U32_MAX
    ensures var r := ParseNsf(FileOf(ps, end, rest));
            && (r.Ok? <==>
                  && (forall i :: 0 <= i < |ps| ==> Allowed(ps, i))
                  && (exists i :: 0 <= i < |ps| && ps[i].tag == DATA)
                  && (forall p :: p in ps ==> !Malformed(p)))
            && (forall i :: 0 <= i < |ps| && !Allowed(ps, i) && (forall j :: 0 <= j < i ==> Allowed(ps, j))
                            ==> r == Err(Complaint(ps, i)))
  {
    hide Walk, Allowed, Complaint, Malformed, ParseMetadata, LastOf, Kept, Encode, Encoded, ParseInfo;
    FileReads(ps, end, rest);
    if forall i :: 0 <= i < |ps| ==> Allowed(ps, i) {
      KeptAccepted(ps);
      LastIs(ps, DATA);
      DataBehindInfo(ps);
    } else {
      FirstBad(ps, |ps|);
    }
  }

  /** The file is the walk over its chunks. */
  lemma FileReads(ps: seq<Piece>, end: Bytes, rest: Bytes)
    requires (forall p :: p in ps ==> Fits(p) && p.tag != NEND) && |end| <= U32_MAX
    ensures var r := ParseNsf(FileOf(ps, end, rest));
            && ((forall k :: 0 <= k < |ps| ==> Allowed(ps, k)) ==> r == Finish(Read(ps), true))
            && forall k :: 0 <= k < |ps| && !Allowed(ps, k) && (forall j :: 0 <= j < k ==> Allowed(ps, j))
                           ==> r == Err(Complaint(ps, k))
  {
    hide Walk, Allowed, Complaint, Finish, Encode, Encoded, LastOf;
    var b, tail := FileOf(ps, end, rest), Encoded(Piece(NEND, end)) + rest;
    assert b[..4] == NSFE_MAGIC && b[4..] == Encode(ps) + tail;
    assert ps[..0] == [] && ps[0..] == ps;
    assert Read([]) == UNREAD by { NothingRead(); }
    WalkReads(ps, 0, tail);
    WalkEnds(Read(ps), end, rest);
  }

  lemma NothingRead()
    ensures Read([]) == UNREAD
  {
  }

  lemma WalkEnds(st: Scan, end: Bytes, rest: Bytes)
    requires |end| <= U32_MAX
    ensures Walk(Encoded(Piece(NEND, end)) + rest, st) == Ended(st, true, 8 + |end|)
  {
    hide NextChunk, ScanStep;
    assert Encoded(Piece(NEND, end)) + rest != [];
    ChunkReadsBack(Piece(NEND, end), rest);
  }

  lemma {:induction false} FirstBad(ps: seq<Piece>, n: nat)
    requires n <= |ps| && exists i :: 0 <= i < n && !Allowed(ps, i)
    ensures exists k :: 0 <= k < n && !Allowed(ps, k) && forall j :: 0 <= j < k ==> Allowed(ps, j)
  {
    hide Allowed;
    if exists i :: 0 <= i < n - 1 && !Allowed(ps, i) {
      FirstBad(ps, n - 1);
    } else {
      assert !Allowed(ps, n - 1);
    }
  }

  lemma DataBehindInfo(ps: seq<Piece>)
    requires (forall i :: 0 <= i < |ps| ==> Allowed(ps, i)) && forall p :: p in ps ==> Fits(p)
    ensures LastOf(ps, DATA).Some? ==> Read(ps).info.Some?
  {
    LastIs(ps, DATA);
    LastIs(ps, INFO);
    assert ps[..|ps|] == ps;
    InfosRead(ps, |ps|);
    hide ParseInfo, LastOf, Kept, Fits, Mandatory, Encode, BankOf;
    if LastOf(ps, DATA).Some? {
      var i :| 0 <= i < |ps| && ps[i].tag == DATA;
      assert Allowed(ps, i);
    }
  }

  lemma {:induction false} KeptIs(ps: seq<Piece>)
    ensures forall p :: p in ps && !HeaderTag(p.tag) ==> p in Kept(ps)
  {
    if ps != [] {
      KeptIs(ps[..|ps| - 1]);
    }
  }

  lemma KeptAccepted(ps: seq<Piece>)
    requires (forall p :: p in ps ==> Fits(p) && p.tag != NEND) && forall i :: 0 <= i < |ps| ==> Allowed(ps, i)
    ensures ParseMetadata(Encode(Kept(ps))).Ok? <==> forall p :: p in ps ==> !Malformed(p)
  {
    hide Apply, Kept, Encode, ApplyAll;
    KeptIs(ps);
    RunMeans(Kept(ps), NOTHING);
    assert forall k :: k in Kept(ps) ==> k in ps;
    forall k | k in Kept(ps)
      ensures Mandatory(k.tag) ==> k.tag == RATE || k.tag == VRC7
    {
      var i :| 0 <= i < |ps| && ps[i] == k;
      assert Allowed(ps, i);
    }
    MetadataAccepts(NOTHING, Kept(ps));
  }

  /** What an accepted file says: the last chunk of each name counts. */
  lemma NsfeContents(ps: seq<Piece>, end: Bytes, rest: Bytes)
    requires (forall p :: p in ps ==> Fits(p) && p.tag != NEND) && |end| <= U32_MAX
    ensures var r := ParseNsf(FileOf(ps, end, rest));
            r.Ok? ==>
            && LastOf(ps, DATA) == Some(r.value.program)
            && LastOf(ps, INFO).Some? && |LastOf(ps, INFO).value| >= 9
            && (var body := LastOf(ps, INFO).value;
                && r.value.addresses == Addresses(Le16(body, 0), Le16(body, 2), Le16(body, 4))
                && r.value.expansion == body[7] && r.value.totalSongs == body[8]
                && r.value.startingSong == if |body| >= 10 then body[9] else 0)
            && r.value.bank == (match LastOf(ps, BANK) case Some(body) => BankOf(body) case None => [0, 0, 0, 0, 0, 0, 0, 0])
            && r.value.nsf2 == (match LastOf(ps, NSF2) case Some(body) => if |body| > 0 then body[0] else 0 case None => 0)
            && r.value.version == (if r.value.nsf2 != 0 then 2 else 1)
            && r.value.isNsfe && r.value.nsf2Metadata == []
            && ApplyAll(NOTHING, Kept(ps)) == Ok(r.value.metadata.(trackLabels := r.value.trackLabels))
  {
    FileReads(ps, end, rest);
    NsfeAcceptsIff(ps, end, rest);
    var r := ParseNsf(FileOf(ps, end, rest));
    if r.Ok? {
      RunMeans(Kept(ps), NOTHING);
      assert ps[..|ps|] == ps;
      InfosRead(ps, |ps|);
      NoBanks();
      hide ParseNsf, Walk, Kept, LastOf, Encode, Encoded, ParseInfo;
      InfoLayout(LastOf(ps, INFO).value);
    }
  }

  lemma NoBanks()
    ensures Zeros(8) == [0, 0, 0, 0, 0, 0, 0, 0]
  {
  }

  /** And every accepted NSFe file is of that form. */
  lemma EveryNsfe(b: Bytes) returns (ps: seq<Piece>, end: Bytes, rest: Bytes)
    requires IsNsfe(b) && ParseNsf(b).Ok?
    ensures (forall p :: p in ps ==> Fits(p) && p.tag != NEND) && |end| <= U32_MAX && b == FileOf(ps, end, rest)
  {
    hide Walk, Encode, Encoded, ParseMetadata;
    assert Walk(b[4..], UNREAD).nend;
    ps, end, rest := EveryRun(b[4..], UNREAD);
    assert b == b[..4] + b[4..];
  }

  lemma {:induction false} EveryRun(b: Bytes, st: Scan) returns (ps: seq<Piece>, end: Bytes, rest: Bytes)
    requires Walk(b, st).Ended? && Walk(b, st).nend
    ensures (forall p :: p in ps ==> Fits(p) && p.tag != NEND) && |end| <= U32_MAX
    ensures b == Encode(ps) + (Encoded(Piece(NEND, end)) + rest)
    decreases |b|
  {
    hide ScanStep, NextChunk, Encoded;
    var f := NextChunk(b);
    var p := Piece(f.tag, f.body);
    FirstIs(b);
    if f.tag == NEND {
      ps, end, rest := [], f.body, f.rest;
      assert b == [] + (Encoded(p) + f.rest);
    } else {
      ps, end, rest := EveryRun(f.rest, ScanStep(st, f.tag, f.body).value);
      var tail := Encoded(Piece(NEND, end)) + rest;
      assert b == (Encoded(p) + Encode(ps)) + tail;
      ps := [p] + ps;
    }
  }

  lemma FirstIs(b: Bytes)
    requires b != [] && NextChunk(b).Chunk?
    ensures var f := NextChunk(b); b == Encoded(Piece(f.tag, f.body)) + f.rest
  {
    var size: int := Word32(b, 0);
    WordSpells(b, 0);
    WordSpells(b, 4);
    hide Word32, U32Le;
    assert |b[8..8 + size]| == size;
    assert b == b[0..4] + b[4..8] + b[8..8 + size] + b[8 + size..];
  }

  lemma WordSpells(b: Bytes, i: nat)
    requires i + 4 <= |b|
    ensures U32Le(Word32(b, i)) == b[i..i + 4]
  {
    FourDigits(b[i], b[i + 1], b[i + 2], b[i + 3]);
    assert b[i..i + 4] == [b[i], b[i + 1], b[i + 2], b[i + 3]];
  }

  lemma FourDigits(a: int, b: int, c: int, d: int)
    requires 0 <= a < 0x100 && 0 <= b < 0x100 && 0 <= c < 0x100 && 0 <= d < 0x100
    ensures var w := a + 0x100 * b + 0x1_0000 * (c + 0x100 * d);
            w % 0x100 == a && w / 0x100 % 0x100 == b && w / 0x1_0000 % 0x100 == c && w / 0x100_0000 == d
  {
  }
}
