/** The upload guard for photos: a bounded walk over the segments of a JPEG
    (Annex B of ITU-T T.81) to the first Exif block, and over the first
    directory of the TIFF inside it, looking for the GPS tag. */
module Photo {

  type Byte = b: nat | b < 256
  type Bytes = seq<Byte>

  const GPS_IFD_TAG: nat := 0x8825
  const EXIF_HEADER: Bytes := [0x45, 0x78, 0x69, 0x66, 0, 0]

  predicate IsJpeg(bytes: Bytes) {
    |bytes| >= 3 && bytes[0] == 0xFF && bytes[1] == 0xD8 && bytes[2] == 0xFF
  }

  predicate Standalone(marker: Byte) {
    marker == 0xD8 || 0xD0 <= marker <= 0xD7
  }

  function Be16(b: Bytes, at: nat): (n: nat)
    requires at + 2 <= |b|
    ensures n < 0x1_0000
  {
    var high: nat := b[at];
    high * 256 + b[at + 1]
  }

  function U16(le: bool, b: Bytes, at: nat): (n: nat)
    requires at + 2 <= |b|
    ensures n < 0x1_0000
  {
    if le then (var high: nat := b[at + 1]; high * 256 + b[at]) else Be16(b, at)
  }

  function U32(le: bool, b: Bytes, at: nat): nat
    requires at + 4 <= |b|
  {
    if le then U16(le, b, at + 2) * 0x1_0000 + U16(le, b, at) else U16(le, b, at) * 0x1_0000 + U16(le, b, at + 2)
  }

  /** A slice that never runs past the end. */
  function Sub(b: Bytes, from: nat, to: nat): Bytes {
    var end := if to <= |b| then to else |b|;
    if from <= end then b[from..end] else []
  }

  // ----------------------------------------------------------- what the scan computes

  function TagListed(le: bool, tiff: Bytes, ifd0: nat, i: nat, count: nat): bool
    decreases count - i
  {
    var entry := ifd0 + 2 + i * 12;
    if i >= count || entry + 12 > |tiff| then false
    else U16(le, tiff, entry) == GPS_IFD_TAG || TagListed(le, tiff, ifd0, i + 1, count)
  }

  predicate GpsInTiff(tiff: Bytes) {
    && |tiff| >= 8
    && (tiff[..2] == [0x49, 0x49] || tiff[..2] == [0x4D, 0x4D])
    && var le := tiff[..2] == [0x49, 0x49];
       && U16(le, tiff, 2) == 42
       && U32(le, tiff, 4) + 2 <= |tiff|
       && TagListed(le, tiff, U32(le, tiff, 4), 0, U16(le, tiff, U32(le, tiff, 4)))
  }

  /** What the walk makes of the bytes at an offset: give up, go on, or an Exif
      block between two offsets. */
  datatype Stride = Stop | Go(to: nat) | Exif(from: nat, to: nat)

  function StrideAt(bytes: Bytes, offset: nat): (s: Stride)
    requires offset + 4 <= |bytes|
    ensures s.Go? ==> offset < s.to <= |bytes|
  {
    var marker := bytes[offset + 1];
    if bytes[offset] != 0xFF then Stop
    else if Standalone(marker) then Go(offset + 2)
    else if marker == 0xDA || marker == 0xD9 then Stop
    else
      var length := Be16(bytes, offset + 2);
      if length < 2 || offset + 2 + length > |bytes| then Stop
      else if marker == 0xE1 && Sub(bytes, offset + 4, offset + 10) == EXIF_HEADER then Exif(offset + 10, offset + 2 + length)
      else Go(offset + 2 + length)
  }

  predicate GpsFrom(bytes: Bytes, offset: nat)
    decreases |bytes| - offset
  {
    if offset + 4 > |bytes| then false
    else
      match StrideAt(bytes, offset)
      case Stop => false
      case Go(to) => GpsFrom(bytes, to)
      case Exif(from, to) => GpsInTiff(Sub(bytes, from, to))
  }

  method TiffHasGpsIfd(tiff: Bytes) returns (found: bool)
    ensures found <==> GpsInTiff(tiff)
  {
    if |tiff| < 8 { return false; }
    var order := tiff[..2];
    var le := order == [0x49, 0x49];
    if !le && order != [0x4D, 0x4D] { return false; }
    if U16(le, tiff, 2) != 42 { return false; }
    var ifd0 := U32(le, tiff, 4);
    if ifd0 + 2 > |tiff| { return false; }
    var count := U16(le, tiff, ifd0);
    for i: nat := 0 to count
      invariant TagListed(le, tiff, ifd0, 0, count) == TagListed(le, tiff, ifd0, i, count)
    {
      var entry := ifd0 + 2 + i * 12;
      if entry + 12 > |tiff| { return false; }
      if U16(le, tiff, entry) == GPS_IFD_TAG { return true; }
    }
    return false;
  }

  /** Terminates on every input, and never reads past its end. */
  method JpegHasGpsExif(bytes: Bytes) returns (found: bool)
    ensures found <==> IsJpeg(bytes) && GpsFrom(bytes, 2)
  {
    hide GpsInTiff, Sub, Be16;
    if !IsJpeg(bytes) { return false; }
    var offset: nat := 2;
    while offset + 4 <= |bytes|
      invariant GpsFrom(bytes, 2) == GpsFrom(bytes, offset)
      decreases |bytes| - offset
    {
      if bytes[offset] != 0xFF { return false; }
      var marker := bytes[offset + 1];
      if Standalone(marker) {
        offset := offset + 2;
        continue;
      }
      if marker == 0xDA || marker == 0xD9 { return false; }
      var length := Be16(bytes, offset + 2);
      if length < 2 || offset + 2 + length > |bytes| { return false; }
      if marker == 0xE1 && Sub(bytes, offset + 4, offset + 10) == EXIF_HEADER {
        found := TiffHasGpsIfd(Sub(bytes, offset + 10, offset + 2 + length));
        return;
      }
      offset := offset + 2 + length;
    }
    return false;
  }

  // ----------------------------------------------------------- the format

  const TEM: Byte := 0x01

  /** The markers that stand alone (table B.1 of ITU-T T.81): TEM, RST0 to RST7 and
      SOI; EOI ends the image. */
  predicate StandsAlone(m: Byte) {
    m == TEM || 0xD0 <= m <= 0xD8
  }

  /** A segment: a bare marker, or one with a payload. */
  datatype Segment = Bare(marker: Byte) | Marked(marker: Byte, payload: Bytes)

  predicate WellFormed(s: Segment) {
    match s
    case Bare(m) => StandsAlone(m)
    case Marked(m, payload) =>
      !StandsAlone(m) && m != 0 && m != 0xDA && m != 0xD9 && m != 0xFF && |payload| <= 65533
  }

  function W16(le: bool, n: nat): Bytes
    requires n < 0x1_0000
  {
    if le then [n % 256, n / 256] else [n / 256, n % 256]
  }

  function W32(le: bool, n: nat): Bytes
    requires n < 0x1_0000_0000
  {
    if le then W16(le, n % 0x1_0000) + W16(le, n / 0x1_0000) else W16(le, n / 0x1_0000) + W16(le, n % 0x1_0000)
  }

  function Written(s: Segment): Bytes
    requires WellFormed(s)
  {
    match s
    case Bare(m) => [0xFF, m]
    case Marked(m, payload) => [0xFF, m] + W16(false, |payload| + 2) + payload
  }

  function WrittenAll(segments: seq<Segment>): Bytes
    requires forall s <- segments :: WellFormed(s)
  {
    if segments == [] then [] else Written(segments[0]) + WrittenAll(segments[1..])
  }

  /** What may follow the segments: the scan, the end, or nothing. */
  predicate Ending(tail: Bytes) {
    tail == [] || (|tail| >= 2 && tail[0] == 0xFF && (tail[1] == 0xDA || tail[1] == 0xD9))
  }

  function Jpeg(segments: seq<Segment>, tail: Bytes): Bytes
    requires forall s <- segments :: WellFormed(s)
  {
    [0xFF, 0xD8] + WrittenAll(segments) + tail
  }

  predicate IsExif(s: Segment) {
    s.Marked? && s.marker == 0xE1 && EXIF_HEADER <= s.payload
  }

  /** Whether the first Exif segment lists the GPS tag. */
  predicate FirstExifHasGps(segments: seq<Segment>) {
    if segments == [] then false
    else if IsExif(segments[0]) then GpsInTiff(segments[0].payload[6..])
    else FirstExifHasGps(segments[1..])
  }

  /** A TEM marker before the first Exif segment. */
  predicate EarlyTem(segments: seq<Segment>) {
    segments != [] && !IsExif(segments[0]) && (segments[0] == Bare(TEM) || EarlyTem(segments[1..]))
  }

  lemma W16Inverse(le: bool, n: nat, b: Bytes, at: nat)
    requires n < 0x1_0000 && at + 2 <= |b| && b[at..at + 2] == W16(le, n)
    ensures U16(le, b, at) == n
  {
    assert b[at] == b[at..at + 2][0] && b[at + 1] == b[at..at + 2][1];
  }

  lemma W32Inverse(le: bool, n: nat, b: Bytes, at: nat)
    requires n < 0x1_0000_0000 && at + 4 <= |b| && b[at..at + 4] == W32(le, n)
    ensures U32(le, b, at) == n
  {
    var lo, hi := n % 0x1_0000, n / 0x1_0000;
    var first, second := if le then lo else hi, if le then hi else lo;
    Halves(b, at, W16(le, first), W16(le, second));
    W16Inverse(le, first, b, at);
    W16Inverse(le, second, b, at + 2);
  }

  lemma Halves(b: Bytes, at: nat, first: Bytes, second: Bytes)
    requires at + 4 <= |b| && |first| == |second| == 2 && b[at..at + 4] == first + second
    ensures b[at..at + 2] == first && b[at + 2..at + 4] == second
  {
    var w := b[at..at + 4];
    assert w[0] == first[0] && w[1] == first[1] && w[2] == second[0] && w[3] == second[1];
    assert b[at] == w[0] && b[at + 1] == w[1] && b[at + 2] == w[2] && b[at + 3] == w[3];
  }

  /** After any prefix, the walk over well-formed segments finds the first Exif one,
      if no TEM comes before it. */
  lemma {:induction false} WalksSegments(prefix: Bytes, segments: seq<Segment>, tail: Bytes)
    requires (forall s <- segments :: WellFormed(s)) && Ending(tail) && !EarlyTem(segments)
    ensures GpsFrom(prefix + WrittenAll(segments) + tail, |prefix|) <==> FirstExifHasGps(segments)
    decreases |segments|
  {
    hide GpsFrom, Written, GpsInTiff, WellFormed, WrittenAll, Ending;
    if segments == [] {
      StopsAtEnding(prefix, tail);
      NothingWritten();
      assert prefix + [] + tail == prefix + tail;
    } else {
      var s, rest := segments[0], segments[1..];
      if !IsExif(s) { WalksSegments(prefix + Written(s), rest, tail); }
      StepsOver(prefix, s, WrittenAll(rest) + tail, rest, tail);
      WrittenFirst(segments);
      Regroup(prefix, Written(s), WrittenAll(rest), tail);
    }
  }

  lemma NothingWritten()
    ensures WrittenAll([]) == []
  {}

  lemma WrittenFirst(segments: seq<Segment>)
    requires segments != [] && forall s <- segments :: WellFormed(s)
    ensures WrittenAll(segments) == Written(segments[0]) + WrittenAll(segments[1..])
  {}

  lemma Regroup(a: Bytes, b: Bytes, c: Bytes, d: Bytes)
    ensures a + (b + c) + d == (a + b) + c + d
    ensures a + b + (c + d) == (a + b) + c + d
  {}

  lemma StopsAtEnding(prefix: Bytes, tail: Bytes)
    requires Ending(tail)
    ensures !GpsFrom(prefix + tail, |prefix|)
  {
    var bytes, at := prefix + tail, |prefix|;
    if at + 4 <= |bytes| { assert bytes[at] == tail[0] && bytes[at + 1] == tail[1]; }
  }

  /** What follows a segment is a marker or nothing. */
  lemma FollowedByMarker(rest: seq<Segment>, tail: Bytes)
    requires (forall s <- rest :: WellFormed(s)) && Ending(tail)
    ensures var more := WrittenAll(rest) + tail; more == [] || (|more| >= 2 && more[0] == 0xFF)
  {
    if rest != [] { assert (WrittenAll(rest) + tail)[0] == Written(rest[0])[0]; }
  }

  lemma StepsOver(prefix: Bytes, s: Segment, more: Bytes, rest: seq<Segment>, tail: Bytes)
    requires WellFormed(s) && s != Bare(TEM) && (forall r <- rest :: WellFormed(r)) && Ending(tail)
    requires more == WrittenAll(rest) + tail
    ensures var bytes := prefix + Written(s) + more;
      GpsFrom(bytes, |prefix|) ==
      if IsExif(s) then GpsInTiff(s.payload[6..]) else GpsFrom(bytes, |prefix| + |Written(s)|)
  {
    FollowedByMarker(rest, tail);
    hide WrittenAll, GpsInTiff;
    match s
    case Bare(m) => StepsOverBare(prefix, m, more);
    case Marked(m, payload) => StepsOverMarked(prefix, s, more);
  }

  lemma StepsOverBare(prefix: Bytes, m: Byte, more: Bytes)
    requires Standalone(m) && (more == [] || (|more| >= 2 && more[0] == 0xFF))
    ensures var bytes := prefix + [0xFF, m] + more; GpsFrom(bytes, |prefix|) == GpsFrom(bytes, |prefix| + 2)
  {
    var bytes := prefix + [0xFF, m] + more;
    assert bytes[|prefix|] == 0xFF && bytes[|prefix| + 1] == m;
  }

  lemma StepsOverMarked(prefix: Bytes, s: Segment, more: Bytes)
    requires WellFormed(s) && s.Marked? && (more == [] || (|more| >= 2 && more[0] == 0xFF))
    ensures var bytes := prefix + Written(s) + more;
      GpsFrom(bytes, |prefix|) ==
      if IsExif(s) then GpsInTiff(s.payload[6..]) else GpsFrom(bytes, |prefix| + |Written(s)|)
  {
    hide Sub, StrideAt, GpsInTiff, GpsFrom, Written;
    StrideOverMarked(prefix, s, more);
    HeaderSeen(prefix, s, more);
    WrittenLength(s);
    OneStride(prefix + Written(s) + more, |prefix|);
  }

  lemma OneStride(bytes: Bytes, offset: nat)
    requires offset + 4 <= |bytes|
    ensures GpsFrom(bytes, offset) ==
      match StrideAt(bytes, offset)
      case Stop => false
      case Go(to) => GpsFrom(bytes, to)
      case Exif(from, to) => GpsInTiff(Sub(bytes, from, to))
  {
    hide StrideAt, GpsInTiff, Sub;
  }

  lemma WrittenLength(s: Segment)
    requires WellFormed(s) && s.Marked?
    ensures |Written(s)| == |s.payload| + 4
  {}

  lemma StrideOverMarked(prefix: Bytes, s: Segment, more: Bytes)
    requires WellFormed(s) && s.Marked? && (more == [] || (|more| >= 2 && more[0] == 0xFF))
    ensures var bytes, at := prefix + Written(s) + more, |prefix|;
      && at + 4 <= |bytes|
      && StrideAt(bytes, at) == if IsExif(s) then Exif(at + 10, at + 4 + |s.payload|) else Go(at + 4 + |s.payload|)
  {
    var bytes, at := prefix + Written(s) + more, |prefix|;
    hide Sub, Be16;
    HeaderSeen(prefix, s, more);
    LengthSeen(prefix, s, more);
    hide W16;
  }

  lemma LengthSeen(prefix: Bytes, s: Segment, more: Bytes)
    requires WellFormed(s) && s.Marked?
    ensures var bytes, at := prefix + Written(s) + more, |prefix|;
      && at + 4 + |s.payload| <= |bytes| && bytes[at] == 0xFF && bytes[at + 1] == s.marker && Be16(bytes, at + 2) == |s.payload| + 2
  {
    var bytes, at := prefix + Written(s) + more, |prefix|;
    assert bytes[at + 2..at + 4] == W16(false, |s.payload| + 2);
    W16Inverse(false, |s.payload| + 2, bytes, at + 2);
  }

  lemma HeaderSeen(prefix: Bytes, s: Segment, more: Bytes)
    requires WellFormed(s) && s.Marked? && (more == [] || more[0] == 0xFF)
    ensures var bytes, at := prefix + Written(s) + more, |prefix|;
      && (Sub(bytes, at + 4, at + 10) == EXIF_HEADER <==> EXIF_HEADER <= s.payload)
      && (EXIF_HEADER <= s.payload ==> Sub(bytes, at + 10, at + 4 + |s.payload|) == s.payload[6..])
  {
    hide Sub;
    var head := prefix + [0xFF, s.marker] + W16(false, |s.payload| + 2);
    assert prefix + Written(s) + more == head + s.payload + more;
    SeenBehind(head, s.payload, more);
  }

  lemma SeenBehind(head: Bytes, p: Bytes, more: Bytes)
    requires more == [] || more[0] == 0xFF
    ensures var bytes, at := head + p + more, |head|;
      && (Sub(bytes, at, at + 6) == EXIF_HEADER <==> EXIF_HEADER <= p)
      && (EXIF_HEADER <= p ==> Sub(bytes, at + 6, at + |p|) == p[6..])
  {
    var bytes, at := head + p + more, |head|;
    var seen := Sub(bytes, at, at + 6);
    assert bytes[at..] == p + more;
    if |p| >= 6 {
      assert seen == bytes[at..][..6] && (p + more)[..6] == p[..6];
      assert bytes[at + 6..at + |p|] == bytes[at..][6..|p|] && (p + more)[6..|p|] == p[6..];
    } else if |p| < |seen| {
      assert seen[|p|] == bytes[at..][|p|] == more[0];
    }
  }

  /** For every JPEG of well-formed segments without TEM before the first Exif one,
      the scan says whether that one, if it comes before the image data, points to
      GPS data. */
  lemma ScanAgreesWithFormat(segments: seq<Segment>, tail: Bytes)
    requires (forall s <- segments :: WellFormed(s)) && Ending(tail) && (segments != [] || tail != []) && !EarlyTem(segments)
    ensures IsJpeg(Jpeg(segments, tail)) && (GpsFrom(Jpeg(segments, tail), 2) <==> FirstExifHasGps(segments))
  {
    WalksSegments([0xFF, 0xD8], segments, tail);
    StartsWithMarker(segments, tail);
    hide GpsFrom, FirstExifHasGps, WrittenAll;
    Opening(WrittenAll(segments), tail);
  }

  lemma TemStride(prefix: Bytes, more: Bytes)
    requires |more| >= 2 && more[0] == 0xFF
    ensures var bytes, at := prefix + [0xFF, TEM] + more, |prefix|;
      var to := at + 2 + 0xFF00 + more[1];
      at + 4 <= |bytes| && StrideAt(bytes, at) == if to <= |bytes| then Go(to) else Stop
  {
    hide Sub;
    var bytes, at, m: nat := prefix + [0xFF, TEM] + more, |prefix|, more[1];
    assert bytes[at] == 0xFF && bytes[at + 1] == TEM && bytes[at + 2] == more[0] && bytes[at + 3] == more[1];
    assert Be16(bytes, at + 2) == 0xFF00 + m;
    hide Be16;
  }

  /** At a TEM the walk takes the next marker for a length, and jumps that far. */
  lemma TemMisread(prefix: Bytes, more: Bytes)
    requires more == [] || (|more| >= 2 && more[0] == 0xFF)
    ensures var bytes := prefix + [0xFF, TEM] + more;
      GpsFrom(bytes, |prefix|) <==>
        && |more| >= 2
        && var to := |prefix| + 2 + 0xFF00 + more[1]; to <= |bytes| && GpsFrom(bytes, to)
  {
    hide StrideAt, GpsFrom;
    var bytes := prefix + [0xFF, TEM] + more;
    if more == [] {
      EndsEarly(bytes, |prefix|);
    } else {
      TemStride(prefix, more);
      OneStride(bytes, |prefix|);
    }
  }

  lemma EndsEarly(bytes: Bytes, offset: nat)
    requires offset + 4 > |bytes|
    ensures !GpsFrom(bytes, offset)
  {}

  /** A file shorter than that ends the walk there. */
  lemma {:induction false} StopsAtTem(prefix: Bytes, segments: seq<Segment>, tail: Bytes)
    requires (forall s <- segments :: WellFormed(s)) && Ending(tail) && EarlyTem(segments)
    requires |prefix + WrittenAll(segments) + tail| < 0xFF02
    ensures !GpsFrom(prefix + WrittenAll(segments) + tail, |prefix|)
    decreases |segments|
  {
    hide GpsFrom, GpsInTiff, WellFormed, WrittenAll, Written, Ending;
    var s, rest := segments[0], segments[1..];
    WrittenFirst(segments);
    Regroup(prefix, Written(s), WrittenAll(rest), tail);
    if s == Bare(TEM) {
      FollowedByMarker(rest, tail);
      TemMisread(prefix, WrittenAll(rest) + tail);
      WrittenTem();
    } else {
      StopsAtTem(prefix + Written(s), rest, tail);
      StepsOver(prefix, s, WrittenAll(rest) + tail, rest, tail);
    }
  }

  lemma WrittenTem()
    ensures WellFormed(Bare(TEM)) && Written(Bare(TEM)) == [0xFF, TEM]
  {}

  /** Of every JPEG of well-formed segments up to 65281 bytes: the scan finds GPS data
      if and only if the first Exif segment points to some and no TEM precedes it. */
  lemma ScanIsExactly(segments: seq<Segment>, tail: Bytes)
    requires (forall s <- segments :: WellFormed(s)) && Ending(tail) && |Jpeg(segments, tail)| < 0xFF02
    ensures GpsFrom(Jpeg(segments, tail), 2) <==> FirstExifHasGps(segments) && !EarlyTem(segments)
  {
    hide GpsFrom, FirstExifHasGps, WrittenAll, EarlyTem;
    if EarlyTem(segments) {
      StopsAtTem([0xFF, 0xD8], segments, tail);
    } else {
      WalksSegments([0xFF, 0xD8], segments, tail);
    }
  }

  lemma Opening(written: Bytes, tail: Bytes)
    requires written + tail != [] && (written + tail)[0] == 0xFF
    ensures IsJpeg([0xFF, 0xD8] + written + tail)
  {
    var b := [0xFF, 0xD8] + written + tail;
    assert b == [0xFF, 0xD8] + (written + tail);
    assert b[2] == (written + tail)[0];
  }

  lemma StartsWithMarker(segments: seq<Segment>, tail: Bytes)
    requires (forall s <- segments :: WellFormed(s)) && Ending(tail) && (segments != [] || tail != [])
    ensures var more := WrittenAll(segments) + tail; more != [] && more[0] == 0xFF
  {
    if segments != [] { assert (WrittenAll(segments) + tail)[0] == Written(segments[0])[0]; }
  }

  // ----------------------------------------------------------- directories

  /** A directory entry: its tag, and the ten bytes behind it. */
  datatype Entry = Entry(tag: nat, rest: Bytes)

  predicate EntryFits(e: Entry) {
    e.tag < 0x1_0000 && |e.rest| == 10
  }

  function WrittenEntry(le: bool, e: Entry): (b: Bytes)
    requires EntryFits(e)
    ensures |b| == 12 && b[..2] == W16(le, e.tag)
  {
    W16(le, e.tag) + e.rest
  }

  function WrittenEntries(le: bool, entries: seq<Entry>): Bytes
    requires forall e <- entries :: EntryFits(e)
  {
    if entries == [] then [] else WrittenEntry(le, entries[0]) + WrittenEntries(le, entries[1..])
  }

  /** A TIFF whose first directory starts after `gap` and holds the entries. */
  function ByteOrder(le: bool): Bytes {
    if le then [0x49, 0x49] else [0x4D, 0x4D]
  }

  function Tiff(le: bool, gap: Bytes, entries: seq<Entry>, after: Bytes): Bytes
    requires (forall e <- entries :: EntryFits(e)) && |entries| < 0x1_0000 && |gap| + 8 < 0x1_0000_0000
  {
    ByteOrder(le) + W16(le, 42) + W32(le, |gap| + 8) + gap
    + W16(le, |entries|) + WrittenEntries(le, entries) + after
  }

  lemma {:induction false} EntriesLength(le: bool, entries: seq<Entry>)
    requires forall e <- entries :: EntryFits(e)
    ensures |WrittenEntries(le, entries)| == 12 * |entries|
  {
    if entries != [] { EntriesLength(le, entries[1..]); }
  }

  /** From the i-th entry on, the scan finds the tag exactly when it is listed. */
  lemma {:induction false} FindsListed(le: bool, tiff: Bytes, ifd0: nat, i: nat, entries: seq<Entry>, after: Bytes)
    requires forall e <- entries :: EntryFits(e)
    requires ifd0 + 2 + i * 12 <= |tiff| && tiff[ifd0 + 2 + i * 12..] == WrittenEntries(le, entries) + after
    ensures TagListed(le, tiff, ifd0, i, i + |entries|) <==> exists e <- entries :: e.tag == GPS_IFD_TAG
    decreases |entries|
  {
    if entries != [] {
      var e, rest, at := entries[0], entries[1..], ifd0 + 2 + i * 12;
      OneEntry(le, tiff, at, e, WrittenEntries(le, rest) + after);
      assert WrittenEntries(le, entries) + after == WrittenEntry(le, e) + (WrittenEntries(le, rest) + after);
      FindsListed(le, tiff, ifd0, i + 1, rest, after);
      assert entries == [e] + rest;
    }
  }

  lemma OneEntry(le: bool, tiff: Bytes, at: nat, e: Entry, more: Bytes)
    requires EntryFits(e) && at <= |tiff| && tiff[at..] == WrittenEntry(le, e) + more
    ensures at + 12 <= |tiff| && U16(le, tiff, at) == e.tag && tiff[at + 12..] == more
  {
    var w := WrittenEntry(le, e);
    assert |tiff[at..]| == 12 + |more|;
    assert tiff[at..at + 2] == tiff[at..][..2] && (w + more)[..2] == w[..2];
    W16Inverse(le, e.tag, tiff, at);
    assert tiff[at + 12..] == tiff[at..][12..] && (w + more)[12..] == more;
  }

  /** In both byte orders, wherever the directory lies. */
  lemma TiffAgrees(le: bool, gap: Bytes, entries: seq<Entry>, after: Bytes)
    requires (forall e <- entries :: EntryFits(e)) && |entries| < 0x1_0000 && |gap| + 8 < 0x1_0000_0000
    ensures GpsInTiff(Tiff(le, gap, entries, after)) <==> exists e <- entries :: e.tag == GPS_IFD_TAG
  {
    hide WrittenEntries, W16, W32, U16, U32, TagListed, Tiff, GpsInTiff;
    var t, ifd0 := Tiff(le, gap, entries, after), |gap| + 8;
    TiffParts(le, gap, entries, after);
    W16Inverse(le, 42, t, 2);
    W32Inverse(le, ifd0, t, 4);
    W16Inverse(le, |entries|, t, ifd0);
    ReadsDirectory(le, t, ifd0, |entries|);
    FindsListed(le, t, ifd0, 0, entries, after);
  }

  lemma ReadsDirectory(le: bool, t: Bytes, ifd0: nat, count: nat)
    requires 8 <= ifd0 && ifd0 + 2 <= |t| && t[..2] == ByteOrder(le)
    requires U16(le, t, 2) == 42 && U32(le, t, 4) == ifd0 && U16(le, t, ifd0) == count
    ensures GpsInTiff(t) <==> TagListed(le, t, ifd0, 0, count)
  {
    hide U16, U32, TagListed;
    assert ByteOrder(le)[0] == if le then 0x49 else 0x4D;
  }

  lemma TiffParts(le: bool, gap: Bytes, entries: seq<Entry>, after: Bytes)
    requires (forall e <- entries :: EntryFits(e)) && |entries| < 0x1_0000 && |gap| + 8 < 0x1_0000_0000
    ensures var t, ifd0 := Tiff(le, gap, entries, after), |gap| + 8;
      && |t| >= ifd0 + 2 && t[..2] == ByteOrder(le) && t[2..4] == W16(le, 42) && t[4..8] == W32(le, ifd0)
      && t[ifd0..ifd0 + 2] == W16(le, |entries|) && t[ifd0 + 2..] == WrittenEntries(le, entries) + after
  {
    hide WrittenEntries;
    assert |W16(le, 42)| == |W16(le, |entries|)| == 2 && |W32(le, |gap| + 8)| == 4;
    hide W16, W32;
    Layout(ByteOrder(le), W16(le, 42), W32(le, |gap| + 8), gap, W16(le, |entries|), WrittenEntries(le, entries), after);
  }

  /** Where the parts of a TIFF lie. */
  lemma Layout(order: Bytes, magic: Bytes, offset: Bytes, gap: Bytes, count: Bytes, entries: Bytes, after: Bytes)
    requires |order| == 2 && |magic| == 2 && |offset| == 4 && |count| == 2
    ensures var t, ifd0 := order + magic + offset + gap + count + entries + after, |gap| + 8;
      && |t| >= ifd0 + 2 && t[..2] == order && t[2..4] == magic && t[4..8] == offset
      && t[ifd0..ifd0 + 2] == count && t[ifd0 + 2..] == entries + after
  {}

  /** The format also lets a marker be preceded by fill bytes. The walk takes the
      fill byte for the marker and stops, so the assumption above is needed. */
  lemma FillByteStopsTheWalk(s: Segment, tail: Bytes)
    requires WellFormed(s) && IsExif(s) && |s.payload| + |tail| < 0xE000
    ensures IsJpeg([0xFF, 0xD8, 0xFF] + Written(s) + tail) && !GpsFrom([0xFF, 0xD8, 0xFF] + Written(s) + tail, 2)
  {
    var bytes := [0xFF, 0xD8, 0xFF] + Written(s) + tail;
    WrittenLength(s);
    StartsAsExif(s);
    hide GpsInTiff, Sub, Written, W16;
    assert bytes[3] == 0xFF && bytes[4] == 0xE1;
    assert Be16(bytes, 4) >= 0xE100;
  }

  lemma StartsAsExif(s: Segment)
    requires WellFormed(s) && IsExif(s)
    ensures |Written(s)| >= 4 && Written(s)[0] == 0xFF && Written(s)[1] == 0xE1
  {}

  lemma {:induction false} FirstExifAfter(before: seq<Segment>, exif: Segment, behind: seq<Segment>)
    requires IsExif(exif) && forall s <- before :: !IsExif(s) && s != Bare(TEM)
    ensures var segments := before + [exif] + behind;
      FirstExifHasGps(segments) == GpsInTiff(exif.payload[6..]) && !EarlyTem(segments)
    decreases |before|
  {
    hide GpsInTiff;
    var segments := before + [exif] + behind;
    if before != [] {
      assert segments[1..] == before[1..] + [exif] + behind && segments[0] == before[0];
      FirstExifAfter(before[1..], exif, behind);
    }
  }

  /** Put together: a JPEG whose first Exif segment, not preceded by TEM, carries a
      TIFF, in either byte order, is found to hold GPS data exactly if the first
      directory of that TIFF lists the GPS tag. */
  lemma GpsTagIsFound(before: seq<Segment>, le: bool, gap: Bytes, entries: seq<Entry>, after: Bytes, behind: seq<Segment>,
                      tail: Bytes)
    requires (forall e <- entries :: EntryFits(e)) && |entries| < 0x1_0000 && |gap| + 8 < 0x1_0000_0000
    requires var exif := Marked(0xE1, EXIF_HEADER + Tiff(le, gap, entries, after));
      (forall s <- before + [exif] + behind :: WellFormed(s)) && Ending(tail)
    requires forall s <- before :: !IsExif(s) && s != Bare(TEM)
    ensures var jpeg := Jpeg(before + [Marked(0xE1, EXIF_HEADER + Tiff(le, gap, entries, after))] + behind, tail);
      IsJpeg(jpeg) && (GpsFrom(jpeg, 2) <==> exists e <- entries :: e.tag == GPS_IFD_TAG)
  {
    hide GpsFrom, GpsInTiff, WrittenAll, WellFormed, Tiff;
    var tiff := Tiff(le, gap, entries, after);
    var exif := Marked(0xE1, EXIF_HEADER + tiff);
    assert exif.payload[6..] == tiff;
    FirstExifAfter(before, exif, behind);
    ScanAgreesWithFormat(before + [exif] + behind, tail);
    TiffAgrees(le, gap, entries, after);
  }
}
