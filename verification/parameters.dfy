/**
 * The values `main` derives before and during each cycle: the sampling rate
 * and the number of samples per file, the file name and the timestamp taken
 * from the local time, and the metadata written into each header file.
 */
module Parameters {
  import opened Wrappers
  import opened Text

  // ---------------------------------------------------------------- samples

  /** The recorder's file size is a whole number of blocks of this many samples. */
  const BlockSize: nat := 2621440

  /** Python's `int()` on a float: truncation toward zero. */
  function Trunc(x: real): int {
    if x >= 0.0 then x.Floor else -((-x).Floor)
  }

  /** The I/Q sampling rate used for a given span: span x 1.25. */
  function SampleRate(span: real): real {
    span * 1.25
  }

  /** The number of samples to record: one block more than the whole blocks in rate x duration. */
  function NumberOfSamples(rate: real, duration: int): int {
    (Trunc(rate * duration as real / BlockSize as real) + 1) * BlockSize
  }

  /**
   * The sample count is a positive multiple of the block size, strictly
   * greater than rate x duration and at most one block above it.
   */
  lemma NumberOfSamplesBounds(rate: real, duration: int)
    requires rate * duration as real >= 0.0
    ensures var n := NumberOfSamples(rate, duration);
      var x := rate * duration as real;
      && n > 0 && n % BlockSize == 0
      && n as real > x && n as real <= x + BlockSize as real
  {
    var x := rate * duration as real;
    var q := (x / BlockSize as real).Floor;
    assert q as real <= x / BlockSize as real < q as real + 1.0;
    assert (q * BlockSize) as real <= x;
    assert x < ((q + 1) * BlockSize) as real;
  }

  /**
   * Among the multiples of the block size that exceed rate x duration, the
   * sample count is the least.
   */
  lemma NumberOfSamplesLeast(rate: real, duration: int, m: int)
    requires rate * duration as real >= 0.0
    requires m % BlockSize == 0 && m as real > rate * duration as real
    ensures NumberOfSamples(rate, duration) <= m
  {
    var x := rate * duration as real;
    var q := (x / BlockSize as real).Floor;
    assert q as real <= x / BlockSize as real;
    var j := m / BlockSize;
    assert m == j * BlockSize;
    assert (j * BlockSize) as real > x;
    assert j as real > x / BlockSize as real;
    assert j > q;
  }

  /**
   * When rate x duration is already a whole number of blocks, one more
   * block is added anyway: the count is never the smallest multiple at or
   * above rate x duration.
   */
  lemma ExactMultipleGetsExtraBlock(rate: real, duration: int, k: nat)
    requires rate * duration as real == (k * BlockSize) as real
    ensures NumberOfSamples(rate, duration) == (k + 1) * BlockSize
  {
    var x := rate * duration as real;
    assert x / BlockSize as real == k as real;
  }

  // ---------------------------------------------------------------- time

  /**
   * The fields of `time.localtime()` that the names use; `utcOffset` is the
   * offset from UTC in seconds (positive east).
   */
  datatype DateTime = DateTime(year: nat, month: nat, day: nat,
                               hour: nat, minute: nat, second: nat, utcOffset: int)

  /** The range `time.localtime()` produces, restricted to four-digit years. */
  predicate Valid(t: DateTime) {
    && 1000 <= t.year <= 9999 && 1 <= t.month <= 12 && 1 <= t.day <= 31
    && t.hour <= 23 && t.minute <= 59 && t.second <= 61
    && -86400 < t.utcOffset < 86400
  }

  function Date(t: DateTime): string {
    Pad(t.year, 4) + Pad(t.month, 2) + Pad(t.day, 2)
  }

  function Time(t: DateTime): string {
    Pad(t.hour, 2) + Pad(t.minute, 2) + Pad(t.second, 2)
  }

  /** `%Y%m%d` + `_` + `%H%M%S`. */
  function FileName(t: DateTime): string {
    Date(t) + "_" + Time(t)
  }

  /** `%z`: sign, then hours and minutes of the offset, each two digits. */
  function Zone(offset: int): string {
    var minutes := (if offset < 0 then -offset else offset) / 60;
    (if offset < 0 then "-" else "+") + Pad(minutes / 60, 2) + Pad(minutes % 60, 2)
  }

  /** `%Y-%m-%d`. */
  function DatePart(t: DateTime): string {
    Pad(t.year, 4) + "-" + Pad(t.month, 2) + "-" + Pad(t.day, 2)
  }

  /** `%H:%M:%S`. */
  function ClockPart(t: DateTime): string {
    Pad(t.hour, 2) + ":" + Pad(t.minute, 2) + ":" + Pad(t.second, 2)
  }

  /** `%Y-%m-%dT%H:%M:%S%z`. */
  function Timestamp(t: DateTime): string {
    DatePart(t) + "T" + ClockPart(t) + Zone(t.utcOffset)
  }

  /** The UTC offset as `%z` can show it: whole minutes, truncated toward zero. */
  function MinuteOffset(offset: int): int {
    if offset < 0 then -((-offset) / 60 * 60) else offset / 60 * 60
  }

  /** Reads three numbers of `w`, 2 and 2 digits written one after the other, as in `%Y%m%d` and `%H%M%S`. */
  function ParseDigits3(s: string, w: nat): Option<(nat, nat, nat)> {
    if |s| == w + 4 && AllDigits(s[..w]) && AllDigits(s[w..w + 2]) && AllDigits(s[w + 2..])
    then Some((Value(s[..w]), Value(s[w..w + 2]), Value(s[w + 2..])))
    else None
  }

  /** Reads a date and time back from a file name; the name has no UTC offset. */
  function ParseFileName(s: string): Option<DateTime> {
    if |s| == 15 && s[8] == '_' then
      match (ParseDigits3(s[..8], 4), ParseDigits3(s[9..], 2))
      case (Some(d), Some(c)) => Some(DateTime(d.0, d.1, d.2, c.0, c.1, c.2, 0))
      case _ => None
    else None
  }

  /**
   * Reads three numbers of `w`, 2 and 2 digits with `sep` between them, as
   * in the date and the clock parts of a timestamp.
   */
  function ParseTriple(s: string, w: nat, sep: char): Option<(nat, nat, nat)> {
    if && |s| == w + 6 && s[w] == sep && s[w + 3] == sep
       && AllDigits(s[..w]) && AllDigits(s[w + 1..w + 3]) && AllDigits(s[w + 4..])
    then Some((Value(s[..w]), Value(s[w + 1..w + 3]), Value(s[w + 4..])))
    else None
  }

  /** The offset in seconds that a `%z` field of sign, hours and minutes denotes. */
  function ZoneSeconds(sign: char, hours: string, minutes: string): int
    requires AllDigits(hours) && AllDigits(minutes)
  {
    var m := Value(hours) * 60 + Value(minutes);
    if sign == '-' then -(m * 60) else m * 60
  }

  /** Reads a `%z` field: a sign and four digits. */
  function ParseZone(z: string): Option<int> {
    if |z| == 5 && (z[0] == '+' || z[0] == '-') && AllDigits(z[1..3]) && AllDigits(z[3..])
    then Some(ZoneSeconds(z[0], z[1..3], z[3..]))
    else None
  }

  /** Reads a date, time and UTC offset back from a timestamp. */
  function ParseTimestamp(s: string): Option<DateTime> {
    if |s| == 24 && s[10] == 'T' then
      match (ParseTriple(s[..10], 4, '-'), ParseTriple(s[11..19], 2, ':'), ParseZone(s[19..]))
      case (Some(d), Some(c), Some(z)) => Some(DateTime(d.0, d.1, d.2, c.0, c.1, c.2, z))
      case _ => None
    else None
  }

  /** Three padded numbers written one after the other read back as those numbers. */
  lemma DigitsRoundTrip(a: nat, b: nat, c: nat, w: nat)
    requires a < Pow10(w) && b < 100 && c < 100
    ensures ParseDigits3(Pad(a, w) + Pad(b, 2) + Pad(c, 2), w) == Some((a, b, c))
  {
    Concat3Parts(Pad(a, w), Pad(b, 2), Pad(c, 2));
    assert Pow10(2) == 100;
    PadRoundTrip(a, w);
    PadRoundTrip(b, 2);
    PadRoundTrip(c, 2);
  }

  /**
   * The file name is the eight-digit date, an underscore and the six-digit
   * time, and it reads back as the date and time it was made from.
   */
  lemma FileNameRoundTrip(t: DateTime)
    requires Valid(t)
    ensures |FileName(t)| == 15 && FileName(t)[8] == '_'
    ensures ParseFileName(FileName(t)) == Some(t.(utcOffset := 0))
  {
    var s := FileName(t);
    Concat3Parts(Date(t), "_", Time(t));
    assert s[8] == s[8..9][0];
    assert Pow10(4) == 10000;
    DigitsRoundTrip(t.year, t.month, t.day, 4);
    DigitsRoundTrip(t.hour, t.minute, t.second, 2);
  }

  /** The `%z` field reads back as the offset in whole minutes, sign included. */
  lemma ZoneRoundTrip(offset: int)
    requires -86400 < offset < 86400
    ensures |Zone(offset)| == 5
    ensures ParseZone(Zone(offset)) == Some(MinuteOffset(offset))
  {
    var minutes := (if offset < 0 then -offset else offset) / 60;
    var sign := if offset < 0 then "-" else "+";
    var hh, mm := Pad(minutes / 60, 2), Pad(minutes % 60, 2);
    Concat3Parts(sign, hh, mm);
    ZoneArithmetic(offset);
    assert Pow10(2) == 100;
    PadRoundTrip(minutes / 60, 2);
    PadRoundTrip(minutes % 60, 2);
    assert ZoneSeconds(sign[0], hh, mm) == MinuteOffset(offset);
  }

  /** The hours and minutes `Zone` shows fit in two digits and make up the offset in whole minutes. */
  lemma ZoneArithmetic(offset: int)
    requires -86400 < offset < 86400
    ensures var minutes := (if offset < 0 then -offset else offset) / 60;
      && minutes / 60 < 24 && minutes % 60 < 60
      && (minutes / 60) * 60 + minutes % 60 == minutes
      && MinuteOffset(offset) == if offset < 0 then -(minutes * 60) else minutes * 60
  {
  }

  /** Three padded numbers with separators read back as those numbers. */
  lemma TripleRoundTrip(a: nat, b: nat, c: nat, w: nat, sep: char)
    requires a < Pow10(w) && b < 100 && c < 100
    ensures ParseTriple(Pad(a, w) + [sep] + Pad(b, 2) + [sep] + Pad(c, 2), w, sep) == Some((a, b, c))
  {
    TripleParts(Pad(a, w), sep, Pad(b, 2), sep, Pad(c, 2));
    assert Pow10(2) == 100;
    PadRoundTrip(a, w);
    PadRoundTrip(b, 2);
    PadRoundTrip(c, 2);
  }

  /**
   * The timestamp is `YYYY-MM-DDTHH:MM:SS` followed by `+hhmm` or `-hhmm`,
   * and it reads back as the date and time it was made from, with the UTC
   * offset in whole minutes.
   */
  lemma TimestampRoundTrip(t: DateTime)
    requires Valid(t)
    ensures |Timestamp(t)| == 24
    ensures ParseTimestamp(Timestamp(t)) == Some(t.(utcOffset := MinuteOffset(t.utcOffset)))
  {
    var d, c, z := DatePart(t), ClockPart(t), Zone(t.utcOffset);
    ZoneRoundTrip(t.utcOffset);
    SeparatedParts(d, 'T', c, z);
    assert Pow10(2) == 100 && Pow10(4) == 10000;
    TripleRoundTrip(t.year, t.month, t.day, 4, '-');
    TripleRoundTrip(t.hour, t.minute, t.second, 2, ':');
  }

  /** The file name and the timestamp of the same local time read back as the same date and time. */
  lemma FileNameAgreesWithTimestamp(t: DateTime)
    requires Valid(t)
    ensures ParseTimestamp(Timestamp(t)).Some?
    ensures ParseFileName(FileName(t)) == Some(ParseTimestamp(Timestamp(t)).value.(utcOffset := 0))
  {
    TimestampRoundTrip(t);
    FileNameRoundTrip(t);
  }

  // ---------------------------------------------------------------- metadata

  /** A JSON value as `json.dump` writes it: integer, float or string. */
  datatype JsonValue = Int(i: int) | Float(x: real) | Str(s: string)

  /** The acquisition parameters `main` starts from. */
  datatype Params = Params(centerFrequency: real, span: real, referenceLevel: real, duration: int)

  /** 245 MHz centre, 5 MHz span, -45 dBm reference level, 2 s per file. */
  const Defaults: Params := Params(245000000.0, 5000000.0, -45.0, 2)

  function FileSize(p: Params): int {
    NumberOfSamples(SampleRate(p.span), p.duration)
  }

  /** The metadata before the first cycle: the parameters and what is derived from them. */
  function BaseMetadata(p: Params): map<string, JsonValue> {
    map[ "center frequency" := Float(p.centerFrequency),
         "span" := Float(p.span),
         "reference level" := Float(p.referenceLevel),
         "duration" := Int(p.duration),
         "sampling rate" := Float(SampleRate(p.span)),
         "number of samples" := Int(FileSize(p)) ]
  }

  /** The metadata written into a header: the base, the cycle's timestamp and the sample format. */
  function HeaderMetadata(p: Params, timestamp: string): map<string, JsonValue> {
    BaseMetadata(p)["timestamp" := Str(timestamp)]["format" := Str("int16")]
                   ["endian" := Str("little")]["resolution" := Int(16)]
  }

  /** Reads the acquisition parameters back out of a metadata map. */
  function ParamsOf(md: map<string, JsonValue>): Option<Params> {
    if && "center frequency" in md && md["center frequency"].Float?
       && "span" in md && md["span"].Float?
       && "reference level" in md && md["reference level"].Float?
       && "duration" in md && md["duration"].Int?
    then Some(Params(md["center frequency"].x, md["span"].x, md["reference level"].x, md["duration"].i))
    else None
  }

  /**
   * A header's metadata holds exactly the ten keys, gives back the
   * parameters the run was started with, and its derived entries agree
   * with those parameters.
   */
  lemma MetadataRoundTrip(p: Params, timestamp: string)
    ensures var md := HeaderMetadata(p, timestamp);
      && md.Keys == {"center frequency", "span", "reference level", "duration", "sampling rate",
                     "number of samples", "timestamp", "format", "endian", "resolution"}
      && ParamsOf(md) == Some(p)
      && md["sampling rate"] == Float(p.span * 1.25)
      && md["number of samples"] == Int(NumberOfSamples(SampleRate(p.span), p.duration))
      && md["timestamp"] == Str(timestamp)
  {
    var md := HeaderMetadata(p, timestamp);
    assert "center frequency"[0] == 'c' && "span"[0] == 's' && "reference level"[0] == 'r';
    assert "duration"[0] == 'd' && "timestamp"[0] == 't' && "format"[0] == 'f';
    assert "endian"[0] == 'e' && "resolution"[0] == 'r' && "sampling rate"[0] == 's';
    assert "number of samples"[0] == 'n';
    assert "span"[1] == 'p' && "sampling rate"[1] == 'a';
    assert "reference level"[2] == 'f' && "resolution"[2] == 's';
  }

  /** The keys a new cycle sets, over whatever the metadata held before. */
  function Refresh(md: map<string, JsonValue>, timestamp: string): map<string, JsonValue> {
    md["timestamp" := Str(timestamp)]["format" := Str("int16")]["endian" := Str("little")]["resolution" := Int(16)]
  }

  /**
   * Refreshing the metadata for a new cycle gives the header metadata of
   * that cycle, both before the first cycle and after any earlier one.
   */
  lemma MetadataRefresh(p: Params, earlier: string, timestamp: string)
    ensures Refresh(BaseMetadata(p), timestamp) == HeaderMetadata(p, timestamp)
    ensures Refresh(HeaderMetadata(p, earlier), timestamp) == HeaderMetadata(p, timestamp)
  {
  }
}
