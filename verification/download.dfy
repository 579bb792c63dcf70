/** The name of the file the finished take is downloaded as:
    `recording-` + the first 19 characters of the ISO-8601 timestamp with every
    colon replaced by a hyphen + `.` + the lower-cased recording format. The
    current time is a parameter. */
module Download {
  import opened Digits

  /** A calendar instant in UTC, as `Date` exposes it through `toISOString`. */
  datatype Instant = Instant(year: int, month: nat, day: nat, hour: nat, minute: nat, second: nat, millis: nat)

  /** The years a `Date` can represent (time values within 8.64e15 ms of the epoch). */
  const MinYear: int := -271821
  const MaxYear: int := 275760

  predicate ValidInstant(t: Instant) {
    && MinYear <= t.year <= MaxYear
    && 1 <= t.month <= 12 && 1 <= t.day <= 31
    && t.hour < 24 && t.minute < 60 && t.second < 60 && t.millis < 1000
  }

  /** The format the component records in (a constant signal). */
  const RecordingFormat: string := "WAV"

  function AsciiLower(s: string): (r: string)
    ensures |r| == |s|
    ensures forall i :: 0 <= i < |s| ==> (r[i] == if 'A' <= s[i] <= 'Z' then (s[i] as int + 32) as char else s[i])
  {
    seq(|s|, i requires 0 <= i < |s| => if 'A' <= s[i] <= 'Z' then (s[i] as int + 32) as char else s[i])
  }

  const FilePrefix: string := "recording-"
  const FileExtension: string := "wav"
  const StampLength: nat := 19

  /** `n.toString().padStart(width, '0')` */
  function PadDigits(n: nat, width: nat): string {
    PadStart(NatToString(n), width, '0')
  }

  /** A number below 10^width fills the width exactly. */
  lemma PadDigitsLength(n: nat, width: nat)
    requires width >= 1 && n < Pow10(width)
    ensures |PadDigits(n, width)| == width
  {
    NatToStringLength(n, width);
  }

  lemma Pow10Values()
    ensures Pow10(2) == 100 && Pow10(3) == 1000 && Pow10(4) == 10000 && Pow10(6) == 1000000
  {
    assert Pow10(1) == 10;
    assert Pow10(5) == 100000;
  }

  /** Four digits for years 0 through 9999, otherwise a sign and six digits. */
  function YearField(year: int): string {
    if 0 <= year <= 9999 then PadDigits(year, 4)
    else (if year < 0 then "-" else "+") + PadDigits(if year < 0 then -year else year, 6)
  }

  /** `Date.prototype.toISOString`: `YYYY-MM-DDTHH:mm:ss.sssZ`. */
  function IsoString(t: Instant): (r: string)
    requires ValidInstant(t)
  {
    IsoLayout(YearField(t.year), PadDigits(t.month, 2), PadDigits(t.day, 2),
              PadDigits(t.hour, 2), PadDigits(t.minute, 2), PadDigits(t.second, 2), PadDigits(t.millis, 3))
  }

  /** The punctuation of an ISO-8601 timestamp around its rendered fields. */
  function IsoLayout(y: string, mo: string, d: string, h: string, mi: string, se: string, ms: string): string {
    y + "-" + mo + "-" + d + "T" + h + ":" + mi + ":" + se + "." + ms + "Z"
  }

  predicate NoColon(s: string) {
    forall i :: 0 <= i < |s| ==> s[i] != ':'
  }

  /** `replace(/:/g, '-')` */
  function ReplaceColons(s: string): (r: string)
    ensures |r| == |s|
    ensures forall i :: 0 <= i < |s| ==> r[i] == if s[i] == ':' then '-' else s[i]
    ensures NoColon(r)
  {
    seq(|s|, i requires 0 <= i < |s| => if s[i] == ':' then '-' else s[i])
  }

  lemma NoColonConcat(a: string, b: string)
    requires NoColon(a) && NoColon(b)
    ensures NoColon(a + b)
  {
    forall i | 0 <= i < |a + b|
      ensures (a + b)[i] != ':'
    {
      if i >= |a| {
        assert (a + b)[i] == b[i - |a|];
      }
    }
  }

  /** The timestamp part of the file name. */
  function Stamp(t: Instant): (r: string)
    requires ValidInstant(t)
    ensures |r| == StampLength
    ensures NoColon(r)
  {
    IsoFacts(t);
    ReplaceColons(IsoString(t)[..StampLength])
  }

  /** The download name of a take finished at `t`: the prefix, the stamp and
      the `.wav` extension, 33 characters, none of them a colon. */
  function Filename(t: Instant): (r: string)
    requires ValidInstant(t)
    ensures |r| == |FilePrefix| + StampLength + 1 + |RecordingFormat|
    ensures r[..|FilePrefix|] == FilePrefix
    ensures r[|FilePrefix|..|FilePrefix| + StampLength] == Stamp(t)
    ensures r[|FilePrefix| + StampLength..] == "." + FileExtension
    ensures NoColon(r)
  {
    SuffixFacts();
    var stamp := Stamp(t);
    JoinName(stamp, "." + FileExtension);
    FilePrefix + stamp + ("." + FileExtension)
  }

  lemma SuffixFacts()
    ensures |"." + FileExtension| == 4 && NoColon("." + FileExtension) && NoColon(FilePrefix)
  {
  }

  lemma JoinName(stamp: string, tail: string)
    requires |stamp| == StampLength && NoColon(stamp) && NoColon(tail) && NoColon(FilePrefix)
    ensures var r := FilePrefix + stamp + tail;
      && r[..|FilePrefix|] == FilePrefix
      && r[|FilePrefix|..|FilePrefix| + StampLength] == stamp
      && r[|FilePrefix| + StampLength..] == tail
      && NoColon(r)
  {
    NoColonConcat(FilePrefix, stamp);
    NoColonConcat(FilePrefix + stamp, tail);
  }

  /** The MIME type of the downloaded blob. */
  function MimeType(): (m: string)
    ensures m == "audio/wav"
  {
    "audio/" + FileExtension
  }

  /** The extension and MIME subtype are `recordingFormat().toLowerCase()`. */
  lemma ExtensionIsLowerFormat()
    ensures AsciiLower(RecordingFormat) == FileExtension
  {
    var ext := AsciiLower(RecordingFormat);
    assert ext[0] == 'w' && ext[1] == 'a' && ext[2] == 'v';
  }

  /** Field layout of the ISO string, the part the file name keeps. */
  lemma IsoFacts(t: Instant)
    requires ValidInstant(t)
    ensures |IsoString(t)| == |YearField(t.year)| + 20
    ensures 0 <= t.year <= 9999 ==> |YearField(t.year)| == 4
    ensures !(0 <= t.year <= 9999) ==> |YearField(t.year)| == 7
  {
    Pow10Values();
    YearFieldLength(t.year);
    PadDigitsLength(t.month, 2);
    PadDigitsLength(t.day, 2);
    PadDigitsLength(t.hour, 2);
    PadDigitsLength(t.minute, 2);
    PadDigitsLength(t.second, 2);
    PadDigitsLength(t.millis, 3);
  }

  lemma YearFieldLength(year: int)
    requires MinYear <= year <= MaxYear
    ensures 0 <= year <= 9999 ==> |YearField(year)| == 4
    ensures !(0 <= year <= 9999) ==> |YearField(year)| == 7
  {
    Pow10Values();
    if 0 <= year <= 9999 {
      PadDigitsLength(year, 4);
    } else {
      var magnitude: nat := if year < 0 then -year else year;
      PadDigitsLength(magnitude, 6);
    }
  }

  /** The shape of a stamp for a year in 0..9999: `YYYY-MM-DDTHH-mm-ss`. */
  predicate IsStamp(s: string) {
    && |s| == StampLength
    && AllDigits(s[0..4]) && s[4] == '-' && AllDigits(s[5..7]) && s[7] == '-'
    && AllDigits(s[8..10]) && s[10] == 'T' && AllDigits(s[11..13]) && s[13] == '-'
    && AllDigits(s[14..16]) && s[16] == '-' && AllDigits(s[17..19])
  }

  /** Reads the date and time back out of a stamp; milliseconds are not kept. */
  function ReadStamp(s: string): Instant
    requires IsStamp(s)
  {
    Instant(Value(s[0..4]), Value(s[5..7]), Value(s[8..10]), Value(s[11..13]), Value(s[14..16]), Value(s[17..19]), 0)
  }

  /** Replacing colons leaves a colon-free stretch unchanged. */
  lemma ReplaceColonsKeepsDigits(s: string, lo: nat, hi: nat)
    requires lo <= hi <= |s| && AllDigits(s[lo..hi])
    ensures ReplaceColons(s)[lo..hi] == s[lo..hi]
  {
    var r := ReplaceColons(s);
    forall i | lo <= i < hi
      ensures r[i] == s[i]
    {
      assert s[lo..hi][i - lo] == s[i];
    }
  }

  /** The first 19 characters of a timestamp with a four-digit year run up
      to the seconds; with a seven-character year they stop after the minutes. */
  lemma LayoutPrefix(y: string, mo: string, d: string, h: string, mi: string, se: string, ms: string)
    requires |y| == 4 || |y| == 7
    requires |mo| == 2 && |d| == 2 && |h| == 2 && |mi| == 2 && |se| == 2 && |ms| == 3
    ensures |y| == 4 ==> IsoLayout(y, mo, d, h, mi, se, ms)[..StampLength] == y + "-" + mo + "-" + d + "T" + h + ":" + mi + ":" + se
    ensures |y| == 7 ==> IsoLayout(y, mo, d, h, mi, se, ms)[..StampLength] == y + "-" + mo + "-" + d + "T" + h + ":" + mi
  {
    var head := y + "-" + mo + "-" + d + "T" + h + ":" + mi;
    var full := IsoLayout(y, mo, d, h, mi, se, ms);
    assert full == head + (":" + se + "." + ms + "Z");
    if |y| == 4 {
      assert full == (head + ":" + se) + ("." + ms + "Z");
    }
  }

  /** Where each field sits in a stamp with a four-digit year. */
  lemma StampSlices(y: string, mo: string, d: string, h: string, mi: string, se: string)
    requires |y| == 4 && |mo| == 2 && |d| == 2 && |h| == 2 && |mi| == 2 && |se| == 2
    ensures var p := y + "-" + mo + "-" + d + "T" + h + ":" + mi + ":" + se;
      && |p| == StampLength
      && p[0..4] == y && p[4] == '-' && p[5..7] == mo && p[7] == '-' && p[8..10] == d && p[10] == 'T'
      && p[11..13] == h && p[13] == ':' && p[14..16] == mi && p[16] == ':' && p[17..19] == se
  {
  }

  /** Replacing the colons of a four-digit-year prefix yields a stamp whose
      fields read back as the rendered values. */
  lemma ReadReplacedPrefix(y: string, mo: string, d: string, h: string, mi: string, se: string)
    requires |y| == 4 && |mo| == 2 && |d| == 2 && |h| == 2 && |mi| == 2 && |se| == 2
    requires AllDigits(y) && AllDigits(mo) && AllDigits(d) && AllDigits(h) && AllDigits(mi) && AllDigits(se)
    ensures var r := ReplaceColons(y + "-" + mo + "-" + d + "T" + h + ":" + mi + ":" + se);
      && IsStamp(r)
      && ReadStamp(r) == Instant(Value(y), Value(mo), Value(d), Value(h), Value(mi), Value(se), 0)
  {
    var p := y + "-" + mo + "-" + d + "T" + h + ":" + mi + ":" + se;
    StampSlices(y, mo, d, h, mi, se);
    ReplaceColonsKeepsDigits(p, 0, 4);
    ReplaceColonsKeepsDigits(p, 5, 7);
    ReplaceColonsKeepsDigits(p, 8, 10);
    ReplaceColonsKeepsDigits(p, 11, 13);
    ReplaceColonsKeepsDigits(p, 14, 16);
    ReplaceColonsKeepsDigits(p, 17, 19);
  }

  /** With a four-digit year the stamp is the date and time with hyphens in
      place of the colons. */
  lemma StampLayout(t: Instant)
    requires ValidInstant(t) && 0 <= t.year <= 9999
    ensures Stamp(t) == ReplaceColons(PadDigits(t.year, 4) + "-" + PadDigits(t.month, 2) + "-" + PadDigits(t.day, 2)
                                      + "T" + PadDigits(t.hour, 2) + ":" + PadDigits(t.minute, 2) + ":" + PadDigits(t.second, 2))
  {
    Pow10Values();
    YearFieldLength(t.year);
    PadDigitsLength(t.month, 2);
    PadDigitsLength(t.day, 2);
    PadDigitsLength(t.hour, 2);
    PadDigitsLength(t.minute, 2);
    PadDigitsLength(t.second, 2);
    PadDigitsLength(t.millis, 3);
    LayoutPrefix(YearField(t.year), PadDigits(t.month, 2), PadDigits(t.day, 2),
                 PadDigits(t.hour, 2), PadDigits(t.minute, 2), PadDigits(t.second, 2), PadDigits(t.millis, 3));
  }

  /** For years 0 through 9999 the file name keeps the instant down to the
      second: reading the stamp back gives the instant without milliseconds. */
  lemma StampRoundTrip(t: Instant)
    requires ValidInstant(t) && 0 <= t.year <= 9999
    ensures IsStamp(Stamp(t))
    ensures ReadStamp(Stamp(t)) == t.(millis := 0)
  {
    Pow10Values();
    PadDigitsLength(t.year, 4);
    PadDigitsLength(t.month, 2);
    PadDigitsLength(t.day, 2);
    PadDigitsLength(t.hour, 2);
    PadDigitsLength(t.minute, 2);
    PadDigitsLength(t.second, 2);
    ValueOfPadded(t.year, 4);
    ValueOfPadded(t.month, 2);
    ValueOfPadded(t.day, 2);
    ValueOfPadded(t.hour, 2);
    ValueOfPadded(t.minute, 2);
    ValueOfPadded(t.second, 2);
    StampLayout(t);
    ReadReplacedPrefix(PadDigits(t.year, 4), PadDigits(t.month, 2), PadDigits(t.day, 2),
                       PadDigits(t.hour, 2), PadDigits(t.minute, 2), PadDigits(t.second, 2));
  }

  /** Outside years 0 through 9999 the ISO string starts with a sign and six
      year digits, so the first 19 characters stop after the minutes: two
      instants of the same minute get the same file name. */
  lemma FilenameDropsSecondsForExpandedYears(t: Instant, u: Instant)
    requires ValidInstant(t) && ValidInstant(u) && !(0 <= t.year <= 9999)
    requires u == t.(second := u.second, millis := u.millis)
    ensures Filename(t) == Filename(u)
  {
    Pow10Values();
    YearFieldLength(t.year);
    PadDigitsLength(t.month, 2);
    PadDigitsLength(t.day, 2);
    PadDigitsLength(t.hour, 2);
    PadDigitsLength(t.minute, 2);
    PadDigitsLength(t.second, 2);
    PadDigitsLength(u.second, 2);
    PadDigitsLength(t.millis, 3);
    PadDigitsLength(u.millis, 3);
    var y, mo, d := YearField(t.year), PadDigits(t.month, 2), PadDigits(t.day, 2);
    var h, mi := PadDigits(t.hour, 2), PadDigits(t.minute, 2);
    LayoutPrefix(y, mo, d, h, mi, PadDigits(t.second, 2), PadDigits(t.millis, 3));
    LayoutPrefix(y, mo, d, h, mi, PadDigits(u.second, 2), PadDigits(u.millis, 3));
    assert Stamp(t) == Stamp(u);
  }
}
