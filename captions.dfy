/**
 * The SubRip export of app/components/captions-manager.tsx. Each transcript
 * line becomes a numbered cue whose times are cut out of the ISO 8601 text
 * `new Date(ms).toISOString()` writes (the Date Time String Format of section
 * 21.4.1.32 of ECMA-262, "YYYY-MM-DDTHH:mm:ss.sssZ"): characters 11 to 22,
 * with the '.' before the milliseconds turned into ','.
 */
module Captions {
  import opened Wrappers
  import opened Strings
  import opened YouTube

  const MS_PER_DAY: nat := 86400000

  /** The first millisecond of the year 10000: from there on the ISO text has a six-digit year. */
  const ISO_LIMIT: nat := 253402300800000

  // ---- The calendar of `toISOString` (proleptic Gregorian, UTC) ----------------

  predicate Leap(y: nat) {
    y % 4 == 0 && (y % 100 != 0 || y % 400 == 0)
  }

  function DaysInYear(y: nat): nat {
    if Leap(y) then 366 else 365
  }

  /** The days from 1 January of the year 0 to 1 January of the year `y`. */
  function DaysBefore(y: nat): int {
    365 * y + (y + 3) / 4 - (y + 99) / 100 + (y + 399) / 400
  }

  lemma DaysBeforeStep(y: nat)
    ensures DaysBefore(y + 1) - DaysBefore(y) == DaysInYear(y)
  {
    Step4(y);
    Step100(y);
    Step400(y);
    DivisorChain(y);
    assert DaysBefore(y + 1) - DaysBefore(y)
        == 365 + ((y + 4) / 4 - (y + 3) / 4) - ((y + 100) / 100 - (y + 99) / 100) + ((y + 400) / 400 - (y + 399) / 400);
  }

  /** Every multiple of 400 is one of 100, and every multiple of 100 one of 4. */
  lemma DivisorChain(y: nat)
    ensures y % 400 == 0 ==> y % 100 == 0
    ensures y % 100 == 0 ==> y % 4 == 0
  {
    if y % 400 == 0 {
      var k := y / 400;
      assert y == 100 * (4 * k);
    }
    if y % 100 == 0 {
      var k := y / 100;
      assert y == 4 * (25 * k);
    }
  }

  lemma Step4(y: nat)
    ensures (y + 4) / 4 == y / 4 + 1
    ensures (y + 3) / 4 == y / 4 + (if y % 4 == 0 then 0 else 1)
  {
    assert y == 4 * (y / 4) + y % 4;
  }

  lemma Step100(y: nat)
    ensures (y + 100) / 100 == y / 100 + 1
    ensures (y + 99) / 100 == y / 100 + (if y % 100 == 0 then 0 else 1)
  {
    assert y == 100 * (y / 100) + y % 100;
  }

  lemma Step400(y: nat)
    ensures (y + 400) / 400 == y / 400 + 1
    ensures (y + 399) / 400 == y / 400 + (if y % 400 == 0 then 0 else 1)
  {
    assert y == 400 * (y / 400) + y % 400;
  }

  /** Day number `days`, counted from 1 January of `year`: its year and its day within that year. */
  function YearOf(days: nat, year: nat): (r: (nat, nat))
    ensures r.0 >= year && r.1 < DaysInYear(r.0)
    decreases days
  {
    DaysBeforeStep(year);
    if days < DaysInYear(year) then (year, days) else YearOf(days - DaysInYear(year), year + 1)
  }

  /** The year and day `YearOf` gives count back to `days`: the whole years before it, then the day within it. */
  lemma {:induction false} YearOfCounts(days: nat, year: nat)
    ensures var r := YearOf(days, year); DaysBefore(r.0) - DaysBefore(year) + r.1 == days
    decreases days
  {
    DaysBeforeStep(year);
    if days >= DaysInYear(year) {
      YearOfCounts(days - DaysInYear(year), year + 1);
    }
  }

  /** Days before the limit year stay in years before it. */
  lemma {:induction false} YearOfBound(days: nat, year: nat, limit: nat)
    requires year <= limit && days < DaysBefore(limit) - DaysBefore(year)
    ensures YearOf(days, year).0 < limit
    decreases days
  {
    DaysBeforeStep(year);
    if days >= DaysInYear(year) {
      YearOfBound(days - DaysInYear(year), year + 1, limit);
    }
  }

  /** The day of the year on which month `m` starts. */
  function MonthStart(y: nat, m: nat): (d: nat)
    requires 1 <= m <= 12
  {
    [0, 31, 59, 90, 120, 151, 181, 212, 243, 273, 304, 334][m - 1] + (if Leap(y) && m > 2 then 1 else 0)
  }

  /** The month (searched downward from `m`) in which day `d` of year `y` falls. */
  function MonthFrom(y: nat, d: nat, m: nat): (r: nat)
    requires 1 <= m <= 12
    ensures 1 <= r <= m && (r == 1 || MonthStart(y, r) <= d)
    ensures forall k :: r < k <= m ==> d < MonthStart(y, k)
    decreases m
  {
    if m == 1 || MonthStart(y, m) <= d then m else MonthFrom(y, d, m - 1)
  }

  /** "YYYY-MM-DD" for day number `days` since 1 January 1970. */
  function DateText(days: nat): (t: string)
    requires days < DaysBefore(10000) - DaysBefore(1970)
    ensures |t| == 10
  {
    YearOfBound(days, 1970, 10000);
    var (y, doy) := YearOf(days, 1970);
    var m := MonthFrom(y, doy, 12);
    DayOfMonthBound(y, doy);
    Pad4(y) + "-" + Pad2(m) + "-" + Pad2(doy - MonthStart(y, m) + 1)
  }

  /** A day of the year is one of the first 31 days of its month. */
  lemma DayOfMonthBound(y: nat, doy: nat)
    requires doy < DaysInYear(y)
    ensures MonthStart(y, MonthFrom(y, doy, 12)) <= doy < MonthStart(y, MonthFrom(y, doy, 12)) + 31
  {
    var m := MonthFrom(y, doy, 12);
    if m < 12 {
      assert doy < MonthStart(y, m + 1);
      MonthLength(y, m);
    }
  }

  /** No month is longer than 31 days. */
  lemma MonthLength(y: nat, m: nat)
    requires 1 <= m < 12
    ensures MonthStart(y, m + 1) <= MonthStart(y, m) + 31
  {
  }

  /** "HH:mm:ss.sss" for a time of day in milliseconds. */
  function ClockText(t: nat): (c: string)
    requires t < MS_PER_DAY
    ensures |c| == 12
  {
    Pad2(t / 3600000) + ":" + Pad2(t / 60000 % 60) + ":" + Pad2(t / 1000 % 60) + "." + Pad3(t % 1000)
  }

  /** `new Date(ms).toISOString()` for the instants the model covers. */
  function IsoString(ms: nat): (s: string)
    requires ms < ISO_LIMIT
    ensures |s| == 24 && s[10] == 'T' && s[23] == 'Z'
  {
    DateText(ms / MS_PER_DAY) + "T" + ClockText(ms % MS_PER_DAY) + "Z"
  }

  /** `toISOString().slice(11, 23).replace('.', ',')` */
  function Timestamp(ms: nat): (ts: string)
    requires ms < ISO_LIMIT
    ensures |ts| == 12
  {
    ReplaceFirst(IsoString(ms)[11..23], '.', ',')
  }

  /** The SubRip time layout `HH:MM:SS,mmm`, for a time of day. */
  function SrtClock(t: nat): (c: string)
    requires t < MS_PER_DAY
  {
    Pad2(t / 3600000) + ":" + Pad2(t / 60000 % 60) + ":" + Pad2(t / 1000 % 60) + "," + Pad3(t % 1000)
  }

  /** What a timestamp says, read back: hours, minutes, seconds and milliseconds, in milliseconds. */
  function TimestampValue(ts: string): int
    requires |ts| == 12 && AllDigits(ts[0..2]) && AllDigits(ts[3..5]) && AllDigits(ts[6..8]) && AllDigits(ts[9..12])
  {
    DigitsValue(ts[0..2]) * 3600000 + DigitsValue(ts[3..5]) * 60000 + DigitsValue(ts[6..8]) * 1000 + DigitsValue(ts[9..12])
  }

  /**
   * A timestamp is the time of day of its instant, in the SubRip layout:
   * the ISO text's time, with a comma before the milliseconds. The date is
   * cut away, so the hours wrap every 24 hours.
   */
  lemma TimestampIsClock(ms: nat)
    requires ms < ISO_LIMIT
    ensures Timestamp(ms) == SrtClock(ms % MS_PER_DAY)
  {
    IsoTime(ms);
    ClockComma(ms % MS_PER_DAY);
  }

  /** Characters 11 to 22 of the ISO text are its time of day. */
  lemma IsoTime(ms: nat)
    requires ms < ISO_LIMIT
    ensures IsoString(ms)[11..23] == ClockText(ms % MS_PER_DAY)
  {
    var front := DateText(ms / MS_PER_DAY) + "T";
    var clock := ClockText(ms % MS_PER_DAY);
    assert IsoString(ms) == front + clock + "Z";
    MiddleSlice(front, clock, "Z");
  }

  lemma MiddleSlice(a: string, b: string, c: string)
    ensures (a + b + c)[|a|..|a| + |b|] == b
  {
  }

  /** The only '.' of the ISO time is the one before the milliseconds, and it becomes a comma. */
  lemma ClockComma(t: nat)
    requires t < MS_PER_DAY
    ensures ReplaceFirst(ClockText(t), '.', ',') == SrtClock(t)
  {
    var h, m, s := Pad2(t / 3600000), Pad2(t / 60000 % 60), Pad2(t / 1000 % 60);
    var head := h + ":" + m + ":" + s;
    assert ClockText(t) == head + ['.'] + Pad3(t % 1000);
    assert SrtClock(t) == head + [','] + Pad3(t % 1000);
    forall i | 0 <= i < |head| ensures head[i] != '.' {
      if i < 2 { assert head[i] == h[i]; }
      else if 3 <= i < 5 { assert head[i] == m[i - 3]; }
      else if 6 <= i { assert head[i] == s[i - 6]; }
    }
    ReplaceFirstAfter(head, '.', ',', Pad3(t % 1000));
  }

  /** The clock fields of a time of day add up to it again. */
  lemma ClockFieldsSum(t: nat)
    requires t < MS_PER_DAY
    ensures t / 3600000 * 3600000 + t / 60000 % 60 * 60000 + t / 1000 % 60 * 1000 + t % 1000 == t
  {
    var sec, f := t / 1000, t % 1000;
    assert t == sec * 1000 + f;
    var mi, se := sec / 60, sec % 60;
    assert sec == mi * 60 + se;
    var h, m := mi / 60, mi % 60;
    assert mi == h * 60 + m;
    assert t == mi * 60000 + (se * 1000 + f);
    assert t / 60000 == mi;
    assert t == h * 3600000 + (m * 60000 + se * 1000 + f);
    assert t / 3600000 == h;
  }

  /** Reading a timestamp back gives its instant's time of day. */
  lemma TimestampReadsBack(ms: nat)
    requires ms < ISO_LIMIT
    ensures var ts := Timestamp(ms);
            AllDigits(ts[0..2]) && AllDigits(ts[3..5]) && AllDigits(ts[6..8]) && AllDigits(ts[9..12]) &&
            ts[2] == ':' && ts[5] == ':' && ts[8] == ',' &&
            TimestampValue(ts) == ms % MS_PER_DAY
  {
    TimestampIsClock(ms);
    var t := ms % MS_PER_DAY;
    ClockReadsBack(t);
  }

  lemma ClockReadsBack(t: nat)
    requires t < MS_PER_DAY
    ensures var ts := SrtClock(t);
            |ts| == 12 &&
            AllDigits(ts[0..2]) && AllDigits(ts[3..5]) && AllDigits(ts[6..8]) && AllDigits(ts[9..12]) &&
            ts[2] == ':' && ts[5] == ':' && ts[8] == ',' &&
            TimestampValue(ts) == t
  {
    var ts := SrtClock(t);
    var h, m, s, f := Pad2(t / 3600000), Pad2(t / 60000 % 60), Pad2(t / 1000 % 60), Pad3(t % 1000);
    assert ts == h + ":" + m + ":" + s + "," + f;
    assert ts[0..2] == h && ts[3..5] == m && ts[6..8] == s && ts[9..12] == f;
    ClockFieldsSum(t);
  }

  lemma DayShift(ms: nat)
    ensures (ms + MS_PER_DAY) % MS_PER_DAY == ms % MS_PER_DAY
  {
    var q, r := ms / MS_PER_DAY, ms % MS_PER_DAY;
    assert ms + MS_PER_DAY == (q + 1) * MS_PER_DAY + r;
  }

  /** One day later the timestamp reads the same. */
  lemma TimestampWraps(ms: nat)
    requires ms + MS_PER_DAY < ISO_LIMIT
    ensures Timestamp(ms + MS_PER_DAY) == Timestamp(ms)
  {
    TimestampIsClock(ms);
    TimestampIsClock(ms + MS_PER_DAY);
    DayShift(ms);
  }

  // ---- The SubRip text -----------------------------------------------------------

  /** A transcript line whose start and end the ISO text can write with a four-digit year. */
  predicate Writable(item: TranscriptItem) {
    item.offset + item.duration < ISO_LIMIT
  }

  /** The cue for the line at `index`: its number, its start and end, its text, then a blank line. */
  function Cue(index: nat, item: TranscriptItem): (c: string)
    requires Writable(item)
    ensures |c| == |NatToString(index + 1)| + 33 + |item.text|
  {
    CueText(NatToString(index + 1), Timestamp(item.offset), Timestamp(item.offset + item.duration), item.text)
  }

  /** `${n}\n${startTime} --> ${endTime}\n${text}\n\n` */
  function CueText(num: string, start: string, end: string, text: string): (c: string)
    ensures |c| == |num| + |start| + |end| + |text| + 9
    ensures c[..|num|] == num && c[|c| - 2..] == "\n\n"
  {
    num + "\n" + start + " --> " + end + "\n" + text + "\n\n"
  }

  /** `transcript.map(...)`: one cue per line, numbered from 1 (written here from the last line back). */
  function Cues(items: seq<TranscriptItem>): (cues: seq<string>)
    requires forall i :: 0 <= i < |items| ==> Writable(items[i])
    ensures |cues| == |items|
  {
    if items == [] then [] else Cues(items[..|items| - 1]) + [Cue(|items| - 1, items[|items| - 1])]
  }

  /** `srtContent`: the cues joined with nothing between them. */
  function SrtContent(items: seq<TranscriptItem>): (srt: string)
    requires forall i :: 0 <= i < |items| ==> Writable(items[i])
    ensures srt == "" <==> items == []
  {
    if items != [] then
      var n := |items| - 1;
      JoinNothingAppend(Cues(items[..n]), Cue(n, items[n]));
      Join(Cues(items), "")
    else
      Join(Cues(items), "")
  }

  /** An empty transcript exports as the empty text. */
  lemma EmptyTranscript()
    ensures SrtContent([]) == ""
  {
  }

  /** A line added at the end of the transcript adds exactly its cue, numbered one past the others. */
  lemma SrtContentAppend(items: seq<TranscriptItem>, item: TranscriptItem)
    requires forall i :: 0 <= i < |items| ==> Writable(items[i])
    requires Writable(item)
    ensures SrtContent(items + [item]) == SrtContent(items) + Cue(|items|, item)
  {
    CuesAppend(items, item);
    JoinNothingAppend(Cues(items), Cue(|items|, item));
  }

  /** `map` over a transcript with one more line: the cues before, then the new line's cue. */
  lemma CuesAppend(items: seq<TranscriptItem>, item: TranscriptItem)
    requires forall i :: 0 <= i < |items| ==> Writable(items[i])
    requires Writable(item)
    ensures Cues(items + [item]) == Cues(items) + [Cue(|items|, item)]
  {
    var all := items + [item];
    assert all[..|items|] == items && all[|items|] == item;
  }

  /**
   * The fields of a cue, read back: the number, a line break, the start,
   * " --> ", the end, a line break, the text, and the blank line that closes
   * the cue. Timestamps are 12 characters, so every field sits at a fixed
   * distance from the end of the number.
   */
  lemma CueLayout(num: string, start: string, end: string, text: string)
    requires |start| == 12 && |end| == 12
    ensures var c := CueText(num, start, end, text);
            var n := |num|;
            |c| == n + 31 + |text| + 2 &&
            c[..n] == num && c[n] == '\n' && c[n + 1..n + 13] == start && c[n + 13..n + 18] == " --> " &&
            c[n + 18..n + 30] == end && c[n + 30] == '\n' && c[n + 31..|c| - 2] == text && c[|c| - 2..] == "\n\n"
  {
    var c := CueText(num, start, end, text);
    var rest := end + "\n" + text + "\n\n";
    var tail := "\n" + start + " --> " + rest;
    assert c == num + tail;
    assert c[|num|..] == tail;
    assert tail[1..13] == start;
    assert tail[13..18] == " --> ";
    assert tail[18..] == rest;
    assert rest[..12] == end && rest[12] == '\n' && rest[13..|rest| - 2] == text;
  }

  /** The download button of `CaptionsManager`: `handleDownload` toggles `isLoading` around the export. */
  class CaptionsManager {
    const videoId: string
    var isLoading: bool

    constructor (videoId: string)
      ensures this.videoId == videoId && !isLoading
    {
      this.videoId := videoId;
      isLoading := false;
    }

    /**
     * `handleDownload`, given what fetching the transcript came to (`None`
     * when it threw): the exported text, or `None` when the export failed.
     * In either case loading is over when it returns.
     */
    method HandleDownload(transcript: Option<seq<TranscriptItem>>) returns (srt: Option<string>)
      requires transcript.Some? ==> forall i :: 0 <= i < |transcript.value| ==> Writable(transcript.value[i])
      modifies this
      ensures !isLoading
      ensures transcript.None? ==> srt.None?
      ensures transcript.Some? ==> srt == Some(SrtContent(transcript.value))
    {
      isLoading := true;
      match transcript {
        case None =>
          srt := None;
        case Some(items) =>
          srt := Some(SrtContent(items));
      }
      isLoading := false;
    }
  }
}
