/** The calendar file text built by downloadCalendarEvent in
    static/js/success.js: the event's ISO-like timestamps with their `-` and
    `:` removed, placed in a fixed ten-line VCALENDAR/VEVENT template joined
    by line feeds. */
module Calendar {
  import opened Text

  datatype Event = Event(
    title: string,
    description: string,
    location: string,
    startDate: string,
    endDate: string)

  /** The one event the success page exports. */
  const PageEvent := Event(
    "Divine Encounter 2026",
    "Where Heaven Meets Earth - A transformative spiritual gathering",
    "Grace Convention Center, Lagos",
    "2026-03-15T18:00:00",
    "2026-03-17T13:00:00")

  /** The field values of the page's event that its calendar lines show. */
  lemma PageEventFields()
    ensures PageEvent.startDate == "2026-03-15T18:00:00" && PageEvent.endDate == "2026-03-17T13:00:00"
    ensures PageEvent.location == "Grace Convention Center, Lagos"
  {
  }

  // -----------------------------------------------------------------------
  // Timestamps: date.replace(/[-:]/g, '')

  predicate KeptByStrip(c: char) {
    c != '-' && c != ':'
  }

  function StripSeparators(s: string): (r: string) {
    Filter(s, c => KeptByStrip(c))
  }

  /** Every `-` and `:` goes, every other character stays, in order (the
      strip works piece by piece), and stripping again changes nothing. */
  lemma StripSeparatorsSpec(s: string, t: string, c: char)
    ensures forall k :: 0 <= k < |StripSeparators(s)| ==> KeptByStrip(StripSeparators(s)[k])
    ensures multiset(StripSeparators(s))[c] == if KeptByStrip(c) then multiset(s)[c] else 0
    ensures StripSeparators(s + t) == StripSeparators(s) + StripSeparators(t)
    ensures StripSeparators(StripSeparators(s)) == StripSeparators(s)
  {
    FilterCounts(s, c => KeptByStrip(c), c);
    FilterConcat(s, t, c => KeptByStrip(c));
    FilterIdempotent(s, c => KeptByStrip(c));
  }

  predicate AllDigits(s: string) {
    forall k :: 0 <= k < |s| ==> IsAsciiDigit(s[k])
  }

  /** A local timestamp written `YYYY-MM-DDTHH:MM:SS`. */
  predicate IsIsoLocal(s: string) {
    |s| == 19
    && AllDigits(s[..4]) && s[4] == '-' && AllDigits(s[5..7]) && s[7] == '-'
      && AllDigits(s[8..10]) && s[10] == 'T'
    && AllDigits(s[11..13]) && s[13] == ':' && AllDigits(s[14..16]) && s[16] == ':'
    && AllDigits(s[17..])
  }

  /** FORM #1 of a DATE-TIME value in section 3.3.5 of RFC 5545, the
      floating local time: `YYYYMMDD`, `T`, `HHMMSS`, no UTC designator. */
  predicate IsFloatingDateTime(s: string) {
    |s| == 15 && AllDigits(s[..8]) && s[8] == 'T' && AllDigits(s[9..])
  }

  /** A run of kept characters passes through the strip as it is. */
  lemma {:induction false} StripKeptRun(s: string, i: int, j: int)
    requires 0 <= i <= j <= |s|
    requires forall k :: i <= k < j ==> KeptByStrip(s[k])
    ensures StripSeparators(s[i..]) == s[i..j] + StripSeparators(s[j..])
    decreases j - i
  {
    if i < j {
      StripKeptRun(s, i + 1, j);
      assert s[i..][1..] == s[i + 1..];
      assert s[i..j] == [s[i]] + s[i + 1..j];
    }
  }

  /** A separator is dropped. */
  lemma StripSkip(s: string, i: int)
    requires 0 <= i < |s| && !KeptByStrip(s[i])
    ensures StripSeparators(s[i..]) == StripSeparators(s[i + 1..])
  {
    assert s[i..][1..] == s[i + 1..];
  }

  /** The characters of an ISO timestamp that are not separators. */
  lemma IsoLocalKept(s: string)
    requires IsIsoLocal(s)
    ensures forall k :: 0 <= k < 19 && k != 4 && k != 7 && k != 10 && k != 13 && k != 16 ==> IsAsciiDigit(s[k])
    ensures forall k :: 0 <= k < 19 && k != 4 && k != 7 && k != 13 && k != 16 ==> KeptByStrip(s[k])
    ensures !KeptByStrip(s[4]) && !KeptByStrip(s[7]) && !KeptByStrip(s[13]) && !KeptByStrip(s[16])
  {
    assert forall k :: 0 <= k < 4 ==> s[k] == s[..4][k];
    assert forall k :: 5 <= k < 7 ==> s[k] == s[5..7][k - 5];
    assert forall k :: 8 <= k < 10 ==> s[k] == s[8..10][k - 8];
    assert forall k :: 11 <= k < 13 ==> s[k] == s[11..13][k - 11];
    assert forall k :: 14 <= k < 16 ==> s[k] == s[14..16][k - 14];
    assert forall k :: 17 <= k < 19 ==> s[k] == s[17..][k - 17];
  }

  /** Stripping a local ISO timestamp keeps its date digits, the `T` and
      its time digits, in order. */
  lemma IsoLocalStrip(s: string)
    requires IsIsoLocal(s)
    ensures StripSeparators(s) == s[..4] + s[5..7] + s[8..13] + s[14..16] + s[17..]
  {
    IsoLocalKept(s);
    StripKeptRun(s, 0, 4);
    StripSkip(s, 4);
    StripKeptRun(s, 5, 7);
    StripSkip(s, 7);
    StripKeptRun(s, 8, 13);
    StripSkip(s, 13);
    StripKeptRun(s, 14, 16);
    StripSkip(s, 16);
    StripKeptRun(s, 17, 19);
    calc {
      StripSeparators(s);
      { assert s[0..] == s; }
      StripSeparators(s[0..]);
      s[..4] + StripSeparators(s[5..]);
      s[..4] + (s[5..7] + StripSeparators(s[8..]));
      s[..4] + (s[5..7] + (s[8..13] + StripSeparators(s[14..])));
      s[..4] + (s[5..7] + (s[8..13] + (s[14..16] + StripSeparators(s[17..]))));
      { assert s[19..] == []; assert s[17..19] == s[17..]; }
      s[..4] + (s[5..7] + (s[8..13] + (s[14..16] + s[17..])));
      s[..4] + s[5..7] + s[8..13] + s[14..16] + s[17..];
    }
  }

  /** The stripped timestamp is the floating local DATE-TIME of RFC 5545. */
  lemma IsoLocalToFloating(s: string)
    requires IsIsoLocal(s)
    ensures IsFloatingDateTime(StripSeparators(s))
  {
    IsoLocalStrip(s);
    IsoLocalKept(s);
    var r := StripSeparators(s);
    assert |r| == 15;
    assert forall k :: 0 <= k < 4 ==> r[k] == s[k];
    assert forall k :: 4 <= k < 6 ==> r[k] == s[k + 1];
    assert forall k :: 6 <= k < 11 ==> r[k] == s[k + 2];
    assert forall k :: 11 <= k < 13 ==> r[k] == s[k + 3];
    assert forall k :: 13 <= k < 15 ==> r[k] == s[k + 4];
    assert forall k :: 0 <= k < 8 ==> IsAsciiDigit(r[..8][k]);
    assert forall k :: 0 <= k < 6 ==> IsAsciiDigit(r[9..][k]);
  }

  // -----------------------------------------------------------------------
  // Lines and the template

  predicate NoLineFeed(s: string) {
    forall k :: 0 <= k < |s| ==> s[k] != '\n'
  }

  /** Lines joined by a single line feed each, as the template literal
      writes them. */
  function JoinLines(lines: seq<string>): (s: string) {
    if |lines| == 0 then ""
    else if |lines| == 1 then lines[0]
    else lines[0] + "\n" + JoinLines(lines[1..])
  }

  /** The text cut at every line feed (String.prototype.split with "\n"). */
  function SplitLines(s: string): (lines: seq<string>)
    ensures |lines| >= 1
  {
    if s == [] then [""]
    else
      var rest := SplitLines(s[1..]);
      if s[0] == '\n' then [""] + rest else [[s[0]] + rest[0]] + rest[1..]
  }

  lemma {:induction false} SplitSingleLine(a: string)
    requires NoLineFeed(a)
    ensures SplitLines(a) == [a]
  {
    if a != [] {
      SplitSingleLine(a[1..]);
      assert [a[0]] + a[1..] == a;
    }
  }

  lemma {:induction false} SplitFirstLine(a: string, b: string)
    requires NoLineFeed(a)
    ensures SplitLines(a + "\n" + b) == [a] + SplitLines(b)
  {
    if a == [] {
      assert a + "\n" + b == "\n" + b;
      assert ("\n" + b)[1..] == b;
    } else {
      assert (a + "\n" + b)[1..] == a[1..] + "\n" + b;
      SplitFirstLine(a[1..], b);
      assert [a[0]] + a[1..] == a;
    }
  }

  /** Joining lines that hold no line feed and cutting the result again
      gives the same lines back. */
  lemma {:induction false} SplitJoin(lines: seq<string>)
    requires |lines| >= 1
    requires forall k :: 0 <= k < |lines| ==> NoLineFeed(lines[k])
    ensures SplitLines(JoinLines(lines)) == lines
  {
    if |lines| == 1 {
      SplitSingleLine(lines[0]);
    } else {
      SplitJoin(lines[1..]);
      SplitFirstLine(lines[0], JoinLines(lines[1..]));
    }
  }

  /** The ten lines of the template, in order. */
  function IcsLines(e: Event): (lines: seq<string>) {
    [ "BEGIN:VCALENDAR",
      "VERSION:2.0",
      "BEGIN:VEVENT",
      "DTSTART:" + StripSeparators(e.startDate),
      "DTEND:" + StripSeparators(e.endDate),
      "SUMMARY:" + e.title,
      "DESCRIPTION:" + e.description,
      "LOCATION:" + e.location,
      "END:VEVENT",
      "END:VCALENDAR" ]
  }

  /** The text of the downloaded file. */
  function IcsContent(e: Event): (s: string) {
    JoinLines(IcsLines(e))
  }

  predicate NoLineFeedFields(e: Event) {
    NoLineFeed(e.title) && NoLineFeed(e.description) && NoLineFeed(e.location)
    && NoLineFeed(e.startDate) && NoLineFeed(e.endDate)
  }

  /** For an event without line feeds in its fields the file reads back as
      exactly ten lines: BEGIN:VCALENDAR, VERSION:2.0, BEGIN:VEVENT, the two
      stripped times, the three fields verbatim, END:VEVENT, END:VCALENDAR;
      there is no PRODID, UID or DTSTAMP line. */
  lemma IcsContentLines(e: Event)
    requires NoLineFeedFields(e)
    ensures SplitLines(IcsContent(e)) == IcsLines(e)
  {
    var lines := IcsLines(e);
    forall k | 0 <= k < |lines| ensures NoLineFeed(lines[k]) {
      if k == 3 || k == 4 {
        var d := if k == 3 then e.startDate else e.endDate;
        var stripped := StripSeparators(d);
        assert multiset(stripped)['\n'] == 0 by {
          FilterCounts(d, c => KeptByStrip(c), '\n');
          assert '\n' !in multiset(d);
        }
        assert forall j :: 0 <= j < |stripped| ==> stripped[j] in multiset(stripped);
      }
    }
    SplitJoin(lines);
  }

  /** A literal local ISO timestamp, stripped: its digits and the `T`. */
  lemma StripLiteral(s: string, r: string)
    requires IsIsoLocal(s)
    requires r == s[..4] + s[5..7] + s[8..13] + s[14..16] + s[17..]
    ensures StripSeparators(s) == r && IsFloatingDateTime(r)
  {
    IsoLocalStrip(s);
    IsoLocalToFloating(s);
  }

  lemma StartIsIsoLocal()
    ensures IsIsoLocal("2026-03-15T18:00:00")
  {
    var start := "2026-03-15T18:00:00";
    assert start[..4] == "2026" && start[5..7] == "03" && start[8..10] == "15";
    assert start[11..13] == "18" && start[14..16] == "00" && start[17..] == "00";
  }

  lemma StartIsFloating()
    ensures StripSeparators("2026-03-15T18:00:00") == "20260315T180000"
    ensures IsFloatingDateTime("20260315T180000")
  {
    var start := "2026-03-15T18:00:00";
    StartIsIsoLocal();
    assert start[..4] == "2026" && start[5..7] == "03" && start[8..13] == "15T18";
    assert start[14..16] == "00" && start[17..] == "00";
    assert "2026" + "03" + "15T18" + "00" + "00" == "20260315T180000";
    StripLiteral(start, "20260315T180000");
  }

  lemma EndIsIsoLocal()
    ensures IsIsoLocal("2026-03-17T13:00:00")
  {
    var end := "2026-03-17T13:00:00";
    assert end[..4] == "2026" && end[5..7] == "03" && end[8..10] == "17";
    assert end[11..13] == "13" && end[14..16] == "00" && end[17..] == "00";
  }

  lemma EndIsFloating()
    ensures StripSeparators("2026-03-17T13:00:00") == "20260317T130000"
    ensures IsFloatingDateTime("20260317T130000")
  {
    var end := "2026-03-17T13:00:00";
    EndIsIsoLocal();
    assert end[..4] == "2026" && end[5..7] == "03" && end[8..13] == "17T13";
    assert end[14..16] == "00" && end[17..] == "00";
    assert "2026" + "03" + "17T13" + "00" + "00" == "20260317T130000";
    StripLiteral(end, "20260317T130000");
  }

  /** The exported event starts at 2026-03-15T18:00:00: its DTSTART line
      carries 20260315T180000, a floating local time with no `Z` and no
      TZID. */
  lemma ExportedStart(e: Event)
    requires e.startDate == "2026-03-15T18:00:00"
    ensures IcsLines(e)[3][..8] == "DTSTART:" && IcsLines(e)[3][8..] == "20260315T180000"
    ensures IsFloatingDateTime(IcsLines(e)[3][8..])
  {
    var start := StripSeparators(e.startDate);
    assert start == "20260315T180000" by { StartIsFloating(); }
    assert IcsLines(e)[3] == "DTSTART:" + start;
  }

  /** The exported event ends at 2026-03-17T13:00:00: its DTEND line carries
      20260317T130000, again a floating local time. */
  lemma ExportedEnd(e: Event)
    requires e.endDate == "2026-03-17T13:00:00"
    ensures IcsLines(e)[4][..6] == "DTEND:" && IcsLines(e)[4][6..] == "20260317T130000"
    ensures IsFloatingDateTime(IcsLines(e)[4][6..])
  {
    var end := StripSeparators(e.endDate);
    assert end == "20260317T130000" by { EndIsFloating(); }
    assert IcsLines(e)[4] == "DTEND:" + end;
  }

  /** The two time lines of any event carry its stripped dates. */
  lemma TimeLines(e: Event)
    ensures IcsLines(e)[3] == "DTSTART:" + StripSeparators(e.startDate)
    ensures IcsLines(e)[4] == "DTEND:" + StripSeparators(e.endDate)
  {
  }

  // The page's own event, one step at a time: each step keeps the solver
  // away from evaluating the whole template on the literal event.

  lemma PageStripped()
    ensures StripSeparators(PageEvent.startDate) == "20260315T180000"
    ensures StripSeparators(PageEvent.endDate) == "20260317T130000"
  {
    PageEventFields();
    StartIsFloating();
    EndIsFloating();
  }

  lemma PageStartShape()
    ensures IcsLines(PageEvent)[3] == "DTSTART:" + StripSeparators(PageEvent.startDate)
  {
    TimeLines(PageEvent);
  }

  lemma PageEndShape()
    ensures IcsLines(PageEvent)[4] == "DTEND:" + StripSeparators(PageEvent.endDate)
  {
    TimeLines(PageEvent);
  }

  lemma PageLocationShape()
    ensures IcsLines(PageEvent)[7] == "LOCATION:" + PageEvent.location
  {
  }

  /** The file the success page downloads: DTSTART 20260315T180000 and
      DTEND 20260317T130000, both floating local times without `Z` or TZID,
      and the location with its comma left unescaped (the TEXT escaping of
      section 3.3.11 of RFC 5545 is not applied). */
  lemma PageEventLines()
    ensures IcsLines(PageEvent)[3] == "DTSTART:" + "20260315T180000"
    ensures IcsLines(PageEvent)[4] == "DTEND:" + "20260317T130000"
    ensures IsFloatingDateTime("20260315T180000") && IsFloatingDateTime("20260317T130000")
    ensures IcsLines(PageEvent)[7] == "LOCATION:" + "Grace Convention Center, Lagos"
    ensures IcsLines(PageEvent)[7][32] == ','
  {
    PageStartShape();
    PageEndShape();
    PageLocationShape();
    PageStripped();
    PageEventFields();
    StartIsFloating();
    EndIsFloating();
  }
}
