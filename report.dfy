/**
 * The downloadable decision report (main.py:470-495): a plain-text report that
 * embeds the query, the shipping location and the decision verbatim under a
 * timestamp, and a file name stamped with the time of the download.
 *
 * The route reads the clock twice (main.py:480 and main.py:493); both readings
 * are parameters here, and they need not agree.
 */
module Report {
  import opened Wrappers

  /** A clock reading, as `datetime.now()` gives it. */
  datatype DateTime = DateTime(year: nat, month: nat, day: nat, hour: nat, minute: nat, second: nat)

  predicate ValidTime(t: DateTime)
  {
    1 <= t.year <= 9999 && 1 <= t.month <= 12 && 1 <= t.day <= 31
    && t.hour < 24 && t.minute < 60 && t.second < 60
  }

  function Pow10(width: nat): (p: nat)
    ensures p >= 1
  {
    if width == 0 then 1 else 10 * Pow10(width - 1)
  }

  function Digit(d: nat): char
    requires d < 10
  {
    (48 + d) as char
  }

  predicate IsDigit(ch: char)
  {
    '0' <= ch <= '9'
  }

  /** `n` in decimal, zero-padded to `width` digits, as `%Y`, `%m`, `%d`, `%H`, `%M`, `%S` print. */
  function Pad(n: nat, width: nat): (s: string)
    requires n < Pow10(width)
    ensures |s| == width
    ensures forall i :: 0 <= i < |s| ==> IsDigit(s[i])
  {
    if width == 0 then ""
    else Pad(n / 10, width - 1) + [Digit(n % 10)]
  }

  /** Reads a run of decimal digits; `None` when any character is not a digit. */
  function ParseDigits(s: string): Option<nat>
  {
    if s == [] then Some(0)
    else if !IsDigit(s[|s| - 1]) then None
    else
      match ParseDigits(s[..|s| - 1])
      case None => None
      case Some(high) => Some(10 * high + (s[|s| - 1] as int - 48))
  }

  /** Reading back a padded number gives the number. */
  lemma {:induction false} ParsePad(n: nat, width: nat)
    requires n < Pow10(width)
    ensures ParseDigits(Pad(n, width)) == Some(n)
  {
    if width > 0 {
      var s := Pad(n, width);
      assert s[..|s| - 1] == Pad(n / 10, width - 1);
      ParsePad(n / 10, width - 1);
    }
  }

  // The texts below are built as right-nested concatenations, `a + (b + (c + ...))`, which
  // is the shape the slicing lemmas `Lead`, `LeadThree` and `TwoTagged` take apart cheaply.

  /** The report's date line: `strftime('%Y-%m-%d %H:%M:%S')`. */
  function FormatDate(t: DateTime): (s: string)
    requires ValidTime(t)
    ensures |s| == 19
  {
    Pad(t.year, 4) + ("-" + (Pad(t.month, 2) + ("-" + (Pad(t.day, 2) + (" "
    + (Pad(t.hour, 2) + (":" + (Pad(t.minute, 2) + (":" + Pad(t.second, 2))))))))))
  }

  /** The file name's stamp: `strftime('%Y%m%d_%H%M%S')`. */
  function FileStamp(t: DateTime): (s: string)
    requires ValidTime(t)
    ensures |s| == 15
  {
    Pad(t.year, 4) + (Pad(t.month, 2) + (Pad(t.day, 2) + ("_"
    + (Pad(t.hour, 2) + (Pad(t.minute, 2) + Pad(t.second, 2))))))
  }

  /** Reads a date line back; `None` when it is not one. */
  function ParseDate(s: string): Option<DateTime>
  {
    if |s| != 19 || s[4] != '-' || s[7] != '-' || s[10] != ' ' || s[13] != ':' || s[16] != ':' then None
    else
      match (ParseDigits(s[0..4]), ParseDigits(s[5..7]), ParseDigits(s[8..10]),
             ParseDigits(s[11..13]), ParseDigits(s[14..16]), ParseDigits(s[17..19]))
      case (Some(y), Some(mo), Some(d), Some(h), Some(mi), Some(se)) => Some(DateTime(y, mo, d, h, mi, se))
      case _ => None
  }

  /** Reads a file stamp back; `None` when it is not one. */
  function ParseFileStamp(s: string): Option<DateTime>
  {
    if |s| != 15 || s[8] != '_' then None
    else
      match (ParseDigits(s[0..4]), ParseDigits(s[4..6]), ParseDigits(s[6..8]),
             ParseDigits(s[9..11]), ParseDigits(s[11..13]), ParseDigits(s[13..15]))
      case (Some(y), Some(mo), Some(d), Some(h), Some(mi), Some(se)) => Some(DateTime(y, mo, d, h, mi, se))
      case _ => None
  }

  /** A piece at position `i` of a text is the slice of its length there, and the rest follows it. */
  lemma Lead(t: string, i: nat, x: string, rest: string)
    requires i <= |t| && t[i..] == x + rest
    ensures |t| == i + |x| + |rest|
    ensures t[i..i + |x|] == x
    ensures t[i + |x|..] == rest
  {
    assert |t[i..]| == |x| + |rest|;
    forall k | 0 <= k < |x|
      ensures t[i..i + |x|][k] == x[k]
    {
      assert t[i + k] == t[i..][k] == (x + rest)[k];
    }
    forall k | 0 <= k < |rest|
      ensures t[i + |x|..][k] == rest[k]
    {
      assert t[i + |x| + k] == t[i..][|x| + k] == (x + rest)[|x| + k];
    }
  }

  /** Three pieces in a row at position `i`. */
  lemma LeadThree(t: string, i: nat, x: string, y: string, z: string, rest: string)
    requires i <= |t| && t[i..] == x + (y + (z + rest))
    ensures |t| == i + |x| + |y| + |z| + |rest|
    ensures t[i..i + |x|] == x
    ensures t[i + |x|..i + |x| + |y|] == y
    ensures t[i + |x| + |y|..i + |x| + |y| + |z|] == z
    ensures t[i + |x| + |y| + |z|..] == rest
  {
    Lead(t, i, x, y + (z + rest));
    Lead(t, i + |x|, y, z + rest);
    Lead(t, i + |x| + |y|, z, rest);
  }

  /** Where the six fields and five separators of a date line sit. */
  lemma DateFields(year: string, s1: string, month: string, s2: string, day: string, s3: string,
                   hour: string, s4: string, minute: string, s5: string, second: string)
    requires |year| == 4 && |month| == 2 && |day| == 2 && |hour| == 2 && |minute| == 2 && |second| == 2
    requires |s1| == 1 && |s2| == 1 && |s3| == 1 && |s4| == 1 && |s5| == 1
    ensures var s := year + (s1 + (month + (s2 + (day + (s3 + (hour + (s4 + (minute + (s5 + second)))))))));
      && |s| == 19
      && s[0..4] == year && s[4..5] == s1 && s[5..7] == month && s[7..8] == s2 && s[8..10] == day
      && s[10..11] == s3 && s[11..13] == hour && s[13..14] == s4 && s[14..16] == minute
      && s[16..17] == s5 && s[17..19] == second
  {
    var r3 := hour + (s4 + (minute + (s5 + second)));
    var r1 := s2 + (day + (s3 + r3));
    var s := year + (s1 + (month + r1));
    assert s[0..] == s;
    LeadThree(s, 0, year, s1, month, r1);
    LeadThree(s, 7, s2, day, s3, r3);
    LeadThree(s, 11, hour, s4, minute, s5 + second);
    Lead(s, 16, s5, second);
  }

  /** Where the six fields and the separator of a file stamp sit. */
  lemma StampFields(year: string, month: string, day: string, sep: string,
                    hour: string, minute: string, second: string)
    requires |year| == 4 && |month| == 2 && |day| == 2 && |hour| == 2 && |minute| == 2 && |second| == 2
    requires |sep| == 1
    ensures var s := year + (month + (day + (sep + (hour + (minute + second)))));
      && |s| == 15
      && s[0..4] == year && s[4..6] == month && s[6..8] == day && s[8..9] == sep
      && s[9..11] == hour && s[11..13] == minute && s[13..15] == second
  {
    var r := sep + (hour + (minute + second));
    var s := year + (month + (day + r));
    assert s[0..] == s;
    LeadThree(s, 0, year, month, day, r);
    LeadThree(s, 8, sep, hour, minute, second);
  }

  /** The date line determines the clock reading it was printed from. */
  lemma DateRoundTrip(t: DateTime)
    requires ValidTime(t)
    ensures ParseDate(FormatDate(t)) == Some(t)
  {
    var s := FormatDate(t);
    DateFields(Pad(t.year, 4), "-", Pad(t.month, 2), "-", Pad(t.day, 2), " ",
               Pad(t.hour, 2), ":", Pad(t.minute, 2), ":", Pad(t.second, 2));
    assert s[4] == s[4..5][0] && s[7] == s[7..8][0] && s[10] == s[10..11][0];
    assert s[13] == s[13..14][0] && s[16] == s[16..17][0];
    ParsePad(t.year, 4);
    ParsePad(t.month, 2);
    ParsePad(t.day, 2);
    ParsePad(t.hour, 2);
    ParsePad(t.minute, 2);
    ParsePad(t.second, 2);
  }

  /** The file stamp determines the clock reading it was printed from. */
  lemma FileStampRoundTrip(t: DateTime)
    requires ValidTime(t)
    ensures ParseFileStamp(FileStamp(t)) == Some(t)
  {
    var s := FileStamp(t);
    StampFields(Pad(t.year, 4), Pad(t.month, 2), Pad(t.day, 2), "_",
                Pad(t.hour, 2), Pad(t.minute, 2), Pad(t.second, 2));
    assert s[8] == s[8..9][0];
    ParsePad(t.year, 4);
    ParsePad(t.month, 2);
    ParsePad(t.day, 2);
    ParsePad(t.hour, 2);
    ParsePad(t.minute, 2);
    ParsePad(t.second, 2);
  }

  const Title: string := "PROCUREMENT DECISION REPORT\n\nDate: "
  const QueryLabel: string := "\nQuery: "
  const LocationLabel: string := "\nShipping Location: "
  const Gap: string := "\n\n"
  const End: string := "\n"
  const FileNamePrefix: string := "procurement_decision_"
  const FileNameSuffix: string := ".txt"

  /** The layout of the report text of main.py:478-485 around its four fields. */
  function Layout(date: string, query: string, city: string, decision: string): string
  {
    Title + (date + (QueryLabel + (query + (LocationLabel + (city + (Gap + (decision + End)))))))
  }

  /** The report text, dated by one clock reading. */
  function ReportText(now: DateTime, query: string, city: string, decision: string): string
    requires ValidTime(now)
  {
    Layout(FormatDate(now), query, city, decision)
  }

  /** The attachment's file name (main.py:493). */
  function DownloadName(now: DateTime): string
    requires ValidTime(now)
  {
    FileNamePrefix + (FileStamp(now) + FileNameSuffix)
  }

  /** The downloaded attachment. */
  datatype Download = Download(name: string, text: string)

  /**
   * `download_report`: `reportTime` is the clock reading for the date line and
   * `nameTime` the later one for the file name.
   */
  function DownloadReport(query: string, decision: string, city: string,
                          reportTime: DateTime, nameTime: DateTime): Download
    requires ValidTime(reportTime) && ValidTime(nameTime)
  {
    Download(DownloadName(nameTime), ReportText(reportTime, query, city, decision))
  }

  /** Two fields, each after its tag, at position `i`. */
  lemma TwoTagged(t: string, i: nat, tag1: string, x: string, tag2: string, y: string, rest: string)
    requires i <= |t| && t[i..] == tag1 + (x + (tag2 + (y + rest)))
    ensures |t| == i + |tag1| + |x| + |tag2| + |y| + |rest|
    ensures t[i..i + |tag1|] == tag1
    ensures t[i + |tag1|..i + |tag1| + |x|] == x
    ensures t[i + |tag1| + |x| + |tag2|..i + |tag1| + |x| + |tag2| + |y|] == y
    ensures t[i + |tag1| + |x| + |tag2| + |y|..] == rest
  {
    LeadThree(t, i, tag1, x, tag2, y + rest);
    Lead(t, i + |tag1| + |x| + |tag2|, y, rest);
  }

  /** Where the four fields sit in a text of tags and fields `a date b query c city d decision e`. */
  lemma FieldsAfterTags(a: string, date: string, b: string, query: string, c: string, city: string,
                        d: string, decision: string, e: string)
    ensures var text := a + (date + (b + (query + (c + (city + (d + (decision + e)))))));
      var qa := |a| + |date| + |b|;
      var ca := qa + |query| + |c|;
      var da := ca + |city| + |d|;
      && |text| == da + |decision| + |e|
      && text[..|a|] == a
      && text[|a|..|a| + |date|] == date
      && text[qa..qa + |query|] == query
      && text[ca..ca + |city|] == city
      && text[da..da + |decision|] == decision
      && text[|text| - |e|..] == e
  {
    var r4 := c + (city + (d + (decision + e)));
    var text := a + (date + (b + (query + r4)));
    assert text[0..] == text;
    TwoTagged(text, 0, a, date, b, query, r4);
    TwoTagged(text, |a| + |date| + |b| + |query|, c, city, d, decision, e);
  }

  /** Each field of the layout sits at a fixed place after the ones before it. */
  lemma LayoutPlacesFields(date: string, query: string, city: string, decision: string)
    ensures var text := Layout(date, query, city, decision);
      var q := |Title| + |date| + |QueryLabel|;
      var c := q + |query| + |LocationLabel|;
      var d := c + |city| + |Gap|;
      && |text| == d + |decision| + |End|
      && text[..|Title|] == Title
      && text[|Title|..|Title| + |date|] == date
      && text[q..q + |query|] == query
      && text[c..c + |city|] == city
      && text[d..d + |decision|] == decision
      && text[|text| - 1] == '\n'
  {
    FieldsAfterTags(Title, date, QueryLabel, query, LocationLabel, city, Gap, decision, End);
    var text := Layout(date, query, city, decision);
    assert text[|text| - 1] == text[|text| - |End|..][0];
  }

  /**
   * The downloaded report holds the query, the location and the decision verbatim, and
   * its date line reads back as the clock reading it came from.
   */
  lemma ReportEmbedsFields(query: string, decision: string, city: string,
                           reportTime: DateTime, nameTime: DateTime)
    requires ValidTime(reportTime) && ValidTime(nameTime)
    ensures var text := DownloadReport(query, decision, city, reportTime, nameTime).text;
      var q := |Title| + 19 + |QueryLabel|;
      var c := q + |query| + |LocationLabel|;
      var d := c + |city| + 2;
      && |text| == d + |decision| + 1
      && ParseDate(text[|Title|..|Title| + 19]) == Some(reportTime)
      && text[q..q + |query|] == query
      && text[c..c + |city|] == city
      && text[d..d + |decision|] == decision
  {
    LayoutPlacesFields(FormatDate(reportTime), query, city, decision);
    DateRoundTrip(reportTime);
  }

  /** The file name reads back as the clock reading taken for it. */
  lemma DownloadNameRoundTrip(query: string, decision: string, city: string,
                              reportTime: DateTime, nameTime: DateTime)
    requires ValidTime(reportTime) && ValidTime(nameTime)
    ensures var name := DownloadReport(query, decision, city, reportTime, nameTime).name;
      && |name| == |FileNamePrefix| + 15 + |FileNameSuffix|
      && name[..|FileNamePrefix|] == FileNamePrefix
      && name[|name| - |FileNameSuffix|..] == FileNameSuffix
      && ParseFileStamp(name[|FileNamePrefix|..|FileNamePrefix| + 15]) == Some(nameTime)
  {
    var name := DownloadName(nameTime);
    assert name[0..] == name;
    LeadThree(name, 0, FileNamePrefix, FileStamp(nameTime), FileNameSuffix, "");
    FileStampRoundTrip(nameTime);
  }
}
