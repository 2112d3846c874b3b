/** The journey time text of a multi-stop route ("2 hours 5 mins", "1 hour",
    "45 mins"), and a reader that recovers the minutes from it. */
module TravelTime {
  import opened Wrappers
  import opened Decimal
  import opened Words

  /** `Math.floor(total / 60)` and `total % 60`. */
  function SplitHours(totalMinutes: nat): (hm: (nat, nat))
    ensures hm.0 * 60 + hm.1 == totalMinutes && hm.1 < 60
  {
    (totalMinutes / 60, totalMinutes % 60)
  }

  /** "hour" / "hours", "min" / "mins": the plural only above 1. */
  function UnitWord(value: nat, word: string): (r: string)
    ensures value <= 1 ==> r == word
    ensures value > 1 ==> r == word + "s"
  {
    word + (if value > 1 then "s" else "")
  }

  /** The hours part when there are whole hours, then the minutes part when
      there are leftover minutes, with one space before the minutes part
      when the text is not empty yet. */
  function TimeText(totalMinutes: nat): string
  {
    var (hours, minutes) := SplitHours(totalMinutes);
    var hourPart := if hours > 0 then NatToString(hours) + " " + UnitWord(hours, "hour") else "";
    if minutes > 0 then
      (if hourPart != "" then hourPart + " " else hourPart) + NatToString(minutes) + " " + UnitWord(minutes, "min")
    else hourPart
  }

  /** The words of a time text, in order. */
  function TimeWords(totalMinutes: nat): seq<string>
  {
    var (hours, minutes) := SplitHours(totalMinutes);
    (if hours > 0 then [NatToString(hours), UnitWord(hours, "hour")] else [])
    + (if minutes > 0 then [NatToString(minutes), UnitWord(minutes, "min")] else [])
  }

  /** Reads a time text back: empty, "<h> hour[s]", "<m> min[s]" or
      "<h> hour[s] <m> min[s]", with h > 0, 0 < m < 60 and the plural exactly above 1. */
  function ParseTime(s: string): Option<nat>
  {
    if s == "" then Some(0) else ParseTimeWords(Split(s))
  }

  function ParseTimeWords(ws: seq<string>): Option<nat>
  {
    if |ws| == 2 then
      match ReadCount(ws[0])
      case None => None
      case Some(v) =>
        if v > 0 && ws[1] == UnitWord(v, "hour") then Some(60 * v)
        else if 0 < v < 60 && ws[1] == UnitWord(v, "min") then Some(v)
        else None
    else if |ws| == 4 then
      match (ReadCount(ws[0]), ReadCount(ws[2]))
      case (Some(h), Some(m)) =>
        if h > 0 && ws[1] == UnitWord(h, "hour") && 0 < m < 60 && ws[3] == UnitWord(m, "min")
        then Some(60 * h + m) else None
      case _ => None
    else None
  }

  lemma JoinTwo(a: string, b: string)
    ensures Join([a, b]) == a + " " + b
  {
    assert [a, b][1..] == [b];
  }

  lemma JoinFour(a: string, b: string, c: string, d: string)
    ensures Join([a, b, c, d]) == a + " " + b + " " + c + " " + d
  {
    assert [a, b, c, d][1..] == [b, c, d];
    assert [b, c, d][1..] == [c, d];
    JoinTwo(c, d);
  }

  /** The text is its words joined by single spaces. */
  lemma TimeTextIsJoin(totalMinutes: nat)
    ensures TimeText(totalMinutes) == Join(TimeWords(totalMinutes))
  {
    var (h, m) := SplitHours(totalMinutes);
    var hs, hu, ms, mu := NatToString(h), UnitWord(h, "hour"), NatToString(m), UnitWord(m, "min");
    if h > 0 && m > 0 {
      assert TimeWords(totalMinutes) == [hs, hu, ms, mu];
      JoinFour(hs, hu, ms, mu);
    } else if h > 0 {
      assert TimeWords(totalMinutes) == [hs, hu];
      JoinTwo(hs, hu);
    } else if m > 0 {
      assert TimeWords(totalMinutes) == [ms, mu];
      JoinTwo(ms, mu);
    }
  }

  lemma ParseHoursWords(h: nat)
    requires h > 0
    ensures ParseTimeWords([NatToString(h), UnitWord(h, "hour")]) == Some(60 * h)
  {
    ReadCountOfNatToString(h);
  }

  lemma ParseMinutesWords(m: nat)
    requires 0 < m < 60
    ensures ParseTimeWords([NatToString(m), UnitWord(m, "min")]) == Some(m)
  {
    ReadCountOfNatToString(m);
    assert UnitWord(m, "min") != UnitWord(m, "hour") by {
      assert UnitWord(m, "min")[0] == 'm';
    }
  }

  lemma ParseHoursMinutesWords(h: nat, m: nat)
    requires h > 0 && 0 < m < 60
    ensures ParseTimeWords([NatToString(h), UnitWord(h, "hour"), NatToString(m), UnitWord(m, "min")])
      == Some(60 * h + m)
  {
    ReadCountOfNatToString(h);
    ReadCountOfNatToString(m);
  }

  lemma UnitWordNoSpace(value: nat, word: string)
    requires NoSpace(word)
    ensures NoSpace(UnitWord(value, word))
  {
  }

  /** No word of a time text holds a space. */
  lemma TimeWordsNoSpace(totalMinutes: nat)
    ensures forall k :: 0 <= k < |TimeWords(totalMinutes)| ==> NoSpace(TimeWords(totalMinutes)[k])
  {
    var (h, m) := SplitHours(totalMinutes);
    NatToStringDigits(h);
    NatToStringDigits(m);
    UnitWordNoSpace(h, "hour");
    UnitWordNoSpace(m, "min");
  }

  /** The words of a nonzero time read back as its minutes. */
  lemma TimeWordsRoundTrip(totalMinutes: nat)
    requires totalMinutes > 0
    ensures TimeWords(totalMinutes) != []
    ensures ParseTimeWords(TimeWords(totalMinutes)) == Some(totalMinutes)
  {
    var (h, m) := SplitHours(totalMinutes);
    var hs, hu, ms, mu := NatToString(h), UnitWord(h, "hour"), NatToString(m), UnitWord(m, "min");
    if h > 0 && m > 0 {
      assert TimeWords(totalMinutes) == [hs, hu, ms, mu];
      ParseHoursMinutesWords(h, m);
    } else if h > 0 {
      assert TimeWords(totalMinutes) == [hs, hu];
      ParseHoursWords(h);
    } else {
      assert TimeWords(totalMinutes) == [ms, mu];
      ParseMinutesWords(m);
    }
  }

  /** The displayed time text gives back exactly the minutes it was made from. */
  lemma TimeTextRoundTrip(totalMinutes: nat)
    ensures ParseTime(TimeText(totalMinutes)) == Some(totalMinutes)
  {
    var ws := TimeWords(totalMinutes);
    TimeTextIsJoin(totalMinutes);
    TimeWordsNoSpace(totalMinutes);
    if totalMinutes > 0 {
      TimeWordsRoundTrip(totalMinutes);
      SplitJoin(ws);
      assert Join(ws) != "" by {
        assert |Join(ws)| >= |ws[0]| > 0;
      }
    }
  }

  /** Two journeys with different total minutes never show the same text. */
  lemma TimeTextInjective(a: nat, b: nat)
    requires TimeText(a) == TimeText(b)
    ensures a == b
  {
    TimeTextRoundTrip(a);
    TimeTextRoundTrip(b);
  }

  /** 125 minutes read "2 hours 5 mins". */
  lemma TimeTextHoursAndMinutes()
    ensures TimeText(125) == "2 hours 5 mins"
  {
    assert NatToString(2) == "2" && NatToString(5) == "5";
  }

  /** 60 minutes read "1 hour", 1 minute reads "1 min", 0 minutes read "". */
  lemma TimeTextSingleParts()
    ensures TimeText(60) == "1 hour"
    ensures TimeText(1) == "1 min"
    ensures TimeText(0) == ""
  {
    assert NatToString(1) == "1";
  }
}
