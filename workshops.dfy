/**
 * The workshop cards: the date box's month and day labels, cut out of the
 * date text, and the parts of the card that depend on the status.
 */
module Workshops {
  import opened Wrappers
  import opened Types
  import Text
  import Constants

  /** `date.split(' ')[0]`: the text before the first space, or all of it when there is none. */
  function MonthLabel(date: string): (r: string)
    ensures Text.Lacks(r, ' ')
    ensures Text.Lacks(date, ' ') ==> r == date
  {
    var pieces := Text.Split(date, ' ');
    if Text.Lacks(date, ' ') then Text.SplitLacking(date, ' '); pieces[0] else pieces[0]
  }

  /**
   * `date.split(' ')[1].replace(',', '')`: the second space-separated piece
   * with its first comma removed. A date without a space has no second piece
   * and the card cannot be drawn; that is `None`.
   */
  function DayLabel(date: string): (r: Option<string>)
    ensures r.None? <==> Text.Lacks(date, ' ')
  {
    var pieces := Text.Split(date, ' ');
    if Text.Lacks(date, ' ') then Text.SplitLacking(date, ' '); None
    else
      assert |pieces| >= 2 by { SplitFindsSpace(date); }
      Some(Text.RemoveFirst(pieces[1], ','))
  }

  /** A string with a space splits into at least two pieces. */
  lemma SplitFindsSpace(date: string)
    requires !Text.Lacks(date, ' ')
    ensures |Text.Split(date, ' ')| >= 2
  {
    var k := Text.FirstIndex(date, ' ');
    assert date == date[..k] + [' '] + date[k + 1..];
    Text.SplitAt(date[..k], ' ', date[k + 1..]);
  }

  /** The month label is the text before the first space, whatever follows it. */
  lemma MonthLabelOf(month: string, rest: string)
    requires Text.Lacks(month, ' ')
    ensures MonthLabel(month + [' '] + rest) == month
  {
    Text.SplitAt(month, ' ', rest);
    assert (month + [' '] + rest)[|month|] == ' ';
  }

  /**
   * The day label is the text between the first and the second space (or
   * the end), with its first comma removed.
   */
  lemma DayLabelOf(month: string, day: string, rest: string)
    requires Text.Lacks(month, ' ') && Text.Lacks(day, ' ')
    requires rest == [] || rest[0] == ' '
    ensures DayLabel(month + [' '] + day + rest) == Some(Text.RemoveFirst(day, ','))
  {
    var date := month + [' '] + day + rest;
    assert date == month + [' '] + (day + rest);
    assert date[|month|] == ' ';
    Text.SplitAt(month, ' ', day + rest);
    if rest == [] {
      assert day + rest == day;
      Text.SplitLacking(day, ' ');
    } else {
      assert day + rest == day + [' '] + rest[1..];
      Text.SplitAt(day, ' ', rest[1..]);
    }
  }

  /** Removing the first comma from a text that ends in its only comma gives the text before it. */
  lemma RemoveTrailingComma(day: string)
    requires Text.Lacks(day, ',')
    ensures Text.RemoveFirst(day + [','], ',') == day
  {
    var s := day + [','];
    assert s[|day|] == ',';
    var k :| Text.FirstRemovedAt(s, ',', k, Text.RemoveFirst(s, ','));
    assert k == |day|;
    assert s[..k] == day;
  }

  /**
   * A date written "<month> <day>, <year>", with no space in the month, the
   * day or the year and no comma in the day, gives the labels `month` and `day`.
   */
  lemma DateLabels(month: string, day: string, year: string)
    requires Text.Lacks(month, ' ') && Text.Lacks(day, ' ') && Text.Lacks(day, ',') && Text.Lacks(year, ' ')
    ensures MonthLabel(month + " " + day + ", " + year) == month
    ensures DayLabel(month + " " + day + ", " + year) == Some(day)
  {
    var date := month + " " + day + ", " + year;
    var rest := day + [','] + [' '] + year;
    assert date == month + [' '] + rest;
    assert Text.Lacks(day + [','], ' ');
    assert rest == (day + [',']) + [' '] + year;
    Text.SplitAt(day + [','], ' ', year);
    Text.SplitAt(month, ' ', rest);
    assert Text.Split(date, ' ')[1] == day + [','];
    assert !Text.Lacks(date, ' ') by { assert date[|month|] == ' '; }
    RemoveTrailingComma(day);
  }

  /** The site's two workshops show "Oct" "25" and "Sep" "10". */
  lemma SiteWorkshopLabels()
    ensures MonthLabel(Constants.WORKSHOPS[0].date) == "Oct" && DayLabel(Constants.WORKSHOPS[0].date) == Some("25")
    ensures MonthLabel(Constants.WORKSHOPS[1].date) == "Sep" && DayLabel(Constants.WORKSHOPS[1].date) == Some("10")
  {
    var d0, d1 := Constants.WORKSHOPS[0].date, Constants.WORKSHOPS[1].date;
    assert d0 == "Oct" + " " + "25" + ", " + "2025";
    assert d1 == "Sep" + " " + "10" + ", " + "2025";
    assert Text.Lacks("Oct", ' ') && Text.Lacks("25", ' ') && Text.Lacks("25", ',');
    assert Text.Lacks("Sep", ' ') && Text.Lacks("10", ' ') && Text.Lacks("10", ',');
    assert Text.Lacks("2025", ' ');
    LabelsOf("Oct", "25", "2025", d0);
    LabelsOf("Sep", "10", "2025", d1);
  }

  /** `DateLabels` for a date given as one literal. */
  lemma LabelsOf(month: string, day: string, year: string, date: string)
    requires Text.Lacks(month, ' ') && Text.Lacks(day, ' ') && Text.Lacks(day, ',') && Text.Lacks(year, ' ')
    requires date == month + " " + day + ", " + year
    ensures MonthLabel(date) == month && DayLabel(date) == Some(day)
  {
    DateLabels(month, day, year);
  }

  /** The action button of a card. */
  datatype CardButton = RegisterNow | ViewSummary

  /** The status-dependent parts of a card: the accent colour, the "Completed" badge and the button. */
  datatype CardLook = CardLook(purpleAccent: bool, completedBadge: bool, button: CardButton)

  /** A card has the purple accent exactly when it has the register button, and never both the badge and that button. */
  function Look(w: Workshop): (r: CardLook)
    ensures r.purpleAccent <==> r.button == RegisterNow
    ensures !(r.completedBadge && r.button == RegisterNow)
  {
    CardLook(w.status == Upcoming, w.status == Completed, if w.status == Upcoming then RegisterNow else ViewSummary)
  }

  /**
   * An upcoming workshop has the purple accent and the register button; a
   * completed one has the badge and the summary button; no card has both.
   */
  lemma LookByStatus(w: Workshop)
    ensures Look(w).button == RegisterNow <==> w.status == Upcoming
    ensures Look(w).completedBadge <==> w.status == Completed
    ensures Look(w).purpleAccent <==> Look(w).button == RegisterNow
    ensures !(Look(w).completedBadge && Look(w).button == RegisterNow)
  {
  }
}
