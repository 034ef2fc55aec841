/**
 * The careers board: a tag filter over the open positions, the badge row of
 * each card, the one expandable details panel and the apply button.
 */
module Careers {
  import opened Wrappers
  import opened Types
  import Seqs
  import Text
  import Constants
  import Intake
  import Shell
  import Selection

  /** The tag filter buttons, in the order they are shown. */
  const TAGS: seq<string> := ["All", "Development", "Design", "Marketing", "AI"]

  /** Whether position `j` carries tag `tag`. */
  predicate HasTag(tag: string, j: Job) {
    tag in j.tags
  }

  /** `filteredJobs`: every position under "All", otherwise those carrying the tag, in board order. */
  function Listed(filter: string, jobs: seq<Job>): (r: seq<Job>)
    ensures |r| <= |jobs|
    ensures forall i | 0 <= i < |r| :: r[i] in jobs && (filter == "All" || filter in r[i].tags)
  {
    if filter == "All" then jobs else Seqs.Filter(jobs, j => HasTag(filter, j))
  }

  /** A position is listed exactly when it is on the board and the filter is "All" or one of its tags. */
  lemma ListedExactly(filter: string, jobs: seq<Job>, x: Job)
    ensures x in Listed(filter, jobs) <==> x in jobs && (filter == "All" || filter in x.tags)
  {
    var r := Listed(filter, jobs);
    if x in r {
      var i :| 0 <= i < |r| && r[i] == x;
    } else if x in jobs && filter != "All" && filter in x.tags {
      Seqs.FilterComplete(jobs, j => HasTag(filter, j), x);
    }
  }

  /** Filtering keeps board order. */
  lemma ListedInOrder(filter: string, jobs: seq<Job>)
    ensures Seqs.IsSubsequence(Listed(filter, jobs), jobs)
  {
    if filter == "All" {
      Seqs.FilterKeepsAll(jobs, (j: Job) => true);
      Seqs.FilterIsSubsequence(jobs, (j: Job) => true);
    } else {
      Seqs.FilterIsSubsequence(jobs, j => HasTag(filter, j));
    }
  }

  /** A tag some position carries lists at least that position. */
  lemma TagListsSomething(tag: string, jobs: seq<Job>, w: nat)
    requires w < |jobs| && |jobs[w].tags| > 0 && jobs[w].tags[0] == tag
    ensures |Listed(tag, jobs)| > 0
  {
    ListedExactly(tag, jobs, jobs[w]);
  }

  /** Every filter button of the board lists at least one position. */
  lemma EveryTagListsSomething(t: nat)
    requires t < |TAGS|
    ensures |Listed(TAGS[t], Constants.JOBS)| > 0
  {
    var jobs := Constants.JOBS;
    var tag := TAGS[t];
    if t == 0 {
      assert Listed(tag, jobs) == jobs;
    } else {
      // the first position whose leading tag is `tag`
      var w := if t == 1 then 0 else if t == 2 then 3 else if t == 3 then 4 else 5;
      TagListsSomething(tag, jobs, w);
    }
  }

  /** A badge is kept when its text is not empty once trimmed. */
  predicate Nonblank(text: string) {
    |Text.Trim(text)| > 0
  }

  /**
   * The card's badges: location, employment type, then the tags, dropping
   * blank ones. The location and the type are never blank, so they always
   * lead the row; the tags follow in their own order.
   */
  function Badges(j: Job): (r: seq<string>)
    ensures r == [LocationLabel(j.location), JobTypeLabel(j.kind)] + Seqs.Filter(j.tags, Nonblank)
  {
    var loc := LocationLabel(j.location);
    var ty := JobTypeLabel(j.kind);
    StartsVisible(loc);
    StartsVisible(ty);
    LeadingBadges(loc, ty, j.tags);
    Seqs.Filter([loc, ty] + j.tags, Nonblank)
  }

  /** Two badges that are not blank survive the blank check ahead of the tags. */
  lemma LeadingBadges(loc: string, ty: string, tags: seq<string>)
    requires Nonblank(loc) && Nonblank(ty)
    ensures Seqs.Filter([loc, ty] + tags, Nonblank) == [loc, ty] + Seqs.Filter(tags, Nonblank)
  {
    var s := [loc, ty] + tags;
    assert s[1..] == [ty] + tags;
    assert s[1..][1..] == tags;
    var rest := Seqs.Filter(tags, Nonblank);
    assert Seqs.Filter(s[1..], Nonblank) == [ty] + rest;
    assert Seqs.Filter(s, Nonblank) == [loc] + ([ty] + rest);
  }

  /** The badges on screen: the first four, so the location, the type and at most two tags. */
  function ShownBadges(j: Job): (r: seq<string>)
    ensures 2 <= |r| <= 4
    ensures r[0] == LocationLabel(j.location) && r[1] == JobTypeLabel(j.kind)
  {
    Seqs.Take(Badges(j), 4)
  }

  /** A text whose first character is not white space survives the blank check. */
  lemma StartsVisible(text: string)
    requires |text| > 0 && !Text.IsWhite(text[0])
    ensures Nonblank(text)
  {
    Text.TrimEmptyIffBlank(text);
  }

  /**
   * The badge row shows the location, the employment type and then the first
   * non-blank tags in their own order, at most four badges in all.
   */
  lemma ShownBadgesShape(j: Job)
    ensures ShownBadges(j) ==
      Seqs.Take([LocationLabel(j.location), JobTypeLabel(j.kind)] + Seqs.Filter(j.tags, Nonblank), 4)
    ensures forall i | 2 <= i < |ShownBadges(j)| :: ShownBadges(j)[i] in j.tags && Nonblank(ShownBadges(j)[i])
  {
    var rest := Seqs.Filter(j.tags, Nonblank);
    var b := Badges(j);
    var shown := ShownBadges(j);
    assert shown == b[..|shown|];
    forall i | 2 <= i < |shown| ensures shown[i] in j.tags && Nonblank(shown[i]) {
      assert shown[i] == b[i] == rest[i - 2];
    }
  }

  /** The board's state: the selected tag and the open card. */
  class CareersBoard {
    var filter: string
    var expandedJob: Option<string>

    constructor()
      ensures filter == "All" && expandedJob == None
    {
      filter := "All";
      expandedJob := None;
    }

    /** A tag button was pressed; the open card stays open. */
    method SetFilter(tag: string)
      modifies this
      ensures filter == tag && expandedJob == old(expandedJob)
    {
      filter := tag;
    }

    /** A card's details button was pressed. */
    method ToggleExpand(id: string)
      modifies this
      ensures expandedJob == Selection.Toggle(old(expandedJob), id) && filter == old(filter)
    {
      if expandedJob == Some(id) {
        expandedJob := None;
      } else {
        expandedJob := Some(id);
      }
    }

    /** The cards on screen. */
    function Shown(): seq<Job>
      reads this
    {
      Listed(filter, Constants.JOBS)
    }
  }

  /** A card's apply button applies for that position, by title, as a job. */
  method ApplyFor(app: Shell.App, j: Job)
    modifies app
    ensures app.isAppModalOpen && app.appModalData == Some(Intake.ModalData("Job", j.title))
    ensures app.currentView == old(app.currentView)
    ensures app.loading == old(app.loading)
    ensures app.isDarkMode == old(app.isDarkMode) && app.lightModeClass == old(app.lightModeClass)
    ensures app.showAnnouncement == old(app.showAnnouncement)
  {
    app.Apply(j.title, "Job");
  }
}
