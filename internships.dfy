/**
 * The internship board: five filter buttons over the internship catalogue
 * and the apply buttons that open the application dialog.
 */
module Internships {
  import opened Wrappers
  import opened Types
  import Seqs
  import Constants
  import Intake
  import Shell

  /** The filter buttons, in the order they are shown. */
  datatype FilterChoice = All | FreeOnly | PaidOnly | OnlineOnly | OfflineOnly

  const FILTER_CHOICES: seq<FilterChoice> := [All, FreeOnly, PaidOnly, OnlineOnly, OfflineOnly]

  /** The caption of a filter button. */
  function ChoiceLabel(f: FilterChoice): string {
    match f
    case All => "All"
    case FreeOnly => "Free"
    case PaidOnly => "Paid"
    case OnlineOnly => "Online"
    case OfflineOnly => "Offline"
  }

  /**
   * Whether filter `f` lets `item` through. "All" lets everything through,
   * "Free" and "Paid" are complementary, and a hybrid programme passes
   * neither mode filter.
   */
  predicate Keeps(f: FilterChoice, item: Internship): (b: bool)
    ensures f == All ==> b
    ensures f == FreeOnly ==> (b <==> item.kind != Paid)
    ensures f == PaidOnly ==> (b <==> item.kind != Free)
    ensures f == OnlineOnly ==> (b <==> item.mode == Online)
    ensures f == OfflineOnly ==> (b <==> item.mode == Offline)
    ensures item.mode == Hybrid && (f == OnlineOnly || f == OfflineOnly) ==> !b
  {
    match f
    case All => true
    case FreeOnly => item.kind == Free
    case PaidOnly => item.kind == Paid
    case OnlineOnly => item.mode == Online
    case OfflineOnly => item.mode == Offline
  }

  /** `filteredInternships`: the items filter `f` lets through, in catalogue order. */
  function Visible(f: FilterChoice, items: seq<Internship>): (r: seq<Internship>)
    ensures |r| <= |items|
    ensures forall i | 0 <= i < |r| :: r[i] in items && Keeps(f, r[i])
  {
    Seqs.Filter(items, x => Keeps(f, x))
  }

  /**
   * An item is shown exactly when it is in the catalogue and passes the
   * filter; in particular neither mode filter shows a hybrid programme.
   */
  lemma VisibleExactly(f: FilterChoice, items: seq<Internship>, x: Internship)
    ensures x in Visible(f, items) <==> x in items && Keeps(f, x)
    ensures x.mode == Hybrid && (f == OnlineOnly || f == OfflineOnly) ==> x !in Visible(f, items)
  {
    var r := Visible(f, items);
    if x in r {
      var i :| 0 <= i < |r| && r[i] == x;
    } else if x in items && Keeps(f, x) {
      Seqs.FilterComplete(items, y => Keeps(f, y), x);
    }
  }

  /** "All" shows the whole catalogue, and every filter keeps catalogue order. */
  lemma VisibleOrder(f: FilterChoice, items: seq<Internship>)
    ensures Visible(All, items) == items
    ensures Seqs.IsSubsequence(Visible(f, items), items)
  {
    Seqs.FilterKeepsAll(items, x => Keeps(All, x));
    Seqs.FilterIsSubsequence(items, x => Keeps(f, x));
  }

  /** "Free" and "Paid" split the catalogue: every programme is under exactly one of them. */
  lemma {:induction false} KindPartition(items: seq<Internship>)
    ensures |Visible(FreeOnly, items)| + |Visible(PaidOnly, items)| == |items|
  {
    if items != [] {
      KindPartition(items[1..]);
    }
  }

  /** The hybrid programmes of a list, which neither mode filter shows. */
  function Hybrids(items: seq<Internship>): seq<Internship> {
    Seqs.Filter(items, (x: Internship) => x.mode == Hybrid)
  }

  /** "Online", "Offline" and the hybrid remainder split the catalogue. */
  lemma {:induction false} ModePartition(items: seq<Internship>)
    ensures |Visible(OnlineOnly, items)| + |Visible(OfflineOnly, items)| + |Hybrids(items)| == |items|
  {
    if items != [] {
      ModePartition(items[1..]);
    }
  }

  /** The catalogue has two free and three paid programmes, and no hybrid one. */
  lemma CatalogueCounts()
    ensures |Visible(FreeOnly, Constants.INTERNSHIPS)| == 2
    ensures |Visible(PaidOnly, Constants.INTERNSHIPS)| == 3
    ensures |Hybrids(Constants.INTERNSHIPS)| == 0
  {
    var s := Constants.INTERNSHIPS;
    assert s[1..][1..][1..][1..][1..] == [];
    KindPartition(s);
  }

  /** The board's one piece of state: the selected filter. */
  class InternshipBoard {
    var filter: FilterChoice

    constructor()
      ensures filter == All
    {
      filter := All;
    }

    /** A filter button was pressed. */
    method SetFilter(f: FilterChoice)
      modifies this
      ensures filter == f
    {
      filter := f;
    }

    /** The cards on screen. */
    function Shown(): seq<Internship>
      reads this
    {
      Visible(filter, Constants.INTERNSHIPS)
    }
  }

  /** The featured card's button applies to the free programme. */
  method ApplyFeatured(app: Shell.App)
    modifies app
    ensures app.isAppModalOpen && app.appModalData == Some(Intake.ModalData("Internship", "Free Internship Program"))
    ensures app.currentView == old(app.currentView)
    ensures app.loading == old(app.loading)
    ensures app.isDarkMode == old(app.isDarkMode) && app.lightModeClass == old(app.lightModeClass)
    ensures app.showAnnouncement == old(app.showAnnouncement)
  {
    app.Apply("Free Internship Program", "Internship");
  }

  /** A card's button applies to that programme, by title. */
  method ApplyTo(app: Shell.App, item: Internship)
    modifies app
    ensures app.isAppModalOpen && app.appModalData == Some(Intake.ModalData("Internship", item.title))
    ensures app.currentView == old(app.currentView)
    ensures app.loading == old(app.loading)
    ensures app.isDarkMode == old(app.isDarkMode) && app.lightModeClass == old(app.lightModeClass)
    ensures app.showAnnouncement == old(app.showAnnouncement)
  {
    app.Apply(item.title, "Internship");
  }
}
