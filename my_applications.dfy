/**
 * The "My Applications" dialog: it reads the stored list when opened and
 * shows either an empty notice or one row per application.
 */
module Applications {
  import opened Wrappers
  import opened Types
  import opened Storage
  import Intake
  import Modal

  /** The status text a row shows. */
  function StatusLabel(s: ApplicationStatus): string {
    match s
    case Submitted => "Submitted"
    case UnderReview => "Under Review"
  }

  /** What one row shows: role, id, category, date and status. */
  datatype Row = Row(role: string, id: string, kind: string, date: string, status: string)

  /** The dialog body: the "No Applications Yet" notice or the list of rows. */
  datatype Listing = NoApplicationsYet | Rows(rows: seq<Row>)

  /** The row for one application. */
  function RowOf(a: Application): Row {
    Row(a.role, a.id, a.kind, a.date, StatusLabel(a.status))
  }

  /** The body for a list of applications: the notice exactly when it is empty, else one row each, in order. */
  function ListingOf(apps: seq<Application>): (l: Listing)
    ensures l.NoApplicationsYet? <==> |apps| == 0
    ensures l.Rows? ==> |l.rows| == |apps| && forall i | 0 <= i < |apps| :: l.rows[i] == RowOf(apps[i])
  {
    if |apps| == 0 then NoApplicationsYet else Rows(seq(|apps|, i requires 0 <= i < |apps| => RowOf(apps[i])))
  }

  /** One mounted "My Applications" dialog. */
  class MyApplications {
    var applications: seq<Application>

    /** The dialog starts with no applications. */
    constructor()
      ensures applications == []
    {
      applications := [];
    }

    /**
     * The effect run on opening: when the store holds a list, the dialog shows
     * exactly that list in stored order; when the key is absent it keeps what
     * it had. The store is only read.
     */
    method OnOpen(store: LocalStore)
      modifies this
      ensures store.apps.Some? ==> applications == store.apps.value
      ensures store.apps.None? ==> applications == old(applications)
    {
      if store.apps.Some? {
        applications := store.apps.value;
      }
    }

    /** What the dialog body shows. */
    function View(): Listing
      reads this
    {
      ListingOf(applications)
    }
  }

  /**
   * A submission that passes shows up at the top of "My Applications" when
   * it is opened afterwards, above the applications stored before, in their order.
   */
  method SubmitThenReview(modal: Modal.ApplicationModal, list: MyApplications,
                          data: Option<Intake.ModalData>, iso: string, localeDate: string, draw: nat)
    requires modal.Valid() && modal.step == 3 && draw < 9000
    requires Intake.StepPasses(3, modal.form)
    modifies modal, modal.store, list
    ensures modal.step == 4 && modal.generatedId == Intake.AppId(Intake.KindOf(data), iso, draw)
    ensures modal.form == old(modal.form) && modal.errors == Intake.StepErrors(3, modal.form)
    ensures modal.store.apps == Some(list.applications)
    ensures list.applications == [Intake.NewApplication(data, modal.generatedId, modal.form, localeDate)]
      + old(modal.store.Stored())
    ensures list.View().Rows? && list.View().rows[0].id == modal.generatedId
  {
    modal.Submit(data, iso, localeDate, draw);
    list.OnOpen(modal.store);
  }
}
