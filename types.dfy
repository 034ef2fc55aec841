/**
 * The record types the site's components share. Closed string unions of the
 * original become enumerations with a label function giving the string the
 * user sees.
 */
module Types {

  /** Whether an internship is free or paid. */
  datatype InternshipType = Free | Paid

  /** How a programme is delivered. */
  datatype Mode = Online | Offline | Hybrid

  /** An internship programme of the catalogue. */
  datatype Internship = Internship(
    id: string,
    title: string,
    kind: InternshipType,
    duration: string,
    mode: Mode,
    description: string)

  /** The employment type of an open position. */
  datatype JobType = InternshipPosition | FullTime

  /** Where an open position is based. */
  datatype Location = Remote | OnSite | HybridSite

  /** The label shown for a job type. */
  function JobTypeLabel(t: JobType): string {
    match t
    case InternshipPosition => "Internship"
    case FullTime => "Full Time"
  }

  /** The label shown for a location. */
  function LocationLabel(l: Location): string {
    match l
    case Remote => "Remote"
    case OnSite => "On-site"
    case HybridSite => "Hybrid"
  }

  /** An open position on the careers board. */
  datatype Job = Job(
    id: string,
    title: string,
    kind: JobType,
    location: Location,
    description: string,
    tags: seq<string>,
    perks: string,
    responsibilities: seq<string>)

  /** A product of the home-page catalogue. */
  datatype Product = Product(id: string, name: string, description: string, category: string)

  /** How a workshop is held; unlike a programme, never hybrid. */
  datatype WorkshopMode = WorkshopOnline | WorkshopOffline

  /** Whether a workshop is still to come. */
  datatype WorkshopStatus = Upcoming | Completed

  /** A workshop; `date` is free text such as "Oct 25, 2025". */
  datatype Workshop = Workshop(
    id: string,
    title: string,
    date: string,
    mode: WorkshopMode,
    description: string,
    status: WorkshopStatus)

  /** A person honoured on the awards carousel. */
  datatype Awardee = Awardee(id: string, name: string, role: string, image: string, description: string)

  /** A quote on the testimonials carousel (its star rating is left out). */
  datatype Testimonial = Testimonial(id: string, name: string, role: string, quote: string)

  /** One question of the FAQ accordion. */
  datatype FaqItem = FaqItem(question: string, answer: string)

  /** Where a submitted application stands. */
  datatype ApplicationStatus = Submitted | UnderReview

  /**
   * A submitted application as kept in the browser's store. `kind` is the
   * category the apply button passed ("Internship", "Job", "Service", ...);
   * the form stores it unchecked, so it is any string.
   */
  datatype Application = Application(
    id: string,
    kind: string,
    role: string,
    name: string,
    email: string,
    phone: string,
    date: string,
    status: ApplicationStatus)
}
