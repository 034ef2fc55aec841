/**
 * The academy page: the table of course domains, the course details looked
 * up by domain id with a fallback entry, and the two overlays (course
 * details and the MOU request form).
 */
module Academy {
  import opened Wrappers
  import Seqs

  /** A course domain card; the icon and colours are display only. */
  datatype Domain = Domain(id: string, title: string)

  const DOMAINS: seq<Domain> := [
    Domain("ai", "AI & Machine Learning"),
    Domain("fs", "Full Stack Dev"),
    Domain("gen", "Generative AI"),
    Domain("app", "App Development"),
    Domain("dm", "Digital Marketing"),
    Domain("py", "Python Mastery"),
    Domain("java", "Java Enterprise"),
    Domain("mern", "MERN Stack"),
    Domain("sec", "Cyber Security"),
    Domain("ux", "UI/UX Design")
  ]

  function DomainId(d: Domain): string {
    d.id
  }

  /** The domain cards have pairwise different ids. */
  lemma DomainIdsDistinct()
    ensures Seqs.NoDuplicates(Seqs.Map(DOMAINS, DomainId))
  {
    var ids := Seqs.Map(DOMAINS, DomainId);
    assert ids == ["ai", "fs", "gen", "app", "dm", "py", "java", "mern", "sec", "ux"];
  }

  /** What the course overlay shows for a domain. */
  datatype CourseDetail = CourseDetail(modules: seq<string>, tools: seq<string>, duration: string)

  const AI_COURSE: CourseDetail := CourseDetail(
    ["Python for Data Science", "Supervised Learning", "Neural Networks", "NLP & Transformers", "Capstone Project"],
    ["TensorFlow", "PyTorch", "Scikit-learn"],
    "3 Months")

  const FS_COURSE: CourseDetail := CourseDetail(
    ["HTML5/CSS3/JS", "React & Tailwind", "Node.js & Express", "MongoDB Database", "Deployment (AWS)"],
    ["React", "Node", "Git"],
    "4 Months")

  const DEFAULT_COURSE: CourseDetail := CourseDetail(
    ["Fundamentals", "Advanced Concepts", "Real-world Projects", "Industry Best Practices", "Final Assessment"],
    ["VS Code", "Git", "Industry Standard Tools"],
    "3 Months")

  /** The detail table, keyed by domain id, with its fallback entry under "default". */
  const COURSE_DETAILS: map<string, CourseDetail> :=
    map["ai" := AI_COURSE, "fs" := FS_COURSE, "default" := DEFAULT_COURSE]

  /**
   * `getCourseData`: the entry under `id`, or the fallback entry when there
   * is none. Every entry is truthy, so the fallback is taken exactly for
   * missing keys. Whatever it returns has five modules and three tools.
   */
  function GetCourseData(id: string): (r: CourseDetail)
    ensures r in COURSE_DETAILS.Values
    ensures |r.modules| == 5 && |r.tools| == 3
  {
    if id in COURSE_DETAILS then COURSE_DETAILS[id] else COURSE_DETAILS["default"]
  }

  /**
   * The lookup is total: "ai" and "fs" get their own courses, of three and
   * four months, and any other id gets the fallback course.
   */
  lemma CourseLookup(id: string)
    ensures id == "ai" ==> GetCourseData(id) == AI_COURSE && GetCourseData(id).duration == "3 Months"
    ensures id == "fs" ==> GetCourseData(id) == FS_COURSE && GetCourseData(id).duration == "4 Months"
    ensures id != "ai" && id != "fs" ==> GetCourseData(id) == DEFAULT_COURSE
  {
  }

  /** Of the ten domains only the first two have their own details; the other eight share the fallback. */
  lemma DomainsOnFallback(k: nat)
    requires k < |DOMAINS|
    ensures GetCourseData(DOMAINS[k].id) == DEFAULT_COURSE <==> k >= 2
  {
    CourseLookup(DOMAINS[k].id);
    assert AI_COURSE != DEFAULT_COURSE by { assert AI_COURSE.tools[0] != DEFAULT_COURSE.tools[0]; }
    assert FS_COURSE != DEFAULT_COURSE by { assert FS_COURSE.tools[0] != DEFAULT_COURSE.tools[0]; }
  }

  /** The page's overlay state. */
  class AcademyView {
    var selectedCourse: Option<Domain>
    var showMOUForm: bool

    constructor()
      ensures selectedCourse == None && !showMOUForm
    {
      selectedCourse := None;
      showMOUForm := false;
    }

    /** A domain card was pressed: its detail overlay opens. */
    method SelectCourse(d: Domain)
      modifies this
      ensures selectedCourse == Some(d) && showMOUForm == old(showMOUForm)
    {
      selectedCourse := Some(d);
    }

    /** The overlay's backdrop or close button. */
    method CloseCourse()
      modifies this
      ensures selectedCourse == None && showMOUForm == old(showMOUForm)
    {
      selectedCourse := None;
    }

    /** Any of the three "partner" buttons shows the MOU form in place of the partner card. */
    method ShowMOUForm()
      modifies this
      ensures showMOUForm && selectedCourse == old(selectedCourse)
    {
      showMOUForm := true;
    }

    /** The MOU form's close button. */
    method HideMOUForm()
      modifies this
      ensures !showMOUForm && selectedCourse == old(selectedCourse)
    {
      showMOUForm := false;
    }

    /** The details the open overlay shows, if one is open. */
    function Detail(): (r: Option<CourseDetail>)
      reads this
      ensures r.None? <==> selectedCourse.None?
      ensures r.Some? ==> |r.value.modules| == 5 && |r.value.tools| == 3
    {
      match selectedCourse
      case None => None
      case Some(d) => Some(GetCourseData(d.id))
    }
  }
}
