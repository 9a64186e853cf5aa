/** The record shapes of the document store: the user's embedded progress
    entries (backend/models/User.js) and the catalog records, chiefly the
    course (backend/models/Course.js). Values only; the user document
    itself, whose progress lists the controllers change in place, is the
    class UserProgress.UserDoc. */
module Records {

  datatype Option<+T> = None | Some(value: T)

  datatype Result<+T, +E> = Ok(value: T) | Err(error: E)

  /** A document id, in the string form the controllers compare. */
  type Id = string

  /** An instant; handlers take it as a parameter instead of reading the clock. */
  type Time = int

  // ---------------------------------------------------------------- users

  /** The values the schema's `level` enum admits. */
  const LevelNames: seq<string> := ["Beginner", "Intermediate", "Advanced"]

  /** The values the schema's account `role` enum admits, and its default. */
  const AccountRoles: seq<string> := ["user", "admin"]
  const DefaultAccountRole: string := "user"

  /** One `skillProgress` entry. The level is kept as the string that was
      stored: the progress handler writes with `updateOne`, which does not
      run the schema's enum validator. */
  datatype SkillEntry = SkillEntry(skill: string, level: string)

  /** One `courseProgress` entry; `None` stands for the schema's `null`. */
  datatype CourseEntry = CourseEntry(
    course: Id,
    isCompleted: bool,
    completionPercentage: int,
    startedAt: Option<Time>,
    completedAt: Option<Time>)

  /** What the schema declares of a skill entry: a level from the enum. */
  predicate ValidSkillEntry(e: SkillEntry) {
    e.level in LevelNames
  }

  /** What the schema declares of a course entry: a percentage in [0, 100]. */
  predicate ValidCourseEntry(e: CourseEntry) {
    0 <= e.completionPercentage <= 100
  }

  // -------------------------------------------------------------- catalog

  /** The course `type` enum. */
  datatype PriceType = Free | Paid

  /** One certification listed on a course; its type is optional. */
  datatype Certification = Certification(name: string, kind: Option<PriceType>, link: string)

  /** A course document. The schema declares no amount, extra links, level
      or featured flag, so none is stored. */
  datatype Course = Course(
    id: Id,
    title: string,
    skill: string,
    stream: Option<Id>,
    subDomain: Option<Id>,
    role: Option<Id>,
    kind: PriceType,
    provider: string,
    duration: string,
    link: string,
    description: string,
    certifications: seq<Certification>,
    targetCompanies: seq<string>)

  /** The schema's required string fields are present (an empty string
      fails a required validator). */
  predicate ValidCourse(c: Course) {
    c.title != "" && c.skill != "" && c.provider != "" && c.link != ""
  }

  /** Stream and sub-domain documents. Neither schema declares a slug, so a
      slug is present only where the stored document happens to carry one. */
  datatype Stream = Stream(id: Id, name: string, description: string, slug: Option<string>)

  datatype SubDomain = SubDomain(id: Id, name: string, stream: Id, slug: Option<string>)

  /** A role: a career target inside one sub-domain, with its skill names. */
  datatype Role = Role(id: Id, title: string, description: string, subDomain: Id, skills: seq<string>)

  /** A job listing tied to one role. */
  datatype Job = Job(id: Id, title: string, role: Id, company: string)
}
