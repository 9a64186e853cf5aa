/** The role page of frontend/src/pages/RoleDetails.jsx: which progress a
    course card shows, how the role's courses are split into per-skill
    sections and a supplementary section, and the requests its progress
    buttons send. */
module RoleDetailsPage {
  import opened Records
  import opened Seqs
  import opened Client
  import opened Aggregation
  import opened UserProgress

  /** The two progress fields a card reads. */
  datatype Progress = Progress(completionPercentage: int, isCompleted: bool)

  /** What a card shows when nothing is known. */
  const NoProgress: Progress := Progress(0, false)

  /** `getCourseProgress`: the first context entry whose `course` is the id
      string itself (`===`), else 0 percent and not completed. */
  function GetCourseProgress(entries: seq<ClientEntry>, courseId: Id): (p: Progress)
    ensures (forall i :: 0 <= i < |entries| ==> entries[i].course != CourseId(courseId)) ==> p == NoProgress
    ensures forall i :: 0 <= i < |entries| && entries[i].course == CourseId(courseId)
                        && (forall j :: 0 <= j < i ==> entries[j].course != CourseId(courseId))
               ==> p == Progress(entries[i].completionPercentage, entries[i].isCompleted)
  {
    if entries == [] then NoProgress
    else if entries[0].course == CourseId(courseId) then Progress(entries[0].completionPercentage, entries[0].isCompleted)
    else
      assert forall i :: 1 <= i < |entries| ==> entries[i] == entries[1..][i - 1];
      GetCourseProgress(entries[1..], courseId)
  }

  /** A context whose entries carry populated courses never matches an id
      string, so the lookup then always gives the empty progress. */
  lemma PopulatedEntriesNeverMatch(entries: seq<ClientEntry>, courseId: Id)
    requires forall i :: 0 <= i < |entries| ==> entries[i].course.CourseDoc?
    ensures GetCourseProgress(entries, courseId) == NoProgress
  {
  }

  /** `course.progress || getCourseProgress(course._id)`: the progress the
      server attached wins; the context is read only when there is none. */
  function DisplayedProgress(c: AnnotatedCourse, entries: seq<ClientEntry>): (p: Progress)
    ensures c.progress.Some? ==> p == Progress(c.progress.value.completionPercentage, c.progress.value.isCompleted)
    ensures c.progress.None? ==> p == GetCourseProgress(entries, c.course.id)
  {
    match c.progress
    case Some(e) => Progress(e.completionPercentage, e.isCompleted)
    case None => GetCourseProgress(entries, c.course.id)
  }

  /** The cards of the section for `skill`. */
  function SkillSection(courses: seq<AnnotatedCourse>, skill: string): seq<AnnotatedCourse> {
    Filter(courses, (c: AnnotatedCourse) => c.course.skill == skill)
  }

  /** The cards of "Supplementary Learning": courses whose skill is none of
      the role's. */
  function Supplementary(courses: seq<AnnotatedCourse>, skills: seq<string>): seq<AnnotatedCourse> {
    Filter(courses, (c: AnnotatedCourse) => c.course.skill !in skills)
  }

  /** The supplementary section is rendered when some course has a skill
      outside the role's (`some`), which is exactly when it has a card. */
  lemma SupplementaryShown(courses: seq<AnnotatedCourse>, skills: seq<string>)
    ensures (exists i :: 0 <= i < |courses| && courses[i].course.skill !in skills) <==> |Supplementary(courses, skills)| > 0
  {
    if exists i :: 0 <= i < |courses| && courses[i].course.skill !in skills {
      var i :| 0 <= i < |courses| && courses[i].course.skill !in skills;
      assert courses[i] in Supplementary(courses, skills);
    }
    if |Supplementary(courses, skills)| > 0 {
      var c := Supplementary(courses, skills)[0];
      assert c in courses;
    }
  }

  /** How many of the per-skill sections, one per entry of `skills`, show `c`. */
  function SkillSectionsShowing(courses: seq<AnnotatedCourse>, skills: seq<string>, c: AnnotatedCourse): nat {
    if skills == [] then 0
    else (if c in SkillSection(courses, skills[0]) then 1 else 0) + SkillSectionsShowing(courses, skills[1..], c)
  }

  /** How many sections of the page show `c`. */
  function SectionsShowing(courses: seq<AnnotatedCourse>, skills: seq<string>, c: AnnotatedCourse): nat {
    SkillSectionsShowing(courses, skills, c) + (if c in Supplementary(courses, skills) then 1 else 0)
  }

  /** A course of the role appears in the section of each skill entry equal
      to its own skill: once when the skill is listed once, not at all when
      it is not listed. */
  lemma {:induction false} SkillSectionsCount(courses: seq<AnnotatedCourse>, skills: seq<string>, c: AnnotatedCourse)
    requires c in courses && NoDuplicates(skills)
    ensures SkillSectionsShowing(courses, skills, c) == (if c.course.skill in skills then 1 else 0)
  {
    if skills != [] {
      assert NoDuplicates(skills[1..]) by {
        forall i, j | 0 <= i < j < |skills[1..]| ensures skills[1..][i] != skills[1..][j] {
          assert skills[1..][i] == skills[i + 1] && skills[1..][j] == skills[j + 1];
        }
      }
      SkillSectionsCount(courses, skills[1..], c);
      assert skills[0] !in skills[1..] by {
        forall k | 0 <= k < |skills[1..]| ensures skills[1..][k] != skills[0] {
          assert skills[1..][k] == skills[k + 1];
        }
      }
      assert c.course.skill in skills <==> c.course.skill == skills[0] || c.course.skill in skills[1..];
    }
  }

  /** When the role lists no skill twice, each of its courses is shown in
      exactly one section. */
  lemma EachCourseShownOnce(courses: seq<AnnotatedCourse>, skills: seq<string>, c: AnnotatedCourse)
    requires c in courses && NoDuplicates(skills)
    ensures SectionsShowing(courses, skills, c) == 1
  {
    SkillSectionsCount(courses, skills, c);
  }

  /** A skill listed twice shows its courses in two sections. */
  lemma RepeatedSkillShownTwice(courses: seq<AnnotatedCourse>, skill: string, c: AnnotatedCourse)
    requires c in courses && c.course.skill == skill
    ensures SectionsShowing(courses, [skill, skill], c) == 2
  {
    var skills := [skill, skill];
    assert skills[1..] == [skill] && [skill][1..] == [];
    assert c in SkillSection(courses, skill);
    assert SkillSectionsShowing(courses, [skill], c) == 1;
    assert SkillSectionsShowing(courses, skills, c) == 2;
    assert skill in skills;
    assert c !in Supplementary(courses, skills);
  }

  // ----------------------------------------------------- progress buttons

  /** The body of `POST /user/course-progress`. */
  datatype ProgressRequest = ProgressRequest(courseId: Id, completionPercentage: int, isCompleted: bool)

  /** The percentage buttons of a card. */
  const PercentButtons: seq<int> := [25, 50, 75, 100]

  /** A percentage button: the course counts as completed only at 100. */
  function PercentRequest(courseId: Id, pct: int): ProgressRequest {
    ProgressRequest(courseId, pct, pct == 100)
  }

  /** The completion button: back to 0 when the card shows completed,
      otherwise to 100 and completed. */
  function ToggleRequest(courseId: Id, shown: Progress): ProgressRequest {
    if shown.isCompleted then ProgressRequest(courseId, 0, false) else ProgressRequest(courseId, 100, true)
  }

  /** Every request a card sends has a percentage in [0, 100], is completed
      exactly at 100, and the completion button flips what the card showed. */
  lemma RequestsConsistent(courseId: Id, shown: Progress, k: nat)
    requires k < |PercentButtons|
    ensures var r := PercentRequest(courseId, PercentButtons[k]);
      0 <= r.completionPercentage <= 100 && (r.isCompleted <==> r.completionPercentage == 100)
    ensures var r := ToggleRequest(courseId, shown);
      0 <= r.completionPercentage <= 100 && (r.isCompleted <==> r.completionPercentage == 100)
      && r.isCompleted == !shown.isCompleted
  {
  }

  /** The server stores the percentage without its schema validators, so
      the stored bound rests on what the buttons send: applying any of
      their requests keeps every entry of a valid progress list valid. */
  lemma ButtonRequestsKeepEntriesValid(list: seq<CourseEntry>, courseId: Id, shown: Progress, k: nat, now: Time)
    requires k < |PercentButtons|
    requires forall j :: 0 <= j < |list| ==> ValidCourseEntry(list[j])
    ensures var r := PercentRequest(courseId, PercentButtons[k]);
      var after := UpsertCourse(list, r.courseId, r.completionPercentage, r.isCompleted, now);
      forall j :: 0 <= j < |after| ==> ValidCourseEntry(after[j])
    ensures var r := ToggleRequest(courseId, shown);
      var after := UpsertCourse(list, r.courseId, r.completionPercentage, r.isCompleted, now);
      forall j :: 0 <= j < |after| ==> ValidCourseEntry(after[j])
  {
    RequestsConsistent(courseId, shown, k);
    var r1 := PercentRequest(courseId, PercentButtons[k]);
    UpsertCourseKeepsValid(list, r1.courseId, r1.completionPercentage, r1.isCompleted, now);
    var r2 := ToggleRequest(courseId, shown);
    UpsertCourseKeepsValid(list, r2.courseId, r2.completionPercentage, r2.isCompleted, now);
  }
}
