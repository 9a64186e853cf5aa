/** The per-user progress upserts of backend/controllers/userController.js:
    `updateSkillProgress` keys `skillProgress` by skill name and
    `trackCourseProgress` keys `courseProgress` by course id. Each finds the
    first matching entry and either sets its fields in place or appends a
    new entry. The schema does not declare the keys unique; the lemmas below
    show that these upserts keep them unique. */
module UserProgress {
  import opened Records
  import opened Seqs

  // ------------------------------------------------------- skill progress

  /** How many entries `list` holds for `skill`. */
  function SkillCount(list: seq<SkillEntry>, skill: string): nat {
    if list == [] then 0
    else (if list[0].skill == skill then 1 else 0) + SkillCount(list[1..], skill)
  }

  /** No skill name has two entries. */
  ghost predicate UniqueSkills(list: seq<SkillEntry>) {
    forall skill :: SkillCount(list, skill) <= 1
  }

  /** The list `updateSkillProgress` leaves: the first entry for `skill`
      gets `level`; when there is none, `{skill, level}` is appended. */
  function UpsertSkill(list: seq<SkillEntry>, skill: string, level: string): seq<SkillEntry> {
    if list == [] then [SkillEntry(skill, level)]
    else if list[0].skill == skill then [list[0].(level := level)] + list[1..]
    else [list[0]] + UpsertSkill(list[1..], skill, level)
  }

  /** When position `i` holds the first entry for `skill`, the upsert sets
      that entry's level and changes nothing else. */
  lemma {:induction false} UpsertSkillAtFirstMatch(list: seq<SkillEntry>, skill: string, level: string, i: nat)
    requires i < |list| && list[i].skill == skill
    requires forall j :: 0 <= j < i ==> list[j].skill != skill
    ensures UpsertSkill(list, skill, level) == list[i := list[i].(level := level)]
  {
    if i > 0 {
      UpsertSkillAtFirstMatch(list[1..], skill, level, i - 1);
      assert list[i := list[i].(level := level)] == [list[0]] + list[1..][i - 1 := list[i].(level := level)];
    }
  }

  /** When no entry holds `skill`, the upsert appends exactly one entry. */
  lemma {:induction false} UpsertSkillWhenAbsent(list: seq<SkillEntry>, skill: string, level: string)
    requires forall j :: 0 <= j < |list| ==> list[j].skill != skill
    ensures UpsertSkill(list, skill, level) == list + [SkillEntry(skill, level)]
  {
    if list != [] {
      UpsertSkillWhenAbsent(list[1..], skill, level);
      assert list == [list[0]] + list[1..];
    }
  }

  /** Applying the same skill update twice equals applying it once. */
  lemma {:induction false} UpsertSkillIdempotent(list: seq<SkillEntry>, skill: string, level: string)
    ensures UpsertSkill(UpsertSkill(list, skill, level), skill, level) == UpsertSkill(list, skill, level)
  {
    if list != [] && list[0].skill != skill {
      UpsertSkillIdempotent(list[1..], skill, level);
    }
  }

  /** After the update exactly one entry exists for `skill` when at most one
      existed before; the counts of other skills do not move. */
  lemma {:induction false} UpsertSkillCount(list: seq<SkillEntry>, skill: string, level: string, other: string)
    ensures SkillCount(UpsertSkill(list, skill, level), skill) == if SkillCount(list, skill) == 0 then 1 else SkillCount(list, skill)
    ensures other != skill ==> SkillCount(UpsertSkill(list, skill, level), other) == SkillCount(list, other)
  {
    if list != [] {
      var r := UpsertSkill(list, skill, level);
      if list[0].skill == skill {
        assert r[1..] == list[1..];
      } else {
        UpsertSkillCount(list[1..], skill, level, other);
        assert r[1..] == UpsertSkill(list[1..], skill, level);
      }
    }
  }

  /** The upsert keeps skill names unique. */
  lemma UpsertSkillKeepsUnique(list: seq<SkillEntry>, skill: string, level: string)
    requires UniqueSkills(list)
    ensures UniqueSkills(UpsertSkill(list, skill, level))
  {
    forall s ensures SkillCount(UpsertSkill(list, skill, level), s) <= 1 {
      UpsertSkillCount(list, skill, level, s);
    }
  }

  // ------------------------------------------------------ course progress

  /** How many entries `list` holds for course `course`. */
  function CourseCount(list: seq<CourseEntry>, course: Id): nat {
    if list == [] then 0
    else (if list[0].course == course then 1 else 0) + CourseCount(list[1..], course)
  }

  /** No course id has two entries. */
  ghost predicate UniqueCourses(list: seq<CourseEntry>) {
    forall course :: CourseCount(list, course) <= 1
  }

  /** The entry `trackCourseProgress` writes over an existing entry `e`:
      percentage and completion are overwritten, the completion time becomes
      `now` when completed and otherwise keeps the old value; the start time
      stays. */
  function Retracked(e: CourseEntry, pct: int, done: bool, now: Time): CourseEntry {
    e.(completionPercentage := pct, isCompleted := done,
       completedAt := if done then Some(now) else e.completedAt)
  }

  /** The entry `trackCourseProgress` appends when none exists. */
  function Started(course: Id, pct: int, done: bool, now: Time): CourseEntry {
    CourseEntry(course, done, pct, Some(now), if done then Some(now) else None)
  }

  /** The list `trackCourseProgress` leaves. */
  function UpsertCourse(list: seq<CourseEntry>, course: Id, pct: int, done: bool, now: Time): seq<CourseEntry> {
    if list == [] then [Started(course, pct, done, now)]
    else if list[0].course == course then [Retracked(list[0], pct, done, now)] + list[1..]
    else [list[0]] + UpsertCourse(list[1..], course, pct, done, now)
  }

  /** On the update path only the first entry for `course` changes: its
      percentage and completion are the inputs, its completion time is `now`
      when completed and the previous one otherwise, its start time is kept. */
  lemma {:induction false} UpsertCourseAtFirstMatch(list: seq<CourseEntry>, course: Id, pct: int, done: bool, now: Time, i: nat)
    requires i < |list| && list[i].course == course
    requires forall j :: 0 <= j < i ==> list[j].course != course
    ensures UpsertCourse(list, course, pct, done, now) == list[i := Retracked(list[i], pct, done, now)]
    ensures var e := UpsertCourse(list, course, pct, done, now)[i];
      && e.completionPercentage == pct && e.isCompleted == done
      && e.startedAt == list[i].startedAt
      && e.completedAt == (if done then Some(now) else list[i].completedAt)
  {
    if i > 0 {
      UpsertCourseAtFirstMatch(list[1..], course, pct, done, now, i - 1);
      assert list[i := Retracked(list[i], pct, done, now)] == [list[0]] + list[1..][i - 1 := Retracked(list[i], pct, done, now)];
    }
  }

  /** On the append path one entry is added, started now and completed now
      exactly when `done`. */
  lemma {:induction false} UpsertCourseWhenAbsent(list: seq<CourseEntry>, course: Id, pct: int, done: bool, now: Time)
    requires forall j :: 0 <= j < |list| ==> list[j].course != course
    ensures UpsertCourse(list, course, pct, done, now) == list + [Started(course, pct, done, now)]
    ensures Started(course, pct, done, now).startedAt == Some(now)
    ensures Started(course, pct, done, now).completedAt == if done then Some(now) else None
  {
    if list != [] {
      UpsertCourseWhenAbsent(list[1..], course, pct, done, now);
      assert list == [list[0]] + list[1..];
    }
  }

  /** Repeating the same request at the same instant changes nothing more. */
  lemma {:induction false} UpsertCourseIdempotent(list: seq<CourseEntry>, course: Id, pct: int, done: bool, now: Time)
    ensures UpsertCourse(UpsertCourse(list, course, pct, done, now), course, pct, done, now)
         == UpsertCourse(list, course, pct, done, now)
  {
    if list != [] && list[0].course != course {
      UpsertCourseIdempotent(list[1..], course, pct, done, now);
    }
  }

  /** Afterwards exactly one entry exists for `course` provided at most one
      existed before; counts for other courses do not move. */
  lemma {:induction false} UpsertCourseCount(list: seq<CourseEntry>, course: Id, pct: int, done: bool, now: Time, other: Id)
    ensures CourseCount(UpsertCourse(list, course, pct, done, now), course)
         == if CourseCount(list, course) == 0 then 1 else CourseCount(list, course)
    ensures other != course ==> CourseCount(UpsertCourse(list, course, pct, done, now), other) == CourseCount(list, other)
  {
    if list != [] {
      var r := UpsertCourse(list, course, pct, done, now);
      if list[0].course == course {
        assert r[1..] == list[1..];
      } else {
        UpsertCourseCount(list[1..], course, pct, done, now, other);
        assert r[1..] == UpsertCourse(list[1..], course, pct, done, now);
      }
    }
  }

  /** The upsert keeps course ids unique. */
  lemma UpsertCourseKeepsUnique(list: seq<CourseEntry>, course: Id, pct: int, done: bool, now: Time)
    requires UniqueCourses(list)
    ensures UniqueCourses(UpsertCourse(list, course, pct, done, now))
  {
    forall c ensures CourseCount(UpsertCourse(list, course, pct, done, now), c) <= 1 {
      UpsertCourseCount(list, course, pct, done, now, c);
    }
  }

  /** With the percentage sent in [0, 100], every entry that was in range
      stays in range. The handler runs no validator, so this is what keeps
      the schema's bound. */
  lemma {:induction false} UpsertCourseKeepsValid(list: seq<CourseEntry>, course: Id, pct: int, done: bool, now: Time)
    requires forall j :: 0 <= j < |list| ==> ValidCourseEntry(list[j])
    requires 0 <= pct <= 100
    ensures forall j :: 0 <= j < |UpsertCourse(list, course, pct, done, now)| ==> ValidCourseEntry(UpsertCourse(list, course, pct, done, now)[j])
  {
    if list != [] {
      UpsertCourseKeepsValid(list[1..], course, pct, done, now);
      var r := UpsertCourse(list, course, pct, done, now);
      if list[0].course == course {
        assert r[1..] == list[1..];
      } else {
        assert r[1..] == UpsertCourse(list[1..], course, pct, done, now);
      }
      assert forall j :: 1 <= j < |r| ==> r[j] == r[1..][j - 1];
    }
  }

  /** A course first tracked as in progress and then as completed ends with
      exactly one entry for it (when there was at most one), carrying the
      second percentage and the second instant as completion time. */
  lemma InProgressThenCompleted(list: seq<CourseEntry>, course: Id, p1: int, t1: Time, p2: int, t2: Time)
    requires CourseCount(list, course) <= 1
    ensures var r := UpsertCourse(UpsertCourse(list, course, p1, false, t1), course, p2, true, t2);
      && CourseCount(r, course) == 1
      && exists i :: 0 <= i < |r| && r[i].course == course && r[i].completionPercentage == p2
           && r[i].isCompleted && r[i].completedAt == Some(t2)
  {
    var mid := UpsertCourse(list, course, p1, false, t1);
    var r := UpsertCourse(mid, course, p2, true, t2);
    UpsertCourseCount(list, course, p1, false, t1, course);
    UpsertCourseCount(mid, course, p2, true, t2, course);
    var i := FirstCourseIndex(mid, course);
    UpsertCourseAtFirstMatch(mid, course, p2, true, t2, i);
  }

  /** The first position of `course` in a list that holds it. */
  lemma {:induction false} FirstCourseIndex(list: seq<CourseEntry>, course: Id) returns (i: nat)
    requires CourseCount(list, course) > 0
    ensures i < |list| && list[i].course == course
    ensures forall j :: 0 <= j < i ==> list[j].course != course
  {
    if list[0].course == course {
      i := 0;
    } else {
      var k := FirstCourseIndex(list[1..], course);
      i := k + 1;
    }
  }

  // ---------------------------------------------------------- the document

  /** A user document: the fields the handlers read or write. */
  class UserDoc {
    var accountRole: string
    var stream: Option<Id>
    var skillProgress: seq<SkillEntry>
    var courseProgress: seq<CourseEntry>

    /** A freshly registered user, with the schema's defaults. */
    constructor ()
      ensures accountRole == DefaultAccountRole && accountRole in AccountRoles
      ensures stream == None
      ensures skillProgress == [] && courseProgress == []
    {
      accountRole := DefaultAccountRole;
      stream := None;
      skillProgress := [];
      courseProgress := [];
    }

    /** `updateProfile`: stores whatever stream value the request carries,
        including `null` (the dashboard's "Change Stream"). */
    method UpdateProfile(newStream: Option<Id>)
      modifies this`stream
      ensures stream == newStream
    {
      stream := newStream;
    }

    /** `updateSkillProgress`: set the level of the first entry for `skill`,
        or append one; answer with the updated list. */
    method UpdateSkillProgress(skill: string, level: string) returns (updated: seq<SkillEntry>)
      modifies this`skillProgress
      ensures skillProgress == UpsertSkill(old(skillProgress), skill, level)
      ensures updated == skillProgress
      ensures old(UniqueSkills(skillProgress)) ==> UniqueSkills(skillProgress)
      ensures |skillProgress| == |old(skillProgress)| + (if SkillCount(old(skillProgress), skill) == 0 then 1 else 0)
    {
      ghost var before := skillProgress;
      var index := FindIndex(skillProgress, (e: SkillEntry) => e.skill == skill);
      if index > -1 {
        UpsertSkillAtFirstMatch(skillProgress, skill, level, index);
        skillProgress := skillProgress[index := skillProgress[index].(level := level)];
        SkillCountPositive(before, skill, index);
      } else {
        UpsertSkillWhenAbsent(skillProgress, skill, level);
        skillProgress := skillProgress + [SkillEntry(skill, level)];
        SkillCountZero(before, skill);
      }
      if UniqueSkills(before) {
        UpsertSkillKeepsUnique(before, skill, level);
      }
      updated := skillProgress;
    }

    /** `trackCourseProgress`: overwrite the first entry for `course`, or
        append a started entry; `now` stands for the handler's `new Date()`. */
    method TrackCourseProgress(course: Id, pct: int, done: bool, now: Time)
      modifies this`courseProgress
      ensures courseProgress == UpsertCourse(old(courseProgress), course, pct, done, now)
      ensures old(UniqueCourses(courseProgress)) ==> UniqueCourses(courseProgress)
      ensures CourseCount(courseProgress, course) >= 1
    {
      ghost var before := courseProgress;
      var index := FindIndex(courseProgress, (e: CourseEntry) => e.course == course);
      if index > -1 {
        UpsertCourseAtFirstMatch(courseProgress, course, pct, done, now, index);
        var e := courseProgress[index];
        courseProgress := courseProgress[index := e.(completionPercentage := pct, isCompleted := done,
                                                    completedAt := if done then Some(now) else e.completedAt)];
      } else {
        UpsertCourseWhenAbsent(courseProgress, course, pct, done, now);
        courseProgress := courseProgress + [CourseEntry(course, done, pct, Some(now), if done then Some(now) else None)];
      }
      UpsertCourseCount(before, course, pct, done, now, course);
      if UniqueCourses(before) {
        UpsertCourseKeepsUnique(before, course, pct, done, now);
      }
    }
  }

  lemma {:induction false} SkillCountPositive(list: seq<SkillEntry>, skill: string, i: nat)
    requires i < |list| && list[i].skill == skill
    ensures SkillCount(list, skill) > 0
  {
    if i > 0 {
      SkillCountPositive(list[1..], skill, i - 1);
    }
  }

  lemma {:induction false} SkillCountZero(list: seq<SkillEntry>, skill: string)
    requires forall j :: 0 <= j < |list| ==> list[j].skill != skill
    ensures SkillCount(list, skill) == 0
  {
    if list != [] {
      SkillCountZero(list[1..], skill);
    }
  }
}
