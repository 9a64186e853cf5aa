/** The read-side aggregation of backend/controllers/userController.js:
    `getRoleDetails` (role-linked and skill-matched courses merged without
    repeated ids, each annotated with the user's first progress entry) and
    `getCoursesBySubStream` (courses of a sub-stream, each annotated through
    a map in which the last entry for a course wins). The store is a
    snapshot of sequences in creation order. */
module Aggregation {
  import opened Records
  import opened Seqs

  /** The collections the handlers query, each in creation order. */
  datatype Catalog = Catalog(
    streams: seq<Stream>,
    subDomains: seq<SubDomain>,
    roles: seq<Role>,
    courses: seq<Course>,
    jobs: seq<Job>)

  /** The failures a handler answers with: 404 with its message, or 400 for
      an exception thrown inside the handler. */
  datatype ApiError = NotFound(message: string) | BadRequest

  /** A course as sent to the client, with the user's progress entry. */
  datatype AnnotatedCourse = AnnotatedCourse(course: Course, progress: Option<CourseEntry>)

  datatype RoleView = RoleView(role: Role, courses: seq<AnnotatedCourse>, jobs: seq<Job>)

  datatype SubStreamView = SubStreamView(
    stream: Stream,
    subStream: SubDomain,
    roles: seq<Role>,
    courses: seq<AnnotatedCourse>,
    jobs: seq<Job>)

  // -------------------------------------------------------- courses by id

  /** The ids of `cs`. */
  function Ids(cs: seq<Course>): set<Id> {
    if cs == [] then {} else {cs[0].id} + Ids(cs[1..])
  }

  /** No two courses of `cs` share an id. */
  predicate UniqueIds(cs: seq<Course>) {
    forall i, j :: 0 <= i < j < |cs| ==> cs[i].id != cs[j].id
  }

  /** `find` by id: the first course of `cs` with id `id`. */
  function FirstWithId(cs: seq<Course>, id: Id): Option<Course> {
    if cs == [] then None
    else if cs[0].id == id then Some(cs[0])
    else FirstWithId(cs[1..], id)
  }

  /** The `filter` over a `seen` set: walk `cs`, drop a course whose id is in
      `seen`, otherwise keep it and add its id. */
  function DedupFrom(cs: seq<Course>, seen: set<Id>): seq<Course> {
    if cs == [] then []
    else if cs[0].id in seen then DedupFrom(cs[1..], seen)
    else [cs[0]] + DedupFrom(cs[1..], seen + {cs[0].id})
  }

  function Dedup(cs: seq<Course>): seq<Course> {
    DedupFrom(cs, {})
  }

  lemma {:induction false} IdsMember(cs: seq<Course>, id: Id)
    ensures id in Ids(cs) <==> exists i :: 0 <= i < |cs| && cs[i].id == id
  {
    if cs != [] {
      IdsMember(cs[1..], id);
      assert forall i :: 1 <= i < |cs| ==> cs[i] == cs[1..][i - 1];
    }
  }

  lemma {:induction false} IdsAppend(a: seq<Course>, b: seq<Course>)
    ensures Ids(a + b) == Ids(a) + Ids(b)
  {
    if a != [] {
      IdsAppend(a[1..], b);
      assert (a + b)[0] == a[0];
      assert (a + b)[1..] == a[1..] + b;
    } else {
      assert a + b == b;
    }
  }

  /** The deduplicated walk keeps unique ids, none of them already seen, and
      keeps exactly the ids not already seen. */
  lemma {:induction false} DedupFromIds(cs: seq<Course>, seen: set<Id>)
    ensures UniqueIds(DedupFrom(cs, seen))
    ensures Ids(DedupFrom(cs, seen)) == Ids(cs) - seen
  {
    if cs != [] {
      var r := DedupFrom(cs, seen);
      if cs[0].id in seen {
        DedupFromIds(cs[1..], seen);
      } else {
        var rest := DedupFrom(cs[1..], seen + {cs[0].id});
        DedupFromIds(cs[1..], seen + {cs[0].id});
        assert r == [cs[0]] + rest;
        assert r[1..] == rest;
        forall j | 0 <= j < |rest| ensures rest[j].id != cs[0].id {
          IdsMember(rest, rest[j].id);
        }
        assert forall j :: 1 <= j < |r| ==> r[j] == rest[j - 1];
      }
    }
  }

  /** Every kept course is the first course of `cs` with its id. */
  lemma {:induction false} DedupFromKeepsFirst(cs: seq<Course>, seen: set<Id>, k: nat)
    requires k < |DedupFrom(cs, seen)|
    ensures FirstWithId(cs, DedupFrom(cs, seen)[k].id) == Some(DedupFrom(cs, seen)[k])
  {
    var r := DedupFrom(cs, seen);
    if cs[0].id in seen {
      DedupFromKeepsFirst(cs[1..], seen, k);
      DedupFromIds(cs[1..], seen);
      IdsMember(DedupFrom(cs[1..], seen), r[k].id);
    } else if k > 0 {
      var rest := DedupFrom(cs[1..], seen + {cs[0].id});
      assert r[k] == rest[k - 1];
      DedupFromKeepsFirst(cs[1..], seen + {cs[0].id}, k - 1);
      DedupFromIds(cs[1..], seen + {cs[0].id});
      IdsMember(rest, r[k].id);
    }
  }

  /** When `cs` has no repeated id, the walk drops exactly the courses whose
      id was already seen. */
  lemma {:induction false} DedupFromUnique(cs: seq<Course>, seen: set<Id>)
    requires UniqueIds(cs)
    ensures DedupFrom(cs, seen) == Filter(cs, (c: Course) => c.id !in seen)
  {
    if cs != [] {
      assert UniqueIds(cs[1..]) by {
        assert forall i :: 0 <= i < |cs[1..]| ==> cs[1..][i] == cs[i + 1];
      }
      if cs[0].id in seen {
        DedupFromUnique(cs[1..], seen);
      } else {
        DedupFromUnique(cs[1..], seen + {cs[0].id});
        DedupFromUnique(cs[1..], seen);
        FilterSameOn(cs[1..], seen, cs[0].id);
      }
    }
  }

  /** Adding an id no course of `cs` carries does not change the filter. */
  lemma {:induction false} FilterSameOn(cs: seq<Course>, seen: set<Id>, id: Id)
    requires forall i :: 0 <= i < |cs| ==> cs[i].id != id
    ensures Filter(cs, (c: Course) => c.id !in seen + {id}) == Filter(cs, (c: Course) => c.id !in seen)
  {
    if cs != [] {
      FilterSameOn(cs[1..], seen, id);
    }
  }

  /** A prefix of fresh, pairwise distinct ids passes through the walk
      unchanged and its ids are then seen. */
  lemma {:induction false} DedupFromPrefix(a: seq<Course>, b: seq<Course>, seen: set<Id>)
    requires UniqueIds(a)
    requires Ids(a) !! seen
    ensures DedupFrom(a + b, seen) == a + DedupFrom(b, seen + Ids(a))
  {
    if a != [] {
      assert (a + b)[0] == a[0];
      assert (a + b)[1..] == a[1..] + b;
      assert UniqueIds(a[1..]) by {
        assert forall i :: 0 <= i < |a[1..]| ==> a[1..][i] == a[i + 1];
      }
      assert Ids(a) == {a[0].id} + Ids(a[1..]);
      IdsMember(a[1..], a[0].id);
      assert a[0].id !in Ids(a[1..]) by {
        assert forall i :: 0 <= i < |a[1..]| ==> a[1..][i] == a[i + 1];
      }
      DedupFromPrefix(a[1..], b, seen + {a[0].id});
      assert seen + {a[0].id} + Ids(a[1..]) == seen + Ids(a);
    } else {
      assert a + b == b && seen + Ids(a) == seen;
    }
  }

  /** `MergeUnique`: the handler's loop over the concatenated lists with a
      `seen` set, proved equal to the walk above. */
  method MergeUnique(cs: seq<Course>) returns (merged: seq<Course>)
    ensures merged == Dedup(cs)
    ensures UniqueIds(merged) && Ids(merged) == Ids(cs)
    ensures forall k :: 0 <= k < |merged| ==> FirstWithId(cs, merged[k].id) == Some(merged[k])
  {
    var seen: set<Id> := {};
    merged := [];
    var i := 0;
    while i < |cs|
      invariant 0 <= i <= |cs|
      invariant merged + DedupFrom(cs[i..], seen) == Dedup(cs)
    {
      var c := cs[i];
      assert cs[i..] == [c] + cs[i + 1..];
      if c.id !in seen {
        seen := seen + {c.id};
        merged := merged + [c];
      }
      i := i + 1;
    }
    assert cs[i..] == [];
    DedupFromIds(cs, {});
    forall k | 0 <= k < |merged| ensures FirstWithId(cs, merged[k].id) == Some(merged[k]) {
      DedupFromKeepsFirst(cs, {}, k);
    }
  }

  // ---------------------------------------------------------- role details

  /** `Role.findById`: the first role with that id. */
  function FindRole(roles: seq<Role>, id: Id): Option<Role> {
    if roles == [] then None
    else if roles[0].id == id then Some(roles[0])
    else FindRole(roles[1..], id)
  }

  /** `Course.find({ role })`. */
  function LinkedCourses(courses: seq<Course>, roleId: Id): seq<Course> {
    Filter(courses, (c: Course) => c.role == Some(roleId))
  }

  /** `Course.find({ skill: { $in: skills } })`. */
  function SkillCourses(courses: seq<Course>, skills: seq<string>): seq<Course> {
    Filter(courses, (c: Course) => c.skill in skills)
  }

  /** The course list of `getRoleDetails`, before annotation. */
  function MergedCourses(courses: seq<Course>, role: Role): seq<Course> {
    Dedup(LinkedCourses(courses, role.id) + SkillCourses(courses, role.skills))
  }

  /** `courseProgress.find(...)`: the first entry for `course`. */
  function FirstEntryFor(entries: seq<CourseEntry>, course: Id): Option<CourseEntry> {
    if entries == [] then None
    else if entries[0].course == course then Some(entries[0])
    else FirstEntryFor(entries[1..], course)
  }

  /** Each course with the first progress entry for it, or none. */
  function AnnotateFirst(cs: seq<Course>, entries: seq<CourseEntry>): (r: seq<AnnotatedCourse>)
    ensures |r| == |cs|
    ensures forall k :: 0 <= k < |cs| ==> r[k].course == cs[k] && r[k].progress == FirstEntryFor(entries, cs[k].id)
  {
    if cs == [] then [] else [AnnotatedCourse(cs[0], FirstEntryFor(entries, cs[0].id))] + AnnotateFirst(cs[1..], entries)
  }

  /** `Job.find({ role })`. */
  function JobsForRole(jobs: seq<Job>, roleId: Id): seq<Job> {
    Filter(jobs, (j: Job) => j.role == roleId)
  }

  /** What `getRoleDetails` answers. `user` is the requesting user's progress
      list, `None` when the user document is missing: the handler then reads
      a field of `null`, throws, and answers 400. */
  function RoleDetails(cat: Catalog, roleId: Id, user: Option<seq<CourseEntry>>): Result<RoleView, ApiError> {
    match FindRole(cat.roles, roleId)
    case None => Err(NotFound("Role not found"))
    case Some(role) =>
      if user.None? then Err(BadRequest)
      else Ok(RoleView(role, AnnotateFirst(MergedCourses(cat.courses, role), user.value), JobsForRole(cat.jobs, roleId)))
  }

  /** The handler, with the merge done by the `seen`-set loop. */
  method GetRoleDetails(cat: Catalog, roleId: Id, user: Option<seq<CourseEntry>>) returns (r: Result<RoleView, ApiError>)
    ensures r == RoleDetails(cat, roleId, user)
  {
    var role := FindRole(cat.roles, roleId);
    if role.None? {
      return Err(NotFound("Role not found"));
    }
    var courses := MergeUnique(LinkedCourses(cat.courses, role.value.id) + SkillCourses(cat.courses, role.value.skills));
    var jobs := JobsForRole(cat.jobs, roleId);
    if user.None? {
      return Err(BadRequest);
    }
    r := Ok(RoleView(role.value, AnnotateFirst(courses, user.value), jobs));
  }

  lemma {:induction false} FindRoleFound(roles: seq<Role>, id: Id)
    ensures FindRole(roles, id).Some? ==> FindRole(roles, id).value.id == id
    ensures FindRole(roles, id).None? <==> forall i :: 0 <= i < |roles| ==> roles[i].id != id
  {
    if roles != [] {
      FindRoleFound(roles[1..], id);
      assert forall i :: 1 <= i < |roles| ==> roles[i] == roles[1..][i - 1];
    }
  }

  /** An unknown role gives 404 "Role not found", whatever else is asked;
      a known role with a missing user gives 400. */
  lemma RoleDetailsErrors(cat: Catalog, roleId: Id, user: Option<seq<CourseEntry>>)
    ensures (forall i :: 0 <= i < |cat.roles| ==> cat.roles[i].id != roleId)
        <==> RoleDetails(cat, roleId, user) == Err(NotFound("Role not found"))
    ensures RoleDetails(cat, roleId, user) == Err(BadRequest)
        <==> (exists i :: 0 <= i < |cat.roles| && cat.roles[i].id == roleId) && user.None?
  {
    FindRoleFound(cat.roles, roleId);
  }

  /** The merged list holds no two courses with the same id, and a course
      is in it exactly when it is a stored course linked to the role or
      teaching one of the role's skills (course ids being unique in the
      store). */
  lemma MergedCoursesMembers(courses: seq<Course>, role: Role, c: Course)
    requires UniqueIds(courses)
    ensures UniqueIds(MergedCourses(courses, role))
    ensures c in MergedCourses(courses, role) <==> c in courses && (c.role == Some(role.id) || c.skill in role.skills)
  {
    var linked := LinkedCourses(courses, role.id);
    var skilled := SkillCourses(courses, role.skills);
    DedupFromIds(linked + skilled, {});
    var m := MergedCourses(courses, role);
    if c in m {
      var k :| 0 <= k < |m| && m[k] == c;
      DedupFromKeepsFirst(linked + skilled, {}, k);
      FirstWithIdIn(linked + skilled, c.id);
    } else if c in linked + skilled {
      IdsMember(linked + skilled, c.id);
      IdsMember(m, c.id);
      var k :| 0 <= k < |m| && m[k].id == c.id;
      DedupFromKeepsFirst(linked + skilled, {}, k);
      FirstWithIdIn(linked + skilled, c.id);
      assert m[k] in courses && c in courses;
      UniqueIdsSame(courses, m[k], c);
    }
  }

  lemma {:induction false} FirstWithIdIn(cs: seq<Course>, id: Id)
    ensures FirstWithId(cs, id).Some? ==> FirstWithId(cs, id).value in cs && FirstWithId(cs, id).value.id == id
  {
    if cs != [] {
      FirstWithIdIn(cs[1..], id);
    }
  }

  lemma UniqueIdsSame(cs: seq<Course>, a: Course, b: Course)
    requires UniqueIds(cs) && a in cs && b in cs && a.id == b.id
    ensures a == b
  {
    var i :| 0 <= i < |cs| && cs[i] == a;
    var j :| 0 <= j < |cs| && cs[j] == b;
    assert cs[i].id == cs[j].id;
  }

  /** Order: the role-linked courses come first, in fetched order, followed
      by the skill-matched courses that are not linked ones. */
  lemma MergedCoursesOrder(courses: seq<Course>, role: Role)
    requires UniqueIds(courses)
    ensures MergedCourses(courses, role)
         == LinkedCourses(courses, role.id)
            + Filter(SkillCourses(courses, role.skills), (c: Course) => c.id !in Ids(LinkedCourses(courses, role.id)))
  {
    var linked := LinkedCourses(courses, role.id);
    var skilled := SkillCourses(courses, role.skills);
    UniqueIdsFilter(courses, (c: Course) => c.role == Some(role.id));
    UniqueIdsFilter(courses, (c: Course) => c.skill in role.skills);
    DedupFromPrefix(linked, skilled, {});
    assert {} + Ids(linked) == Ids(linked);
    DedupFromUnique(skilled, Ids(linked));
  }

  lemma {:induction false} UniqueIdsFilter(cs: seq<Course>, p: Course -> bool)
    requires UniqueIds(cs)
    ensures UniqueIds(Filter(cs, p))
  {
    if cs != [] {
      assert UniqueIds(cs[1..]) by {
        assert forall i :: 0 <= i < |cs[1..]| ==> cs[1..][i] == cs[i + 1];
      }
      UniqueIdsFilter(cs[1..], p);
      var f := Filter(cs[1..], p);
      forall j | 0 <= j < |f| ensures f[j].id != cs[0].id {
        assert f[j] in cs[1..];
        var i :| 0 <= i < |cs[1..]| && cs[1..][i] == f[j];
        assert cs[i + 1] == f[j];
      }
    }
  }

  /** Each returned course carries the first progress entry whose course is
      its id, and none when no entry matches. */
  lemma {:induction false} FirstEntryForSpec(entries: seq<CourseEntry>, course: Id)
    ensures FirstEntryFor(entries, course).None? <==> forall i :: 0 <= i < |entries| ==> entries[i].course != course
    ensures forall i :: 0 <= i < |entries| && entries[i].course == course && (forall j :: 0 <= j < i ==> entries[j].course != course)
              ==> FirstEntryFor(entries, course) == Some(entries[i])
  {
    if entries != [] {
      FirstEntryForSpec(entries[1..], course);
      assert forall i :: 1 <= i < |entries| ==> entries[i] == entries[1..][i - 1];
    }
  }

  // ------------------------------------------------------ sub-stream view

  /** `Stream.findOne({ slug })`. */
  function FindStreamBySlug(streams: seq<Stream>, slug: string): Option<Stream> {
    if streams == [] then None
    else if streams[0].slug == Some(slug) then Some(streams[0])
    else FindStreamBySlug(streams[1..], slug)
  }

  /** `SubDomain.findOne({ slug, stream })`. */
  function FindSubStream(subs: seq<SubDomain>, slug: string, stream: Id): Option<SubDomain> {
    if subs == [] then None
    else if subs[0].slug == Some(slug) && subs[0].stream == stream then Some(subs[0])
    else FindSubStream(subs[1..], slug, stream)
  }

  function RoleIds(roles: seq<Role>): (r: seq<Id>)
    ensures |r| == |roles| && forall k :: 0 <= k < |roles| ==> r[k] == roles[k].id
  {
    if roles == [] then [] else [roles[0].id] + RoleIds(roles[1..])
  }

  /** The course query of `getCoursesBySubStream`. */
  predicate InSubStream(c: Course, sub: Id, roleIds: seq<Id>) {
    c.subDomain == Some(sub) || (c.role.Some? && c.role.value in roleIds)
  }

  /** `new Map(entries.map(cp => [cp.course, cp]))`: a later entry for the
      same course replaces an earlier one. */
  function ProgressMap(entries: seq<CourseEntry>): map<Id, CourseEntry> {
    if entries == [] then map[]
    else ProgressMap(entries[..|entries| - 1])[entries[|entries| - 1].course := entries[|entries| - 1]]
  }

  /** `progressByCourse.get(id) || null`. */
  function MapLookup(m: map<Id, CourseEntry>, id: Id): Option<CourseEntry> {
    if id in m then Some(m[id]) else None
  }

  function AnnotateByMap(cs: seq<Course>, m: map<Id, CourseEntry>): (r: seq<AnnotatedCourse>)
    ensures |r| == |cs|
    ensures forall k :: 0 <= k < |cs| ==> r[k].course == cs[k] && r[k].progress == MapLookup(m, cs[k].id)
  {
    if cs == [] then [] else [AnnotatedCourse(cs[0], MapLookup(m, cs[0].id))] + AnnotateByMap(cs[1..], m)
  }

  /** What `getCoursesBySubStream` answers. Courses and jobs come newest
      first (`sort({ createdAt: -1 })` on a creation-ordered store). A
      missing user document counts as an empty progress list here. */
  function CoursesBySubStream(cat: Catalog, streamSlug: string, subSlug: string, user: Option<seq<CourseEntry>>)
    : Result<SubStreamView, ApiError>
  {
    match FindStreamBySlug(cat.streams, streamSlug)
    case None => Err(NotFound("Stream not found"))
    case Some(stream) =>
      match FindSubStream(cat.subDomains, subSlug, stream.id)
      case None => Err(NotFound("Sub-stream not found"))
      case Some(sub) =>
        var roles := Filter(cat.roles, (r: Role) => r.subDomain == sub.id);
        var roleIds := RoleIds(roles);
        var courses := Reverse(Filter(cat.courses, (c: Course) => InSubStream(c, sub.id, roleIds)));
        var jobs := Reverse(Filter(cat.jobs, (j: Job) => j.role in roleIds));
        var entries := if user.Some? then user.value else [];
        Ok(SubStreamView(stream, sub, roles, AnnotateByMap(courses, ProgressMap(entries)), jobs))
  }

  lemma {:induction false} FindStreamBySlugSpec(streams: seq<Stream>, slug: string)
    ensures FindStreamBySlug(streams, slug).None? <==> forall i :: 0 <= i < |streams| ==> streams[i].slug != Some(slug)
    ensures FindStreamBySlug(streams, slug).Some? ==> FindStreamBySlug(streams, slug).value.slug == Some(slug)
  {
    if streams != [] {
      FindStreamBySlugSpec(streams[1..], slug);
      assert forall i :: 1 <= i < |streams| ==> streams[i] == streams[1..][i - 1];
    }
  }

  lemma {:induction false} FindSubStreamSpec(subs: seq<SubDomain>, slug: string, stream: Id)
    ensures FindSubStream(subs, slug, stream).None?
        <==> forall i :: 0 <= i < |subs| ==> !(subs[i].slug == Some(slug) && subs[i].stream == stream)
    ensures FindSubStream(subs, slug, stream).Some? ==> FindSubStream(subs, slug, stream).value.stream == stream
  {
    if subs != [] {
      FindSubStreamSpec(subs[1..], slug, stream);
      assert forall i :: 1 <= i < |subs| ==> subs[i] == subs[1..][i - 1];
    }
  }

  /** 404 "Stream not found" exactly when no stream has the slug; 404
      "Sub-stream not found" exactly when the stream exists but none of its
      sub-domains has the sub-stream slug. */
  lemma SubStreamNotFound(cat: Catalog, streamSlug: string, subSlug: string, user: Option<seq<CourseEntry>>)
    ensures CoursesBySubStream(cat, streamSlug, subSlug, user) == Err(NotFound("Stream not found"))
        <==> forall i :: 0 <= i < |cat.streams| ==> cat.streams[i].slug != Some(streamSlug)
    ensures FindStreamBySlug(cat.streams, streamSlug).Some? ==>
      ((CoursesBySubStream(cat, streamSlug, subSlug, user) == Err(NotFound("Sub-stream not found")))
       <==> (forall i :: 0 <= i < |cat.subDomains| ==>
               !(cat.subDomains[i].slug == Some(subSlug) && cat.subDomains[i].stream == FindStreamBySlug(cat.streams, streamSlug).value.id)))
    ensures CoursesBySubStream(cat, streamSlug, subSlug, user).Ok? || CoursesBySubStream(cat, streamSlug, subSlug, user).error.NotFound?
  {
    FindStreamBySlugSpec(cat.streams, streamSlug);
    if FindStreamBySlug(cat.streams, streamSlug).Some? {
      FindSubStreamSpec(cat.subDomains, subSlug, FindStreamBySlug(cat.streams, streamSlug).value.id);
    }
  }

  /** A stored course is returned exactly when its sub-domain is the
      sub-stream or its role is one of the sub-stream's roles; courses of
      sibling sub-domains with roles elsewhere are excluded. */
  lemma SubStreamCourseMembers(cat: Catalog, streamSlug: string, subSlug: string, user: Option<seq<CourseEntry>>, c: Course)
    requires CoursesBySubStream(cat, streamSlug, subSlug, user).Ok?
    ensures var v := CoursesBySubStream(cat, streamSlug, subSlug, user).value;
      (exists k :: 0 <= k < |v.courses| && v.courses[k].course == c)
      <==> c in cat.courses && (c.subDomain == Some(v.subStream.id)
             || exists r :: r in cat.roles && r.subDomain == v.subStream.id && c.role == Some(r.id))
  {
    var v := CoursesBySubStream(cat, streamSlug, subSlug, user).value;
    var roles := Filter(cat.roles, (r: Role) => r.subDomain == v.subStream.id);
    var roleIds := RoleIds(roles);
    var cs := Reverse(Filter(cat.courses, (x: Course) => InSubStream(x, v.subStream.id, roleIds)));
    assert CoursesListed(v.courses) == cs;
    assert (exists k :: 0 <= k < |v.courses| && v.courses[k].course == c) <==> c in CoursesListed(v.courses) by {
      if c in CoursesListed(v.courses) {
        var k :| 0 <= k < |v.courses| && CoursesListed(v.courses)[k] == c;
      }
    }
    if c.role.Some? {
      RoleIdsMember(roles, c.role.value);
    }
  }

  /** A role id is listed exactly when a role of the list has it. */
  lemma RoleIdsMember(roles: seq<Role>, id: Id)
    ensures id in RoleIds(roles) <==> exists r :: r in roles && r.id == id
  {
    if id in RoleIds(roles) {
      var n :| 0 <= n < |roles| && RoleIds(roles)[n] == id;
      assert roles[n] in roles;
    }
    if exists r :: r in roles && r.id == id {
      var r :| r in roles && r.id == id;
      var n :| 0 <= n < |roles| && roles[n] == r;
      assert RoleIds(roles)[n] == id;
    }
  }

  /** Of two listed values, the one listed earlier sits later in the store. */
  predicate NewestFirstIn<T(==)>(store: seq<T>, listed: seq<T>) {
    forall k, l :: 0 <= k < l < |listed| ==>
      exists i, j :: 0 <= j < i < |store| && store[i] == listed[k] && store[j] == listed[l]
  }

  /** A filtered store read back to front lists newest first. */
  lemma NewestFirst<T(!new)>(s: seq<T>, p: T -> bool)
    ensures NewestFirstIn(s, Reverse(Filter(s, p)))
  {
    var f := Filter(s, p);
    forall k, l | 0 <= k < l < |f|
      ensures exists i, j :: 0 <= j < i < |s| && s[i] == Reverse(f)[k] && s[j] == Reverse(f)[l]
    {
      FilterOrder(s, p, |f| - 1 - l, |f| - 1 - k);
    }
  }

  /** The courses of an annotated list, in order. */
  function CoursesListed(a: seq<AnnotatedCourse>): (r: seq<Course>)
    ensures |r| == |a| && forall k :: 0 <= k < |a| ==> r[k] == a[k].course
  {
    seq(|a|, k requires 0 <= k < |a| => a[k].course)
  }

  /** Courses and jobs come newest first: of two returned courses (or
      jobs), the one listed earlier was stored later. */
  lemma SubStreamNewestFirst(cat: Catalog, streamSlug: string, subSlug: string, user: Option<seq<CourseEntry>>)
    requires CoursesBySubStream(cat, streamSlug, subSlug, user).Ok?
    ensures NewestFirstIn(cat.courses, CoursesListed(CoursesBySubStream(cat, streamSlug, subSlug, user).value.courses))
    ensures NewestFirstIn(cat.jobs, CoursesBySubStream(cat, streamSlug, subSlug, user).value.jobs)
  {
    var v := CoursesBySubStream(cat, streamSlug, subSlug, user).value;
    var roleIds := RoleIds(Filter(cat.roles, (r: Role) => r.subDomain == v.subStream.id));
    var inSub := (c: Course) => InSubStream(c, v.subStream.id, roleIds);
    var forRole := (j: Job) => j.role in roleIds;
    assert CoursesListed(v.courses) == Reverse(Filter(cat.courses, inSub));
    assert v.jobs == Reverse(Filter(cat.jobs, forRole));
    NewestFirst(cat.courses, inSub);
    NewestFirst(cat.jobs, forRole);
  }

  /** The progress map gives, for each course, the LAST entry for it, and
      nothing when no entry matches (`progress: null`). */
  lemma {:induction false} ProgressMapLast(entries: seq<CourseEntry>, course: Id)
    ensures course !in ProgressMap(entries) <==> forall i :: 0 <= i < |entries| ==> entries[i].course != course
    ensures forall i :: 0 <= i < |entries| && entries[i].course == course && (forall j :: i < j < |entries| ==> entries[j].course != course)
              ==> course in ProgressMap(entries) && ProgressMap(entries)[course] == entries[i]
  {
    if entries != [] {
      var n := |entries| - 1;
      ProgressMapLast(entries[..n], course);
      assert forall i :: 0 <= i < n ==> entries[..n][i] == entries[i];
    }
  }

  /** With at most one entry per course, which the upserts keep, the first
      match used by `getRoleDetails` and the last match used by
      `getCoursesBySubStream` agree. */
  lemma FirstAndLastAgree(entries: seq<CourseEntry>, course: Id)
    requires forall i, j :: 0 <= i < j < |entries| ==> entries[i].course != entries[j].course
    ensures MapLookup(ProgressMap(entries), course) == FirstEntryFor(entries, course)
  {
    FirstEntryForSpec(entries, course);
    ProgressMapLast(entries, course);
  }
}
