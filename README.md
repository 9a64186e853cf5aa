# OneEdu career guidance: a Dafny model of its list and record logic

OneEdu is a career-guidance web app. Students pick an engineering stream. They then browse its sub-domains (sub-streams), the roles of a sub-domain, and the courses of a role. They record per-skill levels and per-course progress. Administrators maintain the course catalogue through a form.

This project models the parts of the app that hold logic of their own, and proves properties of them:

- the user's embedded progress lists and the two handlers that upsert them (`updateSkillProgress`, `trackCourseProgress`), plus `updateProfile`;
- the read-side aggregations `getRoleDetails` (merge role-linked and skill-matched courses without repeated ids, annotate each with the first progress entry) and `getCoursesBySubStream` (courses of a sub-stream, annotated through a map in which the last entry wins);
- the admin course form: ordered save checks, payload normalization, the company list, the extra-link lists and the cascading selects;
- the role page's progress lookup, its per-skill and supplementary sections, its progress buttons, and the overall-completion and completed-count summaries;
- the dashboard's `hasStream` / `activeStream`, its keyword picture rules and its sub-domain links;
- the side panel's expansion map, its visibility rule and its links;
- the User and Course record shapes, enums, bounds and defaults.

Modules:

| file | module | what |
|---|---|---|
| seqs.dfy | `Seqs` | `Filter`, `Reverse`, `FindIndex`, `NoDuplicates` and their lemmas |
| records.dfy | `Records` | the records of `backend/models` (User's progress entries, Course, Stream, SubDomain, Role, Job), with enums, defaults and validity predicates |
| user_progress.dfy | `UserProgress` | the upserts as functions with lemmas, and a `UserDoc` class whose methods replace its list fields |
| aggregation.dfy | `Aggregation` | `getRoleDetails` (with the `seen`-set merge loop as a method) and `getCoursesBySubStream` |
| course_form.dfy | `CourseForm` | save checks and normalization as functions, and a `CourseEditor` class for the modal's state |
| client.dfy | `Client` | the user as the client holds it, and the progress summaries |
| routes.dfy | `Routes` | the sub-stream route, both the path built and the path matched |
| role_details.dfy | `RoleDetailsPage` | the role page |
| dashboard.dfy | `DashboardPage` | the dashboard |
| side_panel.dfy | `SidePanel` | the side panel, with a `PanelState` class |

Modelling choices:

- Store reads are snapshots: each collection is a sequence in creation order, so `sort({ createdAt: -1 })` is `Reverse`.
- Ids are strings compared by equality.
- The clock is a parameter `now`.
- A handler's failures are `Result` errors: 404 with its message, or 400 for an exception inside the handler.
- `Math.round(sum / Math.max(n, 1))` on integer sums is `(2*sum + d) / (2*d)` with `d = max(n, 1)`. For a positive divisor this is exactly the floor of `sum/d + 1/2`, which is what `Math.round` computes, negative sums included.

Behaviour of the code that the model follows and that differs from what the page text suggests:

- **The updates run no validators.** The upserts use `updateOne` with no `runValidators`. The stored percentage and level are therefore whatever the request carries. The 0–100 bound is a precondition of the lemmas that need it (`UserProgress.UpsertCourseKeepsValid`). The role page's buttons only ever send values inside it (`RoleDetailsPage.ButtonRequestsKeepEntriesValid`).
- **The two aggregations match progress differently.** `getRoleDetails` annotates with the first matching entry (`find`). `getCoursesBySubStream` uses a `Map`, so the last matching entry wins. They agree while the upserts keep course ids unique (`Aggregation.FirstAndLastAgree`).
- **A missing user is handled differently.** When the user document is missing, `getRoleDetails` throws and answers 400. `getCoursesBySubStream` treats the user as having no progress.
- **The stream's shape depends on which answer the client stored last.**
  - The login answer and the `updateProfile` answer carry the stream as an id string.
  - The session answer (`/auth/me`, `authController.js:84-97`) and the `trackCourseProgress` answer populate it into an object. Both are passed to `updateUser` unchanged (`AuthContext.jsx:55-56`).
  - The dashboard's `hasStream` requires a string. After a session reload or a progress update the stream picker therefore shows again (`DashboardPage.StreamShapes`).
  - For the same reason, the side panel's automatic expansion is keyed by `"[object Object]"`, and no stream is highlighted (`SidePanel.AutoExpandTarget`).
- **The role page's fallback lookup cannot match populated courses.** Its `getCourseProgress` compares `cp.course === courseId`. Once the context holds populated courses, that comparison never matches (`RoleDetailsPage.PopulatedEntriesNeverMatch`).
- **Undeclared fields are dropped on create.** The Course schema declares no `amount`, `resourceLinks` or `certificateLinks`. Mongoose's strict mode drops them. The Paid ⇒ amount > 0 rule therefore exists only in the form (`CourseForm.CreateCourseIgnoresPricing`).
- **A missing slug becomes "undefined".** The Stream and SubDomain schemas declare no `slug`. The side panel then prints a missing slug as `undefined` in the link path. The `getCoursesBySubStream` handler answers that slug with "Stream not found" unless some stream's slug is literally `undefined` (`SidePanel.SubDomainPathRoutes`). Two caveats, both under "## Left out": no route mounts that handler (`Aggregation.CoursesBySubStream`), and the answer assumes the slug lookups keep their filter on the undeclared `slug` path (`Aggregation.FindStreamBySlug`).
- **The type select can be emptied.** The course form's Type select offers "-- Select --" with the empty value. Choosing it keeps the amount, skips the Paid-amount check and sends `type: ''` with amount 0; `Course.create` then fails the required enum and the server answers 400 (`CourseForm.UnsetTypeSentButRefused`).
- **"ai" matches inside other words.** It is the first sub-domain picture rule and matches any substring, so "Railway Transportation" gets the AI picture (`DashboardPage.RailwayTransportationPicture`).

## Model

| member | source | states |
|---|---|---|
| Seqs.FindIndex | backend/controllers/userController.js:125 | `findIndex`, used for the skill list here and for the course list at lines 157-159: the index found passes the test and no earlier element does; -1 only when no element passes |
| UserProgress.UpsertSkillAtFirstMatch | backend/controllers/userController.js:125-130 | when the skill is present, only the level of its first entry changes and the length is unchanged |
| UserProgress.UpsertSkillWhenAbsent | backend/controllers/userController.js:131-136 | when the skill is absent, exactly one {skill, level} entry is appended |
| UserProgress.UpsertSkillIdempotent | backend/controllers/userController.js:125-136 | applying the same skill update twice equals applying it once |
| UserProgress.UpsertSkillCount | backend/controllers/userController.js:125-136 | afterwards the skill has one entry if it had none, as many as before otherwise; other skills' counts are unchanged |
| UserProgress.UpsertSkillKeepsUnique | backend/controllers/userController.js:125-136 | an update keeps skill names unique, which the schema does not declare |
| UserProgress.UpsertCourseAtFirstMatch | backend/controllers/userController.js:157-171 | on the update path only the first entry changes: it gets the new percentage and completion, completedAt becomes now when completed and keeps its old value otherwise, startedAt is kept |
| UserProgress.UpsertCourseWhenAbsent | backend/controllers/userController.js:172-186 | on the append path one entry is appended, started now, and completed now exactly when completed |
| UserProgress.UpsertCourseIdempotent | backend/controllers/userController.js:152-186 | repeating the same request at the same instant changes nothing more |
| UserProgress.UpsertCourseCount | backend/controllers/userController.js:152-186 | afterwards the course has exactly one entry if it had at most one; other courses' counts are unchanged |
| UserProgress.UpsertCourseKeepsUnique | backend/controllers/userController.js:152-186 | an update keeps course ids unique |
| UserProgress.UpsertCourseKeepsValid | backend/controllers/userController.js:157-186 | with a percentage in [0, 100] every entry stays within the declared bounds, although no validator runs |
| UserProgress.InProgressThenCompleted | backend/controllers/userController.js:157-186 | a course tracked in progress and then completed ends with exactly one entry, completed, at the second percentage, with the second instant as completion time |
| UserProgress.UserDoc.constructor | backend/models/User.js:24-69 | a new user has role "user", no stream and empty progress lists |
| UserProgress.UserDoc.UpdateProfile | backend/controllers/userController.js:33-42 | the stream becomes exactly the value sent, null included |
| UserProgress.UserDoc.UpdateSkillProgress | backend/controllers/userController.js:120-149 | the skill list becomes the upsert of the old one, stays unique if it was, grows by one exactly when the skill was absent, and is returned |
| UserProgress.UserDoc.TrackCourseProgress | backend/controllers/userController.js:152-200 | the course list becomes the upsert of the old one, stays unique if it was, and holds the course afterwards |
| Aggregation.MergeUnique | backend/controllers/userController.js:86-92 | the `seen`-set loop returns a list with no repeated id, the same ids as its input, each course being the first with its id |
| Aggregation.GetRoleDetails | backend/controllers/userController.js:75-117 | the handler answers what `RoleDetails` specifies |
| Aggregation.RoleDetailsErrors | backend/controllers/userController.js:77-78 | 404 "Role not found" exactly when no role has the id; 400 exactly when the role exists and the user does not |
| Aggregation.FindRoleFound | backend/controllers/userController.js:77 | the role found has the id asked; none is found exactly when no role has it |
| Aggregation.MergedCoursesMembers | backend/controllers/userController.js:80-92 | the merged list has no repeated id, and a course is in it exactly when its role is the role or its skill is one of the role's skills |
| Aggregation.MergedCoursesOrder | backend/controllers/userController.js:87-92 | the merged list is the role-linked courses in order, followed by the skill-matched courses not already listed |
| Aggregation.DedupFromKeepsFirst | backend/controllers/userController.js:87-92 | every course the walk keeps is the first course of the input with its id |
| Aggregation.AnnotateFirst | backend/controllers/userController.js:107-110 | each course keeps its place and carries the first progress entry for it |
| Aggregation.FirstEntryForSpec | backend/controllers/userController.js:109 | the entry attached is the first entry for the course, and none exactly when no entry is for it |
| Aggregation.FindStreamBySlugSpec | backend/controllers/userController.js:222 | the stream found has the slug; none is found exactly when no stream has it |
| Aggregation.FindSubStreamSpec | backend/controllers/userController.js:227 | the sub-stream found has the slug and belongs to the stream; none exactly when no such sub-domain exists |
| Aggregation.SubStreamNotFound | backend/controllers/userController.js:222-230 | 404 "Stream not found" exactly when no stream has the slug; 404 "Sub-stream not found" exactly when the stream has no sub-domain with the slug; no other error |
| Aggregation.SubStreamCourseMembers | backend/controllers/userController.js:232-240 | a course is returned exactly when its sub-domain is the sub-stream or its role is one of the sub-stream's roles |
| Aggregation.SubStreamNewestFirst | backend/controllers/userController.js:237-242 | courses and jobs come newest first: of two returned, the one listed earlier was stored later |
| Aggregation.AnnotateByMap | backend/controllers/userController.js:250-256 | each course keeps its place and carries the map's entry for it, or null |
| Aggregation.ProgressMapLast | backend/controllers/userController.js:246-249 | the map holds a course exactly when some entry is for it, and then holds the last such entry |
| Aggregation.FirstAndLastAgree | backend/controllers/userController.js:246-251 | with at most one entry per course, the map lookup equals the first-match lookup of `getRoleDetails` |
| CourseForm.Changed | frontend/src/pages/AdminDashboard.jsx:128-135 | a text change sets the named field alone; a type change sets the type (the empty "-- Select --" value included), clearing the amount for Free only; no select, list or company changes |
| CourseForm.SaveCourseFirstFailure | frontend/src/pages/AdminDashboard.jsx:175-188 | a save is sent exactly when the form is acceptable, and a refused save alerts for the first failing check, in order, for each of the six checks |
| CourseForm.SavedPayloadNormalized | frontend/src/pages/AdminDashboard.jsx:190-205 | a sent payload prices the course at 0 unless it is Paid, every Free link at 0 and every Paid item at its positive amount, keeps both link lists' lengths and urls, and sends empty references as null |
| CourseForm.CreateCourse | backend/models/Course.js:3-56 | a course is created exactly when title, skill, provider and link are non-empty and the type is set; it keeps the type and references, has no certifications, and is valid |
| CourseForm.UnsetTypeSentButRefused | frontend/src/pages/AdminDashboard.jsx:128-205 | a form whose type was set back to "-- Select --" passes every form check whatever its amount, is sent with amount 0, and the server refuses to create it |
| CourseForm.CreateCourseIgnoresPricing | backend/models/Course.js:3-56 | amounts and link lists do not affect the created course |
| CourseForm.CompanyAdded | frontend/src/pages/AdminDashboard.jsx:221-226 | an empty or listed name changes nothing; otherwise the name is appended; a list without duplicates stays so |
| CourseForm.CompanyRemoved | frontend/src/pages/AdminDashboard.jsx:228-231 | every occurrence of the name is gone, every other name keeps its number of occurrences, and a list without duplicates stays so |
| CourseForm.CompanyRemovedAppend | frontend/src/pages/AdminDashboard.jsx:228-231 | removal keeps the order of the rest: a name appended to the list stays at the end of the result unless it is the name removed |
| CourseForm.CompanyAddThenRemove | frontend/src/pages/AdminDashboard.jsx:221-231 | removing a company just added restores the list |
| CourseForm.TryAddResource | frontend/src/pages/AdminDashboard.jsx:565-570 | ignored exactly when the url is empty; appended exactly when fewer than 4 exist and a Paid link has an amount; otherwise the matching alert |
| CourseForm.TryAddCertificate | frontend/src/pages/AdminDashboard.jsx:605-610 | ignored exactly when url and label are both empty; appended exactly when fewer than 5 exist and a Paid link has an amount; otherwise the matching alert |
| CourseForm.RemoveAt | frontend/src/pages/AdminDashboard.jsx:549 | the entry at the index goes and the others keep their order |
| CourseForm.EditorSaveRefusals | frontend/src/pages/AdminDashboard.jsx:175-188 | in a state the editor can reach, a save is refused only for the primary link or the course amount |
| CourseForm.CourseEditor.constructor | frontend/src/pages/AdminDashboard.jsx:28-47 | the page starts with an empty form, empty drafts and no options, satisfying the editor's invariant |
| CourseForm.CourseEditor.OpenAddCourseModal | frontend/src/pages/AdminDashboard.jsx:78-101 | the form and drafts go back to empty |
| CourseForm.CourseEditor.HandleFormChange | frontend/src/pages/AdminDashboard.jsx:128-135 | the form becomes `Changed` of the old one and the invariant is kept |
| CourseForm.CourseEditor.SetAmount | frontend/src/pages/AdminDashboard.jsx:510 | only the amount changes |
| CourseForm.CourseEditor.HandleStreamChange | frontend/src/pages/AdminDashboard.jsx:137-147 | the stream is set, sub-domain and role are cleared with the role options, and the sub-domain options are those fetched for a chosen stream |
| CourseForm.CourseEditor.HandleSubDomainChange | frontend/src/pages/AdminDashboard.jsx:149-158 | the sub-domain is set, the role cleared, and the role options are those fetched for a chosen sub-domain |
| CourseForm.CourseEditor.SelectRole | frontend/src/pages/AdminDashboard.jsx:501 | only the role changes, and only once a sub-domain is chosen |
| CourseForm.CourseEditor.SetNewCompany | frontend/src/pages/AdminDashboard.jsx:631 | the company draft becomes the text typed |
| CourseForm.CourseEditor.AddCompany | frontend/src/pages/AdminDashboard.jsx:221-226 | the companies become `CompanyAdded` of the old list, and the draft is cleared exactly when the name was added |
| CourseForm.CourseEditor.RemoveCompany | frontend/src/pages/AdminDashboard.jsx:228-231 | the companies become `CompanyRemoved` of the old list |
| CourseForm.CourseEditor.SetResourceDraft | frontend/src/pages/AdminDashboard.jsx:554-563 | the link draft becomes the values typed |
| CourseForm.CourseEditor.SetCertificateDraft | frontend/src/pages/AdminDashboard.jsx:595-603 | the certification draft becomes the values typed |
| CourseForm.CourseEditor.AddResourceLink | frontend/src/pages/AdminDashboard.jsx:565-570 | the outcome is `TryAddResource`; on success the link is appended and the draft reset, otherwise nothing changes |
| CourseForm.CourseEditor.AddCertificateLink | frontend/src/pages/AdminDashboard.jsx:605-610 | the outcome is `TryAddCertificate`; on success the link is appended and the draft reset, otherwise nothing changes |
| CourseForm.CourseEditor.RemoveResourceLink | frontend/src/pages/AdminDashboard.jsx:549 | the link at the index is removed |
| CourseForm.CourseEditor.RemoveCertificateLink | frontend/src/pages/AdminDashboard.jsx:590 | the certification at the index is removed |
| Client.CompletedCount | frontend/src/pages/RoleDetails.jsx:444 | the count is at most the number of entries, equals it exactly when all are completed, and is 0 exactly when none is |
| Client.OverallCompletionBounds | frontend/src/pages/RoleDetails.jsx:422-425 | with every percentage in [0, 100] the overall completion lies in [0, 100] |
| Client.OverallCompletionEmpty | frontend/src/pages/RoleDetails.jsx:422-425 | with no entries the overall completion is 0 |
| Client.OverallCompletionUniform | frontend/src/pages/RoleDetails.jsx:422-425 | when all entries share a percentage the overall completion is that percentage |
| RoleDetailsPage.GetCourseProgress | frontend/src/pages/RoleDetails.jsx:55-58 | the first entry whose course is the id, or 0 percent and not completed when none is |
| RoleDetailsPage.PopulatedEntriesNeverMatch | frontend/src/pages/RoleDetails.jsx:55-58 | entries holding populated courses never match, so the lookup gives the empty progress |
| RoleDetailsPage.DisplayedProgress | frontend/src/pages/RoleDetails.jsx:107-109 | the server's progress wins; the context is read only when there is none |
| RoleDetailsPage.SupplementaryShown | frontend/src/pages/RoleDetails.jsx:263-269 | the supplementary section is rendered exactly when it has a course |
| RoleDetailsPage.SkillSectionsCount | frontend/src/pages/RoleDetails.jsx:98-99 | with no repeated skill a course appears in one skill section when its skill is listed and in none otherwise |
| RoleDetailsPage.EachCourseShownOnce | frontend/src/pages/RoleDetails.jsx:98-99 | with no repeated skill each course of the role is shown in exactly one section |
| RoleDetailsPage.RepeatedSkillShownTwice | frontend/src/pages/RoleDetails.jsx:98-99 | a skill listed twice shows its courses twice |
| RoleDetailsPage.RequestsConsistent | frontend/src/pages/RoleDetails.jsx:159-177 | every request has a percentage in [0, 100] and is completed exactly at 100; the toggle flips the shown completion |
| RoleDetailsPage.ButtonRequestsKeepEntriesValid | frontend/src/pages/RoleDetails.jsx:159-177 | applying any button's request keeps a valid progress list valid |
| Routes.MatchSubStreamPath | frontend/src/App.jsx:49 | the route reads back the two slugs of a built path when both are plain: non-empty and free of '/', '?', '#' and '%' |
| Routes.EmptySlugUnmatched | frontend/src/App.jsx:49 | a path built with an empty stream slug does not match the route |
| DashboardPage.FindStreamCard | frontend/src/pages/Dashboard.jsx:69 | the first stream with the id, and none exactly when no stream has it |
| DashboardPage.ActiveStream | frontend/src/pages/Dashboard.jsx:68-69 | none unless the user has a stream; otherwise a listed stream with the user's id, none exactly when none is listed |
| DashboardPage.StreamShapes | frontend/src/pages/Dashboard.jsx:68 | an id string over five characters counts as a stream, "Change Stream" (null) does not, and a populated stream does not |
| DashboardPage.OverallProgress | frontend/src/pages/Dashboard.jsx:185-188 | 0 without a user or entries, and within [0, 100] when every percentage is |
| DashboardPage.StreamImageRules | frontend/src/pages/Dashboard.jsx:100-115 | the default picture exactly when no rule matches; "electronics" with "communication" wins over "electrical" with "electronics" |
| DashboardPage.SubDomainImageDefault | frontend/src/pages/Dashboard.jsx:218-246 | the default picture exactly when the name contains none of the keywords |
| DashboardPage.AiCheckedFirst | frontend/src/pages/Dashboard.jsx:219-220 | any name containing "ai" gets the AI picture, whatever else it contains |
| DashboardPage.RailwayTransportationPicture | frontend/src/pages/Dashboard.jsx:219-220 | "Railway Transportation" gets the AI picture |
| DashboardPage.SubDomainLinkRoutes | frontend/src/pages/Dashboard.jsx:274 | the link is "/dashboard" unless both slugs are present; otherwise, for plain slugs, the route reads back exactly those slugs |
| SidePanel.Toggled | frontend/src/components/SidePanel.jsx:38-43 | the toggled stream flips, a missing key counting as collapsed, and every other stream keeps its state |
| SidePanel.ToggleTwice | frontend/src/components/SidePanel.jsx:38-43 | toggling a stream twice leaves every stream as it was |
| SidePanel.AutoExpandTarget | frontend/src/components/SidePanel.jsx:23-25 | an id string expands and highlights exactly its stream; a populated stream expands only an "[object Object]" id and highlights none |
| SidePanel.PanelState.constructor | frontend/src/components/SidePanel.jsx:9-13 | no streams, nothing expanded, loading, the list open and the mobile panel closed |
| SidePanel.PanelState.LoadStreams | frontend/src/components/SidePanel.jsx:15-36 | nothing without a user; a fetched list replaces the streams, and a truthy user stream (not an empty id) becomes the only expanded key; loading ends |
| SidePanel.PanelState.ToggleStream | frontend/src/components/SidePanel.jsx:38-43 | the map becomes `Toggled` of the old one, nothing else changes |
| SidePanel.PanelState.ToggleStreamList | frontend/src/components/SidePanel.jsx:84 | the list flips open or closed, nothing else changes |
| SidePanel.PanelState.ToggleMobile | frontend/src/components/SidePanel.jsx:53 | the mobile panel flips, nothing else changes |
| SidePanel.PanelState.CloseMobile | frontend/src/components/SidePanel.jsx:64 | the mobile panel closes, nothing else changes |
| SidePanel.StreamBodyOf | frontend/src/components/SidePanel.jsx:147-169 | collapsed exactly when not expanded; "No learning paths yet" exactly when expanded without sub-domains; otherwise one link per sub-domain |
| SidePanel.View | frontend/src/components/SidePanel.jsx:45-47 | nothing is rendered exactly when there is no user or the user is an admin; rows list every stream with its highlight, path count and body |
| SidePanel.SubDomainPathRoutes | frontend/src/components/SidePanel.jsx:152 | a link with two plain slugs reads back those slugs; a missing stream slug reads back "undefined", for which the `getCoursesBySubStream` handler answers "Stream not found" unless a stream has that slug |

## Left out

- Authentication (`authController.js`), the password hook of `User.js`, JWT and LoginLog writes: foreign crypto and store I/O. The login and session answers appear only as the shape of the stream they carry (`Client.StreamAsSent`).
- `adminController.js`, the routes, `index.js` and the seeders: pass-through CRUD, wiring and one-off data scripts.
- `getStreams`, `getCareerPath`, `getRoles` and `submitFeedback`: plain queries with no logic of their own. The dashboard's `userStream` fetch through `getCareerPath` is not modelled; the sub-domain cards take the stream's sub-domains as input.
- `openEditCourseModal`: loading a stored course back into the form is not modelled. The amount and both link lists it reads are fields the Course schema drops, so they always come back empty.
- The HTML `required` and `min` attributes of the form inputs: browser validation, not code.
- The disabled selects are modelled as preconditions: `HandleSubDomainChange` needs a stream and `SelectRole` needs a sub-domain. The disabled add buttons are not; the add functions keep their alerts.
- Concurrency between requests, and `Promise.all`: each handler is one sequential step over a store snapshot.
- The clock: `now` is a parameter.
- Floating point: percentages are integers and form amounts are exact reals.
- Mongoose ObjectId casting, `populate` and `toString` comparisons: ids are strings compared by equality; a populated stream or course is a separate client-side case.
- `User.findById` returning null inside `updateSkillProgress` and `trackCourseProgress`: the handlers then throw and answer 400; the `UserDoc` methods cover only a document that exists.
- Client.OverallCompletion: a missing percentage (`|| 0`) is not modelled, since every stored entry carries one by its default.
- Aggregation.CoursesBySubStream: modelled as the handler alone. No route of this version mounts it: `backend/routes/userRoutes.js:11-22` has no sub-stream route, and neither `backend/index.js` nor `adminRoutes.js` adds one. A request for a sub-stream's courses therefore gets the authentication middleware's 401 or Express's default 404 for every slug pair, and never one of the handler's answers. The sub-stream page that sends that request (`SubStreamDetails.jsx`) is not part of this model.
- Aggregation.FindStreamBySlug: the slug lookups, and with them `Aggregation.FindSubStream`, `Aggregation.SubStreamNotFound` and `SidePanel.SubDomainPathRoutes`, assume that a query keeps a filter on a path the schema does not declare (Mongoose 7 and later, or `strictQuery` off). Stream.js and SubDomain.js declare no `slug`, and `backend/index.js` sets no `strictQuery`; under Mongoose 6's default the `slug` filter is dropped, `findOne` returns the first stream (and the first sub-domain of it), and neither 404 is ever answered. The model does not capture that variant.
- Routes.MatchSubStream: a simplified router match. It does not split a query (`?`) or fragment (`#`) off the path, does not percent-decode parameters, compares the static segments case-sensitively and does not accept a trailing slash. The round-trip lemmas therefore promise nothing for slugs holding '?', '#' or '%'; for the paths the client builds the case and trailing-slash differences do not arise.
- DashboardPage.Lower: lower-casing is ASCII only; the source's `toLowerCase` also folds other scripts.
- JSX rendering, styling, loading spinners and error alerts of failed requests.
- The admin redirect of the dashboard: navigation only.
