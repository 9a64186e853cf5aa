/** The user and catalog as the React client holds them, and the progress
    summaries its pages compute from them
    (frontend/src/pages/RoleDetails.jsx, frontend/src/pages/Dashboard.jsx). */
module Client {
  import opened Records

  /** `user.stream` on the client: absent or null, an id string (the
      profile update answers with the raw document), or a populated stream
      object (the session and course-progress answers populate it). */
  datatype ClientStream = NoStream | StreamId(id: Id) | StreamDoc(doc: Id)

  /** The stream field of a user document as an answer carries it: the
      login and profile-update answers send the stored id, the session
      (`/auth/me`) and course-progress answers populate it. */
  function StreamAsSent(stored: Option<Id>, populated: bool): ClientStream {
    match stored
    case None => NoStream
    case Some(id) => if populated then StreamDoc(id) else StreamId(id)
  }

  /** `cp.course` on the client: an id string, or a populated course. */
  datatype CourseRef = CourseId(id: Id) | CourseDoc(doc: Id)

  datatype ClientEntry = ClientEntry(course: CourseRef, completionPercentage: int, isCompleted: bool)

  /** The signed-in user kept in the auth context. */
  datatype ClientUser = ClientUser(role: string, stream: ClientStream, courseProgress: seq<ClientEntry>)

  /** A stream as `/user/streams` lists it, with its sub-domains. A list the
      answer leaves out is the empty sequence. */
  datatype SubDomainCard = SubDomainCard(id: Id, name: string, slug: Option<string>)
  datatype StreamCard = StreamCard(id: Id, name: string, slug: Option<string>, subDomains: seq<SubDomainCard>)

  /** Every stored percentage lies in [0, 100]. */
  predicate PercentagesInRange(entries: seq<ClientEntry>) {
    forall i :: 0 <= i < |entries| ==> 0 <= entries[i].completionPercentage <= 100
  }

  /** `reduce((sum, cp) => sum + cp.completionPercentage, 0)`. */
  function SumPct(entries: seq<ClientEntry>): int {
    if entries == [] then 0 else entries[0].completionPercentage + SumPct(entries[1..])
  }

  /** `Math.round(sum / Math.max(n, 1))` for integer `sum`: `Math.round(x)`
      is the floor of `x + 1/2`, and `/` on `int` floors for a positive
      divisor. */
  function RoundedMean(sum: int, n: nat): int {
    var d := if n < 1 then 1 else n;
    (2 * sum + d) / (2 * d)
  }

  /** The overall-completion figure: the rounded mean percentage over the
      user's progress entries, 0 when there are none. */
  function OverallCompletion(entries: seq<ClientEntry>): int {
    RoundedMean(SumPct(entries), |entries|)
  }

  /** `filter(cp => cp.isCompleted).length`. */
  function CompletedCount(entries: seq<ClientEntry>): (r: nat)
    ensures r <= |entries|
    ensures r == |entries| <==> forall i :: 0 <= i < |entries| ==> entries[i].isCompleted
    ensures r == 0 <==> forall i :: 0 <= i < |entries| ==> !entries[i].isCompleted
  {
    if entries == [] then 0
    else
      assert forall i :: 1 <= i < |entries| ==> entries[i] == entries[1..][i - 1];
      (if entries[0].isCompleted then 1 else 0) + CompletedCount(entries[1..])
  }

  lemma {:induction false} SumPctBounds(entries: seq<ClientEntry>)
    requires PercentagesInRange(entries)
    ensures 0 <= SumPct(entries) <= 100 * |entries|
  {
    if entries != [] {
      SumPctBounds(entries[1..]);
    }
  }

  lemma {:induction false} SumPctUniform(entries: seq<ClientEntry>, v: int)
    requires forall i :: 0 <= i < |entries| ==> entries[i].completionPercentage == v
    ensures SumPct(entries) == v * |entries|
  {
    if entries != [] {
      SumPctUniform(entries[1..], v);
    }
  }

  /** One more multiple of a natural `y`: `a < b` gives `y * a + y <= y * b`. */
  lemma {:induction false} MulStep(y: nat, a: int, b: int)
    ensures a < b ==> y * a + y <= y * b
  {
    if y > 0 {
      MulStep(y - 1, a, b);
      assert y * a == (y - 1) * a + a;
      assert y * b == (y - 1) * b + b;
    }
  }

  /** Floor division below a bound: `x < y * (k + 1)` gives `x / y <= k`. */
  lemma DivBelow(x: int, y: int, k: int)
    requires y > 0 && 0 <= x < y * (k + 1)
    ensures 0 <= x / y <= k
  {
    var q, r := x / y, x % y;
    assert x == y * q + r && 0 <= r < y;
    MulStep(y, k, q);
    MulStep(y, q, 0);
  }

  /** Floor division of `y * q + r` with `0 <= r < y` is `q`. */
  lemma DivExact(q: int, r: int, y: int)
    requires y > 0 && 0 <= r < y
    ensures (y * q + r) / y == q
  {
    var x := y * q + r;
    var a, b := x / y, x % y;
    assert x == y * a + b && 0 <= b < y;
    MulStep(y, q, a);
    MulStep(y, a, q);
  }

  /** With every percentage in [0, 100] the overall completion lies in
      [0, 100]; with none it is 0; when all entries share a percentage it is
      that percentage. */
  lemma OverallCompletionBounds(entries: seq<ClientEntry>)
    requires PercentagesInRange(entries)
    ensures 0 <= OverallCompletion(entries) <= 100
  {
    SumPctBounds(entries);
    var n := |entries|;
    var d := if n < 1 then 1 else n;
    DivBelow(2 * SumPct(entries) + d, 2 * d, 100);
  }

  lemma OverallCompletionEmpty(entries: seq<ClientEntry>)
    requires entries == []
    ensures OverallCompletion(entries) == 0
  {
  }

  lemma OverallCompletionUniform(entries: seq<ClientEntry>, v: int)
    requires |entries| > 0
    requires forall i :: 0 <= i < |entries| ==> entries[i].completionPercentage == v
    ensures OverallCompletion(entries) == v
  {
    var n := |entries|;
    SumPctUniform(entries, v);
    assert 2 * (v * n) + n == (2 * n) * v + n;
    DivExact(v, n, 2 * n);
  }
}
