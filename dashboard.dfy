/** The student dashboard of frontend/src/pages/Dashboard.jsx: whether the
    user counts as having a stream, the active stream, the overall-progress
    figure, the keyword rules choosing stream and sub-domain pictures, and
    the sub-domain links. */
module DashboardPage {
  import opened Records
  import opened Client
  import opened Routes

  // ------------------------------------------------------------- the stream

  /** `user?.stream && typeof user.stream === 'string' && user.stream.length > 5`. */
  predicate HasStream(u: Option<ClientUser>) {
    u.Some? && u.value.stream.StreamId? && |u.value.stream.id| > 5
  }

  /** `streams.find(s => s._id === id)`. */
  function FindStreamCard(streams: seq<StreamCard>, id: Id): (r: Option<StreamCard>)
    ensures r.None? <==> forall i :: 0 <= i < |streams| ==> streams[i].id != id
    ensures r.Some? ==> r.value in streams && r.value.id == id
    ensures forall i :: 0 <= i < |streams| && streams[i].id == id
                        && (forall j :: 0 <= j < i ==> streams[j].id != id)
               ==> r == Some(streams[i])
  {
    if streams == [] then None
    else if streams[0].id == id then Some(streams[0])
    else
      assert forall i :: 1 <= i < |streams| ==> streams[i] == streams[1..][i - 1];
      FindStreamCard(streams[1..], id)
  }

  /** `activeStream`: the first listed stream with the user's stream id, and
      none unless the user counts as having a stream. */
  function ActiveStream(u: Option<ClientUser>, streams: seq<StreamCard>): (r: Option<StreamCard>)
    ensures !HasStream(u) ==> r.None?
    ensures r.Some? ==> r.value in streams && r.value.id == u.value.stream.id
    ensures HasStream(u) ==> (r.None? <==> forall i :: 0 <= i < |streams| ==> streams[i].id != u.value.stream.id)
  {
    if HasStream(u) then FindStreamCard(streams, u.value.stream.id) else None
  }

  /** What the stream picker and "Change Stream" lead to: a stored id of
      more than five characters counts once the client holds it as a
      string, "Change Stream" stores null and the picker comes back, and an
      answer that populates the stream (the session reload, a progress
      update) makes the user count as having none. */
  lemma StreamShapes(u: ClientUser, stored: Option<Id>)
    ensures HasStream(Some(u.(stream := StreamAsSent(stored, false)))) <==> stored.Some? && |stored.value| > 5
    ensures !HasStream(Some(u.(stream := StreamAsSent(None, false))))
    ensures !HasStream(Some(u.(stream := StreamAsSent(stored, true))))
  {
  }

  // ------------------------------------------------------ overall progress

  /** The overall-progress figure; with no user both fallbacks give 0. */
  function OverallProgress(u: Option<ClientUser>): (r: int)
    ensures u.None? ==> r == 0
    ensures u.Some? && u.value.courseProgress == [] ==> r == 0
    ensures u.Some? && PercentagesInRange(u.value.courseProgress) ==> 0 <= r <= 100
  {
    if u.None? then RoundedMean(0, 1)
    else if PercentagesInRange(u.value.courseProgress) then
      OverallCompletionBounds(u.value.courseProgress);
      OverallCompletion(u.value.courseProgress)
    else OverallCompletion(u.value.courseProgress)
  }

  // ------------------------------------------------------ keyword pictures

  /** ASCII lower-casing. */
  function LowerChar(c: char): char {
    if 'A' <= c <= 'Z' then (c as int + 32) as char else c
  }

  function Lower(s: string): (r: string)
    ensures |r| == |s| && forall k :: 0 <= k < |s| ==> r[k] == LowerChar(s[k])
  {
    seq(|s|, k requires 0 <= k < |s| => LowerChar(s[k]))
  }

  /** `t` occurs in `s` at index `i`. */
  predicate OccursAt(s: string, t: string, i: int) {
    0 <= i && i + |t| <= |s| && s[i..i + |t|] == t
  }

  /** `s.includes(t)`. */
  predicate Contains(s: string, t: string) {
    exists i :: 0 <= i <= |s| && OccursAt(s, t, i)
  }

  datatype StreamPicture = ComputerSciencePicture | MechanicalPicture | CivilPicture
                         | ElectronicsCommunicationPicture | ElectricalElectronicsPicture | DefaultStreamPicture

  /** `getStreamImage`: the first rule whose keywords the lower-cased name
      contains. */
  function StreamImage(streamName: string): StreamPicture {
    var name := Lower(streamName);
    if Contains(name, "computer science") then ComputerSciencePicture
    else if Contains(name, "mechanical") then MechanicalPicture
    else if Contains(name, "civil") then CivilPicture
    else if Contains(name, "electronics") && Contains(name, "communication") then ElectronicsCommunicationPicture
    else if Contains(name, "electrical") && Contains(name, "electronics") then ElectricalElectronicsPicture
    else DefaultStreamPicture
  }

  function StreamImageUrl(p: StreamPicture): string {
    match p
    case ComputerSciencePicture => "https://images.unsplash.com/photo-1515879218367-8466d910aaa4?w=600&h=450&fit=crop&q=80"
    case MechanicalPicture => "https://images.unsplash.com/photo-1581092918056-0c4c3acd3789?w=600&h=450&fit=crop&q=80"
    case CivilPicture => "https://images.unsplash.com/photo-1486621145735-29aeb4a9be3e?w=600&h=450&fit=crop&q=80"
    case ElectronicsCommunicationPicture => "https://images.unsplash.com/photo-1625948515291-69613efd103f?w=600&h=450&fit=crop&q=80"
    case ElectricalElectronicsPicture => "https://images.unsplash.com/photo-1621905251918-48416bd8575a?w=600&h=450&fit=crop&q=80"
    case DefaultStreamPicture => "https://images.unsplash.com/photo-1552664730-d307ca884978?w=600&h=450&fit=crop&q=80"
  }

  /** The default picture is chosen exactly when no rule matches, and a name
      with "electronics" and "communication" gets the communication picture
      even when it also contains "electrical". */
  lemma StreamImageRules(streamName: string)
    ensures var name := Lower(streamName);
      StreamImage(streamName) == DefaultStreamPicture
      <==> !Contains(name, "computer science") && !Contains(name, "mechanical") && !Contains(name, "civil")
           && !(Contains(name, "electronics") && Contains(name, "communication"))
           && !(Contains(name, "electrical") && Contains(name, "electronics"))
    ensures var name := Lower(streamName);
      !Contains(name, "computer science") && !Contains(name, "mechanical") && !Contains(name, "civil")
      && Contains(name, "electronics") && Contains(name, "communication") && Contains(name, "electrical")
      ==> StreamImage(streamName) == ElectronicsCommunicationPicture
  {
  }

  datatype SubDomainPicture = AiMlPicture | DataSciencePicture | CyberSecurityPicture | IotPicture
                            | AutomotivePicture | RoboticsPicture | StructuralPicture | TransportationPicture
                            | EmbeddedPicture | CommunicationPicture | PowerSystemsPicture | RenewablePicture
                            | DefaultSubDomainPicture

  /** `getSubDomainImage`: the first rule whose keyword the lower-cased name
      contains. */
  function SubDomainImage(subDomainName: string): SubDomainPicture {
    var name := Lower(subDomainName);
    if Contains(name, "ai") || Contains(name, "machine learning") then AiMlPicture
    else if Contains(name, "data science") then DataSciencePicture
    else if Contains(name, "cyber security") then CyberSecurityPicture
    else if Contains(name, "iot") || Contains(name, "internet of things") then IotPicture
    else if Contains(name, "automotive") then AutomotivePicture
    else if Contains(name, "robotics") then RoboticsPicture
    else if Contains(name, "structural") then StructuralPicture
    else if Contains(name, "transportation") then TransportationPicture
    else if Contains(name, "embedded") then EmbeddedPicture
    else if Contains(name, "communication") || Contains(name, "wireless") then CommunicationPicture
    else if Contains(name, "power systems") then PowerSystemsPicture
    else if Contains(name, "renewable") then RenewablePicture
    else DefaultSubDomainPicture
  }

  function SubDomainImageUrl(p: SubDomainPicture): string {
    match p
    case AiMlPicture => "https://images.unsplash.com/photo-1677442179019-21780ecad995?w=600&h=400&fit=crop&q=80"
    case DataSciencePicture => "https://images.unsplash.com/photo-1551288049-bebda4e38f71?w=600&h=400&fit=crop&q=80"
    case CyberSecurityPicture => "https://images.unsplash.com/photo-1550355291-bbee04a92027?w=600&h=400&fit=crop&q=80"
    case IotPicture => "https://images.unsplash.com/photo-1558618666-fcd25c85cd64?w=600&h=400&fit=crop&q=80"
    case AutomotivePicture => "https://images.unsplash.com/photo-1489824904134-891ab64532f1?w=600&h=400&fit=crop&q=80"
    case RoboticsPicture => "https://images.unsplash.com/photo-1635373067958-d7d165378995?w=600&h=400&fit=crop&q=80"
    case StructuralPicture => "https://images.unsplash.com/photo-1581092918056-0c4c3acd3789?w=600&h=400&fit=crop&q=80"
    case TransportationPicture => "https://images.unsplash.com/photo-1488646953014-85cb44e25828?w=600&h=400&fit=crop&q=80"
    case EmbeddedPicture => "https://images.unsplash.com/photo-1518611505868-48510c2e022b?w=600&h=400&fit=crop&q=80"
    case CommunicationPicture => "https://images.unsplash.com/photo-1606933248051-5ce98bebdc0e?w=600&h=400&fit=crop&q=80"
    case PowerSystemsPicture => "https://images.unsplash.com/photo-1621905251918-48416bd8575a?w=600&h=400&fit=crop&q=80"
    case RenewablePicture => "https://images.unsplash.com/photo-1509391366360-2e938286db4c?w=600&h=400&fit=crop&q=80"
    case DefaultSubDomainPicture => "https://images.unsplash.com/photo-1552664730-d307ca884978?w=600&h=400&fit=crop&q=80"
  }

  /** The keywords, in the order they are checked. */
  const SubDomainKeywords: seq<string> :=
    ["ai", "machine learning", "data science", "cyber security", "iot", "internet of things", "automotive",
     "robotics", "structural", "transportation", "embedded", "communication", "wireless", "power systems", "renewable"]

  /** The default picture is chosen exactly when the lower-cased name
      contains none of the keywords. */
  lemma SubDomainImageDefault(subDomainName: string)
    ensures SubDomainImage(subDomainName) == DefaultSubDomainPicture
            <==> forall k :: 0 <= k < |SubDomainKeywords| ==> !Contains(Lower(subDomainName), SubDomainKeywords[k])
  {
    var name := Lower(subDomainName);
    var none := forall k :: 0 <= k < |SubDomainKeywords| ==> !Contains(name, SubDomainKeywords[k]);
    assert none <==>
      !Contains(name, SubDomainKeywords[0]) && !Contains(name, SubDomainKeywords[1]) && !Contains(name, SubDomainKeywords[2])
      && !Contains(name, SubDomainKeywords[3]) && !Contains(name, SubDomainKeywords[4]) && !Contains(name, SubDomainKeywords[5])
      && !Contains(name, SubDomainKeywords[6]) && !Contains(name, SubDomainKeywords[7]) && !Contains(name, SubDomainKeywords[8])
      && !Contains(name, SubDomainKeywords[9]) && !Contains(name, SubDomainKeywords[10]) && !Contains(name, SubDomainKeywords[11])
      && !Contains(name, SubDomainKeywords[12]) && !Contains(name, SubDomainKeywords[13]) && !Contains(name, SubDomainKeywords[14]);
    assert
      SubDomainKeywords[0] == "ai" && SubDomainKeywords[1] == "machine learning" && SubDomainKeywords[2] == "data science"
      && SubDomainKeywords[3] == "cyber security" && SubDomainKeywords[4] == "iot" && SubDomainKeywords[5] == "internet of things"
      && SubDomainKeywords[6] == "automotive" && SubDomainKeywords[7] == "robotics" && SubDomainKeywords[8] == "structural"
      && SubDomainKeywords[9] == "transportation" && SubDomainKeywords[10] == "embedded" && SubDomainKeywords[11] == "communication"
      && SubDomainKeywords[12] == "wireless" && SubDomainKeywords[13] == "power systems" && SubDomainKeywords[14] == "renewable";
  }

  /** "ai" is checked first, on any substring: every name containing it gets
      the AI picture, whatever later keyword it also contains. */
  lemma AiCheckedFirst(subDomainName: string)
    requires Contains(Lower(subDomainName), "ai")
    ensures SubDomainImage(subDomainName) == AiMlPicture
  {
  }

  /** For instance "Railway Transportation" gets the AI picture, through
      the "ai" of "Railway". */
  lemma RailwayTransportationPicture()
    ensures SubDomainImage("Railway Transportation") == AiMlPicture
  {
    var name := Lower("Railway Transportation");
    assert name[1] == 'a' && name[2] == 'i';
    assert name[1..3] == "ai";
    assert OccursAt(name, "ai", 1);
  }

  // ------------------------------------------------------------ the links

  /** A slug the client treats as present: there, and not empty. */
  predicate Truthy(slug: Option<string>) {
    slug.Some? && slug.value != ""
  }

  /** The "Explore Roles" link of a sub-domain card. */
  function SubDomainLink(active: Option<StreamCard>, sd: SubDomainCard): string {
    if active.Some? && Truthy(active.value.slug) && Truthy(sd.slug)
    then SubStreamPath(active.value.slug.value, sd.slug.value)
    else "/dashboard"
  }

  /** The link leads to the sub-stream page of exactly the two slugs when
      both are present (and plain), and to the dashboard otherwise. */
  lemma SubDomainLinkRoutes(active: Option<StreamCard>, sd: SubDomainCard)
    ensures !(active.Some? && Truthy(active.value.slug) && Truthy(sd.slug)) ==> SubDomainLink(active, sd) == "/dashboard"
    ensures active.Some? && Truthy(active.value.slug) && Truthy(sd.slug)
            && PlainSlug(active.value.slug.value) && PlainSlug(sd.slug.value)
        ==> MatchSubStream(SubDomainLink(active, sd)) == Some(SubStreamParams(active.value.slug.value, sd.slug.value))
  {
    if active.Some? && Truthy(active.value.slug) && Truthy(sd.slug)
       && PlainSlug(active.value.slug.value) && PlainSlug(sd.slug.value) {
      MatchSubStreamPath(active.value.slug.value, sd.slug.value);
    }
  }
}
