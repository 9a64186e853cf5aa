/** The "Learning Paths" side panel of frontend/src/components/SidePanel.jsx:
    the streams it lists, which of them are expanded, and the sub-domain
    links an expanded stream shows. */
module SidePanel {
  import opened Records
  import opened Client
  import opened Routes
  import opened Aggregation

  // ------------------------------------------------------ expanded streams

  /** `expandedStreams[id]` is truthy: a key never set reads as undefined. */
  predicate IsExpanded(m: map<string, bool>, id: string) {
    id in m && m[id]
  }

  /** `{ ...prev, [id]: !prev[id] }`. */
  function Toggled(m: map<string, bool>, id: string): (r: map<string, bool>)
    ensures r.Keys == m.Keys + {id}
    ensures IsExpanded(r, id) == !IsExpanded(m, id)
    ensures forall k :: k != id ==> IsExpanded(r, k) == IsExpanded(m, k)
  {
    m[id := !IsExpanded(m, id)]
  }

  /** Toggling a stream twice leaves every stream as expanded as before. */
  lemma ToggleTwice(m: map<string, bool>, id: string)
    ensures forall k :: IsExpanded(Toggled(Toggled(m, id), id), k) == IsExpanded(m, k)
  {
    var once := Toggled(m, id);
    var twice := Toggled(once, id);
    forall k ensures IsExpanded(twice, k) == IsExpanded(m, k) {
      if k != id {
        assert IsExpanded(twice, k) == IsExpanded(once, k);
      }
    }
  }

  /** The key `{ [user.stream]: true }` is stored under: an id string is its
      own key, and a populated stream object turns into "[object Object]". */
  function StreamKey(s: ClientStream): string
    requires !s.NoStream?
  {
    match s
    case StreamId(id) => id
    case StreamDoc(_) => "[object Object]"
  }

  /** `user?.stream` is truthy: an empty id string is not. */
  predicate StreamTruthy(s: ClientStream) {
    s.StreamDoc? || (s.StreamId? && s.id != "")
  }

  /** The stream the panel highlights as the user's (`user?.stream === stream._id`). */
  predicate IsUserStream(u: ClientUser, stream: StreamCard) {
    u.stream == StreamId(stream.id)
  }

  /** What the automatic expansion reaches: with an id string exactly the
      listed streams with that id are expanded and highlighted; with a
      populated stream only a stream whose id is "[object Object]" would be,
      and none is highlighted. */
  lemma AutoExpandTarget(u: ClientUser, streams: seq<StreamCard>)
    requires !u.stream.NoStream?
    ensures u.stream.StreamId? ==>
      forall i :: 0 <= i < |streams| ==>
        (IsExpanded(map[StreamKey(u.stream) := true], streams[i].id) <==> streams[i].id == u.stream.id)
        && (IsUserStream(u, streams[i]) <==> streams[i].id == u.stream.id)
    ensures u.stream.StreamDoc? ==>
      forall i :: 0 <= i < |streams| ==>
        (IsExpanded(map[StreamKey(u.stream) := true], streams[i].id) <==> streams[i].id == "[object Object]")
        && !IsUserStream(u, streams[i])
  {
  }

  // -------------------------------------------------------------- the panel

  /** The component's state. */
  class PanelState {
    var streams: seq<StreamCard>
    var expandedStreams: map<string, bool>
    var loading: bool
    var streamListOpen: bool
    var mobileOpen: bool

    constructor()
      ensures streams == [] && expandedStreams == map[] && loading && streamListOpen && !mobileOpen
    {
      streams := [];
      expandedStreams := map[];
      loading := true;
      streamListOpen := true;
      mobileOpen := false;
    }

    /** The effect run when the signed-in user changes: nothing without a
        user; otherwise the `/user/streams` answer (`None` when the request
        fails) replaces the list, and a truthy stream of the user's becomes
        the only expanded key; a missing stream or an empty id leaves the
        map as it was. Loading ends either way. */
    method LoadStreams(user: Option<ClientUser>, fetched: Option<seq<StreamCard>>)
      modifies this
      ensures user.None? ==> streams == old(streams) && expandedStreams == old(expandedStreams) && loading == old(loading)
      ensures user.Some? ==> !loading
      ensures user.Some? && fetched.Some? ==> streams == fetched.value
      ensures fetched.None? ==> streams == old(streams) && expandedStreams == old(expandedStreams)
      ensures user.Some? && fetched.Some? ==>
        expandedStreams == (if StreamTruthy(user.value.stream) then map[StreamKey(user.value.stream) := true]
                            else old(expandedStreams))
      ensures streamListOpen == old(streamListOpen) && mobileOpen == old(mobileOpen)
    {
      if user.Some? {
        loading := true;
        if fetched.Some? {
          streams := fetched.value;
          if StreamTruthy(user.value.stream) {
            expandedStreams := map[StreamKey(user.value.stream) := true];
          }
        }
        loading := false;
      }
    }

    /** `toggleStream`: flips one stream and keeps the others. */
    method ToggleStream(id: string)
      modifies this
      ensures expandedStreams == Toggled(old(expandedStreams), id)
      ensures IsExpanded(expandedStreams, id) == !IsExpanded(old(expandedStreams), id)
      ensures streams == old(streams) && loading == old(loading)
      ensures streamListOpen == old(streamListOpen) && mobileOpen == old(mobileOpen)
    {
      expandedStreams := Toggled(expandedStreams, id);
    }

    /** The header button that shows or hides the stream list. */
    method ToggleStreamList()
      modifies this
      ensures streamListOpen == !old(streamListOpen)
      ensures streams == old(streams) && expandedStreams == old(expandedStreams)
      ensures loading == old(loading) && mobileOpen == old(mobileOpen)
    {
      streamListOpen := !streamListOpen;
    }

    /** The mobile menu button. */
    method ToggleMobile()
      modifies this
      ensures mobileOpen == !old(mobileOpen)
      ensures streams == old(streams) && expandedStreams == old(expandedStreams)
      ensures loading == old(loading) && streamListOpen == old(streamListOpen)
    {
      mobileOpen := !mobileOpen;
    }

    /** The overlay and every sub-domain link close the mobile panel. */
    method CloseMobile()
      modifies this
      ensures !mobileOpen
      ensures streams == old(streams) && expandedStreams == old(expandedStreams)
      ensures loading == old(loading) && streamListOpen == old(streamListOpen)
    {
      mobileOpen := false;
    }
  }

  // ---------------------------------------------------------------- the view

  /** A slug as a template literal prints it: a missing one is "undefined". */
  function SlugText(slug: Option<string>): string {
    match slug
    case None => "undefined"
    case Some(s) => s
  }

  /** `/streams/${stream.slug}/substreams/${subDomain.slug}`. */
  function SubDomainPath(stream: StreamCard, sd: SubDomainCard): string {
    SubStreamPath(SlugText(stream.slug), SlugText(sd.slug))
  }

  /** What a stream row shows beneath its button. */
  datatype StreamBody = Collapsed | SubDomainLinks(paths: seq<string>) | EmptyNote

  function StreamBodyOf(stream: StreamCard, expanded: map<string, bool>): (b: StreamBody)
    ensures b.EmptyNote? <==> IsExpanded(expanded, stream.id) && stream.subDomains == []
    ensures b.Collapsed? <==> !IsExpanded(expanded, stream.id)
    ensures b.SubDomainLinks? ==>
      |b.paths| == |stream.subDomains| > 0
      && forall k :: 0 <= k < |b.paths| ==> b.paths[k] == SubDomainPath(stream, stream.subDomains[k])
  {
    if !IsExpanded(expanded, stream.id) then Collapsed
    else if stream.subDomains == [] then EmptyNote
    else SubDomainLinks(seq(|stream.subDomains|, k requires 0 <= k < |stream.subDomains| => SubDomainPath(stream, stream.subDomains[k])))
  }

  /** One row of the stream list. */
  datatype StreamRow = StreamRow(id: Id, name: string, highlighted: bool, pathCount: nat, body: StreamBody)

  /** The panel as rendered. */
  datatype PanelView = Hidden | ListClosed | Spinner | NoStreamsNote | StreamRows(rows: seq<StreamRow>)

  /** The panel is rendered for a signed-in user who is not an admin. */
  predicate Visible(user: Option<ClientUser>) {
    user.Some? && user.value.role != "admin"
  }

  function View(user: Option<ClientUser>, streamListOpen: bool, loading: bool,
                streams: seq<StreamCard>, expanded: map<string, bool>): (v: PanelView)
    ensures v.Hidden? <==> !Visible(user)
    ensures v.StreamRows? ==>
      Visible(user) && streamListOpen && !loading && |v.rows| == |streams| > 0
      && forall k :: 0 <= k < |streams| ==>
           v.rows[k].id == streams[k].id
           && v.rows[k].highlighted == IsUserStream(user.value, streams[k])
           && v.rows[k].pathCount == |streams[k].subDomains|
           && v.rows[k].body == StreamBodyOf(streams[k], expanded)
    ensures Visible(user) && streamListOpen && !loading && streams != [] ==> v.StreamRows?
  {
    if !Visible(user) then Hidden
    else if !streamListOpen then ListClosed
    else if loading then Spinner
    else if streams == [] then NoStreamsNote
    else StreamRows(seq(|streams|, k requires 0 <= k < |streams| =>
           StreamRow(streams[k].id, streams[k].name, IsUserStream(user.value, streams[k]),
                     |streams[k].subDomains|, StreamBodyOf(streams[k], expanded))))
  }

  /** A link of the panel leads the router back to its two slugs when both
      are present and plain; a stream without a slug sends "undefined" as
      the stream slug. For that slug the `getCoursesBySubStream` handler
      answers "Stream not found" unless some stream's slug is literally
      "undefined"; no route of the server mounts that handler, so this is
      the handler's answer, not the server's. */
  lemma SubDomainPathRoutes(cat: Catalog, stream: StreamCard, sd: SubDomainCard, user: Option<seq<CourseEntry>>)
    ensures stream.slug.Some? && PlainSlug(stream.slug.value) && sd.slug.Some? && PlainSlug(sd.slug.value)
        ==> MatchSubStream(SubDomainPath(stream, sd)) == Some(SubStreamParams(stream.slug.value, sd.slug.value))
    ensures stream.slug.None? && sd.slug.Some? && PlainSlug(sd.slug.value)
        ==> MatchSubStream(SubDomainPath(stream, sd)) == Some(SubStreamParams("undefined", sd.slug.value))
            && (CoursesBySubStream(cat, "undefined", sd.slug.value, user) == Err(NotFound("Stream not found"))
                <==> forall i :: 0 <= i < |cat.streams| ==> cat.streams[i].slug != Some("undefined"))
  {
    if stream.slug.Some? && PlainSlug(stream.slug.value) && sd.slug.Some? && PlainSlug(sd.slug.value) {
      MatchSubStreamPath(stream.slug.value, sd.slug.value);
    }
    if stream.slug.None? && sd.slug.Some? && PlainSlug(sd.slug.value) {
      assert PlainSlug("undefined");
      MatchSubStreamPath("undefined", sd.slug.value);
      SubStreamNotFound(cat, "undefined", sd.slug.value, user);
    }
  }
}
