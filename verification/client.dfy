/** The client of pkg/linkedingo/client.go: its version constants, the
    identity fields `NewClient` derives, and the table of optional user
    callbacks together with its six `on*` dispatchers.

    Everything the client holds by reference (the cookie jar, contexts, the
    callbacks, the connection and event objects) is opaque here: the model
    records which value was stored or passed, never what it does. */
module Client {
  import opened Wrappers
  import opened Bytes

  // ---------------------------------------------------------------------
  // Version constants
  // ---------------------------------------------------------------------

  const ServiceVersion: string := "9.31.2856"
  const UserAgent: string := "LinkedIn/" + ServiceVersion + " CFNetwork/3855.100.1 Darwin/25.0.0"
  const PageInstance: string := "urn:li:page:p_flagship3_feed;BltLF3nASzyVYjGAMq/2og=="

  /** The client-tracking header `NewClient` stores, spelled as the source
      spells it: string pieces around `ServiceVersion`. */
  const XLiTrack: string :=
    "{\"clientVersion\":\"" + ServiceVersion + "\",\"mpVersion\":\"" + ServiceVersion
    + "\",\"osName\":\"iOS\",\"mpName\":\"voyager-ios\"}"

  // ---------------------------------------------------------------------
  // A flat JSON object of string members, as an independent reading of
  // the tracking header.  No escaping is modelled; the reading-back lemmas
  // below are stated for keys and values without `"`.
  // ---------------------------------------------------------------------

  function RenderMember(field: (string, string)): string {
    "\"" + field.0 + "\":\"" + field.1 + "\""
  }

  function RenderMembers(fields: seq<(string, string)>): string
    decreases |fields|
  {
    if |fields| == 0 then ""
    else if |fields| == 1 then RenderMember(fields[0])
    else RenderMember(fields[0]) + "," + RenderMembers(fields[1..])
  }

  function RenderObject(fields: seq<(string, string)>): string {
    "{" + RenderMembers(fields) + "}"
  }

  /** The value of the first member named `key`, if any. */
  function FieldValue(fields: seq<(string, string)>, key: string): Option<string>
    decreases |fields|
  {
    if |fields| == 0 then None
    else if fields[0].0 == key then Some(fields[0].1)
    else FieldValue(fields[1..], key)
  }

  /** The members of the tracking header, in the order the source writes them. */
  const TrackFields: seq<(string, string)> := [
    ("clientVersion", ServiceVersion),
    ("mpVersion", ServiceVersion),
    ("osName", "iOS"),
    ("mpName", "voyager-ios")
  ]

  /** Concatenation regrouping used to line the source's literal pieces up
      with the rendered members. */
  lemma Regroup(open: string, close: string, quote: string, comma: string,
                q0: string, q1: string, v: string, tail: string)
    ensures open + ((q0 + v + quote) + comma + ((q1 + v + quote) + comma + tail)) + close
         == (open + q0) + v + (quote + comma + q1) + v + (quote + comma + tail + close)
  {
  }

  /** The opening of a rendered member, up to where its value starts. */
  function MemberOpening(key: string): string {
    "\"" + key + "\":\""
  }

  /** The tracking header literal, cut at the two version values. */
  lemma XLiTrackPieces()
    ensures XLiTrack
         == ("{" + MemberOpening("clientVersion")) + ServiceVersion
          + ("\"" + "," + MemberOpening("mpVersion")) + ServiceVersion
          + ("\"" + "," + (RenderMember(("osName", "iOS")) + "," + RenderMember(("mpName", "voyager-ios"))) + "}")
  {
    assert "{\"clientVersion\":\"" == "{" + MemberOpening("clientVersion");
    assert "\",\"mpVersion\":\"" == "\"" + "," + MemberOpening("mpVersion");
  }

  /** The tracking header rendered member by member. */
  lemma TrackFieldsRendering()
    ensures RenderObject(TrackFields)
         == "{" + ((MemberOpening("clientVersion") + ServiceVersion + "\"") + ","
                 + ((MemberOpening("mpVersion") + ServiceVersion + "\"") + ","
                 + (RenderMember(("osName", "iOS")) + "," + RenderMember(("mpName", "voyager-ios"))))) + "}"
  {
    assert RenderMembers(TrackFields[3..]) == RenderMember(TrackFields[3]);
    assert RenderMembers(TrackFields[2..]) == RenderMember(TrackFields[2]) + "," + RenderMember(TrackFields[3]) by {
      assert TrackFields[2..][1..] == TrackFields[3..];
    }
    assert RenderMembers(TrackFields[1..]) == RenderMember(TrackFields[1]) + "," + RenderMembers(TrackFields[2..]) by {
      assert TrackFields[1..][1..] == TrackFields[2..];
    }
  }

  /** The tracking header literal is the rendering of `TrackFields`. */
  lemma XLiTrackIsJsonObject()
    ensures XLiTrack == RenderObject(TrackFields)
  {
    XLiTrackPieces();
    TrackFieldsRendering();
    Regroup("{", "}", "\"", ",", MemberOpening("clientVersion"), MemberOpening("mpVersion"), ServiceVersion,
            RenderMember(("osName", "iOS")) + "," + RenderMember(("mpName", "voyager-ios")));
  }

  // ---------------------------------------------------------------------
  // Without quotes inside keys and values, a rendering has one reading:
  // the members can be read back from the string alone.
  // ---------------------------------------------------------------------

  ghost predicate QuoteFree(s: string) {
    forall i :: 0 <= i < |s| ==> s[i] != '"'
  }

  ghost predicate FieldsQuoteFree(fields: seq<(string, string)>) {
    forall i :: 0 <= i < |fields| ==> QuoteFree(fields[i].0) && QuoteFree(fields[i].1)
  }

  /** A quote-free run ends at the first quote, so it is determined by the string. */
  lemma QuoteEndsRun(a: string, b: string, x: string, y: string)
    requires QuoteFree(a) && QuoteFree(b)
    requires a + "\"" + x == b + "\"" + y
    ensures a == b && x == y
  {
    var l := a + "\"" + x;
    var r := b + "\"" + y;
    assert l[|a|] == '"' && r[|b|] == '"';
    assert forall i :: 0 <= i < |a| ==> l[i] == a[i];
    assert forall i :: 0 <= i < |b| ==> r[i] == b[i];
    if |a| < |b| {
      assert false;
    }
    if |b| < |a| {
      assert false;
    }
    assert a == l[..|a|] == r[..|b|] == b;
    assert x == l[|a| + 1..] == r[|b| + 1..] == y;
  }

  /** A rendered member at the front of a string is read back uniquely, and so is what follows it. */
  lemma MemberReadsBack(f: (string, string), g: (string, string), s: string, t: string)
    requires QuoteFree(f.0) && QuoteFree(f.1) && QuoteFree(g.0) && QuoteFree(g.1)
    requires RenderMember(f) + s == RenderMember(g) + t
    ensures f == g && s == t
  {
    var xf := ":\"" + f.1 + "\"" + s;
    var xg := ":\"" + g.1 + "\"" + t;
    assert "\":\"" == "\"" + ":\"";
    assert RenderMember(f) + s == "\"" + (f.0 + "\"" + xf);
    assert RenderMember(g) + t == "\"" + (g.0 + "\"" + xg);
    assert f.0 + "\"" + xf == (RenderMember(f) + s)[1..] == (RenderMember(g) + t)[1..] == g.0 + "\"" + xg;
    QuoteEndsRun(f.0, g.0, xf, xg);
    assert f.1 + "\"" + s == xf[2..] == xg[2..] == g.1 + "\"" + t;
    QuoteEndsRun(f.1, g.1, s, t);
  }

  /** Only the empty member list renders to nothing. */
  lemma RenderMembersEmpty(f: seq<(string, string)>)
    ensures RenderMembers(f) == "" <==> |f| == 0
  {
    if |f| > 0 {
      assert RenderMember(f[0])[0] == '"';
    }
  }

  /** Quote-free member lists with the same rendering are equal. */
  lemma {:induction false} RenderMembersInjective(f: seq<(string, string)>, g: seq<(string, string)>)
    requires FieldsQuoteFree(f) && FieldsQuoteFree(g)
    requires RenderMembers(f) == RenderMembers(g)
    ensures f == g
    decreases |f|
  {
    RenderMembersEmpty(f);
    RenderMembersEmpty(g);
    if |f| != 0 {
      var s := if |f| == 1 then "" else "," + RenderMembers(f[1..]);
      var t := if |g| == 1 then "" else "," + RenderMembers(g[1..]);
      assert RenderMembers(f) == RenderMember(f[0]) + s;
      assert RenderMembers(g) == RenderMember(g[0]) + t;
      MemberReadsBack(f[0], g[0], s, t);
      if |f| != 1 {
        assert RenderMembers(f[1..]) == s[1..] == t[1..] == RenderMembers(g[1..]);
        RenderMembersInjective(f[1..], g[1..]);
        assert f == [f[0]] + f[1..] && g == [g[0]] + g[1..];
      }
    }
  }

  /** Quote-free objects with the same rendering have the same members. */
  lemma RenderObjectInjective(f: seq<(string, string)>, g: seq<(string, string)>)
    requires FieldsQuoteFree(f) && FieldsQuoteFree(g)
    requires RenderObject(f) == RenderObject(g)
    ensures f == g
  {
    var r := RenderObject(f);
    assert RenderMembers(f) == r[1..|r| - 1] == RenderMembers(g);
    RenderMembersInjective(f, g);
  }

  lemma TrackFieldsQuoteFree()
    ensures FieldsQuoteFree(TrackFields)
  {
  }

  /** Read as a JSON object of quote-free members, the tracking header has
      exactly the members `TrackFields`, so both its `clientVersion` and
      `mpVersion` members carry `ServiceVersion`. */
  lemma XLiTrackVersionMembers(fields: seq<(string, string)>)
    requires FieldsQuoteFree(fields)
    requires RenderObject(fields) == XLiTrack
    ensures fields == TrackFields
    ensures FieldValue(fields, "clientVersion") == Some(ServiceVersion)
    ensures FieldValue(fields, "mpVersion") == Some(ServiceVersion)
  {
    XLiTrackIsJsonObject();
    TrackFieldsQuoteFree();
    RenderObjectInjective(fields, TrackFields);
  }

  /** The user agent names the service version right after `LinkedIn/`. */
  lemma UserAgentNamesServiceVersion()
    ensures |UserAgent| > 9 + |ServiceVersion|
    ensures UserAgent[..9] == "LinkedIn/"
    ensures UserAgent[9..9 + |ServiceVersion|] == ServiceVersion
  {
  }

  // ---------------------------------------------------------------------
  // Opaque values
  // ---------------------------------------------------------------------

  /** A Go pointer: nil or the address of some object the model does not look into. */
  datatype Ptr = Nil | Addr(addr: nat)

  /** A `context.Context` value, passed through unchanged. */
  datatype Ctx = Ctx(id: nat)

  /** A Go `error` value: nil, or the identity of some error value. */
  datatype ErrorValue = NilError | Error(id: nat)

  /** The identity of a user-supplied function value. */
  datatype Callback = Callback(id: nat)

  /** A user entity URN; its structure is not part of this model. */
  datatype Urn = Urn(raw: string)

  /** A UUID, supplied from outside (the source draws it at random). */
  datatype Uuid = Uuid(raw: seq<uint8>)

  // ---------------------------------------------------------------------
  // Callback table and dispatch
  // ---------------------------------------------------------------------

  /** `Handlers`: six optional callback slots; `None` is a nil slot. */
  datatype Handlers = Handlers(
    heartbeat: Option<Callback>,
    clientConnection: Option<Callback>,
    transientDisconnect: Option<Callback>,
    badCredentials: Option<Callback>,
    unknownError: Option<Callback>,
    decoratedEvent: Option<Callback>)

  datatype Slot =
    | HeartbeatSlot
    | ClientConnectionSlot
    | TransientDisconnectSlot
    | BadCredentialsSlot
    | UnknownErrorSlot
    | DecoratedEventSlot

  /** The event a dispatcher hands to its slot, with that slot's payload. */
  datatype Event =
    | Heartbeat
    | ClientConnection(conn: Ptr)
    | TransientDisconnect(err: ErrorValue)
    | BadCredentials(err: ErrorValue)
    | UnknownError(err: ErrorValue)
    | DecoratedEvent(decorated: Ptr)

  /** One call of a user callback: which function, with which context and payload. */
  datatype Invocation = Invocation(callback: Callback, ctx: Ctx, event: Event)

  /** The slot each kind of event belongs to. */
  function SlotOf(e: Event): Slot {
    match e
    case Heartbeat => HeartbeatSlot
    case ClientConnection(_) => ClientConnectionSlot
    case TransientDisconnect(_) => TransientDisconnectSlot
    case BadCredentials(_) => BadCredentialsSlot
    case UnknownError(_) => UnknownErrorSlot
    case DecoratedEvent(_) => DecoratedEventSlot
  }

  /** Reading one slot of the table. */
  function Lookup(h: Handlers, s: Slot): Option<Callback> {
    match s
    case HeartbeatSlot => h.heartbeat
    case ClientConnectionSlot => h.clientConnection
    case TransientDisconnectSlot => h.transientDisconnect
    case BadCredentialsSlot => h.badCredentials
    case UnknownErrorSlot => h.unknownError
    case DecoratedEventSlot => h.decoratedEvent
  }

  /** Replacing one slot of the table. */
  function Update(h: Handlers, s: Slot, v: Option<Callback>): (h': Handlers)
    ensures Lookup(h', s) == v
    ensures forall t :: t != s ==> Lookup(h', t) == Lookup(h, t)
  {
    match s
    case HeartbeatSlot => h.(heartbeat := v)
    case ClientConnectionSlot => h.(clientConnection := v)
    case TransientDisconnectSlot => h.(transientDisconnect := v)
    case BadCredentialsSlot => h.(badCredentials := v)
    case UnknownErrorSlot => h.(unknownError := v)
    case DecoratedEventSlot => h.(decoratedEvent := v)
  }

  /** What dispatching `e` does: the callback in the event's own slot is
      called once with `ctx` and the payload, or nothing happens when the slot
      is nil.  Each `on*` dispatcher below is proved to behave like this. */
  ghost predicate DispatchesOnce(h: Handlers, ctx: Ctx, e: Event, calls: seq<Invocation>) {
    && |calls| == (if Lookup(h, SlotOf(e)).Some? then 1 else 0)
    && forall i :: 0 <= i < |calls| ==>
         && Lookup(h, SlotOf(calls[i].event)) == Some(calls[i].callback)
         && calls[i].ctx == ctx
         && calls[i].event == e
  }

  /** A single reference dispatcher over every event kind. */
  function Dispatch(h: Handlers, ctx: Ctx, e: Event): (calls: seq<Invocation>)
    ensures DispatchesOnce(h, ctx, e, calls)
  {
    match Lookup(h, SlotOf(e))
    case Some(f) => [Invocation(f, ctx, e)]
    case None => []
  }

  function OnHeartbeat(h: Handlers, ctx: Ctx): (calls: seq<Invocation>)
    ensures DispatchesOnce(h, ctx, Heartbeat, calls)
  {
    if h.heartbeat.Some? then [Invocation(h.heartbeat.value, ctx, Heartbeat)] else []
  }

  function OnClientConnection(h: Handlers, ctx: Ctx, conn: Ptr): (calls: seq<Invocation>)
    ensures DispatchesOnce(h, ctx, ClientConnection(conn), calls)
  {
    if h.clientConnection.Some? then [Invocation(h.clientConnection.value, ctx, ClientConnection(conn))] else []
  }

  function OnTransientDisconnect(h: Handlers, ctx: Ctx, err: ErrorValue): (calls: seq<Invocation>)
    ensures DispatchesOnce(h, ctx, TransientDisconnect(err), calls)
  {
    if h.transientDisconnect.Some? then [Invocation(h.transientDisconnect.value, ctx, TransientDisconnect(err))] else []
  }

  function OnBadCredentials(h: Handlers, ctx: Ctx, err: ErrorValue): (calls: seq<Invocation>)
    ensures DispatchesOnce(h, ctx, BadCredentials(err), calls)
  {
    if h.badCredentials.Some? then [Invocation(h.badCredentials.value, ctx, BadCredentials(err))] else []
  }

  function OnUnknownError(h: Handlers, ctx: Ctx, err: ErrorValue): (calls: seq<Invocation>)
    ensures DispatchesOnce(h, ctx, UnknownError(err), calls)
  {
    if h.unknownError.Some? then [Invocation(h.unknownError.value, ctx, UnknownError(err))] else []
  }

  function OnDecoratedEvent(h: Handlers, ctx: Ctx, decorated: Ptr): (calls: seq<Invocation>)
    ensures DispatchesOnce(h, ctx, DecoratedEvent(decorated), calls)
  {
    if h.decoratedEvent.Some? then [Invocation(h.decoratedEvent.value, ctx, DecoratedEvent(decorated))] else []
  }

  /** The six dispatchers are exactly the reference dispatcher at their event kind. */
  lemma OnDispatchersAgreeWithDispatch(h: Handlers, ctx: Ctx, conn: Ptr, err: ErrorValue, decorated: Ptr)
    ensures OnHeartbeat(h, ctx) == Dispatch(h, ctx, Heartbeat)
    ensures OnClientConnection(h, ctx, conn) == Dispatch(h, ctx, ClientConnection(conn))
    ensures OnTransientDisconnect(h, ctx, err) == Dispatch(h, ctx, TransientDisconnect(err))
    ensures OnBadCredentials(h, ctx, err) == Dispatch(h, ctx, BadCredentials(err))
    ensures OnUnknownError(h, ctx, err) == Dispatch(h, ctx, UnknownError(err))
    ensures OnDecoratedEvent(h, ctx, decorated) == Dispatch(h, ctx, DecoratedEvent(decorated))
  {
  }

  /** Dispatching an event reads only the event's own slot: whatever is put
      in any other slot, the same calls happen. */
  lemma DispatchReadsOnlyOwnSlot(h: Handlers, ctx: Ctx, e: Event, s: Slot, v: Option<Callback>)
    requires s != SlotOf(e)
    ensures Dispatch(Update(h, s, v), ctx, e) == Dispatch(h, ctx, e)
  {
  }

  /** A nil slot is a silent no-op, and a set slot is called exactly once
      with the same context and payload. */
  lemma DispatchNilIsNoOp(h: Handlers, ctx: Ctx, e: Event)
    ensures Lookup(h, SlotOf(e)).None? <==> Dispatch(h, ctx, e) == []
    ensures Lookup(h, SlotOf(e)).Some? ==>
              Dispatch(h, ctx, e) == [Invocation(Lookup(h, SlotOf(e)).value, ctx, e)]
  {
  }

  // ---------------------------------------------------------------------
  // The client's identity
  // ---------------------------------------------------------------------

  /** The identity part of `Client`; the HTTP client and the realtime
      connection fields are not part of this model. */
  datatype Client = Client(
    jar: Ptr,
    userEntityUrn: Urn,
    realtimeSessionId: Uuid,
    clientId: Uuid,
    handlers: Handlers,
    pageInstance: string,
    xLiTrack: string,
    serviceVersion: string)

  /** `NewClient`: the caller's page instance and tracking header are
      replaced by the built-in ones; the URN, jar and handlers are kept; the
      two UUIDs arrive as parameters. */
  function NewClient(userEntityUrn: Urn, jar: Ptr, pageInstance: string, xLiTrack: string,
                     handlers: Handlers, realtimeSessionId: Uuid, clientId: Uuid): (c: Client)
    ensures c.pageInstance == PageInstance
    ensures c.xLiTrack == RenderObject(TrackFields)
    ensures c.serviceVersion == ServiceVersion
    ensures c.userEntityUrn == userEntityUrn && c.jar == jar && c.handlers == handlers
    ensures c.realtimeSessionId == realtimeSessionId && c.clientId == clientId
  {
    var xLiTrack := XLiTrack;
    var pageInstance := PageInstance;
    var serviceVersion := ServiceVersion;
    XLiTrackIsJsonObject();
    Client(jar, userEntityUrn, realtimeSessionId, clientId, handlers, pageInstance, xLiTrack, serviceVersion)
  }

  /** The page-instance and tracking-header arguments have no effect. */
  lemma NewClientIgnoresOverrides(userEntityUrn: Urn, jar: Ptr, p1: string, p2: string, x1: string, x2: string,
                                  handlers: Handlers, sid: Uuid, cid: Uuid)
    ensures NewClient(userEntityUrn, jar, p1, x1, handlers, sid, cid)
         == NewClient(userEntityUrn, jar, p2, x2, handlers, sid, cid)
  {
  }

  /** Every client's stored service version is the one its user agent advertises. */
  lemma ClientVersionMatchesUserAgent(userEntityUrn: Urn, jar: Ptr, p: string, x: string,
                                      handlers: Handlers, sid: Uuid, cid: Uuid)
    ensures var c := NewClient(userEntityUrn, jar, p, x, handlers, sid, cid);
            UserAgent[..9 + |c.serviceVersion|] == "LinkedIn/" + c.serviceVersion
  {
    UserAgentNamesServiceVersion();
  }
}
