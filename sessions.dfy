/** The SSE session table of the HTTP entry point: `GET /sse` registers the new
    transport under its session id, the stream's `close` event removes it, and
    `POST /messages?sessionId=...` is handed to the registered transport or
    answered with status 400. */
module Sessions {
  import opened Js

  type SessionId = string

  /** An SSE transport as the table sees it: the session id the protocol SDK
      generated for it, and the response stream it writes to. */
  datatype Transport = Transport(sessionId: SessionId, stream: nat)

  type Table = map<SessionId, Transport>

  const NoTransportMessage: string := "No transport found for sessionId"

  /** How `POST /messages` ends: handed to a transport's `handlePostMessage`,
      answered with an error status and text, or failed with an exception. */
  datatype PostReply =
    | Delegated(transport: Transport, body: Json)
    | Rejected(status: int, text: string)
    | Thrown(message: string)

  /** `transports.sse[transport.sessionId] = transport`: an existing entry under
      the same id is overwritten; no other entry changes. */
  function Register(table: Table, t: Transport): (r: Table)
    ensures t.sessionId in r && r[t.sessionId] == t
    ensures forall id :: id != t.sessionId ==> (id in r <==> id in table)
    ensures forall id :: id != t.sessionId && id in table ==> r[id] == table[id]
  {
    table[t.sessionId := t]
  }

  /** `delete transports.sse[transport.sessionId]`: the id is gone afterwards;
      deleting an absent id is a no-op; no other entry changes. */
  function Unregister(table: Table, t: Transport): (r: Table)
    ensures t.sessionId !in r
    ensures forall id :: id != t.sessionId ==> (id in r <==> id in table)
    ensures forall id :: id in r ==> r[id] == table[id]
  {
    table - {t.sessionId}
  }

  /** The property key `req.query.sessionId` reads: a missing query parameter is
      `undefined`, which JavaScript turns into the key "undefined". */
  function QueryKey(query: Option<string>): (key: SessionId)
    ensures query.Some? ==> key == query.value
    ensures query.None? ==> key == "undefined"
  {
    match query
    case Some(s) => s
    case None => "undefined"
  }

  /** `POST /messages` on own entries of the table: a registered id reaches
      exactly its transport with the request body; any other id is answered
      with 400 and the fixed text. */
  function Route(table: Table, query: Option<string>, body: Json): (r: PostReply)
    ensures r.Delegated? <==> QueryKey(query) in table
    ensures r.Delegated? ==> r.transport == table[QueryKey(query)] && r.body == body
    ensures !r.Delegated? ==> r == Rejected(400, NoTransportMessage)
  {
    var key := QueryKey(query);
    if key in table then Delegated(table[key], body) else Rejected(400, NoTransportMessage)
  }

  // -----------------------------------------------------------------------
  // The table as a JavaScript object literal

  /** The names a plain `{}` inherits from `Object.prototype`. Reading any of
      them gives a function or an object, which is truthy. */
  const ObjectPrototypeMembers: set<string> := {
    "constructor", "hasOwnProperty", "isPrototypeOf", "propertyIsEnumerable",
    "toLocaleString", "toString", "valueOf", "__proto__",
    "__defineGetter__", "__defineSetter__", "__lookupGetter__", "__lookupSetter__"
  }

  const NotAFunctionMessage: string := "transport.handlePostMessage is not a function"

  /** `POST /messages` as written: `transports.sse[sessionId]` also finds the
      inherited members of `Object.prototype`; they are truthy, so the 400
      branch is skipped and calling `handlePostMessage` on them throws. */
  function RouteAsWritten(table: Table, query: Option<string>, body: Json): (r: PostReply)
    ensures r.Thrown? <==> QueryKey(query) !in table && QueryKey(query) in ObjectPrototypeMembers
  {
    var key := QueryKey(query);
    if key in table then Delegated(table[key], body)
    else if key in ObjectPrototypeMembers then Thrown(NotAFunctionMessage)
    else Rejected(400, NoTransportMessage)
  }

  /** With no session open, `POST /messages?sessionId=toString` does not get the
      400 answer: it throws instead. */
  lemma InheritedKeySkipsRejection()
    ensures Route(map[], Some("toString"), JNull) == Rejected(400, NoTransportMessage)
    ensures RouteAsWritten(map[], Some("toString"), JNull) == Thrown(NotAFunctionMessage)
  {
  }

  /** The two readings differ only on ids that name an inherited member and
      are not registered. */
  lemma RouteAsWrittenAgrees(table: Table, query: Option<string>, body: Json)
    ensures RouteAsWritten(table, query, body) == Route(table, query, body)
        <==> QueryKey(query) in table || QueryKey(query) !in ObjectPrototypeMembers
  {
  }

  // -----------------------------------------------------------------------
  // Properties of single operations

  /** After an open, routing to its id reaches the new transport. */
  lemma OpenThenRoute(table: Table, t: Transport, body: Json)
    ensures Route(Register(table, t), Some(t.sessionId), body) == Delegated(t, body)
  {
  }

  /** After a close, routing to its id is rejected, whatever was there. */
  lemma CloseThenRoute(table: Table, t: Transport, body: Json)
    ensures Route(Unregister(table, t), Some(t.sessionId), body) == Rejected(400, NoTransportMessage)
  {
  }

  /** Closing twice is closing once; closing an unknown id changes nothing. */
  lemma CloseIdempotent(table: Table, t: Transport)
    ensures Unregister(Unregister(table, t), t) == Unregister(table, t)
    ensures t.sessionId !in table ==> Unregister(table, t) == table
  {
  }

  /** An open adds one session unless its id is already registered (then it
      overwrites); a close removes one session only if its id is registered. */
  lemma SessionCountStep(table: Table, t: Transport)
    ensures |Register(table, t)| == if t.sessionId in table then |table| else |table| + 1
    ensures |Unregister(table, t)| == if t.sessionId in table then |table| - 1 else |table|
  {
    RegisterSize(table, t);
    UnregisterSize(table, t);
  }

  lemma RegisterSize(table: Table, t: Transport)
    ensures |Register(table, t)| == if t.sessionId in table then |table| else |table| + 1
  {
    var r := table[t.sessionId := t];
    if t.sessionId in table {
      assert r.Keys == table.Keys;
    } else {
      assert r.Keys == table.Keys + {t.sessionId};
    }
  }

  lemma UnregisterSize(table: Table, t: Transport)
    ensures |Unregister(table, t)| == if t.sessionId in table then |table| - 1 else |table|
  {
    var r := table - {t.sessionId};
    if t.sessionId in table {
      assert r.Keys + {t.sessionId} == table.Keys;
    } else {
      assert r == table;
    }
  }

  /** The `close` handler deletes by the id of the transport it belongs to. If
      a later open reused that id, closing the older stream removes the newer
      transport. */
  lemma StaleCloseRemovesNewer(table: Table, older: Transport, newer: Transport)
    requires older.sessionId == newer.sessionId && older != newer
    ensures newer.sessionId !in Unregister(Register(Register(table, older), newer), older)
  {
  }

  // -----------------------------------------------------------------------
  // Histories of opens and closes

  datatype Event = Opened(t: Transport) | Closed(t: Transport)

  function Step(table: Table, e: Event): Table {
    match e
    case Opened(t) => Register(table, t)
    case Closed(t) => Unregister(table, t)
  }

  /** The table after a history of events, starting from `{}`. */
  function Replay(es: seq<Event>): Table
    decreases |es|
  {
    if es == [] then map[] else Step(Replay(es[..|es| - 1]), es[|es| - 1])
  }

  /** Event `i` opened `id` and no later event touched `id`. */
  ghost predicate LiveFrom(es: seq<Event>, id: SessionId, i: int) {
    0 <= i < |es| && es[i].Opened? && es[i].t.sessionId == id
    && forall j :: i < j < |es| ==> es[j].t.sessionId != id
  }

  /** A session id is registered exactly when its last event was an open, and
      then it holds the transport of that open. */
  lemma {:induction false} ReplayLive(es: seq<Event>, id: SessionId)
    ensures id in Replay(es) <==> exists i :: LiveFrom(es, id, i)
    ensures forall i :: LiveFrom(es, id, i) ==> id in Replay(es) && Replay(es)[id] == es[i].t
  {
    if es != [] {
      var pre, e := es[..|es| - 1], es[|es| - 1];
      ReplayLive(pre, id);
      if e.t.sessionId == id {
        if e.Opened? {
          assert LiveFrom(es, id, |es| - 1);
        }
      } else {
        forall i ensures LiveFrom(es, id, i) <==> LiveFrom(pre, id, i) {
          if LiveFrom(pre, id, i) {
            forall j | i < j < |es| ensures es[j].t.sessionId != id {
              if j < |es| - 1 { assert es[j] == pre[j]; }
            }
          }
          if LiveFrom(es, id, i) {
            assert i < |es| - 1;
            forall j | i < j < |pre| ensures pre[j].t.sessionId != id {
              assert es[j] == pre[j];
            }
          }
        }
      }
    }
  }

  /** A session id that no event ever opened is never routed. */
  lemma NeverOpenedIsRejected(es: seq<Event>, id: SessionId, body: Json)
    requires forall i :: 0 <= i < |es| && es[i].Opened? ==> es[i].t.sessionId != id
    ensures Route(Replay(es), Some(id), body) == Rejected(400, NoTransportMessage)
  {
    ReplayLive(es, id);
  }

  /** The number of opens in a history. */
  function Opens(es: seq<Event>): nat
    decreases |es|
  {
    if es == [] then 0 else Opens(es[..|es| - 1]) + (if es[|es| - 1].Opened? then 1 else 0)
  }

  /** The number of closes in a history whose id was registered when they ran. */
  function EffectiveCloses(es: seq<Event>): nat
    decreases |es|
  {
    if es == [] then 0
    else
      var pre, e := es[..|es| - 1], es[|es| - 1];
      EffectiveCloses(pre) + (if e.Closed? && e.t.sessionId in Replay(pre) then 1 else 0)
  }

  /** Every open uses an id that is not registered at that moment, as the
      protocol SDK's generated session ids ensure. */
  ghost predicate FreshOpens(es: seq<Event>) {
    forall i :: 0 <= i < |es| && es[i].Opened? ==> es[i].t.sessionId !in Replay(es[..i])
  }

  /** With fresh ids, the number of open sessions is the number of opens minus
      the closes of ids that were open: a repeated close never counts twice. */
  lemma {:induction false} SessionCount(es: seq<Event>)
    requires FreshOpens(es)
    ensures |Replay(es)| == Opens(es) - EffectiveCloses(es)
  {
    if es != [] {
      var pre, e := es[..|es| - 1], es[|es| - 1];
      assert FreshOpens(pre) by {
        forall i | 0 <= i < |pre| && pre[i].Opened? ensures pre[i].t.sessionId !in Replay(pre[..i]) {
          assert pre[..i] == es[..i];
          assert pre[i] == es[i];
        }
      }
      SessionCount(pre);
      SessionCountStep(Replay(pre), e.t);
      assert es[..|es| - 1] == pre;
    }
  }

  // -----------------------------------------------------------------------
  // The table object

  /** `transports.sse`, updated in place by the `/sse` handler and its `close`
      callback and read by the `/messages` handler. */
  class Transports {
    var sse: Table
    ghost var history: seq<Event>

    ghost predicate Valid()
      reads this
    {
      sse == Replay(history)
    }

    constructor ()
      ensures Valid() && sse == map[] && history == []
    {
      sse := map[];
      history := [];
    }

    /** `GET /sse`: register the new transport under its session id. */
    method Open(t: Transport)
      requires Valid()
      modifies this
      ensures Valid() && history == old(history) + [Opened(t)]
      ensures sse == Register(old(sse), t)
    {
      sse := sse[t.sessionId := t];
      history := history + [Opened(t)];
      assert history[..|history| - 1] == old(history);
    }

    /** The stream's `close` event: delete the transport's session id. */
    method Close(t: Transport)
      requires Valid()
      modifies this
      ensures Valid() && history == old(history) + [Closed(t)]
      ensures sse == Unregister(old(sse), t)
    {
      sse := sse - {t.sessionId};
      history := history + [Closed(t)];
      assert history[..|history| - 1] == old(history);
    }

    /** `POST /messages`: look the session up and hand the body to it, or
        answer 400. The table is not changed. */
    method PostMessage(query: Option<string>, body: Json) returns (r: PostReply)
      ensures r == Route(sse, query, body)
    {
      var key := QueryKey(query);
      if key in sse {
        r := Delegated(sse[key], body);
      } else {
        r := Rejected(400, NoTransportMessage);
      }
    }
  }
}
