/** One client and everybody else: what the client does before the server has seen it
    (web/src/ui/board/action-reconciliation.ts, web/src/network/networkSyncMiddleware.ts:33-52) goes up
    the socket, is appended to the room, and comes back through the client's own subscription
    (api/src/game_state_server.py:40-115). */
module Session {
  import opened Sequences
  import opened Components
  import opened Board
  import opened ClientTables
  import opened Wire
  import opened ClientServerAgreement
  import opened CompactedLog
  import C = Connection
  import R = Reconciliation
  import P = ArchiveProtocol

  /** uplink is what the client has sent and the server has not processed; ownIds are the request ids
      the client has used; made is every local action so far. greeted: the snapshot has arrived. */
  datatype World = World(
    server: C.World,
    client: R.Client,
    greeted: bool,
    uplink: seq<Request>,
    ownIds: set<string>,
    made: seq<ClientAction>)

  datatype Event =
    | Elsewhere(event: C.Event)
    | Greet
    | Act(action: ClientAction)
    | Send(newId: string)
    | Process
    | Deliver

  function ToApiActions(actions: seq<ClientAction>): (r: seq<Action>)
    ensures |r| == |actions|
    ensures forall i :: 0 <= i < |r| ==> r[i] == ToApiAction(actions[i])
  {
    seq(|actions|, i requires 0 <= i < |actions| => ToApiAction(actions[i]))
  }

  /** An update as it goes over the wire. */
  function Wired(u: R.Update): Request
  {
    Request(u.updateId, ToApiActions(u.actions))
  }

  function WiredAll(updates: seq<R.Update>): (r: seq<Request>)
    ensures |r| == |updates|
    ensures forall i :: 0 <= i < |r| ==> r[i] == Wired(updates[i])
  {
    seq(|updates|, i requires 0 <= i < |updates| => Wired(updates[i]))
  }

  lemma WiredSnoc(updates: seq<R.Update>, u: R.Update)
    ensures WiredAll(updates + [u]) == WiredAll(updates) + [Wired(u)]
  {
  }

  /** What happens on the server. */
  function ServerEvent(w: World, e: Event): Option<C.Event>
  {
    match e
    case Elsewhere(event) => Some(event)
    case Process =>
      if w.uplink == [] then None else Some(C.Event.Other(P.Append(w.server.link.room, w.uplink[0])))
    case Deliver => Some(C.Event.Deliver)
    case _ => None
  }

  function ClientEvent(w: World, e: Event): Option<R.Event>
  {
    match e
    case Greet => Some(R.NetworkUpdate(R.TokenUpserts(C.ToTokens(w.server.link.snapshot)), None))
    case Act(action) => Some(R.LocalAction(action))
    case Send(newId) => Some(R.Batch(newId))
    case Deliver =>
      if w.server.link.queue == [] then None
      else
        var request := w.server.link.queue[0];
        Some(R.NetworkUpdate(ToActions(request.actions), Some(request.requestId)))
    case _ => None
  }

  ghost function Next(w: World, e: Event): World
  {
    var server, client := ServerEvent(w, e), ClientEvent(w, e);
    var w' := w.(server := if server.Some? then C.Next(w.server, server.value) else w.server,
                 client := if client.Some? then R.Next(w.client, client.value) else w.client);
    match e
    case Greet => w'.(greeted := true)
    case Act(action) => w'.(made := w.made + [action])
    case Send(newId) =>
      if w.client.unqueuedActions == [] then w'
      else
        w'.(uplink := w.uplink + [Wired(R.Update(newId, w.client.unqueuedActions))], ownIds := w.ownIds + {newId})
    case Process => if w.uplink == [] then w' else w'.(uplink := w.uplink[1..])
    case _ => w'
  }

  /** Request ids are fresh; the server processes requests and the client is sent changes once the
      snapshot is on its way; local tokens have an id. */
  ghost predicate Enabled(w: World, e: Event)
  {
    match e
    case Elsewhere(event) =>
      && C.Enabled(w.server, event) && !event.Deliver?
      && (event.Other? && event.step.Append? ==> event.step.request.requestId !in w.ownIds)
    case Greet => w.server.link.stage.Streaming? && !w.greeted
    case Act(action) => action.UpsertToken? ==> action.token.id != ""
    case Send(newId) =>
      newId !in w.ownIds && forall i :: 0 <= i < |w.server.link.log| ==> w.server.link.log[i].requestId != newId
    case Process => w.server.link.stage.Streaming? && w.uplink != []
    case Deliver => w.greeted && C.Enabled(w.server, C.Event.Deliver)
  }

  ghost function Run(w: World, events: seq<Event>): World
  {
    if events == [] then w else Next(Run(w, events[..|events| - 1]), events[|events| - 1])
  }

  ghost predicate Legal(w: World, events: seq<Event>)
  {
    forall k :: 0 <= k < |events| ==> Enabled(Run(w, events[..k]), events[k])
  }

  function Initial(now: int, room: string): World
  {
    World(C.Initial(now, room), R.START, false, [], {}, [])
  }

  // ----- The client's own requests among all -----

  function Own(requests: seq<Request>, ids: set<string>): seq<Request>
  {
    if requests == [] then []
    else
      var rest, last := Own(requests[..|requests| - 1], ids), requests[|requests| - 1];
      if last.requestId in ids then rest + [last] else rest
  }

  lemma {:induction false} OwnConcat(x: seq<Request>, y: seq<Request>, ids: set<string>)
    ensures Own(x + y, ids) == Own(x, ids) + Own(y, ids)
  {
    if y == [] {
      assert x + y == x;
    } else {
      OwnConcat(x, y[..|y| - 1], ids);
      assert (x + y)[..|x + y| - 1] == x + y[..|y| - 1];
    }
  }

  lemma OwnOne(r: Request, ids: set<string>)
    ensures Own([r], ids) == if r.requestId in ids then [r] else []
  {
    assert [r][..0] == [];
  }

  lemma {:induction false} OwnFresh(requests: seq<Request>, ids: set<string>, newId: string)
    requires forall i :: 0 <= i < |requests| ==> requests[i].requestId != newId
    ensures Own(requests, ids + {newId}) == Own(requests, ids)
  {
    if requests != [] {
      OwnFresh(requests[..|requests| - 1], ids, newId);
    }
  }

  lemma {:induction false} OwnMembers(requests: seq<Request>, ids: set<string>)
    ensures forall i :: 0 <= i < |Own(requests, ids)| ==> Own(requests, ids)[i].requestId in ids
  {
    if requests != [] {
      OwnMembers(requests[..|requests| - 1], ids);
    }
  }

  // ----- What every reachable state keeps -----

  /** The queued updates are, in order, the client's requests on their way back and on their way up. */
  ghost predicate QueueOk(w: World)
  {
    WiredAll(w.client.queuedUpdates) == Own(w.server.link.queue, w.ownIds) + w.uplink
  }

  /** The client's own requests in the log are those that were or will be delivered. */
  ghost predicate LogOk(w: World)
  {
    Own(w.server.link.log, w.ownIds) == Own(w.server.link.delivered, w.ownIds) + Own(w.server.link.queue, w.ownIds)
  }

  ghost predicate UplinkOk(w: World)
  {
    && (forall i :: 0 <= i < |w.uplink| ==> w.uplink[i].requestId in w.ownIds && Named(w.uplink[i].actions))
    && NamedActions(w.client.unqueuedActions)
  }

  /** Nothing the client made is lost, repeated or reordered on its way into the log. */
  ghost predicate MadeOk(w: World)
  {
    w.made == ToActions(C.Actions(Own(w.server.link.log, w.ownIds) + w.uplink)) + w.client.unqueuedActions
  }

  ghost predicate BoardsOk(w: World)
  {
    && w.client.local == R.LocalView(w.client.network, w.client.queuedUpdates, w.client.unqueuedActions)
    && (w.greeted ==> w.server.link.stage.Streaming?)
    && (w.greeted ==> w.client.network == C.NetworkBoard(w.server.link.snapshot, w.server.link.delivered))
    && (!w.greeted ==> w.client.network == EMPTY_BOARD && w.server.link.delivered == [])
  }

  ghost predicate Invariant(w: World)
  {
    C.Invariant(w.server) && QueueOk(w) && LogOk(w) && UplinkOk(w) && MadeOk(w) && BoardsOk(w)
  }

  // ----- The wire -----

  lemma ThereAndBack(actions: seq<ClientAction>)
    ensures ToActions(ToApiActions(actions)) == actions
    ensures NamedActions(actions) ==> Named(ToApiActions(actions))
  {
    forall i | 0 <= i < |actions| ensures ToActions(ToApiActions(actions))[i] == actions[i] {
      WireRoundTrip(actions[i], ToApiAction(actions[i]));
    }
  }

  lemma ToActionsConcat(x: seq<Action>, y: seq<Action>)
    ensures ToActions(x + y) == ToActions(x) + ToActions(y)
  {
  }

  // ----- Steps of the server -----

  /** The new link holds the old one's requests, and those of added on top. */
  ghost predicate Grows(link: C.Link, link': C.Link, added: seq<Request>)
  {
    && link'.log == link.log + added
    && link'.queue == (if link.stage.Connecting? then link.queue else link.queue + added)
    && link'.delivered == link.delivered
  }

  lemma ElsewhereGrows(w: C.World, e: C.Event) returns (added: seq<Request>)
    requires C.Enabled(w, e) && !e.Deliver?
    ensures Grows(w.link, C.Next(w, e).link, added)
    ensures added == if e.Other? && e.step.Append? && e.step.room == w.link.room then [e.step.request] else []
    ensures e.Other? ==> C.Next(w, e).link.stage == w.link.stage && C.Next(w, e).link.snapshot == w.link.snapshot
    ensures w.link.stage.Streaming? ==>
      C.Next(w, e).link.stage.Streaming? && C.Next(w, e).link.snapshot == w.link.snapshot
  {
    hide P.Next, C.GameState, P.Merged;
    added := if e.Other? && e.step.Append? && e.step.room == w.link.room then [e.step.request] else [];
  }

  lemma ForeignAdded(w: World, added: seq<Request>)
    requires forall i :: 0 <= i < |added| ==> added[i].requestId !in w.ownIds
    requires |added| <= 1
    ensures Own(w.server.link.log + added, w.ownIds) == Own(w.server.link.log, w.ownIds)
    ensures Own(w.server.link.queue + added, w.ownIds) == Own(w.server.link.queue, w.ownIds)
  {
    OwnConcat(w.server.link.log, added, w.ownIds);
    OwnConcat(w.server.link.queue, added, w.ownIds);
    if |added| == 1 {
      OwnOne(added[0], w.ownIds);
      assert added == [added[0]];
    }
  }

  lemma ElsewhereKeeps(w: World, event: C.Event)
    requires Invariant(w) && Enabled(w, Elsewhere(event))
    ensures Invariant(Next(w, Elsewhere(event)))
  {
    hide Own, C.Enabled, C.Next, C.Invariant, Named, NamedActions, C.Actions, C.NetworkBoard, R.LocalView;
    C.NextKeeps(w.server, event);
    var added := ElsewhereGrows(w.server, event);
    ForeignAdded(w, added);
  }

  lemma ActKeeps(w: World, action: ClientAction)
    requires Invariant(w) && Enabled(w, Act(action))
    ensures Invariant(Next(w, Act(action)))
  {
    hide Own, C.Invariant, Named, C.Actions, C.NetworkBoard, R.LocalView, ApplyAction;
    R.NextKeepsLocal(w.client, R.LocalAction(action));
    var before := ToActions(C.Actions(Own(w.server.link.log, w.ownIds) + w.uplink));
    assert before + (w.client.unqueuedActions + [action]) == (before + w.client.unqueuedActions) + [action];
  }

  lemma GreetKeeps(w: World)
    requires Invariant(w) && Enabled(w, Greet)
    ensures Invariant(Next(w, Greet))
  {
    hide Own, C.Invariant, Named, NamedActions, R.LocalView, ApplyAction;
    R.NextKeepsLocal(w.client, ClientEvent(w, Greet).value);
    assert R.WithoutUpdate(w.client.queuedUpdates, None) == w.client.queuedUpdates;
    assert ToActions(C.Actions([])) == [];
  }

  lemma QueueInLog(link: C.Link)
    requires C.StreamOk(link)
    ensures forall i :: 0 <= i < |link.queue| ==> link.queue[i] in link.log
    ensures forall i :: 0 <= i < |link.delivered| ==> link.delivered[i] in link.log
  {
    if !link.stage.Connecting? {
      var all := link.log[link.subscribedAt..];
      assert forall i :: 0 <= i < |link.delivered| ==> link.delivered[i] == all[i];
      assert forall i :: 0 <= i < |link.queue| ==> link.queue[i] == all[|link.delivered| + i];
    }
  }

  lemma FreshEverywhere(w: World, newId: string)
    requires C.StreamOk(w.server.link) && Enabled(w, Send(newId))
    ensures var ids, link := w.ownIds + {newId}, w.server.link;
      && Own(link.log, ids) == Own(link.log, w.ownIds)
      && Own(link.queue, ids) == Own(link.queue, w.ownIds)
      && Own(link.delivered, ids) == Own(link.delivered, w.ownIds)
  {
    hide C.StreamOk, Own;
    QueueInLog(w.server.link);
    OwnFresh(w.server.link.log, w.ownIds, newId);
    OwnFresh(w.server.link.queue, w.ownIds, newId);
    OwnFresh(w.server.link.delivered, w.ownIds, newId);
  }

  lemma SendKeepsQueue(w: World, newId: string)
    requires Invariant(w) && Enabled(w, Send(newId))
    ensures QueueOk(Next(w, Send(newId))) && LogOk(Next(w, Send(newId)))
  {
    FreshEverywhere(w, newId);
    hide Own, Named, NamedActions, C.Actions, C.NetworkBoard, R.LocalView, C.Invariant, UplinkOk, MadeOk, BoardsOk;
    if w.client.unqueuedActions != [] {
      var u := R.Update(newId, w.client.unqueuedActions);
      WiredSnoc(w.client.queuedUpdates, u);
      ConcatAssociative(Own(w.server.link.queue, w.ownIds), w.uplink, [Wired(u)]);
    }
  }

  lemma SendKeepsMade(w: World, newId: string)
    requires Invariant(w) && Enabled(w, Send(newId))
    ensures MadeOk(Next(w, Send(newId)))
  {
    FreshEverywhere(w, newId);
    hide Own, Named, NamedActions, C.Actions, R.LocalView, C.Invariant, UplinkOk, QueueOk, LogOk, BoardsOk;
    if w.client.unqueuedActions != [] {
      var u := R.Update(newId, w.client.unqueuedActions);
      ThereAndBack(u.actions);
      ConcatAssociative(Own(w.server.link.log, w.ownIds), w.uplink, [Wired(u)]);
      hide ToActions;
      SentMade(Own(w.server.link.log, w.ownIds) + w.uplink, u);
    }
  }

  lemma SentMade(own: seq<Request>, u: R.Update)
    ensures ToActions(C.Actions(own + [Wired(u)])) + [] == ToActions(C.Actions(own)) + u.actions
  {
    hide C.Actions;
    ThereAndBack(u.actions);
    C.ActionsSnoc(own, Wired(u));
    ToActionsConcat(C.Actions(own), Wired(u).actions);
  }

  lemma SendKeepsUplink(w: World, newId: string)
    requires Invariant(w) && Enabled(w, Send(newId))
    ensures UplinkOk(Next(w, Send(newId)))
  {
    hide Named, NamedActions, R.LocalView, C.Invariant, MadeOk, QueueOk, LogOk, BoardsOk;
    ThereAndBack(w.client.unqueuedActions);
    EmptyNamed();
  }

  lemma SendKeeps(w: World, newId: string)
    requires Invariant(w) && Enabled(w, Send(newId))
    ensures Invariant(Next(w, Send(newId)))
  {
    R.NextKeepsLocal(w.client, R.Batch(newId));
    SendKeepsQueue(w, newId);
    SendKeepsMade(w, newId);
    SendKeepsUplink(w, newId);
    hide C.Invariant, C.NetworkBoard, R.LocalView, QueueOk, LogOk, MadeOk, UplinkOk;
  }

  lemma EmptyNamed()
    ensures NamedActions([])
  {
  }

  /** A request moves from the uplink into the log and into the queue. */
  ghost predicate MovesUp(w: World, w': World)
  {
    && w.uplink != [] && !w.server.link.stage.Connecting?
    && Grows(w.server.link, w'.server.link, [w.uplink[0]])
    && w'.server.link.stage == w.server.link.stage && w'.server.link.snapshot == w.server.link.snapshot
    && w' == w.(server := w'.server, uplink := w.uplink[1..])
  }

  lemma Processed(w: World)
    requires Invariant(w) && Enabled(w, Process)
    ensures C.Enabled(w.server, ServerEvent(w, Process).value)
    ensures MovesUp(w, Next(w, Process)) && C.Invariant(Next(w, Process).server)
  {
    hide C.Invariant, C.Next, Named, QueueOk, LogOk, MadeOk, BoardsOk;
    var event := C.Event.Other(P.Append(w.server.link.room, w.uplink[0]));
    assert C.Enabled(w.server, event);
    C.NextKeeps(w.server, event);
    var added := ElsewhereGrows(w.server, event);
  }

  lemma MovedUpQueue(w: World, w': World)
    requires QueueOk(w) && LogOk(w) && UplinkOk(w) && MovesUp(w, w')
    ensures QueueOk(w') && LogOk(w')
  {
    var r, link := w.uplink[0], w.server.link;
    hide Own, Named, NamedActions, WiredAll;
    OwnConcat(link.log, [r], w.ownIds);
    OwnConcat(link.queue, [r], w.ownIds);
    OwnOne(r, w.ownIds);
    MoveHead(Own(link.queue, w.ownIds), w.uplink);
    ConcatAssociative(Own(link.delivered, w.ownIds), Own(link.queue, w.ownIds), [r]);
  }

  lemma MovedUpMade(w: World, w': World)
    requires MadeOk(w) && UplinkOk(w) && MovesUp(w, w')
    ensures MadeOk(w')
  {
    var r, link := w.uplink[0], w.server.link;
    hide Own, Named, NamedActions, C.Actions;
    OwnConcat(link.log, [r], w.ownIds);
    OwnOne(r, w.ownIds);
    MoveHead(Own(link.log, w.ownIds), w.uplink);
  }

  lemma MovedUpRest(w: World, w': World)
    requires UplinkOk(w) && BoardsOk(w) && MovesUp(w, w')
    ensures UplinkOk(w') && BoardsOk(w')
  {
    hide Named, NamedActions, R.LocalView, C.NetworkBoard;
  }

  lemma ProcessKeeps(w: World)
    requires Invariant(w) && Enabled(w, Process)
    ensures Invariant(Next(w, Process))
  {
    var w' := Next(w, Process);
    Processed(w);
    hide C.Invariant, Next, QueueOk, LogOk, MadeOk, UplinkOk, BoardsOk, MovesUp;
    MovedUpQueue(w, w');
    MovedUpMade(w, w');
    MovedUpRest(w, w');
  }

  // ----- Deliveries -----

  lemma OwnHead(queue: seq<Request>, ids: set<string>)
    requires queue != []
    ensures Own(queue, ids) == (if queue[0].requestId in ids then [queue[0]] else []) + Own(queue[1..], ids)
  {
    hide Own;
    OwnConcat([queue[0]], queue[1..], ids);
    OwnOne(queue[0], ids);
    assert queue == [queue[0]] + queue[1..];
  }

  lemma QueuedIdsAreOwn(w: World)
    requires QueueOk(w) && UplinkOk(w)
    ensures forall i :: 0 <= i < |w.client.queuedUpdates| ==> w.client.queuedUpdates[i].updateId in w.ownIds
  {
    hide Own, Named, NamedActions;
    var own := Own(w.server.link.queue, w.ownIds);
    OwnMembers(w.server.link.queue, w.ownIds);
    forall i | 0 <= i < |w.client.queuedUpdates| ensures w.client.queuedUpdates[i].updateId in w.ownIds {
      assert Wired(w.client.queuedUpdates[i]) == (own + w.uplink)[i];
    }
  }

  /** What comes back is the oldest queued update, or somebody else's. */
  lemma DeliveredIsOldest(w: World)
    requires QueueOk(w) && UplinkOk(w) && w.server.link.queue != []
    ensures var r := w.server.link.queue[0];
      var rest := R.WithoutUpdate(w.client.queuedUpdates, Some(r.requestId));
      if r.requestId in w.ownIds then
        R.AcknowledgesOldest(w.client.queuedUpdates, Some(r.requestId), ToActions(r.actions))
        && rest == w.client.queuedUpdates[1..]
      else rest == w.client.queuedUpdates
  {
    hide Own, Named, NamedActions;
    var queued, r := w.client.queuedUpdates, w.server.link.queue[0];
    OwnHead(w.server.link.queue, w.ownIds);
    QueuedIdsAreOwn(w);
    if r.requestId in w.ownIds {
      assert WiredAll(queued)[0] == r;
      ThereAndBack(queued[0].actions);
      R.AcknowledgedIsOldest(queued, Some(r.requestId), ToActions(r.actions));
    }
  }

  lemma DeliverKeepsQueue(w: World)
    requires QueueOk(w) && UplinkOk(w) && w.server.link.queue != []
    ensures QueueOk(Next(w, Deliver))
  {
    hide Own, Next, R.Next, C.Next, UplinkOk, R.WithoutUpdate, R.AcknowledgesOldest, WiredAll, ToActions;
    DeliveredIsOldest(w);
    Delivered(w);
    var r, own := w.server.link.queue[0], Own(w.server.link.queue[1..], w.ownIds);
    NextQueue(w.client, ToActions(r.actions), Some(r.requestId));
    OwnHead(w.server.link.queue, w.ownIds);
    if r.requestId in w.ownIds {
      WiredTail(w.client.queuedUpdates);
      WithoutHead(r, own, w.uplink);
    } else {
      assert [] + own == own;
    }
  }

  lemma WiredTail(updates: seq<R.Update>)
    requires updates != []
    ensures WiredAll(updates[1..]) == WiredAll(updates)[1..]
  {
  }

  lemma WithoutHead(r: Request, x: seq<Request>, y: seq<Request>)
    ensures (([r] + x) + y)[1..] == x + y
  {
    ConcatAssociative([r], x, y);
    assert ([r] + (x + y))[1..] == x + y;
  }

  lemma DeliverKeepsLog(w: World)
    requires LogOk(w) && w.server.link.queue != []
    ensures LogOk(Next(w, Deliver))
  {
    Delivered(w);
    hide Own, Next, C.Next, R.Next, ClientEvent;
    var link := w.server.link;
    OwnHead(link.queue, w.ownIds);
    OwnConcat(link.delivered, [link.queue[0]], w.ownIds);
    OwnOne(link.queue[0], w.ownIds);
    ConcatAssociative(Own(link.delivered, w.ownIds), Own([link.queue[0]], w.ownIds), Own(link.queue[1..], w.ownIds));
  }

  lemma DeliveredBoard(snapshot: seq<Token>, delivered: seq<Request>, r: Request)
    ensures C.NetworkBoard(snapshot, delivered + [r]) ==
      ApplyAll(C.NetworkBoard(snapshot, delivered), ToActions(r.actions), true)
  {
    hide C.Actions, ApplyAll, C.SnapshotBoard;
    C.ActionsSnoc(delivered, r);
    ToActionsConcat(C.Actions(delivered), r.actions);
    ApplyAllConcat(C.SnapshotBoard(snapshot), ToActions(C.Actions(delivered)), ToActions(r.actions), true);
  }

  lemma Delivered(w: World)
    requires w.server.link.queue != []
    ensures var w', link := Next(w, Deliver), w.server.link;
      && w'.server == C.Next(w.server, C.Event.Deliver)
      && w'.server.link == link.(queue := link.queue[1..], delivered := link.delivered + [link.queue[0]])
      && w'.client == R.Next(w.client, ClientEvent(w, Deliver).value)
      && w'.client.network == ApplyAll(w.client.network, ToActions(link.queue[0].actions), true)
      && w'.client.unqueuedActions == w.client.unqueuedActions
      && (w'.greeted, w'.uplink, w'.ownIds, w'.made) == (w.greeted, w.uplink, w.ownIds, w.made)
  {
    hide ApplyAll, R.LocalView, R.WithoutUpdate;
  }

  lemma SameMade(w: World, w': World)
    requires UplinkOk(w) && MadeOk(w) && w'.server.link.log == w.server.link.log
    requires w'.uplink == w.uplink && w'.ownIds == w.ownIds && w'.made == w.made
    requires w'.client.unqueuedActions == w.client.unqueuedActions
    ensures UplinkOk(w') && MadeOk(w')
  {
    hide Own, Named, NamedActions, C.Actions;
  }

  lemma DeliverKeepsBoards(w: World)
    requires BoardsOk(w) && Enabled(w, Deliver)
    ensures BoardsOk(Next(w, Deliver))
  {
    Delivered(w);
    R.NextKeepsLocal(w.client, ClientEvent(w, Deliver).value);
    DeliveredBoard(w.server.link.snapshot, w.server.link.delivered, w.server.link.queue[0]);
    hide Next, R.Next, C.Next, R.LocalView, ApplyAll, C.NetworkBoard;
  }

  lemma DeliverKeeps(w: World)
    requires Invariant(w) && Enabled(w, Deliver)
    ensures Invariant(Next(w, Deliver))
  {
    C.NextKeeps(w.server, C.Event.Deliver);
    DeliverKeepsQueue(w);
    DeliverKeepsLog(w);
    DeliverKeepsBoards(w);
    Delivered(w);
    SameMade(w, Next(w, Deliver));
    hide Next, C.Next, C.Invariant, QueueOk, LogOk, UplinkOk, MadeOk, BoardsOk;
  }

  lemma NextKeeps(w: World, e: Event)
    requires Invariant(w) && Enabled(w, e)
    ensures Invariant(Next(w, e))
  {
    hide Invariant, Next, Enabled;
    match e
    case Elsewhere(event) => ElsewhereKeeps(w, event);
    case Greet => GreetKeeps(w);
    case Act(action) => ActKeeps(w, action);
    case Send(newId) => SendKeeps(w, newId);
    case Process => ProcessKeeps(w);
    case Deliver => DeliverKeeps(w);
  }

  // ----- Whole runs -----

  /** The server side of the event loses no action of the room; see ArchiveHistory. */
  ghost predicate SafeEvent(w: World, e: Event)
  {
    ServerEvent(w, e).Some? ==> C.SafeEvent(w.server, ServerEvent(w, e).value)
  }

  ghost predicate Safe(w: World, events: seq<Event>)
  {
    forall k :: 0 <= k < |events| ==> SafeEvent(Run(w, events[..k]), events[k])
  }

  lemma RunFront(w: World, events: seq<Event>)
    requires Legal(w, events) && events != []
    ensures var n := |events| - 1;
      && Legal(w, events[..n]) && Enabled(Run(w, events[..n]), events[n])
      && (Safe(w, events) ==> Safe(w, events[..n]) && SafeEvent(Run(w, events[..n]), events[n]))
  {
    hide Enabled, SafeEvent, Run;
    var front := events[..|events| - 1];
    forall k | 0 <= k < |front| ensures Enabled(Run(w, front[..k]), front[k]) {
      assert front[..k] == events[..k] && Enabled(Run(w, events[..k]), events[k]);
    }
    if Safe(w, events) {
      forall k | 0 <= k < |front| ensures SafeEvent(Run(w, front[..k]), front[k]) {
        assert front[..k] == events[..k] && SafeEvent(Run(w, events[..k]), events[k]);
      }
    }
  }

  lemma InitialInvariant(now: int, room: string)
    ensures Invariant(Initial(now, room)) && C.MeaningOk(Initial(now, room).server)
  {
    C.InitialInvariant(now, room);
    C.InitialMeans(now, room);
    R.NothingOnTop(EMPTY_BOARD);
    hide C.Invariant, C.MeaningOk, R.LocalView;
    assert WiredAll([]) == [] && ToActions(C.Actions([])) == [];
  }

  lemma {:induction false} RunKeeps(w: World, events: seq<Event>)
    requires Invariant(w) && Legal(w, events)
    ensures Invariant(Run(w, events))
  {
    if events != [] {
      hide Invariant, Legal, Enabled, Next, Safe;
      RunFront(w, events);
      RunKeeps(w, events[..|events| - 1]);
      NextKeeps(Run(w, events[..|events| - 1]), events[|events| - 1]);
    }
  }

  lemma NextMeans(w: World, e: Event)
    requires Invariant(w) && C.MeaningOk(w.server) && Enabled(w, e) && SafeEvent(w, e)
    ensures C.MeaningOk(Next(w, e).server)
  {
    if e.Process? {
      Processed(w);
    }
    hide C.Invariant, C.MeaningOk, C.Enabled, C.SafeEvent, C.Next, R.Next, QueueOk, LogOk, UplinkOk, MadeOk, BoardsOk;
    if ServerEvent(w, e).Some? {
      C.NextMeans(w.server, ServerEvent(w, e).value);
    }
  }

  lemma {:induction false} RunMeans(w: World, events: seq<Event>)
    requires Invariant(w) && C.MeaningOk(w.server) && Legal(w, events) && Safe(w, events)
    ensures C.MeaningOk(Run(w, events).server)
  {
    if events != [] {
      hide Invariant, C.MeaningOk, Legal, Enabled, Next, Safe, SafeEvent;
      RunFront(w, events);
      RunKeeps(w, events[..|events| - 1]);
      RunMeans(w, events[..|events| - 1]);
      NextMeans(Run(w, events[..|events| - 1]), events[|events| - 1]);
    }
  }

  // ----- What the client can rely on -----

  /** The change is the client's own oldest queued update and leaves its local board as it was, or it
      is somebody else's and acknowledges nothing. */
  ghost predicate Acknowledges(before: R.Client, after: R.Client, ownIds: set<string>, r: Request)
  {
    if r.requestId in ownIds then
      && R.AcknowledgesOldest(before.queuedUpdates, Some(r.requestId), ToActions(r.actions))
      && after.queuedUpdates == before.queuedUpdates[1..]
      && Plain(after.local) == Plain(before.local)
    else after.queuedUpdates == before.queuedUpdates
  }

  lemma DeliveryAcknowledges(w: World)
    requires Invariant(w) && Enabled(w, Deliver)
    ensures Acknowledges(w.client, Next(w, Deliver).client, w.ownIds, w.server.link.queue[0])
  {
    DeliveredIsOldest(w);
    Delivered(w);
    var r := w.server.link.queue[0];
    hide Next, R.Next, C.Invariant, QueueOk, LogOk, UplinkOk, MadeOk, R.LocalView, Plain, ApplyAll, R.WithoutUpdate;
    hide R.AcknowledgesOldest;
    NextQueue(w.client, ToActions(r.actions), Some(r.requestId));
    if r.requestId in w.ownIds {
      AcknowledgingStep(w.client, ToActions(r.actions), Some(r.requestId));
    }
  }

  lemma NextQueue(c: R.Client, actions: seq<ClientAction>, updateId: Option<string>)
    ensures R.Next(c, R.NetworkUpdate(actions, updateId)).queuedUpdates == R.WithoutUpdate(c.queuedUpdates, updateId)
  {
  }

  lemma AcknowledgingStep(c: R.Client, actions: seq<ClientAction>, updateId: Option<string>)
    requires R.AcknowledgesOldest(c.queuedUpdates, updateId, actions)
    requires c.local == R.LocalView(c.network, c.queuedUpdates, c.unqueuedActions)
    ensures Plain(R.Next(c, R.NetworkUpdate(actions, updateId)).local) == Plain(c.local)
  {
    hide R.LocalView, Plain, ApplyAll;
    var queued := c.queuedUpdates;
    R.AcknowledgedIsOldest(queued, updateId, actions);
    R.AcknowledgingKeepsLocalBoard(c.network, queued[0], queued[1..], c.unqueuedActions);
    assert R.WithoutUpdate(queued, updateId) == queued[1..];
    assert [queued[0]] + queued[1..] == queued;
  }

  /** In every run: each change that comes back under an id of the client acknowledges its oldest
      queued update, with the very actions that were sent, and leaves the local board as it was,
      colours aside; a change of somebody else acknowledges nothing. */
  lemma {:induction false} AcknowledgementsAreOldest(now: int, room: string, events: seq<Event>)
    requires Legal(Initial(now, room), events) && Enabled(Run(Initial(now, room), events), Deliver)
    ensures var w := Run(Initial(now, room), events);
      Acknowledges(w.client, Next(w, Deliver).client, w.ownIds, w.server.link.queue[0])
  {
    hide Invariant, Legal, Enabled, Run, Next, Acknowledges;
    InitialInvariant(now, room);
    RunKeeps(Initial(now, room), events);
    DeliveryAcknowledges(Run(Initial(now, room), events));
  }

  /** In every run: the client's requests in the log, those on their way up, and what is not yet sent
      are, in this order, exactly what it has done: nothing lost, repeated or reordered. */
  lemma {:induction false} NothingMadeIsLost(now: int, room: string, events: seq<Event>)
    requires Legal(Initial(now, room), events)
    ensures var w := Run(Initial(now, room), events);
      w.made == ToActions(C.Actions(Own(w.server.link.log, w.ownIds) + w.uplink)) + w.client.unqueuedActions
  {
    hide Run, Legal, C.Invariant, QueueOk, LogOk, UplinkOk, BoardsOk, Own, C.Actions;
    InitialInvariant(now, room);
    RunKeeps(Initial(now, room), events);
  }

  /** Nothing is on its way in either direction. */
  ghost predicate Quiet(w: World)
  {
    w.greeted && w.server.link.queue == [] && w.uplink == [] && w.client.unqueuedActions == []
  }

  lemma QuietIsNetwork(w: World)
    requires Invariant(w) && Quiet(w)
    ensures w.client.queuedUpdates == [] && w.client.local == w.client.network
    ensures w.client.network == C.NetworkBoard(w.server.link.snapshot, w.server.link.delivered)
    ensures w.made == ToActions(C.Actions(Own(w.server.link.log, w.ownIds)))
  {
    hide C.Invariant, R.LocalView, C.NetworkBoard, C.Actions, LogOk, UplinkOk;
    assert |WiredAll(w.client.queuedUpdates)| == 0;
    R.NothingOnTop(w.client.network);
    assert Own(w.server.link.log, w.ownIds) + [] == Own(w.server.link.log, w.ownIds);
  }

  lemma QuietAgrees(w: World)
    requires Invariant(w) && C.MeaningOk(w.server) && Quiet(w) && C.Seamless(w.server.link)
    ensures Agree(w.client.local, Replay(C.Actions(w.server.link.log)))
  {
    QuietIsNetwork(w);
    hide C.Invariant, C.MeaningOk, C.Seamless, C.StreamOk, C.SnapshotOk, C.InStep;
    hide QueueOk, LogOk, UplinkOk, MadeOk, BoardsOk;
    hide Agree, C.NetworkBoard, C.Actions, Replay, Named, Own;
    C.InvariantLink(w.server);
    C.SeamlessIsInStep(w.server.link);
    AllDelivered(w.server.link);
    InStepAtEnd(w.server.link);
  }

  lemma InStepAtEnd(link: C.Link)
    requires C.InStep(link) && link.readAt + |link.delivered| == |link.log|
    ensures Agree(C.NetworkBoard(link.snapshot, link.delivered), Replay(C.Actions(link.log)))
  {
    hide Agree, C.NetworkBoard, C.Actions, Replay;
    assert link.log[..|link.log|] == link.log;
  }

  lemma AllDelivered(link: C.Link)
    requires C.StreamOk(link) && C.Seamless(link) && link.queue == []
    ensures link.readAt + |link.delivered| == |link.log|
  {
    hide UnitSizedLog, CompatibleLog, C.Actions, C.Told;
    assert |link.delivered + link.queue| == |link.log[link.subscribedAt..]|;
  }

  /** In every run in which nobody loses actions of the room: once nothing is on its way, the local
      board is the network board, everything the client did is in the log, in order, and if the
      snapshot and the stream met, the local board holds the same tokens at the same cells as the
      server room for the whole log. */
  lemma {:induction false} QuietMeansAgreement(now: int, room: string, events: seq<Event>)
    requires Legal(Initial(now, room), events) && Safe(Initial(now, room), events)
    ensures Quiet(Run(Initial(now, room), events)) ==> Settled(Run(Initial(now, room), events))
  {
    hide *;
    InitialInvariant(now, room);
    RunKeeps(Initial(now, room), events);
    RunMeans(Initial(now, room), events);
    QuietIsSettled(Run(Initial(now, room), events));
  }

  /** Client and server are done with each other. */
  ghost predicate Settled(w: World)
  {
    && w.client.queuedUpdates == [] && w.client.local == w.client.network
    && w.made == ToActions(C.Actions(Own(w.server.link.log, w.ownIds)))
    && (C.Seamless(w.server.link) ==> Agree(w.client.local, Replay(C.Actions(w.server.link.log))))
  }

  lemma QuietIsSettled(w: World)
    requires Invariant(w) && C.MeaningOk(w.server)
    ensures Quiet(w) ==> Settled(w)
  {
    hide Invariant, C.MeaningOk, C.Seamless, Agree, C.Actions, Own, Replay;
    if Quiet(w) {
      QuietIsNetwork(w);
      if C.Seamless(w.server.link) {
        QuietAgrees(w);
      }
    }
  }
}
