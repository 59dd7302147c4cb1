/** A connection to a room (api/src/game_state_server.py:98-115): subscribe to the room's changes,
    read a snapshot, then stream the changes, while anybody else appends, compacts, archives and
    loads. The snapshot comes from the server's fold, the stream goes through the client's. */
module Connection {
  import opened Sequences
  import opened Components
  import opened Board
  import opened RoomTables
  import opened CompactedLog
  import StoreState
  import opened ClientTables
  import opened Wire
  import opened ClientServerAgreement
  import Reconciliation
  import P = ArchiveProtocol
  import ArchiveHistory

  /** All actions of some requests, in order. */
  function Actions(requests: seq<Request>): seq<Action>
  {
    if requests == [] then [] else Actions(requests[..|requests| - 1]) + requests[|requests| - 1].actions
  }

  lemma {:induction false} ActionsConcat(x: seq<Request>, y: seq<Request>)
    ensures Actions(x + y) == Actions(x) + Actions(y)
  {
    if y == [] {
      assert x + y == x;
    } else {
      var front := y[..|y| - 1];
      ActionsConcat(x, front);
      assert (x + y)[..|x + y| - 1] == x + front;
    }
  }

  lemma ActionsSnoc(x: seq<Request>, request: Request)
    ensures Actions(x + [request]) == Actions(x) + request.actions
  {
    assert (x + [request])[..|x|] == x;
  }

  // ----- The protocol -----

  datatype Stage = Connecting | Subscribed | Streaming | Closed

  /** log is every request ever made to the room. subscribedAt and readAt are how many of them there
      were when the connection subscribed and when it read the snapshot; queue is what was published
      to the subscription and not yet sent, delivered what was sent. */
  datatype Link = Link(
    room: string,
    stage: Stage,
    log: seq<Request>,
    subscribedAt: nat,
    readAt: nat,
    snapshot: seq<Token>,
    queue: seq<Request>,
    delivered: seq<Request>)

  datatype World = World(system: P.System, link: Link)

  datatype Event =
    | Other(step: P.Step)
    | Subscribe
    | Reject
    | ReadSnapshot
    | Deliver

  /** A request is stored and published in one transaction. */
  function Observe(link: Link, step: P.Step): Link
  {
    if step.Append? && step.room == link.room then
      link.(log := link.log + [step.request],
            queue := if link.stage.Connecting? then link.queue else link.queue + [step.request])
    else link
  }

  /** The tokens of create_room, which may raise. */
  ghost function GameState(log: seq<Action>): Option<seq<Token>>
  {
    if Named(log) && CreateRoom(log).Ok? then
      CreateRoomRefines(log);
      Some(Values(CreateRoom(log).room))
    else None
  }

  ghost function Next(w: World, e: Event): World
  {
    match e
    case Other(step) => World(P.Next(w.system, step), Observe(w.link, step))
    case Subscribe => w.(link := w.link.(stage := Subscribed, subscribedAt := |w.link.log|))
    case Reject => w.(link := w.link.(stage := Closed))
    case ReadSnapshot =>
      var system := P.Next(w.system, P.Load(w.link.room));
      var tokens := GameState(P.Merged(P.ViewOf(system, w.link.room)));
      World(system,
            if tokens.None? then w.link.(stage := Closed)
            else w.link.(stage := Streaming, readAt := |w.link.log|, snapshot := tokens.value))
    case Deliver =>
      if w.link.queue == [] then w
      else w.(link := w.link.(queue := w.link.queue[1..], delivered := w.link.delivered + [w.link.queue[0]]))
  }

  /** The order of effects in handle_connection. */
  ghost predicate Enabled(w: World, e: Event)
  {
    match e
    case Other(step) => P.Enabled(w.system, step)
    case Subscribe => w.link.stage.Connecting?
    case Reject => w.link.stage.Subscribed?
    case ReadSnapshot => w.link.stage.Subscribed?
    case Deliver => w.link.stage.Streaming? && w.link.queue != []
  }

  ghost function Run(w: World, events: seq<Event>): World
  {
    if events == [] then w else Next(Run(w, events[..|events| - 1]), events[|events| - 1])
  }

  ghost predicate Legal(w: World, events: seq<Event>)
  {
    forall k :: 0 <= k < |events| ==> Enabled(Run(w, events[..k]), events[k])
  }

  function Initial(now: int, room: string): World
  {
    World(P.Initial(now), Link(room, Connecting, [], 0, 0, [], [], []))
  }

  /** The step of somebody else loses no action of the room; see ArchiveHistory. */
  ghost predicate SafeEvent(w: World, e: Event)
  {
    e.Other? ==> ArchiveHistory.Safe(w.system, e.step, w.link.room)
  }

  ghost predicate Safe(w: World, events: seq<Event>)
  {
    forall k :: 0 <= k < |events| ==> SafeEvent(Run(w, events[..k]), events[k])
  }

  // ----- What every reachable state keeps -----

  /** The stream is exactly log[subscribedAt..], in order, and the snapshot was read after the
      subscription. */
  ghost predicate StreamOk(link: Link)
  {
    && (link.stage.Connecting? ==> link.queue == [] && link.delivered == [])
    && (!link.stage.Connecting? ==>
          link.subscribedAt <= |link.log| && link.delivered + link.queue == link.log[link.subscribedAt..])
    && (link.stage.Streaming? ==> link.subscribedAt <= link.readAt <= |link.log|)
  }

  /** Whatever happens to lock, store and archive. */
  ghost predicate Invariant(w: World)
  {
    && P.CompactorsOk(w.system)
    && P.NamedRoom(w.system, w.link.room)
    && P.History(w.system, w.link.room) == Actions(w.link.log)
    && StreamOk(w.link)
  }

  lemma ObserveKeeps(link: Link, step: P.Step)
    requires StreamOk(link)
    ensures StreamOk(Observe(link, step))
    ensures link.log <= Observe(link, step).log
  {
    var link' := Observe(link, step);
    if link' != link && !link.stage.Connecting? {
      assert link.delivered + (link.queue + [step.request]) == (link.delivered + link.queue) + [step.request];
      assert link'.log[link.subscribedAt..] == link.log[link.subscribedAt..] + [step.request];
    }
  }

  lemma HistoryFollowsLog(w: World, step: P.Step)
    requires P.History(w.system, w.link.room) == Actions(w.link.log)
    ensures P.History(P.Next(w.system, step), w.link.room) == Actions(Observe(w.link, step).log)
  {
    hide Actions, Flatten, CreateRoom, StoreState.RedisDelete, StoreState.RedisReplace;
    if step.Append? && step.room == w.link.room {
      ActionsSnoc(w.link.log, step.request);
    }
  }

  lemma SystemKeeps(w: World, step: P.Step)
    requires Invariant(w) && P.Enabled(w.system, step)
    ensures P.CompactorsOk(P.Next(w.system, step)) && P.NamedRoom(P.Next(w.system, step), w.link.room)
  {
    hide P.CompactorsOk, P.NamedRoom, P.Next, P.Enabled;
    P.NextKeepsCompactors(w.system, step);
    P.NextNamed(w.system, step, w.link.room);
  }

  lemma OtherKeeps(w: World, step: P.Step)
    requires Invariant(w) && P.Enabled(w.system, step)
    ensures Invariant(Next(w, Other(step)))
  {
    hide P.CompactorsOk, P.NamedRoom, StreamOk, P.Enabled, P.Next, Actions;
    SystemKeeps(w, step);
    ObserveKeeps(w.link, step);
    HistoryFollowsLog(w, step);
  }

  lemma ReadSnapshotKeeps(w: World)
    requires Invariant(w) && w.link.stage.Subscribed?
    ensures Invariant(Next(w, ReadSnapshot))
  {
    hide P.CompactorsOk, P.NamedRoom, Actions, GameState, P.Merged, P.Next;
    SystemKeeps(w, P.Load(w.link.room));
    HistoryFollowsLog(w, P.Load(w.link.room));
  }

  lemma NextKeeps(w: World, e: Event)
    requires Invariant(w) && Enabled(w, e)
    ensures Invariant(Next(w, e))
  {
    hide P.CompactorsOk, P.NamedRoom, P.Next, GameState, Actions;
    match e
    case Other(step) => OtherKeeps(w, step);
    case Subscribe =>
    case Reject =>
    case ReadSnapshot => ReadSnapshotKeeps(w);
    case Deliver =>
      assert (w.link.delivered + [w.link.queue[0]]) + w.link.queue[1..] == w.link.delivered + w.link.queue;
  }

  lemma LegalFront(w: World, events: seq<Event>)
    requires Legal(w, events) && events != []
    ensures var n := |events| - 1; Legal(w, events[..n]) && Enabled(Run(w, events[..n]), events[n])
  {
    hide Enabled, Run;
    var front := events[..|events| - 1];
    forall k | 0 <= k < |front| ensures Enabled(Run(w, front[..k]), front[k]) {
      assert front[..k] == events[..k];
      assert Enabled(Run(w, events[..k]), events[k]);
    }
  }

  lemma InitialInvariant(now: int, room: string)
    ensures Invariant(Initial(now, room))
  {
  }

  lemma SameLinkRoom(w: World, e: Event)
    ensures Next(w, e).link.room == w.link.room
  {
    hide P.Next, GameState, P.Merged;
  }

  lemma {:induction false} RunKeeps(now: int, room: string, events: seq<Event>)
    requires Legal(Initial(now, room), events)
    ensures Invariant(Run(Initial(now, room), events)) && Run(Initial(now, room), events).link.room == room
  {
    var w := Initial(now, room);
    if events == [] {
      InitialInvariant(now, room);
    } else {
      hide Invariant, Legal, Enabled, Next;
      LegalFront(w, events);
      RunKeeps(now, room, events[..|events| - 1]);
      NextKeeps(Run(w, events[..|events| - 1]), events[|events| - 1]);
      SameLinkRoom(Run(w, events[..|events| - 1]), events[|events| - 1]);
    }
  }

  /** In every run, whatever writers, compactors, lock and archive do meanwhile: the stream of a
      connection is exactly the requests made since it subscribed, in order, and it read after it
      subscribed, so no request is missing from both. */
  lemma {:induction false} NoRequestIsSkipped(now: int, room: string, events: seq<Event>)
    requires Legal(Initial(now, room), events)
    ensures var link := Run(Initial(now, room), events).link;
      link.stage.Streaming? ==>
        && link.subscribedAt <= link.readAt <= |link.log|
        && link.delivered + link.queue == link.log[link.subscribedAt..]
  {
    RunKeeps(now, room, events);
  }

  // ----- What the snapshot means -----

  /** The snapshot is what the first readAt requests mean. */
  ghost predicate SnapshotOk(link: Link)
  {
    link.stage.Streaming? ==>
      && link.readAt <= |link.log|
      && Bares(link.snapshot) == Replay(Actions(link.log[..link.readAt]))
  }

  ghost predicate MeaningOk(w: World)
  {
    ArchiveHistory.RoomOk(w.system, w.link.room) && SnapshotOk(w.link)
  }

  lemma GameStateMeans(log: seq<Action>)
    requires GameState(log).Some?
    ensures Bares(GameState(log).value) == Replay(log)
  {
    hide CellsAgree, OwnerAgrees;
    CreateRoomRefines(log);
    ValuesPieces(CreateRoom(log).room);
  }

  lemma ReadSnapshotMeans(w: World)
    requires Invariant(w) && MeaningOk(w) && w.link.stage.Subscribed?
    ensures MeaningOk(Next(w, ReadSnapshot))
  {
    hide P.CompactorsOk, P.NamedRoom, Actions, CreateRoom, GameState, P.Merged, Replay, P.Next;
    var load := P.Load(w.link.room);
    ArchiveHistory.NextKeepsRoom(w.system, load, w.link.room);
    HistoryFollowsLog(w, load);
    var log := P.Merged(P.ViewOf(P.Next(w.system, load), w.link.room));
    if GameState(log).Some? {
      GameStateMeans(log);
      assert w.link.log[..|w.link.log|] == w.link.log;
    }
  }

  lemma OtherMeans(w: World, step: P.Step)
    requires Invariant(w) && MeaningOk(w) && P.Enabled(w.system, step)
    requires ArchiveHistory.Safe(w.system, step, w.link.room)
    ensures MeaningOk(Next(w, Other(step)))
  {
    hide P.CompactorsOk, P.NamedRoom, ArchiveHistory.RoomOk, P.Enabled, P.Next, Actions, Replay, ArchiveHistory.Safe;
    ArchiveHistory.NextKeepsRoom(w.system, step, w.link.room);
    ObserveKeeps(w.link, step);
    if w.link.stage.Streaming? {
      assert Observe(w.link, step).log[..w.link.readAt] == w.link.log[..w.link.readAt];
    }
  }

  lemma NextMeans(w: World, e: Event)
    requires Invariant(w) && MeaningOk(w) && Enabled(w, e)
    requires SafeEvent(w, e)
    ensures MeaningOk(Next(w, e))
  {
    hide Invariant, ArchiveHistory.RoomOk, P.Next, GameState, Actions, Replay, ArchiveHistory.Safe;
    match e
    case Other(step) => OtherMeans(w, step);
    case ReadSnapshot => ReadSnapshotMeans(w);
    case _ =>
  }

  lemma SafeFront(w: World, events: seq<Event>)
    requires Safe(w, events) && events != []
    ensures var n := |events| - 1; Safe(w, events[..n]) && SafeEvent(Run(w, events[..n]), events[n])
  {
    hide SafeEvent, Run;
    var front := events[..|events| - 1];
    forall k | 0 <= k < |front| ensures SafeEvent(Run(w, front[..k]), front[k]) {
      assert front[..k] == events[..k] && SafeEvent(Run(w, events[..k]), events[k]);
    }
  }

  lemma InitialMeans(now: int, room: string)
    ensures MeaningOk(Initial(now, room))
  {
    ArchiveHistory.InitialOk(now, room);
  }

  lemma {:induction false} RunMeans(now: int, room: string, events: seq<Event>)
    requires Legal(Initial(now, room), events) && Safe(Initial(now, room), events)
    ensures MeaningOk(Run(Initial(now, room), events))
  {
    var w := Initial(now, room);
    if events == [] {
      InitialMeans(now, room);
    } else {
      hide Invariant, MeaningOk, Legal, Safe, SafeEvent, Enabled, Next;
      LegalFront(w, events);
      SafeFront(w, events);
      RunKeeps(now, room, events[..|events| - 1]);
      RunMeans(now, room, events[..|events| - 1]);
      NextMeans(Run(w, events[..|events| - 1]), events[|events| - 1]);
    }
  }

  /** The event does not archive the room. */
  ghost predicate SparingEvent(w: World, e: Event)
  {
    e.Other? ==> ArchiveHistory.Spares(w.system, e.step, w.link.room)
  }

  ghost predicate Spared(w: World, events: seq<Event>)
  {
    forall k :: 0 <= k < |events| ==> SparingEvent(Run(w, events[..k]), events[k])
  }

  lemma SparedFront(w: World, events: seq<Event>)
    requires Spared(w, events) && events != []
    ensures var n := |events| - 1; Spared(w, events[..n]) && SparingEvent(Run(w, events[..n]), events[n])
  {
    hide SparingEvent, Run;
    var front := events[..|events| - 1];
    forall k | 0 <= k < |front| ensures SparingEvent(Run(w, front[..k]), front[k]) {
      assert front[..k] == events[..k] && SparingEvent(Run(w, events[..k]), events[k]);
    }
  }

  lemma SafeExtend(w: World, events: seq<Event>)
    requires events != [] && Safe(w, events[..|events| - 1])
    requires SafeEvent(Run(w, events[..|events| - 1]), events[|events| - 1])
    ensures Safe(w, events)
  {
    hide SafeEvent, Run;
    var front := events[..|events| - 1];
    forall k | 0 <= k < |events| ensures SafeEvent(Run(w, events[..k]), events[k]) {
      if k < |front| {
        assert front[..k] == events[..k] && SafeEvent(Run(w, front[..k]), front[k]);
      }
    }
  }

  lemma SparedNext(w: World, e: Event)
    requires w.link.room !in w.system.archive && SparingEvent(w, e)
    ensures SafeEvent(w, e)
    ensures Next(w, e).link.room !in Next(w, e).system.archive
  {
    hide GameState, P.Merged, ArchiveHistory.Spares, ArchiveHistory.Safe;
    SameLinkRoom(w, e);
    if e.Other? {
      hide P.Next;
      ArchiveHistory.SparedStaysUnarchived(w.system, e.step, w.link.room);
    }
  }

  /** A room that is never archived needs no assumption, whatever compactors do without their lock. */
  lemma {:induction false} SparedIsSafe(w: World, events: seq<Event>)
    requires Spared(w, events) && w.link.room !in w.system.archive
    ensures Safe(w, events)
    ensures Run(w, events).link.room !in Run(w, events).system.archive
  {
    if events != [] {
      hide Spared, Safe, SafeEvent, SparingEvent, Next;
      SparedFront(w, events);
      SparedIsSafe(w, events[..|events| - 1]);
      SparedNext(Run(w, events[..|events| - 1]), events[|events| - 1]);
      SafeExtend(w, events);
    }
  }

  /** In every run in which nobody loses actions of the room, the snapshot means exactly the requests
      made before it was read. */
  lemma {:induction false} SnapshotMeansHistory(now: int, room: string, events: seq<Event>)
    requires Legal(Initial(now, room), events) && Safe(Initial(now, room), events)
    ensures var link := Run(Initial(now, room), events).link;
      link.stage.Streaming? ==>
        link.readAt <= |link.log| && Bares(link.snapshot) == Replay(Actions(link.log[..link.readAt]))
  {
    hide Run, Legal, Safe, Actions, Replay, ArchiveHistory.RoomOk;
    RunMeans(now, room, events);
  }

  // ----- A fresh client on the other end -----

  function ToTokens(snapshot: seq<Token>): (r: seq<ClientToken>)
    ensures |r| == |snapshot|
    ensures forall i :: 0 <= i < |r| ==> r[i] == ToToken(snapshot[i])
  {
    seq(|snapshot|, i requires 0 <= i < |snapshot| => ToToken(snapshot[i]))
  }

  /** The network board of a client that starts empty and receives a snapshot. */
  function SnapshotBoard(snapshot: seq<Token>): BoardState
  {
    ApplyAll(EMPTY_BOARD, Reconciliation.TokenUpserts(ToTokens(snapshot)), true)
  }

  ghost predicate Wellformed(log: seq<Action>)
  {
    Named(log) && UnitSizedLog(log)
  }

  ghost predicate WellformedBoard(b: Board)
  {
    Distinct(b) && Disjoint(b) &&
    forall i :: 0 <= i < |b| ==> b[i].id != "" && b[i].box == UnitBox(Corner(b[i].box))
  }

  lemma StepWellformed(b: Board, a: Action)
    requires WellformedBoard(b) && UnitSized(a) && (a.Upsert? ==> a.token.id != "")
    ensures WellformedBoard(Step(b, a))
  {
    hide Distinct, Disjoint, Blocked;
    StepKeepsDisjoint(b, a);
  }

  lemma {:induction false} FoldWellformed(b: Board, log: seq<Action>)
    requires WellformedBoard(b) && Wellformed(log)
    ensures WellformedBoard(Fold(b, log))
  {
    if log != [] {
      FoldWellformed(b, log[..|log| - 1]);
      StepWellformed(Fold(b, log[..|log| - 1]), log[|log| - 1]);
    }
  }

  /** A snapshot read off the wire is what the upserts of its tokens would be, were floors sent
      without a colour. */
  function Uncolored(snapshot: seq<Token>): (r: seq<Token>)
    ensures |r| == |snapshot|
    ensures forall i :: 0 <= i < |r| ==>
      r[i] == snapshot[i].(color := if snapshot[i].kind.Character? then snapshot[i].color else None)
  {
    seq(|snapshot|, i requires 0 <= i < |snapshot| =>
      snapshot[i].(color := if snapshot[i].kind.Character? then snapshot[i].color else None))
  }

  lemma SnapshotIsUpserts(snapshot: seq<Token>)
    ensures SnapshotBoard(snapshot) == ClientFold(EMPTY_BOARD, Upserts(Uncolored(snapshot)))
    ensures Bares(Uncolored(snapshot)) == Bares(snapshot)
  {
    assert Reconciliation.TokenUpserts(ToTokens(snapshot)) == ToActions(Upserts(Uncolored(snapshot)));
  }

  /** Upserts of distinct tokens never meet a live one. */
  lemma UpsertsCompatible(tokens: seq<Token>)
    requires Distinct(Bares(tokens)) && Disjoint(Bares(tokens))
    ensures CompatibleLog([], Upserts(tokens))
  {
    forall k | 0 <= k < |tokens| ensures Compatible(Fold([], Upserts(tokens)[..k]), Upserts(tokens)[k]) {
      var front := tokens[..k];
      assert Bares(front) == Bares(tokens)[..k];
      ReplayUpserts(front);
      assert Upserts(tokens)[..k] == Upserts(front);
      assert forall i :: 0 <= i < k ==> Bares(front)[i].id != Bares(tokens)[k].id;
    }
  }

  /** A fresh client that receives a snapshot holds its tokens at their cells. */
  lemma {:induction false} SnapshotAgrees(snapshot: seq<Token>)
    requires WellformedBoard(Bares(snapshot))
    ensures Valid(SnapshotBoard(snapshot)) && Agree(SnapshotBoard(snapshot), Bares(snapshot))
  {
    SnapshotIsUpserts(snapshot);
    var upserts := Upserts(Uncolored(snapshot));
    assert Wellformed(upserts) by {
      forall i | 0 <= i < |upserts| ensures upserts[i].token.id != "" && UnitSized(upserts[i]) {
        assert Bares(snapshot)[i].id != "";
      }
    }
    ReplayUpserts(Uncolored(snapshot));
    UpsertsCompatible(Uncolored(snapshot));
    EmptyBoardValid();
    ClientFoldValid(EMPTY_BOARD, upserts);
    hide Valid, Compatible;
    assert upserts[..|upserts|] == upserts;
    CompatibleLogAgrees(EMPTY_BOARD, [], upserts, |upserts|);
  }

  /** The client's board and the server's agree after the snapshot and after every further action
      if and only if the streamed actions are compatible. */
  lemma StreamAgreesIff(snapshot: seq<Token>, actions: seq<Action>)
    requires WellformedBoard(Bares(snapshot)) && Wellformed(actions)
    ensures (forall k :: 0 <= k <= |actions| ==>
        Agree(ClientFold(SnapshotBoard(snapshot), actions[..k]), Fold(Bares(snapshot), actions[..k])))
      <==> CompatibleLog(Bares(snapshot), actions)
  {
    hide Valid, Compatible, Agree, ClientFold;
    SnapshotAgrees(snapshot);
    FoldsAgreeIff(SnapshotBoard(snapshot), Bares(snapshot), actions);
  }

  /** The network board of a fresh client after a snapshot and a stream of requests. */
  function NetworkBoard(snapshot: seq<Token>, stream: seq<Request>): BoardState
  {
    ClientFold(SnapshotBoard(snapshot), Actions(stream))
  }

  lemma {:induction false} CompatibleConcat(b: Board, x: seq<Action>, y: seq<Action>)
    requires CompatibleLog(b, x + y)
    ensures CompatibleLog(b, x) && CompatibleLog(Fold(b, x), y)
  {
    hide Compatible;
    var z := x + y;
    forall k | 0 <= k < |x| ensures Compatible(Fold(b, x[..k]), x[k]) {
      assert z[..k] == x[..k] && z[k] == x[k];
      assert Compatible(Fold(b, z[..k]), z[k]);
    }
    forall k | 0 <= k < |y| ensures Compatible(Fold(Fold(b, x), y[..k]), y[k]) {
      assert z[..|x| + k] == x + y[..k] && z[|x| + k] == y[k];
      FoldConcat(b, x, y[..k]);
      assert Compatible(Fold(b, z[..|x| + k]), z[|x| + k]);
    }
  }

  lemma WellformedConcat(x: seq<Action>, y: seq<Action>)
    requires Wellformed(x + y)
    ensures Wellformed(x) && Wellformed(y)
  {
    NamedConcat(x, y);
    assert forall i :: 0 <= i < |x| ==> x[i] == (x + y)[i];
    assert forall i :: 0 <= i < |y| ==> y[i] == (x + y)[|x| + i];
  }

  /** From a snapshot of exactly the first requests, the client follows the server through the
      rest. */
  lemma {:induction false} ClientFollows(snapshot: seq<Token>, seen: seq<Request>, stream: seq<Request>)
    requires Bares(snapshot) == Replay(Actions(seen))
    requires Wellformed(Actions(seen + stream)) && CompatibleLog([], Actions(seen + stream))
    ensures Agree(NetworkBoard(snapshot, stream), Replay(Actions(seen + stream)))
  {
    hide Compatible, Agree, Actions;
    ActionsConcat(seen, stream);
    var x, y := Actions(seen), Actions(stream);
    WellformedConcat(x, y);
    FoldWellformed([], x);
    FoldConcat([], x, y);
    CompatibleConcat([], x, y);
    StreamAgreesIff(snapshot, y);
    assert y[..|y|] == y;
    assert Agree(ClientFold(SnapshotBoard(snapshot), y[..|y|]), Fold(Bares(snapshot), y[..|y|]));
  }

  /** The requests the client has been told of: those in the snapshot, and those delivered. */
  function Told(link: Link): seq<Request>
  {
    var n := link.readAt + |link.delivered|;
    if n <= |link.log| then link.log[..n] else link.log
  }

  /** The snapshot and the stream meet, and client and server can agree on the actions so far. */
  ghost predicate Seamless(link: Link)
  {
    && link.stage.Streaming? && link.subscribedAt == link.readAt
    && UnitSizedLog(Actions(Told(link))) && CompatibleLog([], Actions(Told(link)))
  }

  /** A fresh client on the connection holds the tokens of the server room for log[..n + k], where
      n requests made up the snapshot and k have been delivered. */
  ghost predicate InStep(link: Link)
  {
    && link.readAt + |link.delivered| <= |link.log|
    && Agree(NetworkBoard(link.snapshot, link.delivered),
             Replay(Actions(link.log[..link.readAt + |link.delivered|])))
  }

  lemma SeamlessIsInStep(link: Link)
    requires StreamOk(link) && SnapshotOk(link) && Named(Actions(link.log))
    ensures Seamless(link) ==> InStep(link)
  {
    hide UnitSizedLog, Named, Compatible, Agree, Actions, Replay, NetworkBoard, CompatibleLog;
    if Seamless(link) {
      var seen, n := link.log[..link.readAt], link.readAt + |link.delivered|;
      assert link.log[link.subscribedAt..][..|link.delivered|] == link.delivered;
      assert link.log[..n] == seen + link.delivered;
      assert link.log == link.log[..n] + link.log[n..];
      ActionsConcat(link.log[..n], link.log[n..]);
      NamedConcat(Actions(link.log[..n]), Actions(link.log[n..]));
      ClientFollows(link.snapshot, seen, link.delivered);
    }
  }

  /** In every run in which nobody loses actions of the room: if nothing was appended between
      subscribing and reading, then after k deliveries the network board of a fresh client holds the
      same tokens at the same cells as the server room for the first n + k requests. */
  lemma {:induction false} FreshClientFollowsServer(now: int, room: string, events: seq<Event>)
    requires Legal(Initial(now, room), events) && Safe(Initial(now, room), events)
    ensures Seamless(Run(Initial(now, room), events).link) ==> InStep(Run(Initial(now, room), events).link)
  {
    hide *;
    RunKeeps(now, room, events);
    RunMeans(now, room, events);
    var w := Run(Initial(now, room), events);
    InvariantLink(w);
    SeamlessIsInStep(w.link);
  }

  lemma InvariantLink(w: World)
    requires Invariant(w) && MeaningOk(w)
    ensures StreamOk(w.link) && SnapshotOk(w.link) && Named(Actions(w.link.log))
  {
    hide P.CompactorsOk, ArchiveHistory.RoomOk, StreamOk, SnapshotOk, Named, Actions;
  }
}
