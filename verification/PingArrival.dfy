/** Pings from client to client: web/src/ui/board/board-state.ts:55-98 at both ends of the wire of
    web/src/network/RealBoardStateApiClient.ts:20-128. A room stores no ping, so its place is not part of
    what a log means. */
module PingArrival {
  import opened Sequences
  import opened Components
  import opened ClientTables
  import opened ClientMeaning
  import opened Wire
  import opened Session
  import opened ClientServerAgreement
  import C = Connection
  import R = Reconciliation

  ghost predicate Untouched(actions: seq<ClientAction>, id: string)
  {
    forall i :: 0 <= i < |actions| ==> !Touches(actions[i], id)
  }

  ghost predicate Shows(b: BoardState, ping: Ping)
  {
    ping.id in b.entityById && b.entityById[ping.id] == PingEntity(ping)
  }

  lemma StreamShows(snapshot: seq<Token>, stream: seq<Request>, k: nat, x: seq<ClientAction>, ping: Ping,
                    y: seq<ClientAction>)
    requires k < |stream| && stream[k].actions == ToApiActions(x + [AddPing(ping)] + y)
    requires Untouched(y + ToActions(C.Actions(stream[k + 1..])), ping.id)
    ensures Shows(C.NetworkBoard(snapshot, stream), ping)
  {
    hide ApplyAll, Touches, C.Actions, ToApiActions;
    var earlier, sent, later := stream[..k], x + [AddPing(ping)] + y, stream[k + 1..];
    C.ActionsSnoc(earlier, stream[k]);
    C.ActionsConcat(earlier + [stream[k]], later);
    assert stream == earlier + [stream[k]] + later;
    ToActionsConcat(C.Actions(earlier), stream[k].actions);
    ToActionsConcat(C.Actions(earlier + [stream[k]]), C.Actions(later));
    ThereAndBack(sent);
    var before, after := ToActions(C.Actions(earlier)), ToActions(C.Actions(later));
    assert ToActions(C.Actions(stream)) == (before + sent) + after;
    assert (before + sent) + after == (before + x) + [AddPing(ping)] + (y + after);
    PingShows(C.SnapshotBoard(snapshot), before + x, ping, y + after, true);
  }

  lemma StreamIsLog(link: C.Link, k: nat)
    requires C.StreamOk(link) && k < |link.delivered|
    ensures link.subscribedAt + k < |link.log| && link.delivered[k] == link.log[link.subscribedAt + k]
  {
    assert link.delivered[k] == (link.delivered + link.queue)[k];
  }

  /** In every run: a ping some client sent among other actions, once it has come down the socket, is on
      the network board where it was made, unless something that came after it has its id; and on the
      local board, unless something the client has pending has its id. */
  lemma {:induction false} PingArrives(now: int, room: string, events: seq<Event>, k: nat, x: seq<ClientAction>,
                                       ping: Ping, y: seq<ClientAction>)
    requires Legal(Initial(now, room), events)
    requires var stream := Run(Initial(now, room), events).server.link.delivered;
      && k < |stream| && stream[k].actions == ToApiActions(x + [AddPing(ping)] + y)
      && Untouched(y + ToActions(C.Actions(stream[k + 1..])), ping.id)
    ensures var w := Run(Initial(now, room), events);
      var link := w.server.link;
      && link.subscribedAt + k < |link.log| && link.delivered[k] == link.log[link.subscribedAt + k]
      && Shows(w.client.network, ping)
      && (Untouched(R.Queued(w.client.queuedUpdates) + w.client.unqueuedActions, ping.id) ==>
            Shows(w.client.local, ping))
  {
    hide Run, Legal, QueueOk, LogOk, UplinkOk, MadeOk, C.NetworkBoard, ApplyAll, Touches, ToApiActions, Shows;
    InitialInvariant(now, room);
    RunKeeps(Initial(now, room), events);
    var w := Run(Initial(now, room), events);
    StreamIsLog(w.server.link, k);
    StreamShows(w.server.link.snapshot, w.server.link.delivered, k, x, ping, y);
    var pending := R.Queued(w.client.queuedUpdates) + w.client.unqueuedActions;
    if Untouched(pending, ping.id) {
      KeepsShowing(w.client.network, pending, ping);
    }
  }

  lemma KeepsShowing(b: BoardState, pending: seq<ClientAction>, ping: Ping)
    requires Shows(b, ping) && Untouched(pending, ping.id)
    ensures Shows(ApplyAll(b, pending, false), ping)
  {
    LaterActionsKeepPing(b, pending, false, ping);
  }
}
