/** Optimistic reconciliation: web/src/ui/board/action-reconciliation.ts, the reducers of
    web/src/ui/board/board-slice.ts that drive it, and the batching of
    web/src/network/networkSyncMiddleware.ts. */
module Reconciliation {
  import opened Sequences
  import opened Components
  import opened ClientTables
  import ClientBoard

  const CHARACTER_HEIGHT := 1

  datatype Update = Update(updateId: string, actions: seq<ClientAction>)

  /** The actions of all queued updates, in order. */
  function Queued(updates: seq<Update>): seq<ClientAction>
  {
    if updates == [] then [] else Queued(updates[..|updates| - 1]) + updates[|updates| - 1].actions
  }

  /** The position of the first update with this id, or |updates|. */
  function FindUpdate(updates: seq<Update>, updateId: Option<string>): (i: nat)
    ensures i <= |updates|
    ensures i < |updates| ==> updateId == Some(updates[i].updateId)
    ensures forall k :: 0 <= k < i ==> updateId != Some(updates[k].updateId)
  {
    if updates == [] then 0
    else if updateId == Some(updates[0].updateId) then 0
    else 1 + FindUpdate(updates[1..], updateId)
  }

  function WithoutUpdate(updates: seq<Update>, updateId: Option<string>): seq<Update>
  {
    var i := FindUpdate(updates, updateId);
    if i < |updates| then updates[..i] + updates[i + 1..] else updates
  }

  lemma QueuedSnoc(updates: seq<Update>, u: Update)
    ensures Queued(updates + [u]) == Queued(updates) + u.actions
  {
    assert (updates + [u])[..|updates|] == updates;
  }

  lemma {:induction false} QueuedCons(u: Update, updates: seq<Update>)
    ensures Queued([u] + updates) == u.actions + Queued(updates)
  {
    if updates == [] {
      assert [u] + updates == [] + [u];
      QueuedSnoc([], u);
    } else {
      var front, last := updates[..|updates| - 1], updates[|updates| - 1];
      assert Queued(updates) == Queued(front) + last.actions;
      hide Queued;
      QueuedCons(u, front);
      assert [u] + updates == ([u] + front) + [last];
      QueuedSnoc([u] + front, last);
    }
  }

  /** The local board: the network board with the pending actions on top, none of them confirmed. */
  function LocalView(network: BoardState, queued: seq<Update>, unqueued: seq<ClientAction>): BoardState
  {
    ApplyAll(network, Queued(queued) + unqueued, false)
  }

  /** Acknowledging the oldest queued update with its own actions leaves the local board as it was,
      colours aside and both indexes included, whatever else is queued or not yet queued. */
  lemma {:induction false} AcknowledgingKeepsLocalBoard(
    network: BoardState, oldest: Update, queued: seq<Update>, unqueued: seq<ClientAction>)
    ensures Plain(LocalView(ApplyAll(network, oldest.actions, true), queued, unqueued)) ==
            Plain(LocalView(network, [oldest] + queued, unqueued))
  {
    hide ApplyAll, Queued, Plain;
    QueuedCons(oldest, queued);
    var rest := Queued(queued) + unqueued;
    assert Queued([oldest] + queued) + unqueued == oldest.actions + rest;
    ApplyAllConcat(network, oldest.actions, rest, false);
    ApplyAllPlain(network, network, oldest.actions, true, false);
    var confirmed, pending := ApplyAll(network, oldest.actions, true), ApplyAll(network, oldest.actions, false);
    ApplyAllPlain(confirmed, pending, rest, false, false);
  }

  /** The update acknowledges the oldest queued one, with the actions that were sent. */
  predicate AcknowledgesOldest(queued: seq<Update>, updateId: Option<string>, actions: seq<ClientAction>)
  {
    queued != [] && updateId == Some(queued[0].updateId) && actions == queued[0].actions
  }

  lemma AcknowledgedIsOldest(queued: seq<Update>, updateId: Option<string>, actions: seq<ClientAction>)
    requires AcknowledgesOldest(queued, updateId, actions)
    ensures queued == [queued[0]] + WithoutUpdate(queued, updateId)
  {
    assert WithoutUpdate(queued, updateId) == queued[1..];
  }

  // ----- Every run -----

  /** The reconciliation state as a value. */
  datatype Client = Client(
    network: BoardState,
    local: BoardState,
    queuedUpdates: seq<Update>,
    unqueuedActions: seq<ClientAction>)

  datatype Event =
    | NetworkUpdate(actions: seq<ClientAction>, updateId: Option<string>)
    | LocalAction(action: ClientAction)
    | Batch(newId: string)

  const START := Client(EMPTY_BOARD, EMPTY_BOARD, [], [])

  /** The local board is rebuilt on network updates only; local actions change it in place. */
  function Next(c: Client, e: Event): Client
  {
    match e
    case NetworkUpdate(actions, updateId) =>
      var network := ApplyAll(c.network, actions, true);
      var queuedUpdates := WithoutUpdate(c.queuedUpdates, updateId);
      Client(network, LocalView(network, queuedUpdates, c.unqueuedActions), queuedUpdates, c.unqueuedActions)
    case LocalAction(action) =>
      c.(local := ApplyAction(c.local, action, false), unqueuedActions := c.unqueuedActions + [action])
    case Batch(newId) =>
      if c.unqueuedActions == [] then c
      else c.(queuedUpdates := c.queuedUpdates + [Update(newId, c.unqueuedActions)], unqueuedActions := [])
  }

  function Run(events: seq<Event>): Client
  {
    if events == [] then START else Next(Run(events[..|events| - 1]), events[|events| - 1])
  }

  /** The local actions made during a run. */
  function Made(events: seq<Event>): seq<ClientAction>
  {
    if events == [] then []
    else
      var before, last := Made(events[..|events| - 1]), events[|events| - 1];
      if last.LocalAction? then before + [last.action] else before
  }

  /** The updates ever queued, oldest first. */
  function Batches(events: seq<Event>): seq<Update>
  {
    if events == [] then []
    else
      var front, last := events[..|events| - 1], events[|events| - 1];
      if last.Batch? && Run(front).unqueuedActions != [] then
        Batches(front) + [Update(last.newId, Run(front).unqueuedActions)]
      else Batches(front)
  }

  lemma OneMoreAction(network: BoardState, queued: seq<Update>, unqueued: seq<ClientAction>, action: ClientAction)
    ensures LocalView(network, queued, unqueued + [action]) ==
      ApplyAction(LocalView(network, queued, unqueued), action, false)
  {
    hide ApplyAction, Queued;
    var pending := Queued(queued) + unqueued;
    assert (pending + [action])[..|pending|] == pending;
    assert Queued(queued) + (unqueued + [action]) == pending + [action];
  }

  lemma BatchingChangesNothing(network: BoardState, queued: seq<Update>, u: Update)
    ensures LocalView(network, queued + [u], []) == LocalView(network, queued, u.actions)
  {
    hide ApplyAll, Queued;
    QueuedSnoc(queued, u);
    assert (Queued(queued) + u.actions) + [] == Queued(queued) + u.actions;
  }

  lemma NothingOnTop(network: BoardState)
    ensures LocalView(network, [], []) == network
  {
    assert Queued([]) + [] == [];
  }

  lemma NextKeepsLocal(c: Client, e: Event)
    requires c.local == LocalView(c.network, c.queuedUpdates, c.unqueuedActions)
    ensures var c' := Next(c, e); c'.local == LocalView(c'.network, c'.queuedUpdates, c'.unqueuedActions)
  {
    hide LocalView, ApplyAction, ApplyAll, WithoutUpdate;
    match e
    case NetworkUpdate(_, _) =>
    case LocalAction(action) => OneMoreAction(c.network, c.queuedUpdates, c.unqueuedActions, action);
    case Batch(newId) => BatchingChangesNothing(c.network, c.queuedUpdates, Update(newId, c.unqueuedActions));
  }

  /** After any interleaving of network updates, local actions and batching, the local board is the
      network board with all queued updates and then the unqueued actions on top; it is the network
      board once nothing is pending. */
  lemma {:induction false} LocalIsNetworkPlusPending(events: seq<Event>)
    ensures var c := Run(events);
      && c.local == LocalView(c.network, c.queuedUpdates, c.unqueuedActions)
      && (c.queuedUpdates == [] && c.unqueuedActions == [] ==> c.local == c.network)
  {
    NothingOnTop(Run(events).network);
    if events == [] {
      NothingOnTop(EMPTY_BOARD);
    } else {
      hide LocalView, Next;
      LocalIsNetworkPlusPending(events[..|events| - 1]);
      NextKeepsLocal(Run(events[..|events| - 1]), events[|events| - 1]);
    }
  }

  /** The batches ever queued, in order, and then the unqueued actions are exactly the local actions
      made: none is lost, repeated or reordered. */
  lemma {:induction false} BatchesAreWhatWasMade(events: seq<Event>)
    ensures Made(events) == Queued(Batches(events)) + Run(events).unqueuedActions
  {
    hide ApplyAll, ApplyAction, LocalView;
    if events != [] {
      var front, last := events[..|events| - 1], events[|events| - 1];
      var c := Run(front);
      BatchesAreWhatWasMade(front);
      if last.Batch? && c.unqueuedActions != [] {
        QueuedSnoc(Batches(front), Update(last.newId, c.unqueuedActions));
      }
      if last.LocalAction? {
        assert Queued(Batches(front)) + (c.unqueuedActions + [last.action]) ==
          (Queued(Batches(front)) + c.unqueuedActions) + [last.action];
      }
    }
  }

  lemma RemovedIsAcknowledged(updates: seq<Update>, updateId: Option<string>, u: Update)
    requires u in updates && updateId != Some(u.updateId)
    ensures u in WithoutUpdate(updates, updateId)
  {
    var i := FindUpdate(updates, updateId);
    var k :| 0 <= k < |updates| && updates[k] == u;
    if i < |updates| {
      assert i != k;
      assert WithoutUpdate(updates, updateId)[if k < i then k else k - 1] == u;
    }
  }

  /** A queued update stays queued until a network update with its id arrives, whatever else
      happens. */
  lemma {:induction false} QueuedUntilAcknowledged(events: seq<Event>, k: nat, u: Update)
    requires k <= |events| && u in Run(events[..k]).queuedUpdates
    requires forall i :: k <= i < |events| && events[i].NetworkUpdate? ==> events[i].updateId != Some(u.updateId)
    ensures u in Run(events).queuedUpdates
  {
    hide ApplyAll, ApplyAction, LocalView, WithoutUpdate;
    if k == |events| {
      assert events[..k] == events;
    } else {
      var front, last := events[..|events| - 1], events[|events| - 1];
      assert front[..k] == events[..k];
      QueuedUntilAcknowledged(front, k, u);
      if last.NetworkUpdate? {
        RemovedIsAcknowledged(Run(front).queuedUpdates, last.updateId, u);
      }
    }
  }

  class MergeState {
    var network: ClientBoard.ClientBoard
    var local: ClientBoard.ClientBoard
    var queuedUpdates: seq<Update>
    var unqueuedActions: seq<ClientAction>
    /** All local actions ever made, and the batches ever queued. */
    ghost var made: seq<ClientAction>
    ghost var batches: seq<seq<ClientAction>>

    /** The local board is always the network board with everything pending on top, and the batches
        ever queued, followed by what is not yet queued, are exactly the local actions made. */
    ghost predicate Valid()
      reads this, network, local
    {
      && network != local
      && Sound(network.State())
      && Sound(local.State())
      && local.State() == LocalView(network.State(), queuedUpdates, unqueuedActions)
      && made == Flatten(batches) + unqueuedActions
    }

    ghost function Value(): Client
      reads this, network, local
    {
      Client(network.State(), local.State(), queuedUpdates, unqueuedActions)
    }

    constructor ()
      ensures Valid() && fresh(network) && fresh(local)
      ensures Value() == START
      ensures network.State() == local.State() == EMPTY_BOARD
      ensures queuedUpdates == [] && unqueuedActions == [] && made == [] && batches == []
    {
      network := new ClientBoard.ClientBoard();
      local := new ClientBoard.ClientBoard();
      queuedUpdates, unqueuedActions, made, batches := [], [], [], [];
      new;
      assert Queued([]) + unqueuedActions == [];
    }

    /** Applies actions to a board one by one. */
    method ApplyTo(board: ClientBoard.ClientBoard, actions: seq<ClientAction>, isConfirmed: bool)
      requires Sound(board.State())
      modifies board
      ensures board.State() == ApplyAll(old(board.State()), actions, isConfirmed)
      ensures Sound(board.State())
    {
      hide Sound, ApplyAction;
      for i := 0 to |actions|
        invariant board.State() == ApplyAll(old(board.State()), actions[..i], isConfirmed)
        invariant Sound(board.State())
      {
        assert actions[..i + 1][..i] == actions[..i];
        board.ApplyAction(actions[i], isConfirmed);
      }
      assert actions[..|actions|] == actions;
    }

    method ApplyNetworkUpdate(actions: seq<ClientAction>, updateId: Option<string>)
      requires Valid()
      modifies this, network
      ensures Valid() && network == old(network) && fresh(local)
      ensures Value() == Next(old(Value()), NetworkUpdate(actions, updateId))
      ensures network.State() == ApplyAll(old(network.State()), actions, true)
      ensures queuedUpdates == WithoutUpdate(old(queuedUpdates), updateId)
      ensures unqueuedActions == old(unqueuedActions) && made == old(made) && batches == old(batches)
      ensures AcknowledgesOldest(old(queuedUpdates), updateId, actions) ==>
        Plain(local.State()) == Plain(old(local.State()))
    {
      hide Sound, ApplyAction, ApplyAll, Plain, FindUpdate, Flatten;
      ghost var before := queuedUpdates;
      ghost var was := network.State();
      ApplyTo(network, actions, true);

      var updateIdx := FindUpdate(queuedUpdates, updateId);
      if updateIdx < |queuedUpdates| {
        queuedUpdates := queuedUpdates[..updateIdx] + queuedUpdates[updateIdx + 1..];
      }
      RebuildLocal();
      if AcknowledgesOldest(before, updateId, actions) {
        AcknowledgedIsOldest(before, updateId, actions);
        AcknowledgingKeepsLocalBoard(was, before[0], queuedUpdates, unqueuedActions);
      }
    }

    /** New local state is the network state with pending and unqueued actions on top. */
    method RebuildLocal()
      requires Sound(network.State())
      modifies this`local
      ensures fresh(local) && Sound(local.State())
      ensures local.State() == LocalView(network.State(), queuedUpdates, unqueuedActions)
    {
      hide Sound, ApplyAction, ApplyAll, Queued;
      var draft := new ClientBoard.ClientBoard.CopyOf(network);
      ApplyQueued(draft);
      ApplyTo(draft, unqueuedActions, false);
      ApplyAllConcat(network.State(), Queued(queuedUpdates), unqueuedActions, false);
      local := draft;
    }

    method ApplyQueued(draft: ClientBoard.ClientBoard)
      requires Sound(draft.State())
      modifies draft
      ensures draft.State() == ApplyAll(old(draft.State()), Queued(queuedUpdates), false)
      ensures Sound(draft.State())
    {
      hide Sound, ApplyAction;
      var updates := queuedUpdates;
      ghost var base := draft.State();
      assert ApplyAll(base, Queued(updates[..0]), false) == base;
      hide ApplyAll;
      for i := 0 to |updates|
        invariant draft.State() == ApplyAll(base, Queued(updates[..i]), false)
        invariant Sound(draft.State())
      {
        assert updates[..i + 1][..i] == updates[..i];
        ApplyAllConcat(base, Queued(updates[..i]), updates[i].actions, false);
        ApplyTo(draft, updates[i].actions, false);
      }
      assert updates[..|updates|] == updates;
    }

    method ApplyLocalAction(action: ClientAction)
      requires Valid()
      modifies this, local
      ensures Valid() && network == old(network) && local == old(local)
      ensures Value() == Next(old(Value()), LocalAction(action))
      ensures local.State() == ClientTables.ApplyAction(old(local.State()), action, false)
      ensures queuedUpdates == old(queuedUpdates) && unqueuedActions == old(unqueuedActions) + [action]
      ensures made == old(made) + [action] && batches == old(batches)
    {
      hide Sound, ApplyAction, Flatten;
      ghost var pending := Queued(queuedUpdates) + unqueuedActions;
      unqueuedActions := unqueuedActions + [action];
      made := made + [action];
      assert Queued(queuedUpdates) + unqueuedActions == pending + [action];
      assert (pending + [action])[..|pending|] == pending;
      local.ApplyAction(action, false);
    }

    /** collectUpdate: everything not yet queued becomes one update. */
    method CollectUpdate(updateId: string)
      requires Valid()
      modifies this
      ensures Valid() && network == old(network) && local == old(local)
      ensures Value() == Next(old(Value()), Batch(updateId))
      ensures unqueuedActions == []
      ensures queuedUpdates == if old(unqueuedActions) == [] then old(queuedUpdates)
                               else old(queuedUpdates) + [Update(updateId, old(unqueuedActions))]
      ensures batches == if old(unqueuedActions) == [] then old(batches) else old(batches) + [old(unqueuedActions)]
      ensures made == old(made)
    {
      hide Sound, ApplyAction, ApplyAll, Flatten, Queued;
      if unqueuedActions == [] {
        return;
      }
      var update := Update(updateId, unqueuedActions);
      QueuedSnoc(queuedUpdates, update);
      FlattenConcat(batches, [unqueuedActions]);
      FlattenOne(unqueuedActions);
      batches := batches + [unqueuedActions];
      assert Queued(queuedUpdates) + unqueuedActions == (Queued(queuedUpdates) + unqueuedActions) + [];
      unqueuedActions := [];
      queuedUpdates := queuedUpdates + [update];
      assert made == Flatten(batches) + unqueuedActions;
    }

    /** sendUpdates: what is put on the wire. With a request id that is not queued yet it is exactly
        the actions that were waiting. */
    method SendUpdates(connected: bool, requestId: string) returns (sent: Option<Update>)
      requires Valid()
      modifies this
      ensures Valid() && network == old(network) && local == old(local) && made == old(made)
      ensures sent.Some? <==> connected && old(unqueuedActions) != []
      ensures sent.None? ==>
        unqueuedActions == old(unqueuedActions) && queuedUpdates == old(queuedUpdates) && batches == old(batches)
      ensures sent.Some? ==>
        && unqueuedActions == []
        && batches == old(batches) + [old(unqueuedActions)]
        && (sent.value == Update(requestId, old(unqueuedActions))
            <==> FindUpdate(old(queuedUpdates), Some(requestId)) == |old(queuedUpdates)|
                 || old(queuedUpdates)[FindUpdate(old(queuedUpdates), Some(requestId))].actions == old(unqueuedActions))
    {
      if unqueuedActions == [] || !connected {
        return None;
      }
      hide Valid;
      CollectUpdate(requestId);
      FindInExtended(old(queuedUpdates), Update(requestId, old(unqueuedActions)));
      var i := FindUpdate(queuedUpdates, Some(requestId));
      return Some(queuedUpdates[i]);
    }

    // ----- Reducers -----

    method ReceiveInitialState(tokens: seq<ClientToken>)
      requires Valid()
      modifies this, network
      ensures Valid() && network == old(network) && fresh(local)
      ensures network.State() == ApplyAll(old(network.State()), TokenUpserts(tokens), true)
      ensures queuedUpdates == old(queuedUpdates) && unqueuedActions == old(unqueuedActions)
      ensures made == old(made) && batches == old(batches)
    {
      ApplyNetworkUpdate(TokenUpserts(tokens), None);
    }

    /** clear deletes every entity of the local board, one local action each, and leaves it empty. */
    method Clear()
      requires Valid()
      modifies this, local
      ensures Valid() && network == old(network) && local == old(local)
      ensures local.entityById == map[] && local.tokenIdsByPosStr == map[]
      ensures queuedUpdates == old(queuedUpdates) && batches == old(batches)
      ensures |made| == |old(made)| + |old(local.entityById)| && old(made) <= made
      ensures forall i :: |old(made)| <= i < |made| ==> made[i].DeleteId? && made[i].entityId in old(local.entityById)
    {
      hide Sound, LocalView, Flatten, Queued, ClientTables.DeleteEntity;
      var ids := local.entityById.Keys;
      ghost var all := ids;
      while ids != {}
        invariant Valid() && network == old(network) && local == old(local)
        invariant ids == local.entityById.Keys && ids <= all
        invariant queuedUpdates == old(queuedUpdates) && batches == old(batches)
        invariant |made| + |ids| == |old(made)| + |all| && old(made) <= made
        invariant forall i :: |old(made)| <= i < |made| ==> made[i].DeleteId? && made[i].entityId in all
        decreases ids
      {
        var id :| id in ids;
        DeleteRemovesKey(local.State(), id);
        ApplyLocalAction(DeleteId(id));
        ids := ids - {id};
      }
      assert local.entityById == map[];
      EmptyIndex(local.State());
    }

    /** dragEnded inside the board: a character that is still there moves, keeping its kind, its
        contents and its colour, or stays where it is when the cell is taken by another token. */
    method DragMoved(tokenId: string, x: int, y: int)
      requires Valid()
      requires tokenId in local.entityById ==>
        local.entityById[tokenId].TokenEntity? && local.entityById[tokenId].token.kind.Character?
      modifies this, local
      ensures Valid() && network == old(network) && local == old(local)
      ensures queuedUpdates == old(queuedUpdates) && batches == old(batches)
      ensures tokenId !in old(local.entityById) ==> local.State() == old(local.State()) && made == old(made)
      ensures tokenId in old(local.entityById) ==>
        var was := old(local.entityById)[tokenId].token;
        var moved := was.(pos := Cell(x, y, CHARACTER_HEIGHT));
        && made == old(made) + [UpsertToken(moved)]
        && tokenId in local.entityById
        && local.entityById[tokenId] ==
             (if Collides(old(local.State()), TokenEntity(moved)) then old(local.entityById)[tokenId]
              else TokenEntity(moved))
    {
      if tokenId !in local.entityById {
        return;
      }
      var token := local.entityById[tokenId].token;
      assert token.id == tokenId;
      var newToken := token.(pos := Cell(x, y, CHARACTER_HEIGHT));
      hide Valid;
      UnconfirmedUpsert(local.State(), TokenEntity(newToken));
      ApplyLocalAction(UpsertToken(newToken));
    }
  }

  function TokenUpserts(tokens: seq<ClientToken>): (r: seq<ClientAction>)
    ensures |r| == |tokens|
    ensures forall i :: 0 <= i < |r| ==> r[i] == UpsertToken(tokens[i])
  {
    seq(|tokens|, i requires 0 <= i < |tokens| => UpsertToken(tokens[i]))
  }

  lemma FindInExtended(updates: seq<Update>, u: Update)
    ensures FindUpdate(updates + [u], Some(u.updateId)) == FindUpdate(updates, Some(u.updateId))
  {
    var i := FindUpdate(updates, Some(u.updateId));
    var j := FindUpdate(updates + [u], Some(u.updateId));
    assert (updates + [u])[i] == if i < |updates| then updates[i] else u;
    assert forall k :: 0 <= k < |updates| ==> (updates + [u])[k] == updates[k];
    assert forall k :: 0 <= k < i ==> (updates + [u])[k].updateId != u.updateId;
  }

  lemma DeleteRemovesKey(b: BoardState, id: string)
    ensures DeleteEntity(b, id).entityById.Keys == b.entityById.Keys - {id}
  {
  }

  lemma OwnersAreEntities(b: BoardState)
    requires Sound(b)
    ensures b.tokenIdsByPosStr.Values <= b.entityById.Keys
  {
  }

  lemma EmptyIndex(b: BoardState)
    requires Sound(b) && b.entityById == map[]
    ensures b.tokenIdsByPosStr == map[]
  {
    hide Sound;
    OwnersAreEntities(b);
    assert b.tokenIdsByPosStr.Values == {};
  }

  lemma UnconfirmedUpsert(b: BoardState, e: Entity)
    requires EntityId(e) in b.entityById || !Collides(b, e)
    ensures EntityId(e) in UpsertEntity(b, e, false).entityById
    ensures UpsertEntity(b, e, false).entityById[EntityId(e)] ==
      if Collides(b, e) then b.entityById[EntityId(e)] else e
  {
  }
}
