/** The server side of a connection, with the memory store: api/src/game_state_server.py:44-151. The
    generator's effects are methods, in the order in which handle_connection performs them. */
module GameStateServer {
  import opened Sequences
  import opened Components
  import opened Board
  import opened RoomTables
  import opened CompactedLog
  import opened StoreState
  import opened RoomStores
  import RoomObject = Room
  import ArchiveProtocol
  import Connection

  /** The store after some requests were added to a room. */
  function AddAll(s: Memory, room: string, requests: seq<Request>): Memory
  {
    if requests == [] then s
    else MemoryAdd(AddAll(s, room, requests[..|requests| - 1]), room, requests[|requests| - 1])
  }

  /** What is stored then means what was stored before, with all the requests on top. */
  lemma {:induction false} AddAllMeans(s: Memory, room: string, requests: seq<Request>)
    ensures Replay(Stored(AddAll(s, room, requests), room)) ==
      Fold(Replay(Stored(s, room)), Connection.Actions(requests))
  {
    hide NonPing;
    if requests != [] {
      var front, last := requests[..|requests| - 1], requests[|requests| - 1];
      AddAllMeans(s, room, front);
      var stored := Stored(AddAll(s, room, front), room);
      assert NonPing(last.actions) == [] ==> stored + NonPing(last.actions) == stored;
      FoldConcat([], stored, NonPing(last.actions));
      ArchiveProtocol.FoldIgnoresPings(Replay(stored), last.actions);
      FoldConcat(Replay(Stored(s, room)), Connection.Actions(front), last.actions);
    }
  }

  class GameStateServer {
    const roomStore: MemoryRoomStore

    constructor (roomStore: MemoryRoomStore)
      ensures this.roomStore == roomStore
    {
      this.roomStore := roomStore;
    }

    /** _process_requests: every request of the client is stored and published. */
    method ProcessRequests(room: string, requests: seq<Request>)
      modifies roomStore
      ensures roomStore.State() == AddAll(old(roomStore.State()), room, requests)
      ensures |roomStore.subscriptions| == |old(roomStore.subscriptions)|
      ensures forall i :: 0 <= i < |roomStore.subscriptions| ==>
        var was := old(roomStore.subscriptions)[i];
        roomStore.subscriptions[i] == if was.room == room then was.(items := was.items + requests) else was
    {
      for k := 0 to |requests|
        invariant roomStore.State() == AddAll(old(roomStore.State()), room, requests[..k])
        invariant |roomStore.subscriptions| == |old(roomStore.subscriptions)|
        invariant forall i :: 0 <= i < |roomStore.subscriptions| ==>
          var was := old(roomStore.subscriptions)[i];
          roomStore.subscriptions[i] == if was.room == room then was.(items := was.items + requests[..k]) else was
      {
        assert requests[..k + 1] == requests[..k] + [requests[k]];
        assert requests[..k + 1][..k] == requests[..k];
        forall i | 0 <= i < |roomStore.subscriptions|
          ensures var items := old(roomStore.subscriptions)[i].items;
            items + requests[..k + 1] == (items + requests[..k]) + [requests[k]]
        {
        }
        roomStore.AddRequest(room, requests[k]);
      }
      assert requests[..|requests|] == requests;
    }

    /** Subscribe, check, read, reply. While the connection waits for its turn after subscribing, and
        again after checking, others make the requests in first and in second. Whatever they make is
        in the queue, because the connection subscribed before; and it is in the reply, because the
        connection reads last. roomSlot says whether the rate limiter grants a new room. The reply is
        missing when it does not, or when create_room raises; otherwise it holds, in order and colours
        aside, the tokens that everything stored means. */
    method Connect(room: string, roomSlot: bool, first: seq<Request>, second: seq<Request>)
      returns (queue: nat, reply: Option<seq<Token>>)
      requires Named(Stored(AddAll(AddAll(roomStore.State(), room, first), room, second), room))
      modifies roomStore
      ensures queue == |old(roomStore.subscriptions)| && |roomStore.subscriptions| == queue + 1
      ensures var checked := AddAll(old(roomStore.State()), room, first);
        var final := AddAll(checked, room, second);
        var turnedAway := room !in checked.rooms && !roomSlot;
        && roomStore.State() == (if turnedAway then checked else final)
        && roomStore.subscriptions[queue] == Subscription(room, if turnedAway then first else first + second)
        && (reply.None? <==> turnedAway || RoomTables.CreateRoom(Stored(final, room)).Raised?)
        && (reply.Some? ==> Bares(reply.value) == Replay(Stored(final, room)))
    {
      hide RoomTables.CreateRoom, Keyed, AddAll, Stored;
      queue := roomStore.Changes(room);
      ProcessRequests(room, first);
      var roomExists := roomStore.RoomExists(room);
      if !roomExists && !roomSlot {
        return queue, None;
      }
      ProcessRequests(room, second);
      var actions := roomStore.Read(room);
      var gameState, ok := RoomObject.CreateRoom(actions);
      if !ok {
        return queue, None;
      }
      CreateRoomRefines(actions);
      ValuesPieces(gameState.State());
      var tokens := gameState.GameStateValues();
      reply := Some(tokens);
    }

    /** _requests_to_messages: everything that waits in the queue is sent, in order. */
    method Stream(queue: nat) returns (messages: seq<Request>)
      requires queue < |roomStore.subscriptions|
      modifies roomStore
      ensures messages == old(roomStore.subscriptions)[queue].items
      ensures roomStore.State() == old(roomStore.State())
      ensures roomStore.subscriptions ==
        old(roomStore.subscriptions)[queue := old(roomStore.subscriptions)[queue].(items := [])]
    {
      messages := [];
      var request := roomStore.NextChange(queue);
      while request.Some?
        invariant roomStore.State() == old(roomStore.State())
        invariant |roomStore.subscriptions| == |old(roomStore.subscriptions)|
        invariant roomStore.subscriptions == old(roomStore.subscriptions)[queue := roomStore.subscriptions[queue]]
        invariant roomStore.subscriptions[queue].room == old(roomStore.subscriptions)[queue].room
        invariant messages + (if request.Some? then [request.value] else []) + roomStore.subscriptions[queue].items
          == old(roomStore.subscriptions)[queue].items
        invariant request.None? ==> roomStore.subscriptions[queue].items == []
        decreases |roomStore.subscriptions[queue].items|, request.Some?
      {
        ghost var items := roomStore.subscriptions[queue].items;
        messages := messages + [request.value];
        request := roomStore.NextChange(queue);
        assert items != [] ==> items == [items[0]] + items[1..];
      }
    }
  }
}
