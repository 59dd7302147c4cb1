/** Replacing a log by upserts of the tokens it leaves: api/src/compaction.py:53-55 and 96-100. */
module CompactedLog {
  import opened Sequences
  import opened Components
  import opened Coloring
  import opened Board
  import opened RoomTables
  import opened RoomIcons

  /** _tokens_to_actions. */
  method TokensToActions(tokens: seq<Token>) returns (actions: seq<Action>)
    ensures actions == Upserts(tokens)
  {
    actions := [];
    for i := 0 to |tokens|
      invariant actions == Upserts(tokens)[..i]
    {
      actions := actions + [Upsert(tokens[i])];
    }
  }

  /** The log that compaction puts in place of log; create_room may raise, and then it is aborted. */
  ghost function Compacted(log: seq<Action>): Option<seq<Action>>
    requires Named(log)
  {
    if CreateRoom(log).Ok? then
      CreateRoomRefines(log);
      Some(Upserts(Values(CreateRoom(log).room)))
    else None
  }

  lemma ValuesPieces(s: RoomState)
    requires Keyed(s)
    ensures Bares(Values(s)) == Pieces(s)
  {
    hide Keyed;
  }

  lemma UpsertsNamed(s: RoomState)
    requires Keyed(s)
    ensures Named(Upserts(Values(s)))
  {
  }

  /** The compacted log means what the log means, and replaying it never raises. */
  lemma {:induction false} CompactedMeansSame(log: seq<Action>)
    requires Named(log) && CreateRoom(log).Ok?
    ensures var compacted := Compacted(log).value;
      && Named(compacted)
      && Stable([], compacted)
      && Replay(compacted) == Replay(log)
  {
    CreateRoomRefines(log);
    var s := CreateRoom(log).room;
    ValuesPieces(s);
    PiecesDistinct(s);
    UpsertsNamed(s);
    UpsertsAreStable(Values(s));
    ReplayUpserts(Values(s));
  }

  /** Compaction preserves meaning: whatever is appended after the prefix, the compacted log and the
      original replay to the same tokens in the same order, colours aside. */
  lemma {:induction false} CompactionPreservesMeaning(prefix: seq<Action>, suffix: seq<Action>)
    requires Named(prefix) && CreateRoom(prefix).Ok?
    ensures Replay(Compacted(prefix).value + suffix) == Replay(prefix + suffix)
  {
    CompactedMeansSame(prefix);
    ReplayAppend(Compacted(prefix).value, prefix, suffix);
  }

  lemma NamedConcat(x: seq<Action>, y: seq<Action>)
    ensures Named(x + y) <==> Named(x) && Named(y)
  {
    var z := x + y;
    if Named(z) {
      forall i | 0 <= i < |x| && x[i].Upsert? ensures x[i].token.id != "" {
        assert z[i] == x[i];
      }
      forall i | 0 <= i < |y| && y[i].Upsert? ensures y[i].token.id != "" {
        assert z[|x| + i] == y[i];
      }
    }
  }

  /** The same on rooms: a suffix that keeps the looks of live characters never makes the
      compacted room raise (even when the prefix did change them), and the room holds the tokens
      that replaying everything gives. */
  lemma CompactedRoomNeverRaises(prefix: seq<Action>, suffix: seq<Action>)
    requires Named(prefix) && Named(suffix) && CreateRoom(prefix).Ok?
    requires Stable(Replay(prefix), suffix)
    ensures var log := Compacted(prefix).value + suffix;
      && CreateRoom(log).Ok?
      && Indexed(CreateRoom(log).room) && Listed(CreateRoom(log).room)
      && Pieces(CreateRoom(log).room) == Replay(prefix + suffix)
      && (CreateRoom(prefix + suffix).Ok? ==>
            Keyed(CreateRoom(prefix + suffix).room)
            && Pieces(CreateRoom(prefix + suffix).room) == Pieces(CreateRoom(log).room))
  {
    var compacted := Compacted(prefix).value;
    CompactedMeansSame(prefix);
    StableConcat([], compacted, suffix);
    NamedConcat(compacted, suffix);
    NamedConcat(prefix, suffix);
    StableLogsNeverRaise(compacted + suffix);
    CompactionPreservesMeaning(prefix, suffix);
    if CreateRoom(prefix + suffix).Ok? {
      CreateRoomRefines(prefix + suffix);
    }
  }
}
