/**
 * The server's seat table `players = {white, black}` and the rules that fill,
 * vacate and consult it: seats go out in connection order, a disconnect only
 * vacates, and a move is authorised only for the holder of the seat whose
 * turn it is.
 */
module Seats {
  import opened ChessOracle

  /** A socket.io connection id. The transport never hands out the same id twice. */
  type ConnId = nat

  datatype Table = Table(white: Option<ConnId>, black: Option<ConnId>)

  const Empty := Table(None, None)

  /** What a new connection is told: a seat colour ("playerRole") or "spectatorRole". */
  datatype Role = Seat(color: Color) | Spectator

  function Holder(t: Table, c: Color): Option<ConnId>
  {
    if c == White then t.white else t.black
  }

  predicate Holds(t: Table, id: ConnId)
  {
    t.white == Some(id) || t.black == Some(id)
  }

  /** Seat exclusivity: no connection holds both seats. */
  predicate Exclusive(t: Table)
  {
    t.white.Some? && t.black.Some? ==> t.white.value != t.black.value
  }

  /** Every seat holder is a connection the transport has handed out. */
  predicate SeatedAmong(t: Table, seen: set<ConnId>)
  {
    (t.white.Some? ==> t.white.value in seen) && (t.black.Some? ==> t.black.value in seen)
  }

  /** The connection handler's seat choice: white if vacant, else black if vacant, else spectator. */
  function Assign(t: Table, id: ConnId): (r: (Table, Role))
    ensures r.1 == Seat(White) <==> t.white == None
    ensures r.1 == Seat(Black) <==> t.white != None && t.black == None
    ensures r.1 == Spectator <==> t.white != None && t.black != None
    ensures r.1.Seat? ==>
      && Holder(t, r.1.color) == None
      && Holder(r.0, r.1.color) == Some(id)
      && Holder(r.0, Opponent(r.1.color)) == Holder(t, Opponent(r.1.color))
    ensures r.1 == Spectator ==> r.0 == t
  {
    if t.white == None then (t.(white := Some(id)), Seat(White))
    else if t.black == None then (t.(black := Some(id)), Seat(Black))
    else (t, Spectator)
  }

  /** The disconnect handler: the white holder frees white, else the black holder frees black. */
  function Vacate(t: Table, id: ConnId): (r: Table)
    ensures t.white == Some(id) ==> r.white == None && r.black == t.black
    ensures t.white != Some(id) && t.black == Some(id) ==> r.white == t.white && r.black == None
    ensures !Holds(t, id) ==> r == t
    ensures Exclusive(t) ==> !Holds(r, id)
    // no seat is ever handed to anyone: each seat keeps its holder or becomes vacant
    ensures forall c :: Holder(r, c) == Holder(t, c) || Holder(r, c) == None
  {
    if t.white == Some(id) then t.(white := None)
    else if t.black == Some(id) then t.(black := None)
    else t
  }

  /** The move handler's guard, as written: the turn's seat is not held by the requester. */
  predicate NotYourTurn(t: Table, turn: Color, id: ConnId): (r: bool)
    ensures r <==> Holder(t, turn) != Some(id)
  {
    (turn == White && t.white != Some(id)) || (turn == Black && t.black != Some(id))
  }

  lemma NotYourTurnMeansNotTheHolder(t: Table, turn: Color, id: ConnId)
    ensures NotYourTurn(t, turn, id) <==> Holder(t, turn) != Some(id)
    // spectators never pass the guard
    ensures !Holds(t, id) ==> NotYourTurn(t, turn, id)
    // a vacant turn seat lets nobody move
    ensures Holder(t, turn) == None ==> NotYourTurn(t, turn, id)
    // the holder of the other seat is refused
    ensures Exclusive(t) && Holder(t, Opponent(turn)) == Some(id) ==> NotYourTurn(t, turn, id)
  {
  }

  lemma AtMostOneMover(t: Table, turn: Color, a: ConnId, b: ConnId)
    requires !NotYourTurn(t, turn, a) && !NotYourTurn(t, turn, b)
    ensures a == b
  {
  }

  // ---------------------------------------------------------------------------
  // Sequences of connect and disconnect events

  datatype SeatEvent = Connected(id: ConnId) | Disconnected(id: ConnId)

  function Step(t: Table, e: SeatEvent): Table
  {
    match e
    case Connected(id) => Assign(t, id).0
    case Disconnected(id) => Vacate(t, id)
  }

  function Replay(t: Table, es: seq<SeatEvent>): Table
    decreases |es|
  {
    if es == [] then t else Replay(Step(t, es[0]), es[1..])
  }

  /** Every connect in `es` brings an id never seen before (socket.io's fresh ids). */
  predicate FreshConnects(es: seq<SeatEvent>, seen: set<ConnId>)
    decreases |es|
  {
    es == [] ||
    match es[0]
    case Connected(id) => id !in seen && FreshConnects(es[1..], seen + {id})
    case Disconnected(_) => FreshConnects(es[1..], seen)
  }

  /** Seat exclusivity holds after any run of events whose connects bring fresh ids. */
  lemma {:induction false} ReplayKeepsExclusive(t: Table, es: seq<SeatEvent>, seen: set<ConnId>)
    requires Exclusive(t) && SeatedAmong(t, seen) && FreshConnects(es, seen)
    ensures Exclusive(Replay(t, es))
    decreases |es|
  {
    if es != [] {
      match es[0]
      case Connected(id) =>
        ReplayKeepsExclusive(Step(t, es[0]), es[1..], seen + {id});
      case Disconnected(id) =>
        ReplayKeepsExclusive(Step(t, es[0]), es[1..], seen);
    }
  }

  /**
   * A connection that does not hold a seat never gets one unless it connects
   * again: a spectator is not promoted when a seat is vacated.
   */
  lemma {:induction false} SpectatorNeverSeated(t: Table, es: seq<SeatEvent>, s: ConnId)
    requires !Holds(t, s)
    requires forall i :: 0 <= i < |es| ==> es[i] != Connected(s)
    ensures !Holds(Replay(t, es), s)
    decreases |es|
  {
    if es != [] {
      SpectatorNeverSeated(Step(t, es[0]), es[1..], s);
    }
  }

  /**
   * At a full table, the seat a player leaves goes to the next new
   * connection, and the other player keeps theirs.
   */
  lemma NextConnectTakesVacatedSeat(t: Table, leaving: ConnId, id: ConnId)
    requires Exclusive(t) && t.white.Some? && t.black.Some? && Holds(t, leaving)
    ensures var (r, role) := Assign(Vacate(t, leaving), id);
      && role.Seat?
      && Holder(t, role.color) == Some(leaving)
      && Holder(r, role.color) == Some(id)
      && Holder(r, Opponent(role.color)) == Holder(t, Opponent(role.color))
  {
  }

  lemma WhitePreferredWhenBothVacant(t: Table, id: ConnId)
    requires t.white == None && t.black == None
    ensures Assign(t, id) == (Table(Some(id), None), Seat(White))
  {
  }

  // ---------------------------------------------------------------------------
  // Connection order

  /** Connects each id in turn; returns the final table and the role each id was told. */
  function ConnectAll(t: Table, ids: seq<ConnId>): (r: (Table, seq<Role>))
    ensures |r.1| == |ids|
    decreases |ids|
  {
    if ids == [] then (t, [])
    else
      var (t1, role) := Assign(t, ids[0]);
      var (t2, roles) := ConnectAll(t1, ids[1..]);
      (t2, [role] + roles)
  }

  /** The role of the i-th connection to an empty table (0-based). */
  function ArrivalRole(i: nat): Role
  {
    if i == 0 then Seat(White) else if i == 1 then Seat(Black) else Spectator
  }

  lemma {:induction false} FullTableOnlySpectates(t: Table, ids: seq<ConnId>)
    requires t.white.Some? && t.black.Some?
    ensures ConnectAll(t, ids).0 == t
    ensures forall i :: 0 <= i < |ids| ==> ConnectAll(t, ids).1[i] == Spectator
    decreases |ids|
  {
    if ids != [] {
      FullTableOnlySpectates(t, ids[1..]);
    }
  }

  /**
   * From an empty table the first connection is white, the second black and
   * every later one a spectator; the seats hold the first two ids.
   */
  lemma {:induction false} ConnectionOrder(ids: seq<ConnId>)
    ensures var (t, roles) := ConnectAll(Empty, ids);
      (forall i :: 0 <= i < |ids| ==> roles[i] == ArrivalRole(i))
      && t.white == (if |ids| >= 1 then Some(ids[0]) else None)
      && t.black == (if |ids| >= 2 then Some(ids[1]) else None)
  {
    if |ids| >= 2 {
      var t2 := Table(Some(ids[0]), Some(ids[1]));
      FullTableOnlySpectates(t2, ids[2..]);
      assert ids[1..][1..] == ids[2..];
    }
  }
}
