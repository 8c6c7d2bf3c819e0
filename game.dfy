/**
  The two peers together: what the handshake does to both boards, and that
  relaying every local move keeps the host's and the joining peer's boards
  equal, move after move, when the moves form one global order (each relayed
  move is applied by the peer before either side moves again) and the
  handshake completes before either side's first move. It also shows three
  schedules the program allows on which the boards drift apart: moves
  crossing in flight, a joining peer's move before the acknowledgement, and
  a host move before the request is answered.
 */
module Game {
  import opened Wrappers
  import opened Chess
  import opened Networking
  import opened Net
  import opened Gui

  /** The handshake: the host answers the joining peer's request with the fixed
      acceptance and keeps its board; on that acceptance the joining peer drops
      its board for the default position. */
  lemma Handshake(hostBoard: Board, clientBoard: Board)
    ensures RecvServerStep(hostBoard, CONNECT_REQUEST) == ServerStep(hostBoard, Some(CONNECT_ACK))
    ensures RecvClientStep(clientBoard, CONNECT_ACK) == Continue(NewBoard())
  {
  }

  /** The host moves the king's pawn two squares: the wire carries indices 12
      and 28 in a server-origin envelope, and the joining peer applies that same
      move to its board. */
  lemma RelayKingsPawn(clientBoard: Board)
    ensures var m := Move(Square(1, 4), Square(3, 4));
      MovePacket(m, true) == ServerPacket(S2cMessage(Some(S2cMove(WireMove(12, 28, None))))) &&
      RecvClientStep(clientBoard, MovePacket(m, true).s2c) == Continue(MakeMove(clientBoard, m))
  {
  }

  /** One move of the game, made on the host or on the joining peer. */
  datatype Turn = HostTurn(m: Move) | ClientTurn(m: Move)

  function MovesOf(turns: seq<Turn>): (ms: seq<Move>)
    ensures |ms| == |turns|
    ensures forall k :: 0 <= k < |turns| ==> ms[k] == turns[k].m
  {
    if turns == [] then [] else MovesOf(turns[..|turns| - 1]) + [turns[|turns| - 1].m]
  }

  /** The host's board after the turns: its own moves applied by `update`, the
      peer's moves as `recv_server` applies the envelopes the peer relayed. */
  function HostBoard(b: Board, turns: seq<Turn>): Board {
    if turns == [] then b
    else
      var prev := HostBoard(b, turns[..|turns| - 1]);
      match turns[|turns| - 1]
      case HostTurn(m) => MakeMove(prev, m)
      case ClientTurn(m) => RecvServerStep(prev, MovePacket(m, false).c2s).board
  }

  /** The joining peer's board after the turns: the host's moves as
      `recv_client` applies the envelopes the host relayed, its own moves
      applied by `update`; a panic of the receive thread ends the run. */
  function ClientBoard(b: Board, turns: seq<Turn>): ClientStep {
    if turns == [] then Continue(b)
    else
      match ClientBoard(b, turns[..|turns| - 1])
      case Fatal(reason) => Fatal(reason)
      case Continue(prev) =>
        match turns[|turns| - 1]
        case HostTurn(m) => RecvClientStep(prev, MovePacket(m, true).s2c)
        case ClientTurn(m) => Continue(MakeMove(prev, m))
  }

  /** Starting from the same board, the two peers stay on the same board after
      every turn, and that board is the start plus the moves in order. The
      turns form one global order: each relayed envelope is applied by the
      peer before either side moves again. Nothing in the program enforces
      that order; `CrossingMovesDiverge` shows what happens without it. */
  lemma {:induction false} TurnsKeepBoardsInSync(b: Board, turns: seq<Turn>)
    requires forall k :: 0 <= k < |turns| ==> OnBoardMove(turns[k].m)
    ensures HostBoard(b, turns).history == b.history + MovesOf(turns)
    ensures ClientBoard(b, turns) == Continue(HostBoard(b, turns))
  {
    if turns != [] {
      var init := turns[..|turns| - 1];
      var last := turns[|turns| - 1];
      TurnsKeepBoardsInSync(b, init);
      MoveRoundTrip(last.m);
      assert MovesOf(turns) == MovesOf(init) + [last.m];
    }
  }

  /** The whole game from the handshake on: a fresh host and a joining peer
      with any board agree on the board after every turn, provided the
      handshake completes (the host answers the request and the joining peer
      processes the acknowledgement) before either side's first move. The
      program waits for neither; `EarlyMoveLostByHandshake` and
      `HostMoveBeforeAckLost` show what happens otherwise. */
  lemma GameStaysInSync(clientStart: Board, turns: seq<Turn>)
    requires forall k :: 0 <= k < |turns| ==> OnBoardMove(turns[k].m)
    ensures RecvClientStep(clientStart, CONNECT_ACK).Continue?
    ensures ClientBoard(RecvClientStep(clientStart, CONNECT_ACK).board, turns) == Continue(HostBoard(NewBoard(), turns))
  {
    Handshake(NewBoard(), clientStart);
    TurnsKeepBoardsInSync(NewBoard(), turns);
  }

  /** The moves of `ms`, each made on the host. */
  function HostTurns(ms: seq<Move>): seq<Turn> {
    seq(|ms|, k requires 0 <= k < |ms| => HostTurn(ms[k]))
  }

  /** Whatever frames the host's `update` sees, the joining peer that receives
      the envelopes it relayed ends on the host's board (given an engine whose
      legal moves stay on the board). */
  lemma {:induction false} HostFramesMirroredOnClient(
    selected: Option<Square>, b: Board, inputs: seq<FrameInput>, legal: LegalMoves)
    requires SoundOracle(legal)
    ensures var r := Run(selected, b, inputs, legal);
      ClientBoard(b, HostTurns(r.relayed)) == Continue(r.board)
  {
    var r := Run(selected, b, inputs, legal);
    RunRelaysOnlyGatedMoves(selected, b, inputs, legal);
    var turns := HostTurns(r.relayed);
    forall k | 0 <= k < |turns|
      ensures OnBoardMove(turns[k].m)
    {
      assert turns[k].m == r.relayed[k];
    }
    TurnsKeepBoardsInSync(b, turns);
    assert MovesOf(turns) == r.relayed;
  }

  /** Two moves crossing in flight: the host plays `h` and the joining peer
      plays `c` on the same board before either has read the other's envelope.
      Each applies its own move first, so the two peers apply `h` and `c` in
      opposite orders: their positions differ whenever the two moves do not
      commute. */
  lemma CrossingMovesDiverge(b: Board, h: Move, c: Move)
    requires OnBoardMove(h) && OnBoardMove(c) && h != c
    ensures var host := RecvServerStep(MakeMove(b, h), MovePacket(c, false).c2s).board;
      var client := RecvClientStep(MakeMove(b, c), MovePacket(h, true).s2c);
      host.history == b.history + [h, c] &&
      client == Continue(Board(b.history + [c, h])) &&
      client.board != host
  {
    MoveRoundTrip(h);
    MoveRoundTrip(c);
    var host := RecvServerStep(MakeMove(b, h), MovePacket(c, false).c2s).board;
    assert host.history[|b.history|] == h;
  }

  /** A move made by the joining peer before it has processed the host's
      acknowledgement: the host applies it to its fresh board, but the
      acknowledgement then resets the joining peer to the default position,
      so the move is lost on that side only. */
  lemma EarlyMoveLostByHandshake(m: Move)
    requires OnBoardMove(m)
    ensures var host := RecvServerStep(RecvServerStep(NewBoard(), CONNECT_REQUEST).board, MovePacket(m, false).c2s).board;
      var client := RecvClientStep(MakeMove(NewBoard(), m), CONNECT_ACK);
      host.history == NewBoard().history + [m] &&
      client == Continue(NewBoard()) &&
      client.board != host
  {
    MoveRoundTrip(m);
  }

  /** A move made by the host after `accept` but before its receive thread has
      read the connection request: the envelope for it is written before the
      acknowledgement, so the joining peer applies the move and then resets to
      the default position, while the host keeps the move. */
  lemma HostMoveBeforeAckLost(clientStart: Board, h: Move)
    requires OnBoardMove(h)
    ensures var host := RecvServerStep(MakeMove(NewBoard(), h), CONNECT_REQUEST).board;
      var afterMove := RecvClientStep(clientStart, MovePacket(h, true).s2c);
      afterMove.Continue? &&
      host.history == [h] &&
      RecvClientStep(afterMove.board, CONNECT_ACK) == Continue(NewBoard()) &&
      NewBoard() != host
  {
    MoveRoundTrip(h);
  }
}
