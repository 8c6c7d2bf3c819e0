/**
  The move-synchronisation protocol of src/net.rs: the square <-> linear index
  codec, the envelope `send_move` chooses by role, and what `recv_server`,
  `recv_client` and `recv_move` do to the shared board and the stream.
 */
module Net {
  import opened Wrappers
  import opened Chess
  import opened Networking

  const U32_MODULUS: int := 0x1_0000_0000

  // ---------------------------------------------------------------------
  // Square <-> linear index
  // ---------------------------------------------------------------------

  /** The wire index `send_move` gives a square: `column as u32 + (row * 8) as u32`.
      The casts and the addition wrap modulo 2^32 (Rust release semantics). */
  function EncodeIndex(s: Square): (i: u32)
    ensures OnBoard(s) ==> i == s.row * 8 + s.column && i < 64
  {
    (s.column + s.row * 8) % U32_MODULUS
  }

  /** The square `recv_move` rebuilds from a wire index: `(i / 8, i % 8)`.
      No range check is made; both parts always fit in an `i32`. */
  function DecodeIndex(i: u32): (s: Square)
    ensures 0 <= s.row && 0 <= s.column < 8 && s.row * 8 + s.column == i
    ensures OnBoard(s) <==> i < 64
  {
    Square(i / 8, i % 8)
  }

  /** Square -> index -> square is the identity on the board. */
  lemma DecodeEncode(s: Square)
    requires OnBoard(s)
    ensures DecodeIndex(EncodeIndex(s)) == s
  {
  }

  /** Index -> square -> index is the identity for every wire index. */
  lemma EncodeDecode(i: u32)
    ensures EncodeIndex(DecodeIndex(i)) == i
  {
  }

  /** The payload `send_move` builds from a move: both indices, no promotion. */
  function ToWire(m: Move): (w: WireMove)
    ensures w.promotion == None
    ensures OnBoardMove(m) ==> w.fromSquare < 64 && w.toSquare < 64
  {
    WireMove(EncodeIndex(m.from), EncodeIndex(m.to), None)
  }

  /** The move `recv_move` builds from a payload; the promotion is ignored. */
  function FromWire(w: WireMove): (m: Move)
    ensures OnBoardMove(m) <==> w.fromSquare < 64 && w.toSquare < 64
  {
    Move(DecodeIndex(w.fromSquare), DecodeIndex(w.toSquare))
  }

  /** A relayed on-board move is rebuilt exactly by the receiver: both peers
      apply the same move. */
  lemma MoveRoundTrip(m: Move)
    requires OnBoardMove(m)
    ensures FromWire(ToWire(m)) == m
  {
    DecodeEncode(m.from);
    DecodeEncode(m.to);
  }

  /** A received payload, re-encoded, is the payload without its promotion. */
  lemma WireRoundTrip(w: WireMove)
    ensures ToWire(FromWire(w)) == w.(promotion := None)
  {
    EncodeDecode(w.fromSquare);
    EncodeDecode(w.toSquare);
  }

  // ---------------------------------------------------------------------
  // Envelopes
  // ---------------------------------------------------------------------

  /** The envelope `send_move` writes: server-origin on the host, client-origin
      on the joining peer, the same move payload in both. */
  function MovePacket(m: Move, isServer: bool): (p: Packet)
    ensures p.ServerPacket? <==> isServer
    ensures isServer ==> p.s2c.msg == Some(S2cMove(ToWire(m)))
    ensures !isServer ==> p.c2s.msg == Some(C2sMove(ToWire(m)))
  {
    var s2c := S2cMessage(Some(S2cMove(ToWire(m))));
    var c2s := C2sMessage(Some(C2sMove(ToWire(m))));
    if isServer then ServerPacket(s2c) else ClientPacket(c2s)
  }

  /** The request `connect` sends as soon as the connection is open. */
  const CONNECT_REQUEST: C2sMessage :=
    C2sMessage(Some(C2sConnectRequest(ConnectRequest(41414141, false))))

  /** The acknowledgement the host sends for every connection request. */
  const CONNECT_ACK: S2cMessage :=
    S2cMessage(Some(S2cConnectAck(ConnectAck(true, Some(BoardState("fen. lol!")), Some(31337), Some(true)))))

  /** `fen_parse`: the text is not read; the result is the default position. */
  function FenParse(fen: string): (b: Board)
    ensures b == NewBoard()
  {
    NewBoard()
  }

  // ---------------------------------------------------------------------
  // Receiving, as transitions of the board
  // ---------------------------------------------------------------------

  /** What `recv_server` does with one client envelope: the new board and the
      reply it writes, if any. */
  datatype ServerStep = ServerStep(board: Board, reply: Option<S2cMessage>)

  predicate IsConnectRequest(pkt: C2sMessage) {
    pkt.msg.Some? && pkt.msg.value.C2sConnectRequest?
  }

  predicate IsClientMove(pkt: C2sMessage) {
    pkt.msg.Some? && pkt.msg.value.C2sMove?
  }

  function RecvServerStep(b: Board, pkt: C2sMessage): (r: ServerStep)
    // exactly one reply, the fixed acceptance, and only to a connection request
    ensures r.reply.Some? <==> IsConnectRequest(pkt)
    ensures r.reply.Some? ==> r.reply.value == CONNECT_ACK
    // a move is applied once, as decoded, unchecked; nothing else touches the board
    ensures IsClientMove(pkt) ==> r.board.history == b.history + [FromWire(pkt.msg.value.mv)]
    ensures !IsClientMove(pkt) ==> r.board == b
  {
    match pkt.msg
    case None => ServerStep(b, None)
    case Some(msg) =>
      match msg
      case C2sConnectRequest(_) => ServerStep(b, Some(CONNECT_ACK))
      case C2sMove(mv) => ServerStep(MakeMove(b, FromWire(mv)), None)
      case C2sOther => ServerStep(b, None)
  }

  /** Why the client's receive thread panics. */
  datatype FatalReason = ConnectionRejected | MissingStartingPosition

  /** What `recv_client` does with one server envelope: the new board, or a panic. */
  datatype ClientStep = Continue(board: Board) | Fatal(reason: FatalReason)

  predicate IsAck(pkt: S2cMessage) {
    pkt.msg.Some? && pkt.msg.value.S2cConnectAck?
  }

  predicate IsServerMove(pkt: S2cMessage) {
    pkt.msg.Some? && pkt.msg.value.S2cMove?
  }

  function RecvClientStep(b: Board, pkt: S2cMessage): (r: ClientStep)
    // the two fatal cases: a rejected acknowledgement, an accepted one without a position
    ensures r == Fatal(ConnectionRejected) <==> IsAck(pkt) && !pkt.msg.value.ack.success
    ensures r == Fatal(MissingStartingPosition) <==>
      IsAck(pkt) && pkt.msg.value.ack.success && pkt.msg.value.ack.startingPosition.None?
    // an accepted acknowledgement discards the board for the default position
    ensures IsAck(pkt) && r.Continue? ==> r.board == NewBoard()
    // a move is applied once, as decoded, unchecked; nothing else touches the board
    ensures IsServerMove(pkt) ==> r == Continue(Board(b.history + [FromWire(pkt.msg.value.mv)]))
    ensures !IsAck(pkt) && !IsServerMove(pkt) ==> r == Continue(b)
  {
    match pkt.msg
    case None => Continue(b)
    case Some(msg) =>
      match msg
      case S2cConnectAck(ack) =>
        if !ack.success then Fatal(ConnectionRejected)
        else if ack.startingPosition.None? then Fatal(MissingStartingPosition)
        else Continue(FenParse(ack.startingPosition.value.fenString))
      case S2cMove(mv) => Continue(MakeMove(b, FromWire(mv)))
      case S2cOther => Continue(b)
  }

  // ---------------------------------------------------------------------
  // The shared board and the stream, as objects
  // ---------------------------------------------------------------------

  /** The board shared by the frame loop and the receive thread. */
  class SharedBoard {
    var value: Board

    constructor()
      ensures value == NewBoard()
    {
      value := NewBoard();
    }
  }

  /** The sending half of the connection: every envelope written, in order. */
  class Stream {
    var written: seq<Packet>

    constructor()
      ensures written == []
    {
      written := [];
    }
  }

  /** `recv_move`: decode both squares and apply the move to the shared board. */
  method RecvMove(mv: WireMove, board: SharedBoard)
    modifies board
    ensures board.value == MakeMove(old(board.value), FromWire(mv))
  {
    var fromSquare := Square(mv.fromSquare / 8, mv.fromSquare % 8);
    var toSquare := Square(mv.toSquare / 8, mv.toSquare % 8);
    board.value := MakeMove(board.value, Move(fromSquare, toSquare));
  }

  /** `recv_server`: answer a connection request on the stream, apply a move. */
  method RecvServer(stream: Stream, board: SharedBoard, pkt: C2sMessage)
    modifies stream, board
    ensures var r := RecvServerStep(old(board.value), pkt);
      board.value == r.board &&
      stream.written == old(stream.written) + (if r.reply.Some? then [ServerPacket(r.reply.value)] else [])
  {
    match pkt.msg {
      case None =>
      case Some(msg) =>
        match msg {
          case C2sConnectRequest(_) =>
            var ack := ConnectAck(true, Some(BoardState("fen. lol!")), Some(31337), Some(true));
            stream.written := stream.written + [ServerPacket(S2cMessage(Some(S2cConnectAck(ack))))];
          case C2sMove(mv) =>
            RecvMove(mv, board);
          case C2sOther =>
        }
    }
  }

  /** `recv_client`: adopt the host's position on acceptance, apply a move.
      A panic is returned as `Some(reason)`, with the board left as it was. */
  method RecvClient(board: SharedBoard, pkt: S2cMessage) returns (panic: Option<FatalReason>)
    modifies board
    ensures var r := RecvClientStep(old(board.value), pkt);
      (panic.Some? <==> r.Fatal?) &&
      (r.Fatal? ==> panic.value == r.reason && board.value == old(board.value)) &&
      (r.Continue? ==> board.value == r.board)
  {
    panic := None;
    match pkt.msg {
      case None =>
      case Some(msg) =>
        match msg {
          case S2cConnectAck(ack) =>
            if !ack.success {
              panic := Some(ConnectionRejected);
            } else if ack.startingPosition.None? {
              panic := Some(MissingStartingPosition);
            } else {
              board.value := FenParse(ack.startingPosition.value.fenString);
            }
          case S2cMove(mv) =>
            RecvMove(mv, board);
          case S2cOther =>
        }
    }
  }

  /** `send_move`: write the move in the envelope of this peer's role. */
  method SendMove(stream: Stream, m: Move, isServer: bool)
    modifies stream
    ensures stream.written == old(stream.written) + [MovePacket(m, isServer)]
  {
    var mv := WireMove(EncodeIndex(m.from), EncodeIndex(m.to), None);
    var s2c := S2cMessage(Some(S2cMove(mv)));
    var c2s := C2sMessage(Some(C2sMove(mv)));
    var packet := if isServer then ServerPacket(s2c) else ClientPacket(c2s);
    stream.written := stream.written + [packet];
  }
}
