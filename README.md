# Two-peer chess over TCP: a Dafny model of the move synchronisation

The program lets two people play chess across a TCP connection. One process
hosts (no command-line argument), the other joins it (the host's address as
its only argument). Each process keeps its own board, shared between the
ggez frame callbacks and a background receive thread. A move made locally
is first checked against the chess engine's legal moves, then applied, then
relayed to the peer as a protobuf envelope. The peer applies received moves
without checking them.

This project models that synchronisation logic and the local bookkeeping
around it, taken out of the sockets, threads and rendering:

- `wrappers.dfy` (`Wrappers`): the `Option` type.
- `chess.dfy` (`Chess`): what the program uses of the external chess engine.
  A board is identified by the moves applied to it since the default start
  position. The legal-move query is a function passed in by the caller.
- `networking.dfy` (`Networking`): the wire schema as datatypes. These are
  `ConnectRequest`, `ConnectAck`, `WireMove` (squares as linear indices), and
  the client-origin and server-origin envelopes. Each envelope may be empty.
- `net.dfy` (`Net`), modelling `src/net.rs`:
  - the square <-> index codec;
  - the envelope `send_move` picks by role;
  - `fen_parse`;
  - `recv_server`, `recv_client` and `recv_move`, as pure transitions and as
    methods on the shared board (`SharedBoard`, the `Arc<Mutex<ChessBoard>>`)
    and on the sending half of the stream (`Stream`, every envelope written).
- `gui.dfy` (`Gui`), modelling `src/main.rs`:
  - role selection and the first packet of `connect`;
  - `piece_to_string` and the image table;
  - the index arithmetic of both draw loops, with each loop written as a
    method that returns what it would draw;
  - the selection state machine and legality gate of `update`, as the
    `MainState` class.
- `game.dfy` (`Game`): both peers together. It covers the handshake and the
  theorem that relaying keeps the two boards equal. The theorem holds only
  for a schedule the program does not enforce: the moves form one global
  order, each relayed move is applied by the peer before either side moves
  again, and the handshake completes (the host answers the request and the
  joining peer processes the acknowledgement) before either side's first
  move. Three lemmas show the boards diverging on schedules outside it.

Behaviour of the code worth knowing:

- A rejected acknowledgement does not end the process at once. With Rust's
  default unwinding panics, `panic!` in `recv_client` stops the receive
  thread. The receive loop calls `recv_client` while it still holds the
  stream lock (src/net.rs:54, src/net.rs:73), so that panic poisons the
  stream mutex. The frame loop goes on drawing until the player next makes
  a legal move: `send_move` then panics on `tcp_stream.lock().unwrap()`
  (src/net.rs:148).
- An accepted acknowledgement with no starting position panics on the
  `unwrap` at src/net.rs:122. At that point both the stream lock and the
  board lock are held, so both mutexes are poisoned, and the frame loop's
  next board `lock().unwrap()` panics as well.
- In the model both panics are a `Fatal` outcome of the receive step, and
  the board is left unchanged.
- The client does not adopt the host's starting position. `fen_parse`
  ignores its text and returns the engine's default board.
- `update` calls `send_move` while it still holds the board lock. The lock
  is released only at the end of the block, not before the relay. The two
  threads therefore take the locks in opposite orders. `update` takes the
  board (src/main.rs:201) and then the stream (src/net.rs:148). The receive
  loop takes the stream (src/net.rs:54) and then the board (src/net.rs:121,
  src/net.rs:142). A local move relayed while a remote move is being received
  can deadlock both threads. The model has no locks, so it does not show this.
- Received indices are not range-checked. Any `u32` decodes to a square, and
  only indices below 64 give a square on the board.

## Model

| member | source | states |
|---|---|---|
| `Net.EncodeIndex` | src/net.rs:152-154 | an on-board square goes on the wire as `row * 8 + column`, which lies in 0..63 (the body wraps any other square's sum modulo 2^32) |
| `Net.DecodeIndex` | src/net.rs:138-139 | a wire index becomes the square `(i / 8, i % 8)`: column in 0..7, `row * 8 + column == i`; on the board exactly when `i < 64` |
| `Net.DecodeEncode` | src/net.rs:138-154 | square -> index -> square is the identity for every on-board square |
| `Net.EncodeDecode` | src/net.rs:138-154 | index -> square -> index is the identity for every `u32` index |
| `Net.ToWire` | src/net.rs:152-156 | the relayed payload has no promotion, and indices below 64 for an on-board move |
| `Net.FromWire` | src/net.rs:137-141 | the received move is on the board exactly when both indices are below 64 |
| `Net.MoveRoundTrip` | src/net.rs:137-156 | the receiver rebuilds exactly the on-board move the sender relayed |
| `Net.WireRoundTrip` | src/net.rs:137-156 | a received payload, re-encoded, equals itself without its promotion |
| `Net.MovePacket` | src/net.rs:158-172 | a server-origin envelope iff the sender is the host, a client-origin one otherwise, both carrying the same move payload |
| `Net.FenParse` | src/net.rs:41-43 | whatever the text, the result is the default board |
| `Net.RecvServerStep` | src/net.rs:80-109 | exactly one reply, the fixed acceptance (success, "fen. lol!", game 31337, client white), and only to a connection request; a move is appended to the board once, unchecked; an empty or unknown envelope changes nothing |
| `Net.RecvClientStep` | src/net.rs:111-135 | fatal exactly for a rejected acknowledgement or an accepted one with no position; otherwise an acknowledgement replaces the board by the default one, a move is appended once, and anything else changes nothing |
| `Net.RecvMove` | src/net.rs:137-145 | the shared board gets exactly the decoded move appended |
| `Net.RecvServer` | src/net.rs:80-109 | the shared board and the stream change as `RecvServerStep` says; the reply, if any, is written after what was already written |
| `Net.RecvClient` | src/net.rs:111-135 | the shared board changes as `RecvClientStep` says; a panic leaves it unchanged and is reported with its reason |
| `Net.SendMove` | src/net.rs:147-176 | exactly one envelope, `MovePacket` for this role, is appended to the stream |
| `Net.SharedBoard.constructor` | src/main.rs:149 | the shared board starts at the default position |
| `Gui.StartRole` | src/main.rs:166-171 | host iff the argument list has at most one entry; otherwise the peer to join is the first argument |
| `Gui.StartNetworking` | src/main.rs:165-180 | the host has written nothing; the joining peer has written exactly the connection request (game 41414141, not spectating) |
| `Gui.ImageKey` | src/main.rs:38-71 | colour letter then piece letter; two characters exactly for a real colour and piece, and then a key of the image table |
| `Gui.PieceToString` | src/main.rs:38-71 | the pushed string is the image key, of length 2 iff colour and piece are both real |
| `Gui.ImageKeyInjective` | src/main.rs:38-71 | two real pieces with the same key are the same colour and kind |
| `Gui.ImageTableHoldsExactlyPieceKeys` | src/main.rs:99-148 | the table's keys are exactly the keys of the twelve real pieces, so the lookup of an occupied square's key cannot miss |
| `Gui.CheckerIndexIsParity` | src/main.rs:224 | the colour index is `(row + column) % 2` of the cell, so it is 0 or 1 |
| `Gui.CheckerAlternates` | src/main.rs:222-224 | cells that share a side get different colour indices |
| `Gui.CellSquare` | src/main.rs:233 | every grid cell 0..63 shows a square on the board |
| `Gui.CellSquareBijective` | src/main.rs:233 | cell -> square is a bijection from 0..63 onto the 64 board squares |
| `Gui.DrawTiles` | src/main.rs:219-226 | 64 tiles at offsets `(i % 8, i / 8)`, the top left one white, and no two side-sharing tiles of the same colour |
| `Gui.DrawPieces` | src/main.rs:230-258 | one image per occupied square, in cell order: the image of that piece's key, found in the table, following the pointer iff selected |
| `Gui.Frame` | src/main.rs:184-210 | a press with nothing selected selects the pointer's square; a release with a selection always clears it; otherwise the selection is kept; a move is applied and relayed iff it is legal from its source and `from != to` |
| `Gui.RunRelaysOnlyGatedMoves` | src/main.rs:195-208 | over any run of frames the board is the start plus exactly the relayed moves, and no relayed move has `from == to`; with a sound engine all are on the board |
| `Gui.MainState.constructor` | src/main.rs:149-163 | the default board, nothing selected, the role and the first packet of `StartNetworking` |
| `Gui.MainState.Update` | src/main.rs:184-210 | selection, board and stream change as `Frame` says; a relayed move is written once, in this role's envelope |
| `Game.Handshake` | src/net.rs:80-123 | the request gets the fixed acceptance with the host's board kept, and the acceptance puts the client on the default board |
| `Game.RelayKingsPawn` | src/net.rs:137-172 | the move (1,4)->(3,4) is relayed as indices 12 and 28 in a server-origin envelope, and the client applies that same move |
| `Game.TurnsKeepBoardsInSync` | src/net.rs:137-172 | from equal boards, the host and the client have equal boards after every sequence of relayed on-board turns, namely the start plus those moves, when each relayed move is applied before the next move is made |
| `Game.GameStaysInSync` | src/net.rs:80-145 | after the handshake a fresh host and a client with any board agree after every turn, when the handshake completes (request answered, acknowledgement processed) before either side's first move |
| `Game.CrossingMovesDiverge` | src/main.rs:200-205 | two different on-board moves made on both sides before either envelope is read leave the host on start+[h, c] and the client on start+[c, h]: the peers apply the two moves in opposite orders, so their positions differ whenever the moves do not commute |
| `Game.HostMoveBeforeAckLost` | src/net.rs:111-126 | a host move made before the host has read the request reaches the client before the acknowledgement; the client applies it and is then reset to the default board, while the host keeps it |
| `Game.EarlyMoveLostByHandshake` | src/net.rs:111-123 | a client move made before the acknowledgement is processed is kept by the host but erased on the client, whose acknowledgement handler resets it to the default board |
| `Game.HostFramesMirroredOnClient` | src/main.rs:200-205 | a client that receives what the host's `update` relayed ends on the host's board |

## Left out

- TCP setup and I/O are not modelled: `connect`, `host`, bind/accept on port 1337, `set_nonblocking`, and the results of `read` and `write`. A written envelope is appended to `Stream.written`, and delivery is whole and in order.
- The protobuf byte encoding (prost and the generated `networking` module) is left out. Envelopes are values. Because of this, the `unwrap` on a failed decode in the receive loop is not modelled, and neither is the 512-byte buffer that can truncate or merge messages.
- The receive loop is left out because its point is concurrency: the thread, the `loop`, the retry on a failed read, the 30 ms sleep and the mutexes. Each receive method is one whole critical section. The choice of `recv_server` or `recv_client` by role (src/net.rs:67-74) is the caller's choice between `RecvServer` and `RecvClient`.
- The chess engine is foreign code. Legal-move generation is the `LegalMoves` function parameter, and the board's pieces are the `pieceOf`/`colorOf` parameters of `DrawPieces`. `make_move` is an append to the board's history; its second argument and its result are not modelled. `SoundOracle` (legal moves stay on the board) and `ColoredPieces` (an occupied square has a real colour) are assumptions about the engine.
- The `_` arms of the envelope matches are modelled as the variants `C2sOther`/`S2cOther`. The `_` arm of the colour match is the colour `NoColor`.
- The floating-point mouse hit test, pixel positions, the dragged piece's position, meshes, image loading and all `println!` output are left out. The square under the pointer is an input to `Update`.
- The process-wide effect of a panic is not modelled: mutex poisoning, and the end of the receive thread. A panic is a `Fatal` result.
- Game.TurnsKeepBoardsInSync: assumes one global order of turns in which each relayed move is applied by the peer before either side moves again. Neither `update` nor the receive loop enforces it; on crossing moves the boards diverge (`CrossingMovesDiverge`).
- Game.GameStaysInSync: assumes in addition that the handshake completes (the host answers the request and the joining peer processes the acknowledgement) before either side's first move. Neither `start_networking`, `host` nor `connect` waits for it; a move made earlier by either side is lost on the joining peer only (`EarlyMoveLostByHandshake`, `HostMoveBeforeAckLost`).
- Game.CrossingMovesDiverge: a board is modelled by its history, and only "same history, same position" is assumed of the engine. The lemma therefore shows that the peers apply the two moves in opposite orders, not that their positions differ: for moves that commute (g1f3 on one side, b1c3 on the other) the engine's positions coincide. The same caveat applies to the boards compared in `EarlyMoveLostByHandshake` and `HostMoveBeforeAckLost`, which differ by one move.
- Gui.DrawPieces: assumes the engine reports a real colour for every occupied square (`ColoredPieces`). On a square where it does not, the one-letter image key misses the table and `self.img_map[&img_key]` panics; that panic is not modelled.
- Net.EncodeIndex: follows Rust release-build wrapping. A debug build would instead panic when `row * 8` overflows `i32` or the `u32` sum overflows, which only off-board squares can cause.
