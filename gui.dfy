/**
  The local bookkeeping of src/main.rs: the role chosen at start-up, the
  image-table keys of the pieces, the selection state machine and legality
  gate of `update`, and the integer index arithmetic of the two draw loops.
  Pixel positions, the floating-point mouse hit test and the rendering calls
  themselves are not modelled: the square under the pointer is an input, and
  the draw loops produce lists of what they would draw.
 */
module Gui {
  import opened Wrappers
  import opened Chess
  import opened Networking
  import opened Net

  // ---------------------------------------------------------------------
  // Role selection and start-up
  // ---------------------------------------------------------------------

  /** The role of this process: host, or join the peer at the given address. */
  datatype Role = Host | Join(peer: string)

  /** `start_networking`: no argument besides the program name means host;
      otherwise `connect` dials the first argument. */
  function StartRole(args: seq<string>): (r: Role)
    ensures r.Host? <==> |args| <= 1
    ensures r.Join? ==> r.peer == args[1]
  {
    if |args| <= 1 then Host else Join(args[1])
  }

  /** The connection `start_networking` opens: the host writes nothing at
      first, the joining peer its connection request. */
  method StartNetworking(args: seq<string>) returns (stream: Stream, isServer: bool)
    ensures fresh(stream)
    ensures isServer <==> StartRole(args).Host?
    ensures stream.written == if isServer then [] else [ClientPacket(CONNECT_REQUEST)]
  {
    isServer := |args| <= 1;
    stream := new Stream();
    if !isServer {
      var request := C2sMessage(Some(C2sConnectRequest(ConnectRequest(41414141, false))));
      stream.written := stream.written + [ClientPacket(request)];
    }
  }

  // ---------------------------------------------------------------------
  // piece_to_string and the image table
  // ---------------------------------------------------------------------

  /** The images `MainState::new` loads, by key, with the paths as given there. */
  function ImageTable(): map<string, string> {
    map[
      "wP" := "/wP.png", "wN" := "/wN.png", "wB" := "/wB.png",
      "wR" := "/wR.png", "wQ" := "/wQ.png", "wK" := "/wK.png",
      "bP" := "/bP.png", "bN" := "/bN.png", "bB" := "/bB.png",
      "bR" := "/BR.png", "bQ" := "/BQ.png", "bK" := "/BK.png"
    ]
  }

  /** A piece that can stand on a square: a real kind and a real colour. */
  predicate IsReal(p: Piece, c: Color) {
    p != NoPiece && c != NoColor
  }

  function ColorLetter(c: Color): char
    requires c != NoColor
  {
    if c == White then 'w' else 'b'
  }

  function PieceLetter(p: Piece): char
    requires p != NoPiece
  {
    match p
    case Pawn => 'P'
    case Knight => 'N'
    case Bishop => 'B'
    case Rook => 'R'
    case Queen => 'Q'
    case King => 'K'
  }

  /** The image key of a piece: its colour letter, then its kind letter; the
      catch-all colour and the empty square contribute no letter. */
  function ImageKey(p: Piece, c: Color): (k: string)
    ensures |k| == (if c == NoColor then 0 else 1) + (if p == NoPiece then 0 else 1)
    ensures c != NoColor ==> k[0] == ColorLetter(c)
    ensures p != NoPiece ==> k[|k| - 1] == PieceLetter(p)
    ensures IsReal(p, c) ==> k in ImageTable()
  {
    if c == NoColor && p == NoPiece then ""
    else if c == NoColor then [PieceLetter(p)]
    else if p == NoPiece then [ColorLetter(c)]
    else [ColorLetter(c), PieceLetter(p)]
  }

  /** `piece_to_string`: push the colour letter, then the kind letter. */
  method PieceToString(piece: Piece, color: Color) returns (built: string)
    ensures built == ImageKey(piece, color)
    ensures IsReal(piece, color) <==> |built| == 2
  {
    built := "";
    match color {
      case White => built := built + ['w'];
      case Black => built := built + ['b'];
      case NoColor =>
    }
    match piece {
      case Pawn => built := built + ['P'];
      case Knight => built := built + ['N'];
      case Bishop => built := built + ['B'];
      case Rook => built := built + ['R'];
      case Queen => built := built + ['Q'];
      case King => built := built + ['K'];
      case NoPiece =>
    }
  }

  /** Different pieces have different image keys. */
  lemma ImageKeyInjective(p1: Piece, c1: Color, p2: Piece, c2: Color)
    requires IsReal(p1, c1) && IsReal(p2, c2)
    requires ImageKey(p1, c1) == ImageKey(p2, c2)
    ensures p1 == p2 && c1 == c2
  {
    assert ColorLetter(c1) == ImageKey(p1, c1)[0] == ColorLetter(c2);
    assert PieceLetter(p1) == ImageKey(p1, c1)[1] == PieceLetter(p2);
  }

  /** The table holds exactly the keys of the twelve pieces, so looking up the
      key of any piece on the board cannot miss. */
  lemma ImageTableHoldsExactlyPieceKeys()
    ensures forall p, c :: IsReal(p, c) ==> ImageKey(p, c) in ImageTable()
    ensures forall k :: k in ImageTable() ==> exists p, c :: IsReal(p, c) && ImageKey(p, c) == k
  {
    forall k | k in ImageTable()
      ensures exists p, c :: IsReal(p, c) && ImageKey(p, c) == k
    {
      var c := if k[0] == 'w' then White else Black;
      var p :=
        if k[1] == 'P' then Pawn else if k[1] == 'N' then Knight
        else if k[1] == 'B' then Bishop else if k[1] == 'R' then Rook
        else if k[1] == 'Q' then Queen else King;
      assert ImageKey(p, c) == k;
    }
  }

  // ---------------------------------------------------------------------
  // The index arithmetic of the draw loops
  // ---------------------------------------------------------------------

  /** The colour index of grid cell `i` in the first draw loop. */
  function CheckerIndex(i: int): int
    requires 0 <= i < 64
  {
    ((i % 2) + ((i / 8) % 2)) % 2
  }

  /** The checkerboard index is the parity of the cell's row plus column. */
  lemma CheckerIndexIsParity(i: int)
    requires 0 <= i < 64
    ensures CheckerIndex(i) == (i / 8 + i % 8) % 2
    ensures CheckerIndex(i) == 0 || CheckerIndex(i) == 1
  {
  }

  /** Cells `i` and `j` of the 8x8 drawing grid share a side. */
  predicate Adjacent(i: int, j: int) {
    (i / 8 == j / 8 && (j == i + 1 || i == j + 1)) || j == i + 8 || i == j + 8
  }

  /** Neighbouring cells get different colour indices. */
  lemma CheckerAlternates(i: int, j: int)
    requires 0 <= i < 64 && 0 <= j < 64
    requires Adjacent(i, j)
    ensures CheckerIndex(i) != CheckerIndex(j)
  {
    CheckerIndexIsParity(i);
    CheckerIndexIsParity(j);
  }

  /** The board square drawn in grid cell `i` (cell 0 is the top left). */
  function CellSquare(i: int): (s: Square)
    requires 0 <= i < 64
    ensures OnBoard(s)
  {
    Square(7 - i / 8, i % 8)
  }

  /** The grid cell in which a board square is drawn. */
  function SquareCell(s: Square): (i: int)
    requires OnBoard(s)
    ensures 0 <= i < 64
  {
    (7 - s.row) * 8 + s.column
  }

  /** The grid-to-square mapping is a bijection from 0..63 onto the board. */
  lemma CellSquareBijective()
    ensures forall i :: 0 <= i < 64 ==> SquareCell(CellSquare(i)) == i
    ensures forall s :: OnBoard(s) ==> CellSquare(SquareCell(s)) == s
  {
  }

  /** The two square meshes `MainState::new` builds: white, then black. */
  datatype Shade = Light | Dark

  const SQUARE_MESHES: seq<Shade> := [Light, Dark]

  /** One background tile: its mesh and its grid offsets. */
  datatype Tile = Tile(shade: Shade, x: int, y: int)

  /** The first draw loop: one tile per grid cell, coloured by `CheckerIndex`. */
  method DrawTiles() returns (tiles: seq<Tile>)
    ensures |tiles| == 64
    ensures forall i :: 0 <= i < 64 ==> tiles[i].x == i % 8 && tiles[i].y == i / 8
    ensures tiles[0].shade == Light
    ensures forall i, j :: 0 <= i < 64 && 0 <= j < 64 && Adjacent(i, j) ==> tiles[i].shade != tiles[j].shade
  {
    tiles := [];
    for i := 0 to 64
      invariant |tiles| == i
      invariant forall j :: 0 <= j < i ==> tiles[j] == Tile(SQUARE_MESHES[CheckerIndex(j)], j % 8, j / 8)
    {
      CheckerIndexIsParity(i);
      var colorIdx := CheckerIndex(i);
      tiles := tiles + [Tile(SQUARE_MESHES[colorIdx], i % 8, i / 8)];
    }
    forall i, j | 0 <= i < 64 && 0 <= j < 64 && Adjacent(i, j)
      ensures tiles[i].shade != tiles[j].shade
    {
      CheckerAlternates(i, j);
      CheckerIndexIsParity(i);
      CheckerIndexIsParity(j);
    }
  }

  /** One piece image drawn by the second draw loop. */
  datatype Sprite = Sprite(cell: int, square: Square, image: string, dragged: bool)

  /** `sp` is how the second draw loop shows the piece in grid cell `sp.cell`:
      the image of that piece's key, following the pointer when selected. */
  predicate DrawnAt(sp: Sprite, pieceOf: Square -> Piece, colorOf: Square -> Color, selected: Option<Square>) {
    && 0 <= sp.cell < 64
    && sp.square == CellSquare(sp.cell)
    && IsReal(pieceOf(sp.square), colorOf(sp.square))
    && sp.image == ImageTable()[ImageKey(pieceOf(sp.square), colorOf(sp.square))]
    && (sp.dragged <==> selected == Some(sp.square))
  }

  /** Some sprite in `sprites` is drawn in grid cell `i`. */
  predicate Covers(sprites: seq<Sprite>, i: int) {
    exists k :: 0 <= k < |sprites| && sprites[k].cell == i
  }

  /** The second draw loop: an image for every occupied square, looked up by
      its `piece_to_string` key; the selected piece follows the pointer.
      `pieceOf` and `colorOf` are the engine's queries on the locked board. */
  method DrawPieces(pieceOf: Square -> Piece, colorOf: Square -> Color, selected: Option<Square>)
    returns (sprites: seq<Sprite>)
    requires ColoredPieces(pieceOf, colorOf)
    ensures forall k :: 0 <= k < |sprites| ==> DrawnAt(sprites[k], pieceOf, colorOf, selected)
    ensures forall k, l :: 0 <= k < l < |sprites| ==> sprites[k].cell < sprites[l].cell
    ensures forall i :: 0 <= i < 64 && pieceOf(CellSquare(i)) != NoPiece ==> Covers(sprites, i)
  {
    sprites := [];
    for i := 0 to 64
      invariant forall k :: 0 <= k < |sprites| ==> DrawnAt(sprites[k], pieceOf, colorOf, selected)
      invariant forall k :: 0 <= k < |sprites| ==> sprites[k].cell < i
      invariant forall k, l :: 0 <= k < l < |sprites| ==> sprites[k].cell < sprites[l].cell
      invariant forall j :: 0 <= j < i && pieceOf(CellSquare(j)) != NoPiece ==> Covers(sprites, j)
    {
      ghost var before := sprites;
      var square := Square(7 - i / 8, i % 8);
      if pieceOf(square) != NoPiece {
        var dragged := selected.Some? && selected.value == square;
        var imgKey := PieceToString(pieceOf(square), colorOf(square));
        var sprite := Sprite(i, square, ImageTable()[imgKey], dragged);
        assert DrawnAt(sprite, pieceOf, colorOf, selected);
        sprites := sprites + [sprite];
        assert sprites[..|before|] == before;
        assert Covers(sprites, i) by {
          assert sprites[|before|].cell == i;
        }
      }
      forall j | 0 <= j < i && pieceOf(CellSquare(j)) != NoPiece
        ensures Covers(sprites, j)
      {
        var k :| 0 <= k < |before| && before[k].cell == j;
        assert sprites[k] == before[k];
      }
    }
  }

  // ---------------------------------------------------------------------
  // update: selection and the legality gate
  // ---------------------------------------------------------------------

  /** What `update` reads in one frame: the left button and the square under
      the pointer (the result of the hit test). */
  datatype FrameInput = FrameInput(mouseDown: bool, pointer: Square)

  /** The state after one frame, and the move relayed to the peer, if any. */
  datatype FrameResult = FrameResult(selected: Option<Square>, board: Board, relayed: Option<Move>)

  /** A local move passes the gate when the engine lists it among the legal
      moves from its source square and it actually moves. */
  predicate Gate(b: Board, m: Move, legal: LegalMoves) {
    m in legal(b, m.from) && m.from != m.to
  }

  /** One call of `update`. */
  function Frame(selected: Option<Square>, b: Board, input: FrameInput, legal: LegalMoves): (r: FrameResult)
    // a press with nothing selected selects the square under the pointer
    ensures selected.None? && input.mouseDown ==> r.selected == Some(input.pointer)
    // a release with a selection always clears it, legal move or not
    ensures selected.Some? && !input.mouseDown ==> r.selected == None
    // in the two other cases the selection is kept
    ensures selected.None? && !input.mouseDown ==> r.selected == selected
    ensures selected.Some? && input.mouseDown ==> r.selected == selected
    // a move is applied and relayed exactly when a release completes a gated move
    ensures r.relayed.Some? <==>
      selected.Some? && !input.mouseDown && Gate(b, Move(selected.value, input.pointer), legal)
    ensures r.relayed.Some? ==>
      r.relayed.value == Move(selected.value, input.pointer) && r.board == MakeMove(b, r.relayed.value)
    ensures r.relayed.None? ==> r.board == b
  {
    if selected.None? && input.mouseDown then
      FrameResult(Some(input.pointer), b, None)
    else if selected.Some? && !input.mouseDown then
      var mv := Move(selected.value, input.pointer);
      if mv in legal(b, selected.value) && selected.value != input.pointer then
        FrameResult(None, MakeMove(b, mv), Some(mv))
      else
        FrameResult(None, b, None)
    else
      FrameResult(selected, b, None)
  }

  /** The frames of a run, one after the other, and every move relayed. */
  datatype RunResult = RunResult(selected: Option<Square>, board: Board, relayed: seq<Move>)

  function Run(selected: Option<Square>, b: Board, inputs: seq<FrameInput>, legal: LegalMoves): RunResult
  {
    if inputs == [] then RunResult(selected, b, [])
    else
      var prev := Run(selected, b, inputs[..|inputs| - 1], legal);
      var r := Frame(prev.selected, prev.board, inputs[|inputs| - 1], legal);
      RunResult(r.selected, r.board, prev.relayed + (if r.relayed.Some? then [r.relayed.value] else []))
  }

  /** Over any run of frames the local board is the start board plus exactly
      the relayed moves, no relayed move stays on its square, and with a sound
      engine every relayed move is on the board. */
  lemma {:induction false} RunRelaysOnlyGatedMoves(selected: Option<Square>, b: Board, inputs: seq<FrameInput>, legal: LegalMoves)
    ensures Run(selected, b, inputs, legal).board.history == b.history + Run(selected, b, inputs, legal).relayed
    ensures forall m :: m in Run(selected, b, inputs, legal).relayed ==> m.from != m.to
    ensures SoundOracle(legal) ==> forall m :: m in Run(selected, b, inputs, legal).relayed ==> OnBoardMove(m)
  {
    if inputs != [] {
      var init := inputs[..|inputs| - 1];
      RunRelaysOnlyGatedMoves(selected, b, init, legal);
      var prev := Run(selected, b, init, legal);
      var r := Frame(prev.selected, prev.board, inputs[|inputs| - 1], legal);
      if r.relayed.Some? {
        assert r.board.history == prev.board.history + [r.relayed.value];
      }
    }
  }

  /** `MainState`: the selection, and handles to the shared board and the stream. */
  class MainState {
    var selectedPiece: Option<Square>
    const chessBoard: SharedBoard
    const tcpStream: Stream
    const isServer: bool

    /** `MainState::new`: a default board, the connection for this role, nothing selected. */
    constructor(args: seq<string>)
      ensures fresh(chessBoard) && fresh(tcpStream)
      ensures chessBoard.value == NewBoard() && selectedPiece == None
      ensures isServer <==> StartRole(args).Host?
      ensures tcpStream.written == if isServer then [] else [ClientPacket(CONNECT_REQUEST)]
    {
      chessBoard := new SharedBoard();
      var stream, server := StartNetworking(args);
      tcpStream := stream;
      isServer := server;
      selectedPiece := None;
    }

    /** `update`: record a selection on press; on release, apply and relay the
        move if it passes the gate, and clear the selection. */
    method Update(mouseDown: bool, pointer: Square, legal: LegalMoves)
      modifies this, chessBoard, tcpStream
      ensures var r := Frame(old(selectedPiece), old(chessBoard.value), FrameInput(mouseDown, pointer), legal);
        selectedPiece == r.selected && chessBoard.value == r.board &&
        tcpStream.written == old(tcpStream.written) + (if r.relayed.Some? then [MovePacket(r.relayed.value, isServer)] else [])
    {
      if selectedPiece.None? && mouseDown {
        selectedPiece := Some(pointer);
      } else if selectedPiece.Some? && !mouseDown {
        var fromSquare := selectedPiece.value;
        var toSquare := pointer;
        var mv := Move(fromSquare, toSquare);
        if mv in legal(chessBoard.value, fromSquare) && fromSquare != toSquare {
          chessBoard.value := MakeMove(chessBoard.value, mv);
          SendMove(tcpStream, mv, isServer);
        }
        selectedPiece := None;
      }
    }
  }
}
