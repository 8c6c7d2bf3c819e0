/**
  The wire schema shared by the two peers: client-origin and server-origin
  envelopes, each holding at most one message. Only the values are modelled;
  their byte encoding is not.
 */
module Networking {
  import opened Wrappers

  /** Protocol Buffers `uint32`. */
  type u32 = x: int | 0 <= x < 0x1_0000_0000

  /** A move on the wire: both squares as linear indices (row * 8 + column). */
  datatype WireMove = WireMove(fromSquare: u32, toSquare: u32, promotion: Option<int>)

  datatype ConnectRequest = ConnectRequest(gameId: u32, spectate: bool)

  /** An opaque serialized start position (a FEN-like text). */
  datatype BoardState = BoardState(fenString: string)

  datatype ConnectAck = ConnectAck(
    success: bool,
    startingPosition: Option<BoardState>,
    gameId: Option<u32>,
    clientIsWhite: Option<bool>)

  /** Client-origin message kinds; `C2sOther` is any kind the receiver has no
      handler for. */
  datatype C2sMsg = C2sConnectRequest(request: ConnectRequest) | C2sMove(mv: WireMove) | C2sOther

  /** Client-origin envelope; the message may be absent. */
  datatype C2sMessage = C2sMessage(msg: Option<C2sMsg>)

  /** Server-origin message kinds; `S2cOther` is any kind the receiver has no
      handler for. */
  datatype S2cMsg = S2cConnectAck(ack: ConnectAck) | S2cMove(mv: WireMove) | S2cOther

  /** Server-origin envelope; the message may be absent. */
  datatype S2cMessage = S2cMessage(msg: Option<S2cMsg>)

  /** What a peer writes to the stream: the host writes server-origin
      envelopes, the joining peer client-origin ones. */
  datatype Packet = ServerPacket(s2c: S2cMessage) | ClientPacket(c2s: C2sMessage)
}
