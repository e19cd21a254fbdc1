/** The two message layers carried over the one byte channel, and the
    structured encoder/decoder the library uses for them. The codec is
    not modelled: it is a record of functions given to every operation. */
module Messages {
  import opened Wrappers
  import opened Peers

  newtype byte = x: int | 0 <= x < 256

  type Bytes = seq<byte>

  /** Session-control messages; they carry no payload. */
  datatype PeerMessage = SessionEnded | RefreshPeers | JoinedSession

  /** Application messages routed to the game worker. */
  datatype GameMessage =
    | StartedGame(initData: Option<Bytes>)
    | WorkerDataReceived(payload: Bytes)

  /** The encoder and decoder. Encoding may fail (`try? encode`) and
      decoding is partial (`try? decode`). */
  datatype Codec = Codec(
    encodePeer: Peer -> Option<Bytes>,
    decodePeer: Bytes -> Option<Peer>,
    encodePeerMessage: PeerMessage -> Option<Bytes>,
    decodePeerMessage: Bytes -> Option<PeerMessage>,
    encodeGameMessage: GameMessage -> Option<Bytes>,
    decodeGameMessage: Bytes -> Option<GameMessage>
  )

  /** Decoding an encoded control message gives it back. */
  ghost predicate PeerMessagesRoundTrip(c: Codec) {
    forall m: PeerMessage :: c.encodePeerMessage(m).Some? ==>
      c.decodePeerMessage(c.encodePeerMessage(m).value) == Some(m)
  }

  /** Decoding an encoded application message gives it back. */
  ghost predicate GameMessagesRoundTrip(c: Codec) {
    forall m: GameMessage :: c.encodeGameMessage(m).Some? ==>
      c.decodeGameMessage(c.encodeGameMessage(m).value) == Some(m)
  }

  /** Decoding an encoded peer gives back its id, name and state. */
  ghost predicate PeersRoundTrip(c: Codec) {
    forall p: Peer :: c.encodePeer(p).Some? ==>
      c.decodePeer(c.encodePeer(p).value) == Some(p)
  }

  /** The encoding of an application message never parses as a control
      message, so the two layers can share one channel. */
  ghost predicate LayersDisjoint(c: Codec) {
    forall m: GameMessage :: c.encodeGameMessage(m).Some? ==>
      c.decodePeerMessage(c.encodeGameMessage(m).value) == None
  }

  ghost predicate Faithful(c: Codec) {
    && PeerMessagesRoundTrip(c)
    && GameMessagesRoundTrip(c)
    && LayersDisjoint(c)
  }
}
