/** Vocabulary shared by every part of the engine model. */
module Types {

  datatype Option<+T> = None | Some(value: T)

  /** Torrent-wide index of a 16 KiB block. */
  type RequestIndex = nat
  type PieceIndex = nat
  /** Identity of one live connection; distinct connections have distinct keys. */
  type PeerKey = nat

  const BLOCK_SIZE := 16 * 1024

  /** Piece priorities, lowest first. */
  datatype PiecePriority = Unwanted | Normal | High | Readahead | Next | Now {
    function Rank(): nat {
      match this
      case Unwanted => 0
      case Normal => 1
      case High => 2
      case Readahead => 3
      case Next => 4
      case Now => 5
    }
  }

  /** What the torrent knows about one piece. */
  datatype PieceEntry = PieceEntry(
    index: PieceIndex,
    priority: PiecePriority,
    complete: bool,
    checking: bool,
    partial: bool,
    ok: bool,
    chunks: nat)
  {
    /** Wanted, not verified and not waiting for the hasher. */
    predicate Requestable() {
      !complete && !checking && priority != Unwanted
    }
  }
}
