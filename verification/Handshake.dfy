/** Index synchronisation between the two sides of one queue: ipc_queue_sync_index and its users. */
module Handshake {
  import opened Types
  import opened Fifo

  /** The control words at the start of a ring. */
  datatype Header = Header(sentinel: Sentinel, write: nat, read: nat)

  const CLEARED: Header := Header(Clear, 0, 0)

  /** ipc_queue_sync_index: what the initialising side stores in its own ring. */
  function SyncIndex(own: Header, peer: Header, kind: QueueKind, n: nat): (res: (Header, Result<()>))
    requires n > 0 || peer.sentinel != Done
  {
    if peer.sentinel == InProgress then (own, Err(EAGAIN))
    else if peer.sentinel == Done then
      var read := if kind == ChannelQueue then peer.write % n else (peer.write + 1) % n;
      (Header(InProgress, peer.read, read), Ok(()))
    else (Header(InProgress, 0, 0), Ok(()))
  }

  /** The descriptors the initialising side offers for a pool of the peer. */
  function FreeBds(poolId: nat, numBufs: nat): (bds: seq<Bd>)
  {
    seq(numBufs, i requires 0 <= i < numBufs => Bd(poolId, i, 0))
  }
}
