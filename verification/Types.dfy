/** Constants and records shared by every part of the model (ipc-types.h, ipc-shm.c). */
module Types {
  const IPC_UINT16_MAX: nat := 0xFFFF
  const UINT16_RANGE: nat := 0x1_0000
  const UINT32_RANGE: nat := 0x1_0000_0000

  const IPC_SHM_MAX_BUFS_PER_CHANNEL: nat := IPC_UINT16_MAX - 1
  const IPC_SHM_MAX_UMNG_SIZE: nat := IPC_UINT16_MAX
  const IPC_SHM_MAX_CHANNELS: nat := 8
  const IPC_SHM_MAX_POOLS: nat := 4
  const IPC_SHM_MAX_BUFS_PER_POOL: nat := 4096
  const IPC_SOFTIRQ_BUDGET: nat := 128

  /** Truncation to the C integer widths the driver stores into. */
  function U16(x: nat): nat { x % UINT16_RANGE }
  function U32(x: nat): nat { x % UINT32_RANGE }

  lemma SmallFits(x: nat)
    ensures x < UINT16_RANGE ==> U16(x) == x
    ensures x < UINT32_RANGE ==> U32(x) == x
  {
  }

  /** Wrapping after each addition is wrapping once at the end. */
  lemma AddTwice(x: nat, a: nat, b: nat)
    ensures U32(U32(x + a) + b) == U32(x + (a + b))
    ensures x < UINT32_RANGE ==> U32(x) == U32(x + 0) == x
  {
  }

  datatype Option<+T> = None | Some(value: T)

  datatype Errno = EINVAL | ENOMEM | ENOBUFS | EAGAIN

  datatype Result<+T> = Ok(value: T) | Err(errno: Errno)

  /** The three values the driver ever stores in a sentinel word. */
  datatype Sentinel = Clear | InProgress | Done

  /** Buffer descriptor: which buffer of which pool, and how much of it is written. */
  datatype Bd = Bd(poolId: nat, bufId: nat, dataSize: nat)

  datatype QueueKind = ChannelQueue | PoolQueue

  function Min(a: nat, b: nat): nat { if a < b then a else b }
}
