/** Sizes of pools, queues and buffers (src/server.rs, src/lib.rs, src/constants.rs). */
module Constants {
  /** Data channels that the server asks for in advance. */
  const TCP_POOL_SIZE: nat := 8

  /** Capacity of a listener's queue of visitors. */
  const CHAN_SIZE: nat := 2048

  /** Capacity of a pool's queue of data channels. */
  const DATA_QUEUE: nat := 2 * CHAN_SIZE

  /** Capacity of the queue between the run loop and an instance. */
  const UPDATE_QUEUE: nat := 1024

  /** Capacity of a UDP forwarder's inbox. */
  const UDP_SEND_Q_SIZE: nat := 1024

  /** A datagram is received into a buffer of this size, and cut to it. */
  const UDP_BUFFER_SIZE: nat := 2048
}
