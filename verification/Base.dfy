/** Types and constants shared by the models of the C library and of the Rust receiver. */
module Base {

  datatype Option<+T> = None | Some(value: T)

  type byte = x: int | 0 <= x < 256

  type uint32 = x: int | 0 <= x < 0x1_0000_0000

  /** What storing `x` in a `uint32_t` leaves: C's conversion, also for negative values. */
  function Wrap(x: int): uint32 {
    x % 0x1_0000_0000
  }

  /** Outbound connections the pool caches. */
  const POOL_SIZE: nat := 16

  /** Inbound connections the receive side keeps. */
  const RX_TABLE_SIZE: nat := 8

  /** Inbound connections that may be closing beyond `RX_TABLE_SIZE`. */
  const EXTRA_INBOUND: nat := 2

  /** The size libcsp's connection table is configured with. */
  const CONN_MAX: nat := POOL_SIZE + RX_TABLE_SIZE + 4

  const MAX_BUNDLE_SIZE: nat := 65535

  /** The identity of one libcsp connection; libcsp never hands out the same one twice. */
  type Handle = nat

  datatype Dest = Dest(addr: byte, port: byte)

  /** libcsp's return codes, as far as cspcl tells them apart. */
  datatype CspResult = CspOk | CspTimedOut | CspFailed

  /** The error codes of cspcl that sending and receiving return. */
  datatype Code =
    | OK
    | INVALID_PARAM
    | NO_MEMORY
    | BUNDLE_TOO_LARGE
    | CSP_SEND
    | CSP_RECV
    | TIMEOUT
    | SFP
    | NOT_INITIALIZED
    | CONNECTION

  /** One call into libcsp, with its outcome. `Adopt` is a connection the caller hands over. */
  datatype Call =
    | Connect(dest: Dest, result: Option<Handle>)
    | Adopt(adopted: Handle)
    | Close(closed: Handle)
    | SfpSend(conn: Handle, data: seq<byte>, sent: CspResult)
    | ReadAck(ackConn: Handle, read: CspResult)

  /**
   * One copy of a bundle on the wire: the bytes, and which attempt of which send put it
   * there; `Foreign` copies come from senders outside the model. The numbers identify the
   * copy for the proofs; no code looks at them.
   */
  datatype Copy =
    | Copy(send: nat, attempt: nat, data: seq<byte>)
    | Foreign(send: nat, attempt: nat, data: seq<byte>)
}
