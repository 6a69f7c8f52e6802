/** Result codes of the library and the machine-integer bounds the server runtimes rely on. */
module Status {
  /** `librdp_status`, one constructor per enumerator. */
  datatype Status =
    | Ok
    | InvalidArgument
    | NoMemory
    | IoError
    | ProtocolError
    | Unsupported
    | Timeout
    | Closed
    | Again
    | State
    | TlsCertificateRejected
    | TlsHostnameMismatch
    | TlsHandshakeFailed
    | SecurityDowngrade
    | LimitExceeded
    | Cancelled
    | AuthenticationFailed
    | CredentialsExpired
    | AccountLocked

  datatype Option<+T> = None | Some(value: T)

  const U32_RANGE: nat := 0x1_0000_0000
  const U64_MAX: nat := 0xFFFF_FFFF_FFFF_FFFF
  const INT_MAX: nat := 0x7FFF_FFFF
  const NS_PER_MS: nat := 1000000

  type u32 = n: nat | n < U32_RANGE
  type u64 = n: nat | n <= U64_MAX

  newtype byte = n: int | 0 <= n < 256

  /** Unsigned 32-bit wrap-around. */
  function Wrap32(n: nat): u32 { n % U32_RANGE }

  /** Conversion of an unsigned 64-bit quotient to `int`: the low 32 bits read in two's complement. */
  function ToInt(n: nat): int {
    var low := n % U32_RANGE;
    if low <= INT_MAX then low else low - U32_RANGE
  }
}
