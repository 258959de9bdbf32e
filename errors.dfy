/** Linux error numbers (asm-generic/errno-base.h and errno.h). They live apart
    from `Errors` so that the variants of `LinuxError` can carry the same names;
    `Errors` refers to the numbers as `Errno.EPERM` and so on. */
module Errno {
  import opened Common

  const EPERM: i32 := 1
  const ENOENT: i32 := 2
  const EINTR: i32 := 4
  const EAGAIN: i32 := 11
  const EACCES: i32 := 13
  const EEXIST: i32 := 17
  const EINVAL: i32 := 22
  const EPIPE: i32 := 32
  const EADDRINUSE: i32 := 98
  const EADDRNOTAVAIL: i32 := 99
  const ECONNABORTED: i32 := 103
  const ECONNRESET: i32 := 104
  const ENOTCONN: i32 := 107
  const ETIMEDOUT: i32 := 110
  const ECONNREFUSED: i32 := 111
  /** The largest Linux error number (EHWPOISON). */
  const LAST_ERRNO: i32 := 133

  /** The numbers below LAST_ERRNO that Linux leaves unassigned (41 would be
      EWOULDBLOCK and 58 EDEADLOCK, but both are only aliases). */
  function Unassigned(): set<i32> {
    {41, 58}
  }

  /** A number Linux assigns to an error. */
  predicate IsLinuxErrno(n: i32) {
    1 <= n <= LAST_ERRNO && n !in Unassigned()
  }
}

/** The error side of the ArceOS system bindings (library/std/src/sys/arceos/mod.rs):
    the portable error kinds, the Linux error numbers the kernel reports, the
    translation between the two (`decode_error_kind`), the constant
    "unsupported" error, and the `abi_ret!` macro that collapses kernel errors. */
module Errors {
  import opened Common
  import Errno

  /** The variants of `std::io::ErrorKind` that this layer produces or tests for. */
  datatype ErrorKind =
    | NotFound
    | PermissionDenied
    | ConnectionRefused
    | ConnectionReset
    | ConnectionAborted
    | NotConnected
    | AddrInUse
    | AddrNotAvailable
    | BrokenPipe
    | AlreadyExists
    | WouldBlock
    | InvalidInput
    | TimedOut
    | Interrupted
    | Unsupported
    | Other
    | Uncategorized

  /** `std::io::Error`: a raw OS code, a bare kind, a kind with a static message
      (`const_io_error!`), or a kind with a dynamic message (`Error::new`). */
  datatype IoError =
    | Os(code: i32)
    | Simple(kind: ErrorKind)
    | SimpleMessage(kind: ErrorKind, message: string)
    | Custom(kind: ErrorKind, message: string)
  {
    /** `Error::kind`: a raw OS code is classified by `decode_error_kind`. */
    function Kind(): ErrorKind {
      match this
      case Os(code) => DecodeErrorKind(code)
      case Simple(k) => k
      case SimpleMessage(k, _) => k
      case Custom(k, _) => k
    }
  }

  /** `axbase::LinuxError`: the fifteen numbers the translation names, and every
      other number Linux assigns to an error, which it does not distinguish. */
  datatype LinuxError =
    | EPERM | ENOENT | EINTR | EAGAIN | EACCES | EEXIST | EINVAL | EPIPE
    | EADDRINUSE | EADDRNOTAVAIL | ECONNABORTED | ECONNRESET | ENOTCONN
    | ETIMEDOUT | ECONNREFUSED
    | Unnamed(number: i32)
  {
    /** An `Unnamed` value stands for an assigned Linux error number that has no
        name above. */
    predicate Valid() {
      Unnamed? ==> Errno.IsLinuxErrno(number) && number !in NamedCodes()
    }

    /** The error number of the variant (its `repr(i32)` discriminant). */
    function Code(): i32 {
      match this
      case EPERM => Errno.EPERM
      case ENOENT => Errno.ENOENT
      case EINTR => Errno.EINTR
      case EAGAIN => Errno.EAGAIN
      case EACCES => Errno.EACCES
      case EEXIST => Errno.EEXIST
      case EINVAL => Errno.EINVAL
      case EPIPE => Errno.EPIPE
      case EADDRINUSE => Errno.EADDRINUSE
      case EADDRNOTAVAIL => Errno.EADDRNOTAVAIL
      case ECONNABORTED => Errno.ECONNABORTED
      case ECONNRESET => Errno.ECONNRESET
      case ENOTCONN => Errno.ENOTCONN
      case ETIMEDOUT => Errno.ETIMEDOUT
      case ECONNREFUSED => Errno.ECONNREFUSED
      case Unnamed(n) => n
    }
  }

  function NamedCodes(): set<i32> {
    {Errno.EPERM, Errno.ENOENT, Errno.EINTR, Errno.EAGAIN, Errno.EACCES,
     Errno.EEXIST, Errno.EINVAL, Errno.EPIPE, Errno.EADDRINUSE, Errno.EADDRNOTAVAIL,
     Errno.ECONNABORTED, Errno.ECONNRESET, Errno.ENOTCONN, Errno.ETIMEDOUT,
     Errno.ECONNREFUSED}
  }

  /** `<LinuxError as TryFrom<i32>>::try_from`: a partial decoding that accepts
      exactly the numbers Linux assigns to errors: 1 ..= LAST_ERRNO without the
      unassigned 41 and 58. */
  function ToLinuxError(errno: i32): (r: Option<LinuxError>)
    ensures r.Some? <==> 1 <= errno <= Errno.LAST_ERRNO && errno != 41 && errno != 58
    ensures r.Some? ==> r.value.Valid() && r.value.Code() == errno
  {
    if errno == Errno.EPERM then Some(EPERM)
    else if errno == Errno.ENOENT then Some(ENOENT)
    else if errno == Errno.EINTR then Some(EINTR)
    else if errno == Errno.EAGAIN then Some(EAGAIN)
    else if errno == Errno.EACCES then Some(EACCES)
    else if errno == Errno.EEXIST then Some(EEXIST)
    else if errno == Errno.EINVAL then Some(EINVAL)
    else if errno == Errno.EPIPE then Some(EPIPE)
    else if errno == Errno.EADDRINUSE then Some(EADDRINUSE)
    else if errno == Errno.EADDRNOTAVAIL then Some(EADDRNOTAVAIL)
    else if errno == Errno.ECONNABORTED then Some(ECONNABORTED)
    else if errno == Errno.ECONNRESET then Some(ECONNRESET)
    else if errno == Errno.ENOTCONN then Some(ENOTCONN)
    else if errno == Errno.ETIMEDOUT then Some(ETIMEDOUT)
    else if errno == Errno.ECONNREFUSED then Some(ECONNREFUSED)
    else if Errno.IsLinuxErrno(errno) then Some(Unnamed(errno))
    else None
  }

  /** Decoding the number of a valid Linux error gives that error back. */
  lemma LinuxErrorRoundTrip(e: LinuxError)
    requires e.Valid()
    ensures ToLinuxError(e.Code()) == Some(e)
  {
  }

  /** `decode_error_kind`: total over `i32`; numbers that are not Linux errors,
      and Linux errors it does not name, are `Uncategorized`. */
  function DecodeErrorKind(errno: i32): (k: ErrorKind)
    ensures ToLinuxError(errno).None? ==> k == Uncategorized
    ensures k != ErrorKind.Unsupported && k != Other
  {
    match ToLinuxError(errno)
    case None => Uncategorized
    case Some(err) =>
      match err
      case EACCES => PermissionDenied
      case EADDRINUSE => AddrInUse
      case EADDRNOTAVAIL => AddrNotAvailable
      case EAGAIN => WouldBlock
      case ECONNABORTED => ConnectionAborted
      case ECONNREFUSED => ConnectionRefused
      case ECONNRESET => ConnectionReset
      case EEXIST => AlreadyExists
      case EINTR => Interrupted
      case EINVAL => InvalidInput
      case ENOENT => NotFound
      case ENOTCONN => NotConnected
      case EPERM => PermissionDenied
      case EPIPE => BrokenPipe
      case ETIMEDOUT => TimedOut
      case _ => Uncategorized
  }

  /** The translation table written out as data, independently of the match. */
  function KindTable(): map<i32, ErrorKind> {
    map[Errno.EACCES := PermissionDenied, Errno.EADDRINUSE := AddrInUse,
        Errno.EADDRNOTAVAIL := AddrNotAvailable, Errno.EAGAIN := WouldBlock,
        Errno.ECONNABORTED := ConnectionAborted, Errno.ECONNREFUSED := ConnectionRefused,
        Errno.ECONNRESET := ConnectionReset, Errno.EEXIST := AlreadyExists,
        Errno.EINTR := Interrupted, Errno.EINVAL := InvalidInput, Errno.ENOENT := NotFound,
        Errno.ENOTCONN := NotConnected, Errno.EPERM := PermissionDenied, Errno.EPIPE := BrokenPipe,
        Errno.ETIMEDOUT := TimedOut]
  }

  /** The kinds `decode_error_kind` can produce. */
  function DecodedKinds(): set<ErrorKind> {
    {PermissionDenied, AddrInUse, AddrNotAvailable, WouldBlock, ConnectionAborted,
     ConnectionRefused, ConnectionReset, AlreadyExists, Interrupted, InvalidInput,
     NotFound, NotConnected, BrokenPipe, TimedOut, Uncategorized}
  }

  /** Each of the fifteen named numbers maps to its listed kind, and every other
      `i32` (a Linux error with no entry, or no Linux error at all) to `Uncategorized`. */
  lemma DecodeAgreesWithTable(errno: i32)
    ensures errno in KindTable() ==> DecodeErrorKind(errno) == KindTable()[errno]
    ensures errno !in KindTable() ==> DecodeErrorKind(errno) == Uncategorized
  {
  }

  /** The range of the translation is within the fourteen listed kinds plus
      `Uncategorized`. */
  lemma DecodeRange(errno: i32)
    ensures DecodeErrorKind(errno) in DecodedKinds()
  {
  }

  /** Each of the fourteen listed kinds and `Uncategorized` is reached. */
  lemma DecodeReachesAll()
    ensures forall k :: k in DecodedKinds() ==> exists n: i32 :: DecodeErrorKind(n) == k
  {
    forall k | k in DecodedKinds() ensures exists n: i32 :: DecodeErrorKind(n) == k {
      var n: i32 := Witness(k);
      assert DecodeErrorKind(n) == k;
    }
  }

  /** A number whose kind is `k`, for each kind in the range. */
  function Witness(k: ErrorKind): i32 {
    match k
    case PermissionDenied => Errno.EACCES
    case AddrInUse => Errno.EADDRINUSE
    case AddrNotAvailable => Errno.EADDRNOTAVAIL
    case WouldBlock => Errno.EAGAIN
    case ConnectionAborted => Errno.ECONNABORTED
    case ConnectionRefused => Errno.ECONNREFUSED
    case ConnectionReset => Errno.ECONNRESET
    case AlreadyExists => Errno.EEXIST
    case Interrupted => Errno.EINTR
    case InvalidInput => Errno.EINVAL
    case NotFound => Errno.ENOENT
    case NotConnected => Errno.ENOTCONN
    case BrokenPipe => Errno.EPIPE
    case TimedOut => Errno.ETIMEDOUT
    case _ => 0
  }

  /** EACCES and EPERM both mean `PermissionDenied`: the translation loses which
      of the two the kernel reported. */
  lemma DecodeNotInjective()
    ensures Errno.EACCES != Errno.EPERM && DecodeErrorKind(Errno.EACCES) == DecodeErrorKind(Errno.EPERM) == PermissionDenied
  {
  }

  /** `unsupported_err`: the constant error for operations ArceOS lacks. */
  function UnsupportedErr(): (e: IoError)
    ensures e.Kind() == ErrorKind.Unsupported && !e.Os?
  {
    SimpleMessage(ErrorKind.Unsupported, "operation not supported on ArceOS yet")
  }

  /** The result every capability-gap operation returns. */
  predicate IsUnsupported<T>(r: Result<T, IoError>) {
    r.Err? && r.error.Kind() == ErrorKind.Unsupported
  }

  /** `unsupported`: always fails, with kind `Unsupported`. */
  function UnsupportedResult<T>(): (r: Result<T, IoError>)
    ensures IsUnsupported(r) && r.error == UnsupportedErr()
  {
    Err(UnsupportedErr())
  }

  /** `axerrno::AxError`, reduced to the text its `as_str` gives. */
  datatype AxError = AxError(text: string)

  /** `abi_ret!`: an `Ok` passes through; every kernel error becomes an error of
      kind `Other` carrying the kernel's text. */
  function AbiRet<T>(r: Result<T, AxError>): (out: Result<T, IoError>)
    ensures r.Ok? <==> out.Ok?
    ensures r.Ok? ==> out.value == r.value
    ensures r.Err? ==> out.error == Custom(Other, r.error.text) && out.error.Kind() == Other
  {
    match r
    case Ok(v) => Ok(v)
    case Err(e) => Err(Custom(Other, e.text))
  }

  /** `abi_ret!` never routes a kernel error through `decode_error_kind`: no error
      number decodes to the kind it produces. */
  lemma AbiRetBypassesDecoding<T>(e: AxError, errno: i32)
    ensures AbiRet<T>(Err(e)).error.Kind() != DecodeErrorKind(errno)
  {
  }
}
