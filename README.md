# ArceOS std adapter — a verified model

This project models the platform layer that lets Rust's `std` run on the ArceOS
unikernel (`library/std/src/sys/arceos` and `library/std/src/os/arceos`). Almost
every function there is a single kernel call. The model keeps the rules that the
adapter states itself and proves them:

- **Host lookup** (`net.dfy`, `core_str.dfy`). `LookupHost::try_from(&str)` splits
  `host:port` at the last colon and parses the port with `u16::from_str`. A
  malformed string is rejected with `InvalidInput` before any kernel call.
  Otherwise it makes exactly one DNS query. `LookupHost` is a class whose
  `Next` pairs each resolved address with the fixed port, in order.
- **Socket call sequences** (`net.dfy`, `ax_net.dfy`). The kernel
  (`arceos_api::net`) is a `Kernel` class. It records every call and its reply
  in a trace. The replies come from an arbitrary oracle, so nothing is assumed
  about what the kernel does. Each wrapper method states which calls it makes,
  in which order, and when it returns early. Every capability-gap operation
  returns an error of kind `Unsupported`.
- **Error translation** (`errors.dfy`). `decode_error_kind` maps an `i32` to an
  `ErrorKind`. `unsupported()` always fails. The `abi_ret!` macro turns every
  kernel error into kind `Other`.
- **Open flags and permission bits** (`fs.dfy`). `OpenOptions` is a class whose
  setters update one field each; `to_flags` builds the flag word step by step.
  `FilePermissions` is a class whose `set_readonly` updates the mode in place.
  The constant-error `File` and path operations are also here.
- **File types** (`os_fs.dfy`). The `FileType` tag with its octal
  discriminants, the classifying predicates, and `PermissionsExt`.
- **Time** (`time.dfy`). `Instant` and `SystemTime` over the kernel's time
  value, with checked arithmetic and `sub_time`.

`AxTimeValue` is modelled as `core::time::Duration`: whole seconds in a `u64`
and nanoseconds below 10^9. Rust's integer widths are subset types of `int`
(`u16`, `u32`, `u64`, `i32`). The bit words of `fs.rs` are `bv16`/`bv32`.

Kernel calls reach the adapter through `cvt`, which is not part of this model.
Each kernel call is modelled as already giving an `io::Result`, and the adapter
returns that value unchanged. The model follows the code for DNS errors: a failed
query is returned as it is, whatever its kind.

`axbase::LinuxError` is not part of this model. Its conversion from `i32` is
modelled as a partial decoding that accepts exactly the numbers Linux assigns
to errors: 1 ..= 133 except 41 and 58, which `asm-generic/errno.h` leaves
unassigned (it only defines them as aliases). The numbers are those of Linux's
`errno-base.h` and `errno.h`, kept in the `Errno` module so that the variants of
`Errors.LinuxError` carry the kernel's names (`EPERM`, `EACCES`, …).

## Model

| member | source | states |
|---|---|---|
| Errors.ToLinuxError | library/std/src/sys/arceos/mod.rs:132-137 | the conversion succeeds exactly for 1 ..= 133 other than the unassigned 41 and 58, and what it gives back has that number |
| Errors.LinuxErrorRoundTrip | library/std/src/sys/arceos/mod.rs:132-137 | converting the number of any Linux error (a named one, or an assigned number without a name) gives that error back |
| Errors.DecodeErrorKind | library/std/src/sys/arceos/mod.rs:131-156 | total on `i32`; a number the conversion rejects is `Uncategorized`; the result is never `Unsupported` or `Other` |
| Errors.DecodeAgreesWithTable | library/std/src/sys/arceos/mod.rs:138-155 | each of the fifteen listed numbers gives the kind of an independent table; every other `i32` gives `Uncategorized` |
| Errors.DecodeRange | library/std/src/sys/arceos/mod.rs:131-155 | every result is one of the fourteen listed kinds or `Uncategorized` |
| Errors.DecodeReachesAll | library/std/src/sys/arceos/mod.rs:138-155 | each of the fourteen listed kinds and `Uncategorized` is the result for some number |
| Errors.DecodeNotInjective | library/std/src/sys/arceos/mod.rs:139-151 | EACCES and EPERM are distinct numbers that both give `PermissionDenied` |
| Errors.UnsupportedErr | library/std/src/sys/arceos/mod.rs:84-89 | the error has kind `Unsupported` and is not a raw OS error |
| Errors.UnsupportedResult | library/std/src/sys/arceos/mod.rs:80-82 | always `Err` of `unsupported_err()`, of kind `Unsupported` |
| Errors.AbiRet | library/std/src/sys/arceos/mod.rs:21-29 | `Ok` passes through unchanged; every kernel error becomes a custom error of kind `Other` carrying the kernel's text |
| Errors.AbiRetBypassesDecoding | library/std/src/sys/arceos/mod.rs:21-29 | no error number decodes to the kind `abi_ret!` gives, so kernel errors never go through `decode_error_kind` |
| Time.Duration.Total | library/std/src/sys/arceos/time.rs:5-9 | the nanosecond length of a time value is at most that of the largest `Duration` |
| Time.Duration.CheckedAdd | library/std/src/sys/arceos/time.rs:22-24 | `None` exactly when the sum of the lengths overflows; otherwise the length of the result is the sum |
| Time.Duration.CheckedSub | library/std/src/sys/arceos/time.rs:18-20 | `None` exactly when the subtrahend is longer; otherwise the length of the result is the difference |
| Time.Duration.Sub | library/std/src/sys/arceos/time.rs:37 | for a subtrahend that is not longer, the length of the result is the difference |
| Time.TotalInjective | library/std/src/sys/arceos/time.rs:5-9 | two time values of the same length are equal |
| Time.LeIsLengthOrder | library/std/src/sys/arceos/time.rs:5-9 | the derived (seconds, nanoseconds) order is the order of lengths |
| Time.AddThenSub | library/std/src/sys/arceos/time.rs:22-28 | after a successful addition, subtracting either operand succeeds and gives the other |
| Time.Instant.CheckedSubInstant | library/std/src/sys/arceos/time.rs:18-20 | `Some` exactly when the other instant is not later, with the elapsed length |
| Time.Instant.CheckedAddDuration | library/std/src/sys/arceos/time.rs:22-24 | `None` exactly when the sum overflows; otherwise the instant moved forward by the duration |
| Time.Instant.CheckedSubDuration | library/std/src/sys/arceos/time.rs:26-28 | `None` exactly when the duration is longer than the time value; otherwise the instant moved back by it |
| Time.InstantAddThenSub | library/std/src/sys/arceos/time.rs:22-28 | moving an instant forward and then back by the same duration returns it |
| Time.SystemTime.SubTime | library/std/src/sys/arceos/time.rs:36-38 | `Ok(self - other)` exactly when `other` is not later; otherwise `Err(other - self)` |
| Time.SystemTime.CheckedAddDuration | library/std/src/sys/arceos/time.rs:40-42 | `None` exactly when the sum overflows; otherwise the time moved forward by the duration |
| Time.SystemTime.CheckedSubDuration | library/std/src/sys/arceos/time.rs:44-46 | `None` exactly when the duration is longer than the time value; otherwise the time moved back by it |
| Time.EpochIsEarliest | library/std/src/sys/arceos/time.rs:11 | `UNIX_EPOCH` is the zero time value, no later than any time, and `t.sub_time(UNIX_EPOCH)` is `Ok` of t's own value |
| Time.SubTimeSelf | library/std/src/sys/arceos/time.rs:36-38 | `sub_time` of equal times is `Ok` of zero |
| Time.SubTimeBridgesGap | library/std/src/sys/arceos/time.rs:36-38 | the duration `sub_time` returns, added to the earlier time, gives the later; swapping distinct operands swaps `Ok` and `Err` |
| OsFs.FileType.Discriminant | library/std/src/os/arceos/fs.rs:14-29 | the discriminants are 0o1, 0o2, 0o4, 0o6, 0o10, 0o12 and 0o14 |
| OsFs.FileType.IsDir | library/std/src/os/arceos/fs.rs:205-207 | true exactly for the type whose discriminant is 0o4 |
| OsFs.FileType.IsFile | library/std/src/os/arceos/fs.rs:210-212 | true exactly for the type whose discriminant is 0o10 |
| OsFs.FileType.IsSymlink | library/std/src/os/arceos/fs.rs:215-217 | true exactly for the type whose discriminant is 0o12 |
| OsFs.FileType.IsBlockDevice | library/std/src/os/arceos/fs.rs:113-115 | true exactly for the type whose discriminant is 0o6 |
| OsFs.FileType.IsCharDevice | library/std/src/os/arceos/fs.rs:116-118 | true exactly for the type whose discriminant is 0o2 |
| OsFs.FileType.IsFifo | library/std/src/os/arceos/fs.rs:119-121 | true exactly for the type whose discriminant is 0o1 |
| OsFs.FileType.IsSocket | library/std/src/os/arceos/fs.rs:122-124 | true exactly for the type whose discriminant is 0o14 |
| OsFs.FromDiscriminant | library/std/src/os/arceos/fs.rs:11-29 | a byte names a file type exactly when it is one of the seven discriminants, and that type has it |
| OsFs.DiscriminantRoundTrip | library/std/src/os/arceos/fs.rs:14-29 | the discriminants are pairwise distinct: reading a type's tag back gives the type |
| OsFs.ExactlyOneClass | library/std/src/os/arceos/fs.rs:112-218 | every file type satisfies exactly one of the seven classifying predicates |
| PermissionsExt.Mode | library/std/src/os/arceos/fs.rs:190-192 | equals the wrapped permissions' `mode()`, which is below 0x10000 |
| PermissionsExt.SetMode | library/std/src/os/arceos/fs.rs:194-196 | never returns: it always panics |
| PermissionsExt.FromMode | library/std/src/os/arceos/fs.rs:198-200 | never returns: it always panics |
| Fs.Encode | library/std/src/sys/arceos/fs.rs:250-266 | each of the six bits 0x01 … 0x20 is set exactly when its option is on, and no bit outside 0x3F is |
| Fs.Decode | library/std/src/sys/arceos/fs.rs:257-266 | the inverse of `to_flags` on the six low bits: the options it gives have as their flag word exactly the word's bits within 0x3F |
| Fs.EncodeDecode | library/std/src/sys/arceos/fs.rs:257-266 | every option is recovered from the flag word, every word within 0x3F is an encoding, and distinct option sets give distinct words |
| Fs.OpenOptions.constructor | library/std/src/sys/arceos/fs.rs:220-229 | all six options are off, so the flag word is 0 |
| Fs.OpenOptions.Read | library/std/src/sys/arceos/fs.rs:231-233 | sets the read option and changes nothing else |
| Fs.OpenOptions.Write | library/std/src/sys/arceos/fs.rs:234-236 | sets the write option and changes nothing else |
| Fs.OpenOptions.Append | library/std/src/sys/arceos/fs.rs:237-239 | sets the append option and changes nothing else |
| Fs.OpenOptions.Truncate | library/std/src/sys/arceos/fs.rs:240-242 | sets the truncate option and changes nothing else |
| Fs.OpenOptions.Create | library/std/src/sys/arceos/fs.rs:243-245 | sets the create option and changes nothing else |
| Fs.OpenOptions.CreateNew | library/std/src/sys/arceos/fs.rs:246-248 | sets the create-new option and changes nothing else |
| Fs.OpenOptions.ToFlags | library/std/src/sys/arceos/fs.rs:257-266 | the word built bit by bit is the encoding of the current options, and it decodes back to them |
| Fs.FilePermissions.Readonly | library/std/src/sys/arceos/fs.rs:280-282 | true exactly when none of the owner, group and other read bits is set |
| Fs.FilePermissions.SetReadonly | library/std/src/sys/arceos/fs.rs:285-291 | afterwards `readonly()` is the argument; the read bits are all clear or all set; every other bit is unchanged |
| Fs.FilePermissions.Mode | library/std/src/sys/arceos/fs.rs:294-296 | the stored 16 bits widened to 32, so below 0x10000 |
| Fs.FilePermissions.Eq | library/std/src/sys/arceos/fs.rs:301-303 | two permissions are equal exactly when their `mode()` values are |
| Fs.ReadonlyTestsReadBits | library/std/src/sys/arceos/fs.rs:280-282 | as written, mode 0o444 has no write bit yet is not read-only, and mode 0o222 has every write bit yet is read-only |
| Fs.IntendedReadonly | library/std/src/sys/arceos/fs.rs:280-282 | the corrected test: read-only exactly when no write bit is set |
| Fs.IntendedSetReadonly | library/std/src/sys/arceos/fs.rs:285-291 | the corrected update changes only write bits and keeps the read bits |
| Fs.IntendedReadonlyRoundTrip | library/std/src/sys/arceos/fs.rs:280-291 | after the corrected `set_readonly(b)`, the corrected `readonly()` is `b` |
| Fs.IntendedSetReadonlyIdempotent | library/std/src/sys/arceos/fs.rs:285-291 | the corrected update is idempotent and leaves read-only permissions unchanged when asked for read-only |
| Fs.FileAttr.Size | library/std/src/sys/arceos/fs.rs:333-335 | the size the attribute holds, with no conversion |
| Fs.FileAttr.FileType | library/std/src/sys/arceos/fs.rs:343-345 | the node type the attribute holds |
| Fs.FileAttr.Perm | library/std/src/sys/arceos/fs.rs:338-340 | a new permissions object holding the attribute's mode |
| Fs.FileAttr.Modified | library/std/src/sys/arceos/fs.rs:348-350 | always fails with kind `Unsupported` |
| Fs.FileAttr.Accessed | library/std/src/sys/arceos/fs.rs:353-355 | always fails with kind `Unsupported` |
| Fs.FileAttr.Created | library/std/src/sys/arceos/fs.rs:358-360 | always fails with kind `Unsupported` |
| Fs.RawEinval | library/std/src/sys/arceos/fs.rs:60 | the raw OS error 22, whose kind is `InvalidInput` |
| Fs.File.FileAttr | library/std/src/sys/arceos/fs.rs:58-61 | always the raw OS error 22 |
| Fs.File.Fsync | library/std/src/sys/arceos/fs.rs:63-65 | always the raw OS error 22 |
| Fs.File.Datasync | library/std/src/sys/arceos/fs.rs:67-69 | the answer of `fsync`, so the raw OS error 22 |
| Fs.File.Truncate | library/std/src/sys/arceos/fs.rs:71-73 | always the raw OS error 22 |
| Fs.File.IsReadVectored | library/std/src/sys/arceos/fs.rs:84-86 | always false |
| Fs.File.IsWriteVectored | library/std/src/sys/arceos/fs.rs:101-103 | always false |
| Fs.File.Flush | library/std/src/sys/arceos/fs.rs:105-107 | always succeeds |
| Fs.File.Seek | library/std/src/sys/arceos/fs.rs:109-111 | always the raw OS error 22 |
| Fs.File.Duplicate | library/std/src/sys/arceos/fs.rs:113-115 | always the raw OS error 22 |
| Fs.File.SetPermissions | library/std/src/sys/arceos/fs.rs:117-119 | always the raw OS error 22 |
| Fs.File.SetTimes | library/std/src/sys/arceos/fs.rs:121-123 | always the raw OS error 22 |
| Fs.Rename | library/std/src/sys/arceos/fs.rs:377-379 | always fails with kind `Unsupported` |
| Fs.SetPerm | library/std/src/sys/arceos/fs.rs:381-383 | always fails with kind `Unsupported` |
| Fs.TryExists | library/std/src/sys/arceos/fs.rs:395-397 | always fails with kind `Unsupported` |
| Fs.Readlink | library/std/src/sys/arceos/fs.rs:399-401 | always fails with kind `Unsupported` |
| Fs.Symlink | library/std/src/sys/arceos/fs.rs:403-405 | always fails with kind `Unsupported` |
| Fs.Link | library/std/src/sys/arceos/fs.rs:407-409 | always fails with kind `Unsupported` |
| Fs.Lstat | library/std/src/sys/arceos/fs.rs:415-417 | always fails with kind `Unsupported` |
| Fs.Canonicalize | library/std/src/sys/arceos/fs.rs:419-421 | always fails with kind `Unsupported` |
| Fs.Copy | library/std/src/sys/arceos/fs.rs:423-425 | always fails with kind `Unsupported` |
| CoreStr.RSplitOnce | library/std/src/sys/arceos/net.rs:462 | `None` exactly when the character does not occur; otherwise the two parts joined by it give the string, and the right part does not contain it |
| CoreStr.RSplitOnceOfJoin | library/std/src/sys/arceos/net.rs:462 | splitting `before + c + after` at the last `c` gives `(before, after)` whenever `after` has no `c` |
| CoreStr.ParseDigits | library/std/src/sys/arceos/net.rs:463 | succeeds only on a string of decimal digits, and the value never drops below the accumulator it starts from |
| CoreStr.ParseU16 | library/std/src/sys/arceos/net.rs:463 | succeeds only when what follows an optional `+` is one or more decimal digits |
| CoreStr.ParseDigitsComputesValue | library/std/src/sys/arceos/net.rs:463 | the left-to-right digit loop computes the positional value, failing exactly on a non-digit or a value above 65535 |
| CoreStr.ParseU16Accepts | library/std/src/sys/arceos/net.rs:463 | `u16::from_str` accepts exactly an optional `+` followed by one or more decimal digits denoting at most 65535, and gives that value |
| CoreStr.ParseU16Rejects | library/std/src/sys/arceos/net.rs:463 | the empty string, a lone sign, any string holding `-`, and any value above 65535 are rejected |
| CoreStr.ParseU16OfDecimal | library/std/src/sys/arceos/net.rs:463 | every `u16` printed in decimal parses back to itself |
| Net.ParseHostPort | library/std/src/sys/arceos/net.rs:451-463 | every failure has kind `InvalidInput`, and it is the address error exactly when the string has no colon |
| Net.ParseNoColon | library/std/src/sys/arceos/net.rs:462 | a string without a colon gives "invalid socket address" |
| Net.ParseJoin | library/std/src/sys/arceos/net.rs:462-463 | for `host + ":" + text` with a colon-free `text`, the host is kept whole and the outcome is decided by parsing `text` alone |
| Net.ParseSplitsAtLastColon | library/std/src/sys/arceos/net.rs:462 | every accepted string is the host, a colon, and a colon-free text that parses to the port |
| Net.ParseRoundTrip | library/std/src/sys/arceos/net.rs:462-463 | `host + ":" + decimal(port)` parses to `(host, port)` for every host, colons included |
| Net.ParseRejectsBadPort | library/std/src/sys/arceos/net.rs:463 | an empty port, a lone `+`, a `-`, a non-digit, or a value above 65535 gives "invalid port value" |
| Net.ParseIpv6Host | library/std/src/sys/arceos/net.rs:462 | `"::1:80"` gives host `"::1"` and port 80 |
| Net.ParsePlusPort | library/std/src/sys/arceos/net.rs:463 | `"h:+80"` gives port 80 |
| Net.ParseOutOfRangePorts | library/std/src/sys/arceos/net.rs:463 | `"h:65536"` and `"h:-1"` give "invalid port value" |
| Net.WithPort | library/std/src/sys/arceos/net.rs:444 | the i-th socket address is the i-th resolved address with the port |
| Net.LookupHost.constructor | library/std/src/sys/arceos/net.rs:473 | the iterator yields every resolved address with the port, in order |
| Net.LookupHost.Port | library/std/src/sys/arceos/net.rs:436-438 | every address still to be yielded carries the returned port |
| Net.LookupHost.Next | library/std/src/sys/arceos/net.rs:443-445 | yields the first remaining address and drops it; once all are consumed, `None` and nothing changes |
| Net.LookupHost.TryFromPair | library/std/src/sys/arceos/net.rs:471-474 | exactly one DNS query for the host; its error is returned unchanged, and on success the iterator yields its addresses with the port |
| Net.LookupHost.TryFromStr | library/std/src/sys/arceos/net.rs:451-465 | a malformed string fails with its parse error and no kernel call; otherwise it behaves as `try_from((host, port))` on the parsed pair |
| Net.ListenOnlyAfterBind | library/std/src/sys/arceos/net.rs:175-182 | a listen is issued only after a successful bind and always with backlog 128; a bound listener holds the socket the kernel created |
| Net.TcpStream.Connect | library/std/src/sys/arceos/net.rs:21-26 | an address error is returned with no kernel call; otherwise a new socket, then a connect of it, and the stream holds that socket exactly when the connect succeeded |
| Net.TcpStream.ConnectTimeout | library/std/src/sys/arceos/net.rs:28-30 | always fails with kind `Unsupported` |
| Net.TcpStream.SetReadTimeout | library/std/src/sys/arceos/net.rs:32-34 | always fails with kind `Unsupported` |
| Net.TcpStream.SetWriteTimeout | library/std/src/sys/arceos/net.rs:36-38 | always fails with kind `Unsupported` |
| Net.TcpStream.ReadTimeout | library/std/src/sys/arceos/net.rs:40-42 | always fails with kind `Unsupported` |
| Net.TcpStream.WriteTimeout | library/std/src/sys/arceos/net.rs:44-46 | always fails with kind `Unsupported` |
| Net.TcpStream.Peek | library/std/src/sys/arceos/net.rs:48-50 | always fails with kind `Unsupported` |
| Net.TcpStream.Read | library/std/src/sys/arceos/net.rs:52-54 | one receive call on the stream's socket; its reply is the result |
| Net.TcpStream.ReadBuf | library/std/src/sys/arceos/net.rs:56-58 | always fails with kind `Unsupported` |
| Net.TcpStream.ReadVectored | library/std/src/sys/arceos/net.rs:60-62 | always fails with kind `Unsupported` |
| Net.TcpStream.IsReadVectored | library/std/src/sys/arceos/net.rs:64-66 | always false |
| Net.TcpStream.Write | library/std/src/sys/arceos/net.rs:68-70 | one send call of the data on the stream's socket; its reply is the result |
| Net.TcpStream.WriteVectored | library/std/src/sys/arceos/net.rs:72-74 | always fails with kind `Unsupported` |
| Net.TcpStream.IsWriteVectored | library/std/src/sys/arceos/net.rs:76-78 | always false |
| Net.TcpStream.PeerAddr | library/std/src/sys/arceos/net.rs:80-82 | one peer-address call; its reply is the result |
| Net.TcpStream.SocketAddress | library/std/src/sys/arceos/net.rs:84-86 | one local-address call; its reply is the result |
| Net.TcpStream.Shutdown | library/std/src/sys/arceos/net.rs:88-90 | one shutdown call that does not carry the direction; its reply is the result |
| Net.TcpStream.Duplicate | library/std/src/sys/arceos/net.rs:92-94 | always fails with kind `Unsupported` |
| Net.TcpStream.SetLinger | library/std/src/sys/arceos/net.rs:96-98 | always fails with kind `Unsupported` |
| Net.TcpStream.Linger | library/std/src/sys/arceos/net.rs:100-102 | always fails with kind `Unsupported` |
| Net.TcpStream.SetNodelay | library/std/src/sys/arceos/net.rs:104-106 | one set-nodelay call with the flag; its reply is the result |
| Net.TcpStream.Nodelay | library/std/src/sys/arceos/net.rs:108-110 | one nodelay query; its reply is the result |
| Net.TcpStream.SetTtl | library/std/src/sys/arceos/net.rs:112-114 | always fails with kind `Unsupported` |
| Net.TcpStream.Ttl | library/std/src/sys/arceos/net.rs:116-118 | always fails with kind `Unsupported` |
| Net.TcpStream.TakeError | library/std/src/sys/arceos/net.rs:120-122 | always fails with kind `Unsupported` |
| Net.TcpStream.SetNonblocking | library/std/src/sys/arceos/net.rs:124-126 | one set-nonblocking call with the flag; its reply is the result |
| Net.TcpListener.Bind | library/std/src/sys/arceos/net.rs:175-182 | an address error is returned with no kernel call; otherwise a new socket, a bind of it, and only after a successful bind a listen with backlog 128; the first failure is returned |
| Net.TcpListener.SocketAddress | library/std/src/sys/arceos/net.rs:184-186 | one local-address call; its reply is the result |
| Net.TcpListener.Accept | library/std/src/sys/arceos/net.rs:188-191 | one accept call; on success a stream over the handle the kernel returned, with the peer address it reported; its error otherwise |
| Net.TcpListener.Duplicate | library/std/src/sys/arceos/net.rs:193-195 | always fails with kind `Unsupported` |
| Net.TcpListener.SetTtl | library/std/src/sys/arceos/net.rs:197-199 | always fails with kind `Unsupported` |
| Net.TcpListener.Ttl | library/std/src/sys/arceos/net.rs:201-203 | always fails with kind `Unsupported` |
| Net.TcpListener.SetOnlyV6 | library/std/src/sys/arceos/net.rs:205-207 | always fails with kind `Unsupported` |
| Net.TcpListener.OnlyV6 | library/std/src/sys/arceos/net.rs:209-211 | always fails with kind `Unsupported` |
| Net.TcpListener.TakeError | library/std/src/sys/arceos/net.rs:213-215 | always fails with kind `Unsupported` |
| Net.TcpListener.SetNonblocking | library/std/src/sys/arceos/net.rs:217-219 | one set-nonblocking call with the flag; its reply is the result |
| Net.UdpSocket.Bind | library/std/src/sys/arceos/net.rs:264-269 | an address error is returned with no kernel call; otherwise a new socket, then a bind of it, and the socket is returned exactly when the bind succeeded |
| Net.UdpSocket.PeerAddr | library/std/src/sys/arceos/net.rs:271-273 | one peer-address call; its reply is the result |
| Net.UdpSocket.SocketAddress | library/std/src/sys/arceos/net.rs:275-277 | one local-address call; its reply is the result |
| Net.UdpSocket.RecvFrom | library/std/src/sys/arceos/net.rs:279-281 | one receive-from call; its reply is the result |
| Net.UdpSocket.PeekFrom | library/std/src/sys/arceos/net.rs:283-285 | one peek-from call; its reply is the result |
| Net.UdpSocket.SendTo | library/std/src/sys/arceos/net.rs:287-289 | one send-to call with the data and destination; its reply is the result |
| Net.UdpSocket.Duplicate | library/std/src/sys/arceos/net.rs:291-293 | always fails with kind `Unsupported` |
| Net.UdpSocket.SetReadTimeout | library/std/src/sys/arceos/net.rs:295-297 | always fails with kind `Unsupported` |
| Net.UdpSocket.SetWriteTimeout | library/std/src/sys/arceos/net.rs:299-301 | always fails with kind `Unsupported` |
| Net.UdpSocket.ReadTimeout | library/std/src/sys/arceos/net.rs:303-305 | always fails with kind `Unsupported` |
| Net.UdpSocket.WriteTimeout | library/std/src/sys/arceos/net.rs:307-309 | always fails with kind `Unsupported` |
| Net.UdpSocket.SetBroadcast | library/std/src/sys/arceos/net.rs:311-313 | always fails with kind `Unsupported` |
| Net.UdpSocket.Broadcast | library/std/src/sys/arceos/net.rs:315-317 | always fails with kind `Unsupported` |
| Net.UdpSocket.SetMulticastLoopV4 | library/std/src/sys/arceos/net.rs:319-321 | always fails with kind `Unsupported` |
| Net.UdpSocket.MulticastLoopV4 | library/std/src/sys/arceos/net.rs:323-325 | always fails with kind `Unsupported` |
| Net.UdpSocket.SetMulticastTtlV4 | library/std/src/sys/arceos/net.rs:327-329 | always fails with kind `Unsupported` |
| Net.UdpSocket.MulticastTtlV4 | library/std/src/sys/arceos/net.rs:331-333 | always fails with kind `Unsupported` |
| Net.UdpSocket.SetMulticastLoopV6 | library/std/src/sys/arceos/net.rs:335-337 | always fails with kind `Unsupported` |
| Net.UdpSocket.MulticastLoopV6 | library/std/src/sys/arceos/net.rs:339-341 | always fails with kind `Unsupported` |
| Net.UdpSocket.JoinMulticastV4 | library/std/src/sys/arceos/net.rs:343-345 | always fails with kind `Unsupported` |
| Net.UdpSocket.JoinMulticastV6 | library/std/src/sys/arceos/net.rs:347-349 | always fails with kind `Unsupported` |
| Net.UdpSocket.LeaveMulticastV4 | library/std/src/sys/arceos/net.rs:351-353 | always fails with kind `Unsupported` |
| Net.UdpSocket.LeaveMulticastV6 | library/std/src/sys/arceos/net.rs:355-357 | always fails with kind `Unsupported` |
| Net.UdpSocket.SetTtl | library/std/src/sys/arceos/net.rs:359-361 | always fails with kind `Unsupported` |
| Net.UdpSocket.Ttl | library/std/src/sys/arceos/net.rs:363-365 | always fails with kind `Unsupported` |
| Net.UdpSocket.TakeError | library/std/src/sys/arceos/net.rs:367-369 | always fails with kind `Unsupported` |
| Net.UdpSocket.SetNonblocking | library/std/src/sys/arceos/net.rs:371-373 | one set-nonblocking call with the flag; its reply is the result |
| Net.UdpSocket.Recv | library/std/src/sys/arceos/net.rs:375-377 | one receive call; its reply is the result |
| Net.UdpSocket.Peek | library/std/src/sys/arceos/net.rs:379-381 | always fails with kind `Unsupported` |
| Net.UdpSocket.Send | library/std/src/sys/arceos/net.rs:383-385 | one send call with the data; its reply is the result |
| Net.UdpSocket.Connect | library/std/src/sys/arceos/net.rs:387-390 | an address error is returned with no kernel call; otherwise one connect call, whose reply is the result |
| AxNet.Kernel.TcpSocket | library/std/src/sys/arceos/net.rs:23 | creating a TCP socket cannot fail and is recorded in the trace |
| AxNet.Kernel.UdpSocket | library/std/src/sys/arceos/net.rs:266 | creating a UDP socket cannot fail and is recorded in the trace |
| AxNet.Kernel.DnsQuery | library/std/src/sys/arceos/net.rs:472 | a DNS query is recorded in the trace with the reply it gave |

The other kernel entry points (`AxNet.Kernel.Unit`, `Count`, `Nodelay`,
`Addr`, `Accept`, `Datagram`) likewise append exactly one event, the call
with the reply it gave. The `netc` constants are `Net.AF_INET` (0) and `Net.AF_INET6` (1), and
the listener's backlog is `Net.BACKLOG` (128).

## Left out

- What the kernel does inside the `ax_tcp_*`, `ax_udp_*` and `ax_dns_query` calls (data transfer, blocking, address semantics, DNS). Its replies are arbitrary.
- Releasing a socket handle when a constructor fails. That depends on the handle's `Drop`, which is not part of this model.
- `cvt`, which is not part of this model. Kernel replies are taken to be `io::Result` values already.
- Buffer contents. Receive calls are modelled by the buffer's length and return the kernel's count; the bytes written into the buffer are not modelled. `usize` counts are unbounded naturals.
- The raw-handle conversions (`as_raw_socket`, `from_raw_socket`, `into_raw_socket`). They are the datatype constructors and the `inner` field.
- The `Debug` impls in `net.rs` and `fs.rs`, and the `netc` struct layouts, which have no behaviour.
- The console line `file_attr` prints before failing.
- `File::open`, `read`, `write`, the default vectored and cursor reads and writes, `Drop`, `ReadDir`, `DirEntry`, `DirBuilder::mkdir`, `readdir`, `unlink`, `rmdir`, `stat`, `remove_dir_all` and the empty `FileTimes` setters. These are foreign calls, a panic or no-ops.
- `Instant::now` and `SystemTime::now`. They read a hardware clock.
- `init`, `runtime_entry`, `abort_internal`, `cleanup`, `hashmap_random_keys` and the lock modules of `mod.rs`, and the stdio, thread, alloc and abi files. These are process start-up, foreign calls and concurrency.
- PermissionsExt.SetMode, PermissionsExt.FromMode: a panic is modelled as an `Outcome` value `Panics`, not as a call that does not return.

## Findings

| source | as written | input that shows it | evidently intended | confidence | as-written member | corrected member |
|---|---|---|---|---|---|---|
| library/std/src/sys/arceos/fs.rs:280-291 | `readonly` tests, and `set_readonly` clears or sets, the read bits 0o444 | mode 0o444 grants nobody write access, yet `readonly()` is false; mode 0o222 lets everybody write, yet `readonly()` is true | read-only means no write bit is set, so the write bits 0o222 are tested and changed, as in std's Unix `FilePermissions` | medium, not executed | Fs.ReadonlyTestsReadBits | Fs.IntendedReadonlyRoundTrip |
