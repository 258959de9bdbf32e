/** The file-system bindings of ArceOS (library/std/src/sys/arceos/fs.rs) that
    hold logic of their own: the open-option flag word, the permission bits,
    the file attributes, and the file operations that always give the same answer. */
module Fs {
  import opened Common
  import opened Errors
  import Errno
  import opened OsFs
  import Time

  ////////////////////////////////////////////////////////////////////////////
  // Open options
  ////////////////////////////////////////////////////////////////////////////

  // The flag bits `to_flags` sets, one per option.
  const F_READ: bv32 := 0x01
  const F_WRITE: bv32 := 0x02
  const F_APPEND: bv32 := 0x04
  const F_TRUNC: bv32 := 0x08
  const F_CREATE: bv32 := 0x10
  const F_NEW: bv32 := 0x20
  /** All six flag bits. */
  const F_ALL: bv32 := 0x3F

  /** The six options as a value. */
  datatype OpenFlags = OpenFlags(read: bool, write: bool, append: bool,
                                 truncate: bool, create: bool, createNew: bool)

  const NO_FLAGS: OpenFlags := OpenFlags(false, false, false, false, false, false)

  /** The flag word of a set of options: the sum of the bits of the options that are on. */
  function Encode(o: OpenFlags): (w: bv32)
    ensures (w & F_READ != 0) == o.read
    ensures (w & F_WRITE != 0) == o.write
    ensures (w & F_APPEND != 0) == o.append
    ensures (w & F_TRUNC != 0) == o.truncate
    ensures (w & F_CREATE != 0) == o.create
    ensures (w & F_NEW != 0) == o.createNew
    ensures w & !F_ALL == 0 && w <= F_ALL
  {
    (if o.read then F_READ else 0) + (if o.write then F_WRITE else 0)
    + (if o.append then F_APPEND else 0) + (if o.truncate then F_TRUNC else 0)
    + (if o.create then F_CREATE else 0) + (if o.createNew then F_NEW else 0)
  }

  /** Reading the options back from a flag word: the options whose flag word is
      the word's six low bits, whatever the other bits hold. */
  function Decode(w: bv32): (o: OpenFlags)
    ensures Encode(o) == w & F_ALL
  {
    OpenFlags(w & F_READ != 0, w & F_WRITE != 0, w & F_APPEND != 0,
              w & F_TRUNC != 0, w & F_CREATE != 0, w & F_NEW != 0)
  }

  /** The flag word is a faithful encoding: every option is recovered from it,
      every word with no bit outside `F_ALL` is the encoding of its decoding,
      and so distinct option sets give distinct words. */
  lemma EncodeDecode(o: OpenFlags, w: bv32)
    ensures Decode(Encode(o)) == o
    ensures w & !F_ALL == 0 ==> Encode(Decode(w)) == w
    ensures forall p: OpenFlags :: Encode(p) == Encode(o) ==> p == o
  {
    forall p: OpenFlags | Encode(p) == Encode(o) ensures p == o {
      assert Decode(Encode(p)) == p;
    }
  }

  /** `OpenOptions`: six flags that the setters update in place. */
  class OpenOptions {
    var read: bool
    var write: bool
    var append: bool
    var truncate: bool
    var create: bool
    var createNew: bool

    /** The current options as a value. */
    ghost function View(): OpenFlags
      reads this
    {
      OpenFlags(read, write, append, truncate, create, createNew)
    }

    /** `OpenOptions::new`: every option off, so the flag word is 0. */
    constructor ()
      ensures View() == NO_FLAGS && Encode(View()) == 0
    {
      read, write, append := false, false, false;
      truncate, create, createNew := false, false, false;
    }

    /** `read`: sets that option alone. */
    method Read(read: bool)
      modifies this`read
      ensures View() == old(View()).(read := read)
    {
      this.read := read;
    }

    /** `write`: sets that option alone. */
    method Write(write: bool)
      modifies this`write
      ensures View() == old(View()).(write := write)
    {
      this.write := write;
    }

    /** `append`: sets that option alone. */
    method Append(append: bool)
      modifies this`append
      ensures View() == old(View()).(append := append)
    {
      this.append := append;
    }

    /** `truncate`: sets that option alone. */
    method Truncate(truncate: bool)
      modifies this`truncate
      ensures View() == old(View()).(truncate := truncate)
    {
      this.truncate := truncate;
    }

    /** `create`: sets that option alone. */
    method Create(create: bool)
      modifies this`create
      ensures View() == old(View()).(create := create)
    {
      this.create := create;
    }

    /** `create_new`: sets that option alone. */
    method CreateNew(createNew: bool)
      modifies this`createNew
      ensures View() == old(View()).(createNew := createNew)
    {
      this.createNew := createNew;
    }

    /** `to_flags`: ORs in the bit of each option that is on. */
    method ToFlags() returns (flags: bv32)
      ensures flags == Encode(View())
      ensures Decode(flags) == View()
    {
      flags := 0;
      if read { flags := flags | F_READ; }
      if write { flags := flags | F_WRITE; }
      if append { flags := flags | F_APPEND; }
      if truncate { flags := flags | F_TRUNC; }
      if create { flags := flags | F_CREATE; }
      if createNew { flags := flags | F_NEW; }
      EncodeDecode(View(), flags);
    }
  }

  ////////////////////////////////////////////////////////////////////////////
  // Permissions
  ////////////////////////////////////////////////////////////////////////////

  // Permission bits (0o400, 0o200, 0o100, 0o40, 0o20, 0o10, 0o4, 0o2, 0o1).
  const OWNER_READ: bv16 := 0x100
  const OWNER_WRITE: bv16 := 0x80
  const OWNER_EXEC: bv16 := 0x40
  const GROUP_READ: bv16 := 0x20
  const GROUP_WRITE: bv16 := 0x10
  const GROUP_EXEC: bv16 := 0x08
  const OTHER_READ: bv16 := 0x04
  const OTHER_WRITE: bv16 := 0x02
  const OTHER_EXEC: bv16 := 0x01

  /** The read bits 0o444, which `readonly` and `set_readonly` work on. */
  const READ_BITS: bv16 := 0x124
  /** The write bits 0o222. */
  const WRITE_BITS: bv16 := 0x92

  /** `FilePermissions`: a 16-bit mode that `set_readonly` updates in place. */
  class FilePermissions {
    var mode: bv16

    constructor (mode: bv16)
      ensures this.mode == mode
    {
      this.mode := mode;
    }

    /** `readonly`: none of the owner, group and other READ bits is set. */
    predicate Readonly()
      reads this
      ensures Readonly() <==> mode & OWNER_READ == 0 && mode & GROUP_READ == 0 && mode & OTHER_READ == 0
    {
      mode & READ_BITS == 0
    }

    /** `set_readonly`: clears all read bits, or sets all of them; no other bit changes. */
    method SetReadonly(readonly: bool)
      modifies this
      ensures Readonly() == readonly
      ensures readonly ==> mode & READ_BITS == 0
      ensures !readonly ==> mode & READ_BITS == READ_BITS
      ensures mode & !READ_BITS == old(mode) & !READ_BITS
    {
      if readonly {
        mode := mode & !READ_BITS;
      } else {
        mode := mode | READ_BITS;
      }
    }

    /** `mode`: the stored bits widened to 32 bits. */
    function Mode(): (m: bv32)
      reads this
      ensures m < 0x1_0000 && m as bv16 == mode
    {
      mode as bv32
    }

    /** `eq`: two permissions are equal exactly when their modes are. */
    predicate Eq(other: FilePermissions)
      reads this, other
      ensures Eq(other) <==> Mode() == other.Mode()
    {
      mode == other.mode
    }
  }

  /** `readonly` as written misjudges permissions: 0o444 grants nobody write
      access, yet is not read-only, and 0o222 lets everybody write, yet is. */
  lemma ReadonlyTestsReadBits(p: FilePermissions, q: FilePermissions)
    requires p.mode == 0x124 && q.mode == 0x92
    ensures p.mode & WRITE_BITS == 0 && !p.Readonly()
    ensures q.mode & WRITE_BITS == WRITE_BITS && q.Readonly()
  {
  }

  /** The evidently intended `readonly`: no write bit is set. */
  function IntendedReadonly(mode: bv16): (r: bool)
    ensures r <==> mode & OWNER_WRITE == 0 && mode & GROUP_WRITE == 0 && mode & OTHER_WRITE == 0
  {
    mode & WRITE_BITS == 0
  }

  /** The evidently intended `set_readonly`: clears or sets the write bits. */
  function IntendedSetReadonly(mode: bv16, readonly: bool): (m: bv16)
    ensures m & !WRITE_BITS == mode & !WRITE_BITS
    ensures m & READ_BITS == mode & READ_BITS
  {
    if readonly then mode & !WRITE_BITS else mode | WRITE_BITS
  }

  /** After the intended `set_readonly(b)`, the intended `readonly` is `b`. */
  lemma IntendedReadonlyRoundTrip(mode: bv16, readonly: bool)
    ensures IntendedReadonly(IntendedSetReadonly(mode, readonly)) == readonly
  {
  }

  /** Setting the intended read-only flag twice is the same as setting it once,
      and setting it on permissions that are already read-only changes nothing. */
  lemma IntendedSetReadonlyIdempotent(mode: bv16, readonly: bool)
    ensures IntendedSetReadonly(IntendedSetReadonly(mode, readonly), readonly)
            == IntendedSetReadonly(mode, readonly)
    ensures IntendedReadonly(mode) ==> IntendedSetReadonly(mode, true) == mode
  {
  }

  ////////////////////////////////////////////////////////////////////////////
  // File attributes and files
  ////////////////////////////////////////////////////////////////////////////

  /** `FileAttr`: the permission bits, type, size and block count of a node. */
  datatype FileAttr = FileAttr(mode: bv16, ty: FileType, size: u64, blocks: u64) {

    /** `size`: the stored byte count, unconverted. */
    function Size(): (n: u64)
      ensures n == size
    {
      size
    }

    /** `file_type`: the stored node type. */
    function FileType(): (t: OsFs.FileType)
      ensures t == ty
    {
      ty
    }

    /** `perm`: a copy of the permissions. */
    method Perm() returns (p: FilePermissions)
      ensures fresh(p) && p.mode == mode
    {
      p := new FilePermissions(mode);
    }

    /** `modified`: not supported. */
    function Modified(): (r: Result<Time.SystemTime, IoError>)
      ensures IsUnsupported(r)
    {
      UnsupportedResult()
    }

    /** `accessed`: not supported. */
    function Accessed(): (r: Result<Time.SystemTime, IoError>)
      ensures IsUnsupported(r)
    {
      UnsupportedResult()
    }

    /** `created`: not supported. */
    function Created(): (r: Result<Time.SystemTime, IoError>)
      ensures IsUnsupported(r)
    {
      UnsupportedResult()
    }
  }

  /** Another name of `FileAttr`: inside `File`, the name `FileAttr` means the
      member function `File::file_attr`, so its result type is written this way. */
  type Attributes = FileAttr

  /** The answer of the file operations ArceOS does not provide: the raw OS
      error 22 (EINVAL), whose kind is `InvalidInput`. */
  predicate IsRawEinval<T>(r: Result<T, IoError>) {
    r.Err? && r.error.Os? && r.error.code == 22 && r.error.Kind() == InvalidInput
  }

  /** `Error::from_raw_os_error(22)`. */
  function RawEinval<T>(): (r: Result<T, IoError>)
    ensures IsRawEinval(r)
  {
    Err(Os(Errno.EINVAL))
  }

  /** `SeekFrom`. */
  datatype SeekFrom = Start(offset: u64) | End(delta: i64) | Current(delta: i64)

  /** `FileTimes`: an empty record. */
  datatype FileTimes = FileTimes

  /** `File`: an open file, identified by the kernel's handle. */
  datatype File = File(handle: nat) {

    /** `file_attr`: always the raw OS error 22. */
    function FileAttr(): (r: Result<Attributes, IoError>)
      ensures IsRawEinval(r)
    {
      RawEinval()
    }

    /** `fsync`: always the raw OS error 22. */
    function Fsync(): (r: Result<(), IoError>)
      ensures IsRawEinval(r)
    {
      RawEinval()
    }

    /** `datasync`: the answer of `fsync`. */
    function Datasync(): (r: Result<(), IoError>)
      ensures IsRawEinval(r) && r == Fsync()
    {
      Fsync()
    }

    /** `truncate`: always the raw OS error 22. */
    function Truncate(size: u64): (r: Result<(), IoError>)
      ensures IsRawEinval(r)
    {
      RawEinval()
    }

    /** `is_read_vectored`: always false. */
    predicate IsReadVectored()
      ensures !IsReadVectored()
    {
      false
    }

    /** `is_write_vectored`: always false. */
    predicate IsWriteVectored()
      ensures !IsWriteVectored()
    {
      false
    }

    /** `flush`: always succeeds. */
    function Flush(): (r: Result<(), IoError>)
      ensures r.Ok?
    {
      Ok(())
    }

    /** `seek`: always the raw OS error 22. */
    function Seek(pos: SeekFrom): (r: Result<u64, IoError>)
      ensures IsRawEinval(r)
    {
      RawEinval()
    }

    /** `duplicate`: always the raw OS error 22. */
    function Duplicate(): (r: Result<File, IoError>)
      ensures IsRawEinval(r)
    {
      RawEinval()
    }

    /** `set_permissions`: always the raw OS error 22. */
    function SetPermissions(perm: FilePermissions): (r: Result<(), IoError>)
      ensures IsRawEinval(r)
    {
      RawEinval()
    }

    /** `set_times`: always the raw OS error 22. */
    function SetTimes(times: FileTimes): (r: Result<(), IoError>)
      ensures IsRawEinval(r)
    {
      RawEinval()
    }
  }

  ////////////////////////////////////////////////////////////////////////////
  // Path operations ArceOS does not provide
  ////////////////////////////////////////////////////////////////////////////

  type Path = string

  /** `rename`: not supported. */
  function Rename(from: Path, to: Path): (r: Result<(), IoError>)
    ensures IsUnsupported(r)
  {
    UnsupportedResult()
  }

  /** `set_perm`: not supported. */
  function SetPerm(p: Path, perm: FilePermissions): (r: Result<(), IoError>)
    ensures IsUnsupported(r)
  {
    UnsupportedResult()
  }

  /** `try_exists`: not supported. */
  function TryExists(p: Path): (r: Result<bool, IoError>)
    ensures IsUnsupported(r)
  {
    UnsupportedResult()
  }

  /** `readlink`: not supported. */
  function Readlink(p: Path): (r: Result<Path, IoError>)
    ensures IsUnsupported(r)
  {
    UnsupportedResult()
  }

  /** `symlink`: not supported. */
  function Symlink(original: Path, link: Path): (r: Result<(), IoError>)
    ensures IsUnsupported(r)
  {
    UnsupportedResult()
  }

  /** `link`: not supported. */
  function Link(src: Path, dst: Path): (r: Result<(), IoError>)
    ensures IsUnsupported(r)
  {
    UnsupportedResult()
  }

  /** `lstat`: not supported. */
  function Lstat(p: Path): (r: Result<FileAttr, IoError>)
    ensures IsUnsupported(r)
  {
    UnsupportedResult()
  }

  /** `canonicalize`: not supported. */
  function Canonicalize(p: Path): (r: Result<Path, IoError>)
    ensures IsUnsupported(r)
  {
    UnsupportedResult()
  }

  /** `copy`: not supported. */
  function Copy(from: Path, to: Path): (r: Result<u64, IoError>)
    ensures IsUnsupported(r)
  {
    UnsupportedResult()
  }
}
