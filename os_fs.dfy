/** The ArceOS-specific file-system extensions (library/std/src/os/arceos/fs.rs):
    the node type tag with its fixed discriminants and classifying predicates,
    and the `PermissionsExt` view of permission bits. */
module OsFs {
  import opened Common

  /** `FileType`, a `repr(u8)` enum; discriminants are the octal values of the source. */
  datatype FileType = Fifo | CharDevice | Dir | BlockDevice | File | SymLink | Socket {

    /** The enum discriminant: 0o1, 0o2, 0o4, 0o6, 0o10, 0o12, 0o14. */
    function Discriminant(): (d: u8)
      ensures d in {1, 2, 4, 6, 8, 10, 12}
    {
      match this
      case Fifo => 1
      case CharDevice => 2
      case Dir => 4
      case BlockDevice => 6
      case File => 8
      case SymLink => 10
      case Socket => 12
    }

    /** `is_dir`. */
    predicate IsDir()
      ensures IsDir() <==> Discriminant() == 4
    {
      this == Dir
    }

    /** `is_file`. */
    predicate IsFile()
      ensures IsFile() <==> Discriminant() == 8
    {
      this == File
    }

    /** `is_symlink`. */
    predicate IsSymlink()
      ensures IsSymlink() <==> Discriminant() == 10
    {
      this == SymLink
    }

    /** `FileTypeExt::is_block_device`. */
    predicate IsBlockDevice()
      ensures IsBlockDevice() <==> Discriminant() == 6
    {
      this == BlockDevice
    }

    /** `FileTypeExt::is_char_device`. */
    predicate IsCharDevice()
      ensures IsCharDevice() <==> Discriminant() == 2
    {
      this == CharDevice
    }

    /** `FileTypeExt::is_fifo`. */
    predicate IsFifo()
      ensures IsFifo() <==> Discriminant() == 1
    {
      this == Fifo
    }

    /** `FileTypeExt::is_socket`. */
    predicate IsSocket()
      ensures IsSocket() <==> Discriminant() == 12
    {
      this == Socket
    }

    /** The answers of the seven classifying predicates. */
    function Answers(): seq<bool> {
      [IsFifo(), IsCharDevice(), IsDir(), IsBlockDevice(), IsFile(), IsSymlink(), IsSocket()]
    }
  }

  /** The number of `true` entries. */
  function CountTrue(bs: seq<bool>): (n: nat)
    ensures n <= |bs|
  {
    if bs == [] then 0 else (if bs[0] then 1 else 0) + CountTrue(bs[1..])
  }

  /** Reading a `FileType` back from its discriminant; other bytes are no file type. */
  function FromDiscriminant(d: u8): (r: Option<FileType>)
    ensures r.Some? <==> d in {1, 2, 4, 6, 8, 10, 12}
    ensures r.Some? ==> r.value.Discriminant() == d
  {
    if d == 1 then Some(Fifo)
    else if d == 2 then Some(CharDevice)
    else if d == 4 then Some(Dir)
    else if d == 6 then Some(BlockDevice)
    else if d == 8 then Some(File)
    else if d == 10 then Some(SymLink)
    else if d == 12 then Some(Socket)
    else None
  }

  /** The discriminants are pairwise distinct: the tag determines the type. */
  lemma DiscriminantRoundTrip(t: FileType)
    ensures FromDiscriminant(t.Discriminant()) == Some(t)
    ensures forall u: FileType :: u.Discriminant() == t.Discriminant() ==> u == t
  {
  }

  /** Every file type satisfies exactly one of the seven classifying predicates. */
  lemma {:induction false} ExactlyOneClass(t: FileType)
    ensures CountTrue(t.Answers()) == 1
  {
    var a := t.Answers();
    assert a[1..][1..][1..][1..][1..][1..][1..] == [];
    assert CountTrue(a) == (if a[0] then 1 else 0) + (if a[1] then 1 else 0) + (if a[2] then 1 else 0)
      + (if a[3] then 1 else 0) + (if a[4] then 1 else 0) + (if a[5] then 1 else 0) + (if a[6] then 1 else 0);
  }
}

/** `PermissionsExt` for `std::fs::Permissions`, the public wrapper around
    the system `FilePermissions`. */
module PermissionsExt {
  import opened Common
  import opened Fs

  /** `std::fs::Permissions`. */
  datatype Permissions = Permissions(inner: FilePermissions)

  /** `PermissionsExt::mode`: the mode of the wrapped permissions, a 16-bit value. */
  function Mode(p: Permissions): (m: bv32)
    reads p.inner
    ensures m == p.inner.Mode() && m < 0x1_0000
  {
    p.inner.Mode()
  }

  /** `PermissionsExt::set_mode`: always panics. */
  function SetMode(p: Permissions, mode: bv32): (o: Outcome<()>)
    ensures o.Panics?
  {
    Panics("no set_mode")
  }

  /** `PermissionsExt::from_mode`: always panics. */
  function FromMode(mode: bv32): (o: Outcome<Permissions>)
    ensures o.Panics?
  {
    Panics("no from_mode")
  }
}
