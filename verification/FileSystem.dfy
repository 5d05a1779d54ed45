/** An abstract granted directory: names, inodes and the atomic syscalls the driver issues on them. */
module FileSystem {
  import opened Wrappers

  type byte = b: int | 0 <= b < 256
  type Bytes = seq<byte>
  type Name = string
  type Ino = nat

  /** io.ts:7. */
  const MAX_BYTES: nat := 1048576

  datatype Kind = Apply | Revert

  /** A transaction is named by its kind and the durable id of the action. */
  datatype Key = Key(kind: Kind, id: nat)

  /** SHA-256, taken to be injective: the digest determines the bytes. */
  datatype Digest = Sha256(of: Bytes)

  /** History only: who last wrote the content of an inode. No operation branches on it. */
  datatype Origin = Outside | Driver(key: Key)

  /** `plain` is false for anything `inspect` refuses whatever its bytes: symlinks, devices, other mounts. */
  datatype Inode = Inode(bytes: Bytes, mode: nat, uid: nat, plain: bool, mtime: nat, ctime: nat, origin: Origin)

  datatype Dir = Dir(names: map<Name, Ino>, inodes: map<Ino, Inode>, clock: nat)

  predicate ValidDir(d: Dir) {
    forall n | n in d.names :: d.names[n] in d.inodes
  }

  /** Link count of the file named `n` is one. */
  predicate SoleName(d: Dir, n: Name) {
    n in d.names && forall m | m in d.names && d.names[m] == d.names[n] :: m == n
  }

  predicate Linked(d: Dir, ino: Ino) {
    exists n | n in d.names :: d.names[n] == ino
  }

  /** Bounded text without NUL; the UTF-8 decoding itself is not modelled. */
  predicate IsText(b: Bytes) {
    |b| <= MAX_BYTES && forall i | 0 <= i < |b| :: b[i] != 0
  }

  /** What one call of `inspect` learns about a name. */
  datatype Target = Absent | Present(ino: Ino, file: Inode) | Refused

  function Inspect(d: Dir, n: Name): Target
    requires ValidDir(d)
  {
    if n !in d.names then Absent
    else
      var file := d.inodes[d.names[n]];
      if SoleName(d, n) && file.plain && IsText(file.bytes) then Present(d.names[n], file) else Refused
  }

  /** What the target must still be. */
  datatype Expected =
    | MustBeAbsent
    | MustBe(ino: Ino, size: nat, digest: Digest, mtime: Option<nat>, ctime: Option<nat>)

  predicate Matches(current: Target, e: Expected) {
    match current
    case Refused => false
    case Absent => e.MustBeAbsent?
    case Present(ino, file) =>
      && e.MustBe? && ino == e.ino && |file.bytes| == e.size && Sha256(file.bytes) == e.digest
      && (e.mtime.Some? ==> file.mtime == e.mtime.value)
      && (e.ctime.Some? ==> file.ctime == e.ctime.value)
  }

  /** The baseline recorded at simulation: absence, or identity, size, times and digest. */
  datatype Stamp = NoFile | Stamp(ino: Ino, size: nat, mtime: nat, ctime: nat, digest: Digest)

  function StampOf(t: Target): Stamp
    requires !t.Refused?
  {
    match t
    case Absent => NoFile
    case Present(ino, f) => Stamp(ino, |f.bytes|, f.mtime, f.ctime, Sha256(f.bytes))
  }

  function ExpectedFromStamp(s: Stamp): Expected {
    match s
    case NoFile => MustBeAbsent
    case Stamp(ino, size, mtime, ctime, digest) => MustBe(ino, size, digest, Some(mtime), Some(ctime))
  }

  /** A stamp identifies exactly one state of the target. */
  lemma StampIdentifies(t: Target, t': Target)
    requires !t.Refused?
    ensures Matches(t', ExpectedFromStamp(StampOf(t))) ==>
              !t'.Refused? && StampOf(t') == StampOf(t) && (t.Present? ==> t'.Present? && t'.file.bytes == t.file.bytes)
    ensures Matches(t, ExpectedFromStamp(StampOf(t)))
  {
  }

  // ---- syscalls of the driver ------------------------------------------------------------------

  /** open(O_CREAT|O_EXCL) followed by fchmod: an empty file under an unused name. */
  function CreateFile(d: Dir, n: Name, ino: Ino, mode: nat, uid: nat, key: Key): Dir {
    d.(names := d.names[n := ino],
       inodes := d.inodes[ino := Inode([], mode, uid, true, d.clock, d.clock, Driver(key))],
       clock := d.clock + 1)
  }

  /** One write(2) at the end of the file through the descriptor of `ino`. */
  function Append(d: Dir, ino: Ino, chunk: Bytes): Dir
    requires ino in d.inodes
  {
    var f := d.inodes[ino];
    d.(inodes := d.inodes[ino := f.(bytes := f.bytes + chunk, mtime := d.clock, ctime := d.clock)],
        clock := d.clock + 1)
  }

  function Touch(d: Dir, ino: Ino): map<Ino, Inode>
    requires ino in d.inodes
  {
    d.inodes[ino := d.inodes[ino].(ctime := d.clock)]
  }

  /** link(2): fails when the new name exists, so the caller checks that first. */
  function Link(d: Dir, from: Name, to: Name): Dir
    requires ValidDir(d) && from in d.names
  {
    d.(names := d.names[to := d.names[from]], inodes := Touch(d, d.names[from]), clock := d.clock + 1)
  }

  function Unlink(d: Dir, n: Name): Dir
    requires ValidDir(d) && n in d.names
  {
    d.(names := d.names - {n}, inodes := Touch(d, d.names[n]), clock := d.clock + 1)
  }

  /** renameat2(RENAME_EXCHANGE). */
  function Exchange(d: Dir, a: Name, b: Name): Dir
    requires ValidDir(d) && a in d.names && b in d.names
  {
    var touched := Touch(d, d.names[a]);
    d.(names := d.names[a := d.names[b]][b := d.names[a]],
       inodes := touched[d.names[b] := touched[d.names[b]].(ctime := d.clock)],
       clock := d.clock + 1)
  }

  /** rename(2): replaces whatever `to` named. */
  function Rename(d: Dir, from: Name, to: Name): Dir
    requires ValidDir(d) && from in d.names && from != to
  {
    d.(names := d.names[to := d.names[from]] - {from}, inodes := Touch(d, d.names[from]), clock := d.clock + 1)
  }

  // ---- outside writers -------------------------------------------------------------------------

  /** One benign step of an editor on name `n`: write in place, replace or create with any file, or unlink. */
  predicate OutsideEdit(d: Dir, d': Dir, n: Name) {
    || (&& n in d.names && d.names[n] in d'.inodes
        && d' == d.(inodes := d.inodes[d.names[n] := d'.inodes[d.names[n]]])
        && d'.inodes[d.names[n]].origin == Outside)
    || (&& n in d'.names && d'.names[n] in d'.inodes
        && (forall m | m in d.names && m != n :: d.names[m] != d'.names[n])
        && d' == d.(names := d.names[n := d'.names[n]], inodes := d.inodes[d'.names[n] := d'.inodes[d'.names[n]]])
        && d'.inodes[d'.names[n]].origin == Outside)
    || d' == d.(names := d.names - {n})
  }
}
