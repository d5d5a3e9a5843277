/** The part of the file system the writers and the cleaner touch: directory
    entries name inodes, and an open append stream holds an inode, so a rename
    moves the name while writes keep reaching the same file. */
module FileSystem {
  import opened Common

  datatype Path = Path(dir: string, name: string)

  datatype Fs = Fs(names: map<Path, nat>, data: map<nat, Bytes>, next: nat) {
    ghost predicate Valid() {
      && (forall p :: p in names ==> names[p] in data)
      && (forall i :: i in data ==> i < next)
    }

    function Content(p: Path): Bytes
      requires Valid() && p in names
    {
      data[names[p]]
    }
  }

  function Empty(): (fs: Fs)
    ensures fs.Valid() && fs.names == map[]
  {
    Fs(map[], map[], 0)
  }

  /** `fs.createWriteStream(p, {flags: 'a'})`: the inode named `p`, created
      empty under that name when absent. */
  function OpenAppend(fs: Fs, p: Path): (r: (Fs, nat))
    requires fs.Valid()
    ensures r.0.Valid() && p in r.0.names && r.0.names[p] == r.1
    ensures p in fs.names ==> r.0 == fs
    ensures p !in fs.names ==>
      && r.1 !in fs.data
      && r.0.names == fs.names[p := r.1]
      && r.0.data == fs.data[r.1 := []]
  {
    if p in fs.names then (fs, fs.names[p])
    else (Fs(fs.names[p := fs.next], fs.data[fs.next := []], fs.next + 1), fs.next)
  }

  /** A write through an open stream appends to the inode it holds. */
  function Append(fs: Fs, inode: nat, b: Bytes): (r: Fs)
    requires fs.Valid() && inode in fs.data
    ensures r.Valid() && r.names == fs.names
    ensures r.data == fs.data[inode := fs.data[inode] + b]
  {
    fs.(data := fs.data[inode := fs.data[inode] + b])
  }

  /** `fs.renameSync(from, to)`: `to` now names the inode `from` named. */
  function Rename(fs: Fs, from: Path, to: Path): (r: Fs)
    requires fs.Valid() && from in fs.names
    ensures r.Valid() && r.data == fs.data
    ensures to in r.names && r.names[to] == fs.names[from]
    ensures from != to ==> from !in r.names
    ensures forall p :: p != from && p != to ==> (p in r.names <==> p in fs.names)
    ensures forall p :: p != from && p != to && p in fs.names ==> r.names[p] == fs.names[p]
  {
    fs.(names := (fs.names - {from})[to := fs.names[from]])
  }

  /** `fs.unlink(p)` that succeeds. */
  function Unlink(fs: Fs, p: Path): (r: Fs)
    requires fs.Valid()
    ensures r.Valid() && r.data == fs.data && r.names == fs.names - {p}
  {
    fs.(names := fs.names - {p})
  }

  /** The shared disk, updated in place by every writer and by the cleaner. */
  class Disk {
    var fs: Fs

    constructor ()
      ensures fs == Empty()
    {
      fs := Empty();
    }

    method Exists(p: Path) returns (b: bool)
      ensures b <==> p in fs.names
    {
      b := p in fs.names;
    }

    method Open(p: Path) returns (inode: nat)
      requires fs.Valid()
      modifies this
      ensures (fs, inode) == OpenAppend(old(fs), p)
    {
      var r := OpenAppend(fs, p);
      fs, inode := r.0, r.1;
    }

    method Write(inode: nat, b: Bytes)
      requires fs.Valid() && inode in fs.data
      modifies this
      ensures fs == Append(old(fs), inode, b)
    {
      fs := Append(fs, inode, b);
    }

    method RenameSync(from: Path, to: Path)
      requires fs.Valid() && from in fs.names
      modifies this
      ensures fs == Rename(old(fs), from, to)
    {
      fs := Rename(fs, from, to);
    }

    method Remove(p: Path)
      requires fs.Valid()
      modifies this
      ensures fs == Unlink(old(fs), p)
    {
      fs := Unlink(fs, p);
    }
  }
}
