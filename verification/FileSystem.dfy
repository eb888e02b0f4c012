/** Names, inodes and contents: as much of a filesystem as the publish protocols use. */
module FileSystem {

  type Name = string

  type Bytes = seq<nat>

  /** A name points to an inode; two names may point to the same one (hard links). */
  datatype Fs = Fs(names: map<Name, nat>, data: map<nat, Bytes>)

  ghost predicate Consistent(f: Fs) {
    forall n | n in f.names :: f.names[n] in f.data
  }

  /** What a reader of `n` sees. */
  function Content(f: Fs, n: Name): Bytes
    requires n in f.names && f.names[n] in f.data
  {
    f.data[f.names[n]]
  }

  /** Exclusive creation of an empty file: the name must not exist. */
  function Create(f: Fs, n: Name, inode: nat): Fs
    requires n !in f.names && inode !in f.data
  {
    Fs(f.names[n := inode], f.data[inode := []])
  }

  /** Write through an open handle: the inode changes, whatever it is called. */
  function WriteInode(f: Fs, inode: nat, bytes: Bytes): Fs {
    f.(data := f.data[inode := bytes])
  }

  function Point(f: Fs, n: Name, inode: nat): Fs {
    f.(names := f.names[n := inode])
  }

  function Unlink(f: Fs, n: Name): Fs {
    f.(names := f.names - {n})
  }

  /** Atomic rename: `to` takes over the inode of `from`, and `from` disappears. */
  function Rename(f: Fs, from: Name, to: Name): Fs
    requires from in f.names
  {
    Unlink(Point(f, to, f.names[from]), from)
  }
}
