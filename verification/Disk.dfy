/**
 * One directory of a file system that can crash.
 *
 * File data is durable after a successful file sync; written bytes that were not synced
 * have no promised content.  Namespace operations take effect at once but are pending
 * until a directory sync: a crash keeps some prefix of them.
 */
module Disk {
  import opened Machine
  import opened Wrappers

  type Name = seq<Byte>
  type Inode = nat
  type Names = map<Name, Inode>

  datatype NameOp = Link(name: Name, inode: Inode) | Unlink(name: Name) | Rename(from: Name, to: Name)

  /** `durable` is the content a crash preserves, when there is one. */
  datatype File = File(data: seq<Byte>, durable: Option<seq<Byte>>)

  datatype Directory = Directory(durable: Names, pending: seq<NameOp>, files: map<Inode, File>)

  // ---------------------------------------------------------------- names

  function ApplyOp(names: Names, op: NameOp): Names {
    match op
    case Link(name, inode) => names[name := inode]
    case Unlink(name) => names - {name}
    case Rename(from, to) =>
      if from in names then (names - {from})[to := names[from]] else names
  }

  function ApplyOps(names: Names, ops: seq<NameOp>): Names
    decreases |ops|
  {
    if ops == [] then names else ApplyOp(ApplyOps(names, ops[..|ops| - 1]), ops[|ops| - 1])
  }

  function Lookup(names: Names, name: Name): Option<Inode> {
    if name in names then Some(names[name]) else None
  }

  function Live(d: Directory): Names {
    ApplyOps(d.durable, d.pending)
  }

  /** The names found after a crash that kept the first `k` pending operations. */
  function AfterCrash(d: Directory, k: nat): Names
    requires k <= |d.pending|
  {
    ApplyOps(d.durable, d.pending[..k])
  }

  // ---------------------------------------------------------------- operations

  function Perform(d: Directory, op: NameOp): Directory {
    d.(pending := d.pending + [op])
  }

  function Create(d: Directory, name: Name, inode: Inode): Directory {
    Perform(d, Link(name, inode)).(files := d.files[inode := File([], None)])
  }

  function Append(d: Directory, inode: Inode, bytes: seq<Byte>): Directory {
    if inode in d.files then d.(files := d.files[inode := File(d.files[inode].data + bytes, None)]) else d
  }

  function SyncFile(d: Directory, inode: Inode): Directory {
    if inode in d.files
    then d.(files := d.files[inode := File(d.files[inode].data, Some(d.files[inode].data))])
    else d
  }

  function SyncDirectory(d: Directory): Directory {
    d.(durable := Live(d), pending := [])
  }

  /** A directory sync that failed or unwound may still have hardened some prefix. */
  function PartialSync(d: Directory, k: nat): Directory
    requires k <= |d.pending|
  {
    d.(durable := AfterCrash(d, k), pending := d.pending[k..])
  }

  // ---------------------------------------------------------------- crash lemmas

  lemma {:induction false} ApplyOpsAppend(names: Names, a: seq<NameOp>, b: seq<NameOp>)
    ensures ApplyOps(names, a + b) == ApplyOps(ApplyOps(names, a), b)
    decreases |b|
  {
    if b == [] {
      assert a + b == a;
    } else {
      var n := |b| - 1;
      assert (a + b)[..|a + b| - 1] == a + b[..n];
      ApplyOpsAppend(names, a, b[..n]);
    }
  }

  /** A crash after one more operation keeps a shorter prefix, or everything. */
  lemma CrashAfterPerform(d: Directory, op: NameOp, k: nat)
    requires k <= |d.pending| + 1
    ensures AfterCrash(Perform(d, op), k)
         == if k <= |d.pending| then AfterCrash(d, k) else ApplyOp(Live(d), op)
  {
    var n := |d.pending|;
    if k <= n {
      assert (d.pending + [op])[..k] == d.pending[..k];
    } else {
      assert (d.pending + [op])[..k] == d.pending + [op];
      assert (d.pending + [op])[..n] == d.pending;
    }
  }

  /** Hardening a prefix only removes crash outcomes. */
  lemma CrashAfterPartialSync(d: Directory, k: nat, j: nat)
    requires k <= |d.pending| && j <= |d.pending| - k
    ensures AfterCrash(PartialSync(d, k), j) == AfterCrash(d, k + j)
    ensures Live(PartialSync(d, k)) == Live(d)
  {
    ApplyOpsAppend(d.durable, d.pending[..k], d.pending[k..][..j]);
    assert d.pending[..k] + d.pending[k..][..j] == d.pending[..k + j];
    ApplyOpsAppend(d.durable, d.pending[..k], d.pending[k..]);
    assert d.pending[..k] + d.pending[k..] == d.pending;
  }

  lemma CrashWithEverything(d: Directory)
    ensures AfterCrash(d, |d.pending|) == Live(d)
    ensures AfterCrash(d, 0) == d.durable
  {
    assert d.pending[..|d.pending|] == d.pending;
  }
}
