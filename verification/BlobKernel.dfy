/** A store of inodes and directory entries, each with a volatile and an on-disk state, and what one
    system call does to it.

    Every choice the kernel has is in a `Choice`: whether the call fails, with which error, whether a
    failed call took effect all the same, how short a read or write is, which descriptor and inode
    number are handed out, and what a new inode's attributes and on-disk garbage are. */
module BlobKernel {
  import opened Wrappers
  import opened BlobProtocol

  datatype Data = Data(uid: int, mode: int, bytes: Bytes)

  /** `disk` is what a crash leaves of the inode; the inode is durable when it equals `mem`. */
  datatype Inode = Inode(kind: Kind, mem: Data, disk: Data) {
    predicate Durable() { disk == mem }
  }

  datatype Key = Key(dir: Ino, name: Name)

  type Entries = map<Key, Ino>

  /** `ents` is what processes see; `disk` is what a crash leaves of it. */
  datatype Store = Store(inodes: map<Ino, Inode>, ents: Entries, disk: Entries)

  datatype Desc = Desc(ino: Ino, offset: nat)
  type Descs = map<Fd, Desc>

  datatype Choice = Choice(fail: Option<Errno>, effect: bool, fd: Fd, ino: Ino, mem: Data, disk: Data, n: nat)

  /** The store and descriptors after a call, its reply, and the inode an open or create names. */
  datatype Outcome = Outcome(store: Store, fds: Descs, reply: Reply, ino: Ino)

  /** A call that cannot work fails as chosen, or else with what the kernel says of such a call. */
  function RefusedWith(s: Store, fds: Descs, ch: Choice, e: Errno): Outcome {
    Outcome(s, fds, Fail(if ch.fail.Some? then ch.fail.value else e), 0)
  }

  function Refused(s: Store, fds: Descs, ch: Choice): Outcome { RefusedWith(s, fds, ch, EOTHER) }

  function StatOf(s: Store, x: Ino): Stat
    requires x in s.inodes
  {
    var i := s.inodes[x];
    Stat(i.kind, i.mem.uid, i.mem.mode, |i.mem.bytes|, x)
  }

  function Min(a: nat, b: nat): nat { if a < b then a else b }

  /** The bytes after `chunk` is written at `offset`; a write past the end first pads with zeros. */
  function Spliced(was: Bytes, offset: nat, chunk: Bytes): Bytes {
    var base: Bytes := if offset <= |was| then was[..offset] else was + seq(offset - |was|, i => 0);
    base + chunk + (if offset + |chunk| < |was| then was[offset + |chunk|..] else [])
  }

  /** Entries of directory `d` as in `now`, all others as in `was`. */
  function SyncedEntries(was: Entries, now: Entries, d: Ino): Entries {
    (map k | k in was && k.dir != d :: was[k]) + (map k | k in now && k.dir == d :: now[k])
  }

  function Exec(s: Store, fds: Descs, c: Call, ch: Choice): Outcome {
    match c
    case OpenRoot => ExecOpenRoot(s, fds, ch)
    case Mkdir(dir, name, _) => ExecMkdir(s, fds, dir, name, ch)
    case OpenDir(dir, name) => ExecOpen(s, fds, dir, name, true, ch)
    case OpenBlob(dir, name) => ExecOpen(s, fds, dir, name, false, ch)
    case CreateExclusive(dir, name, _) => ExecCreate(s, fds, dir, name, ch)
    case Write(fd, data) => ExecWrite(s, fds, fd, data, ch)
    case Pread(fd, count, offset) => ExecPread(s, fds, fd, count, offset, ch)
    case Fstat(fd) => ExecFstat(s, fds, fd, ch)
    case Fchmod(fd, mode) => ExecFchmod(s, fds, fd, mode, ch)
    case Fsync(fd) => ExecFsync(s, fds, fd, ch)
    case RenameNoReplace(dir, from, to) => ExecRename(s, fds, dir, from, to, ch)
    case Unlink(dir, name) => ExecUnlink(s, fds, dir, name, ch)
    case Close(fd) => Outcome(s, fds - {fd}, Acked(ch), 0)
  }

  /** The store's path may lead to any directory: the adapter compares identities. */
  function ExecOpenRoot(s: Store, fds: Descs, ch: Choice): Outcome {
    if ch.fail.Some? || ch.fd in fds || ch.ino !in s.inodes || !s.inodes[ch.ino].kind.Directory?
        then Refused(s, fds, ch)
    else Outcome(s, fds[ch.fd := Desc(ch.ino, 0)], Got(ch.fd), ch.ino)
  }

  /** An exclusive create that is reported as failed may have made its file all the same. */
  function ExecCreate(s: Store, fds: Descs, dir: Fd, name: Name, ch: Choice): Outcome {
    if dir !in fds then Refused(s, fds, ch)
    else if Key(fds[dir].ino, name) in s.ents then RefusedWith(s, fds, ch, EEXIST)
    else if ch.ino in s.inodes || (if ch.fail.Some? then !ch.effect else ch.fd in fds) then Refused(s, fds, ch)
    else
      var s' := Added(s, Key(fds[dir].ino, name), ch.ino, Inode(Regular, ch.mem.(bytes := []), ch.disk));
      if ch.fail.Some? then Outcome(s', fds, Fail(ch.fail.value), ch.ino)
      else Outcome(s', fds[ch.fd := Desc(ch.ino, 0)], Got(ch.fd), ch.ino)
  }

  function ExecPread(s: Store, fds: Descs, fd: Fd, count: nat, offset: nat, ch: Choice): Outcome {
    if ch.fail.Some? || fd !in fds || fds[fd].ino !in s.inodes then Refused(s, fds, ch)
    else
      var all := s.inodes[fds[fd].ino].mem.bytes;
      var left := if offset <= |all| then all[offset..] else [];
      Outcome(s, fds, Chunk(left[..Min(Min(count, ch.n), |left|)]), 0)
  }

  function ExecFstat(s: Store, fds: Descs, fd: Fd, ch: Choice): Outcome {
    if ch.fail.Some? || fd !in fds || fds[fd].ino !in s.inodes then Refused(s, fds, ch)
    else Outcome(s, fds, Info(StatOf(s, fds[fd].ino)), 0)
  }

  function ExecFchmod(s: Store, fds: Descs, fd: Fd, mode: int, ch: Choice): Outcome {
    if fd !in fds || fds[fd].ino !in s.inodes || (ch.fail.Some? && !ch.effect) then Refused(s, fds, ch)
    else
      var x := fds[fd].ino;
      Outcome(Edited(s, x, s.inodes[x].mem.(mode := mode)), fds, Acked(ch), 0)
  }

  function ExecFsync(s: Store, fds: Descs, fd: Fd, ch: Choice): Outcome {
    if ch.fail.Some? || fd !in fds || fds[fd].ino !in s.inodes then Refused(s, fds, ch)
    else Outcome(Synced(s, fds[fd].ino), fds, Done, 0)
  }

  // ---- changes of the store --------------------------------------------------------------------

  function Synced(s: Store, x: Ino): Store
    requires x in s.inodes
  {
    var i := s.inodes[x];
    s.(inodes := s.inodes[x := i.(disk := i.mem)],
       disk := if i.kind.Directory? then SyncedEntries(s.disk, s.ents, x) else s.disk)
  }

  function Edited(s: Store, x: Ino, m: Data): Store
    requires x in s.inodes
  {
    s.(inodes := s.inodes[x := s.inodes[x].(mem := m)])
  }

  function Added(s: Store, k: Key, x: Ino, i: Inode): Store {
    s.(inodes := s.inodes[x := i], ents := s.ents[k := x])
  }

  function Renamed(s: Store, a: Key, b: Key): Store
    requires a in s.ents
  {
    s.(ents := (s.ents - {a})[b := s.ents[a]])
  }

  function Unlinked(s: Store, a: Key): Store { s.(ents := s.ents - {a}) }

  /** The reply of a call that took effect, which the kernel may still report as failed. */
  function Acked(ch: Choice): Reply { if ch.fail.Some? then Fail(ch.fail.value) else Done }

  function ExecMkdir(s: Store, fds: Descs, dir: Fd, name: Name, ch: Choice): Outcome {
    if dir !in fds then Refused(s, fds, ch)
    else if Key(fds[dir].ino, name) in s.ents then RefusedWith(s, fds, ch, EEXIST)
    else if ch.ino in s.inodes || (ch.fail.Some? && !ch.effect) then Refused(s, fds, ch)
    else
      Outcome(Added(s, Key(fds[dir].ino, name), ch.ino, Inode(Directory, ch.mem, ch.disk)), fds, Acked(ch), 0)
  }

  /** Opens never follow links; a directory cannot be opened as a blob, nor a blob as a directory. */
  function ExecOpen(s: Store, fds: Descs, dir: Fd, name: Name, asDir: bool, ch: Choice): Outcome {
    if ch.fail.Some? || ch.fd in fds || dir !in fds || Key(fds[dir].ino, name) !in s.ents then Refused(s, fds, ch)
    else
      var x := s.ents[Key(fds[dir].ino, name)];
      if x !in s.inodes || s.inodes[x].kind.Directory? != asDir then Refused(s, fds, ch)
      else Outcome(s, fds[ch.fd := Desc(x, 0)], Got(ch.fd), x)
  }

  /** At most `|data|` bytes reach the file at the descriptor's offset, reported or not. */
  function ExecWrite(s: Store, fds: Descs, fd: Fd, data: Bytes, ch: Choice): Outcome {
    if fd !in fds || fds[fd].ino !in s.inodes || (ch.fail.Some? && !ch.effect) then Refused(s, fds, ch)
    else
      var x, off := fds[fd].ino, fds[fd].offset;
      var i := s.inodes[x];
      var n := Min(ch.n, |data|);
      Outcome(Edited(s, x, i.mem.(bytes := Spliced(i.mem.bytes, off, data[..n]))),
              fds[fd := Desc(x, off + n)], if ch.fail.Some? then Fail(ch.fail.value) else Wrote(n), 0)
  }

  function ExecRename(s: Store, fds: Descs, dir: Fd, from: Name, to: Name, ch: Choice): Outcome {
    if dir !in fds || Key(fds[dir].ino, from) !in s.ents then Refused(s, fds, ch)
    else if Key(fds[dir].ino, to) in s.ents then RefusedWith(s, fds, ch, EEXIST)
    else if ch.fail.Some? && !ch.effect then Refused(s, fds, ch)
    else Outcome(Renamed(s, Key(fds[dir].ino, from), Key(fds[dir].ino, to)), fds, Acked(ch), 0)
  }

  function ExecUnlink(s: Store, fds: Descs, dir: Fd, name: Name, ch: Choice): Outcome {
    if dir !in fds || Key(fds[dir].ino, name) !in s.ents || (ch.fail.Some? && !ch.effect) then Refused(s, fds, ch)
    else Outcome(Unlinked(s, Key(fds[dir].ino, name)), fds, Acked(ch), 0)
  }

  /** The disk may at any time catch up on one entry, or write an inode that is not yet durable, torn. */
  function WritebackEntry(s: Store, k: Key): Store {
    if k in s.ents then s.(disk := s.disk[k := s.ents[k]]) else s.(disk := s.disk - {k})
  }

  function WritebackInode(s: Store, x: Ino, d: Data): Store {
    if x in s.inodes && !s.inodes[x].Durable() then s.(inodes := s.inodes[x := s.inodes[x].(disk := d)]) else s
  }

  /** Power loss: only what is on disk remains. */
  function Crash(s: Store): Store {
    Store(map x | x in s.inodes :: s.inodes[x].(mem := s.inodes[x].disk), s.disk, s.disk)
  }

  predicate WellFormedStore(s: Store) {
    (forall k :: k in s.ents ==> s.ents[k] in s.inodes) && (forall k :: k in s.disk ==> s.disk[k] in s.inodes)
  }

  predicate SameAt(a: Entries, b: Entries, k: Key) {
    (k in a <==> k in b) && (k in a ==> a[k] == b[k])
  }

  /** The inode's contents and attributes are untouched, and it stays durable if it was. */
  predicate Untouched(s: Store, s': Store, x: Ino)
    requires x in s.inodes && x in s'.inodes
  {
    s'.inodes[x].mem == s.inodes[x].mem && (s.inodes[x].Durable() ==> s'.inodes[x].Durable())
  }

  /** What an adapter whose temp is inode `t` may do to the store in one step: it changes no file but
      `t`, moves or removes no entry but those of `t`, and never a target, neither its entry nor its
      contents; new entries name `t` or a new inode; the disk only catches up. */
  ghost predicate Guarantee(s: Store, s': Store, t: Option<Ino>) {
    && (forall x :: x in s.inodes ==> x in s'.inodes && s'.inodes[x].kind == s.inodes[x].kind)
    && (forall x :: x in s.inodes && !s.inodes[x].kind.Directory? && Some(x) != t ==>
       x in s'.inodes && Untouched(s, s', x))
    && (forall k :: k in s.ents && Some(s.ents[k]) != t ==> SameAt(s'.ents, s.ents, k))
    && (forall k :: k in s'.ents ==> SameAt(s'.ents, s.ents, k) || Some(s'.ents[k]) == t || s'.ents[k] !in s.inodes)
    && (forall k :: SameAt(s'.disk, s.disk, k) || SameAt(s'.disk, s'.ents, k))
    && KeepsTargets(s, s')
  }

  predicate KeepsTargets(s: Store, s': Store) {
    && (forall k :: k in s.ents && k.name.Target? && s.ents[k] in s.inodes && !s.inodes[s.ents[k]].kind.Directory? ==>
          SameAt(s'.ents, s.ents, k) && s.ents[k] in s'.inodes && Untouched(s, s', s.ents[k]))
    && (forall k :: k in s.disk && k.name.Target? && s.disk[k] in s.inodes && !s.inodes[s.disk[k]].kind.Directory? ==>
          s.disk[k] in s'.inodes && Untouched(s, s', s.disk[k]))
  }
}
