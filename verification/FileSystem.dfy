/**
 The part of a file system that publication relies on.

 Directories map names to files, symbolic links and directories. A file's bytes belong to its inode,
 which several names can share.

 Every name remembers which earlier entries a crash may bring back: all since the last synchronisation
 of its directory. A crash picks one of them for each name independently, and may turn the bytes of
 an inode that was not synchronised into anything.
 */
module FileSystem {
  import opened Basics

  datatype Artifact = Cert | Chain | Fullchain | Privkey | Metadata

  const ARTIFACTS := [Cert, Chain, Fullchain, Privkey, Metadata]

  datatype Name =
    | Art(a: Artifact)              // cert.pem and the others
    | Tmp(a: Artifact)              // cert.pem.tmp
    | ArtPending(a: Artifact)       // .cert.pem.pending
    | Current
    | CurrentPending                // .current.pending
    | Generation(id: string)
    | Staging(id: string)           // .generation-..., .legacy-... and .deploy-...
    | Pin(id: string)

  datatype Target = ToGeneration(id: string) | ThroughCurrent(a: Artifact)

  datatype Node = Absent | File(ino: nat) | Symlink(to: Target) | Dir(dir: nat)

  datatype Slot = Slot(now: Node, older: set<Node>)

  /** The bytes of a file. Metadata is read back for the expiry it holds. */
  datatype Data = Bytes(text: string) | Meta(expiry: int)

  datatype Inode = Inode(data: Data, synced: bool)

  /** A name in a directory. */
  datatype Place = Place(dir: nat, name: Name)

  /** `follows`: a hard link of a symbolic link is one of the file that it leads to, not of the link itself. */
  datatype Disk = Disk(slots: map<Place, Slot>, inodes: map<nat, Inode>, next: nat, follows: bool)

  // The three directories that exist and stay: the target, `generations`, `.pinned-generations`.
  const TARGET: nat := 0
  const GENERATIONS: nat := 1
  const PINS: nat := 2

  const CURRENT := Place(TARGET, Current)

  function GenPlace(g: string): Place { Place(GENERATIONS, Generation(g)) }

  datatype Op =
    | MakeDir(at: Place)
    | Create(at: Place)                        // open for writing: truncate the file, or make one
    | Write(ino: nat, data: Data)              // through the open descriptor
    | SyncFile(ino: nat)
    | Touch(at: Place)
    | Rename(from: Place, to: Place)
    | Link(from: Place, to: Place)
    | MakeSymlink(at: Place, target: Target)
    | Unlink(at: Place)                        // a file or link, if there is one
    | RemoveDir(at: Place)
    | SyncDir(dir: nat)

  function Look(d: Disk, p: Place): Slot {
    if p in d.slots then d.slots[p] else Slot(Absent, {})
  }

  function At(d: Disk, p: Place): Node { Look(d, p).now }

  /** The entries that a crash may leave under a name. */
  function Possible(d: Disk, p: Place): set<Node> { Look(d, p).older + {Look(d, p).now} }

  function Put(d: Disk, p: Place, n: Node): Disk {
    d.(slots := d.slots[p := Slot(n, Possible(d, p))])
  }

  function NewFile(d: Disk, p: Place): Disk {
    Put(d.(inodes := d.inodes[d.next := Inode(Bytes(""), false)], next := d.next + 1), p, File(d.next))
  }

  /** Where a path through `current` ends. */
  function Through(d: Disk, a: Artifact): Node {
    match At(d, CURRENT)
    case Symlink(ToGeneration(g)) =>
      (match At(d, GenPlace(g))
       case Dir(x) => At(d, Place(x, Art(a)))
       case _ => Absent)
    case _ => Absent
  }

  /** What a hard link of the name is made of, or nothing if it fails. */
  function LinkSource(d: Disk, p: Place): Node {
    match At(d, p)
    case File(i) => File(i)
    case Symlink(to) =>
      if !d.follows then Symlink(to)
      else if to.ThroughCurrent? && Through(d, to.a).File? then Through(d, to.a)
      else Absent
    case _ => Absent
  }

  function Exec(d: Disk, op: Op): Disk {
    match op
    case MakeDir(at) => Put(d.(next := d.next + 1), at, Dir(d.next))
    case Create(at) =>
      if At(d, at).File? then d.(inodes := d.inodes[At(d, at).ino := Inode(Bytes(""), false)])
      else NewFile(d, at)
    case Write(ino, data) => d.(inodes := d.inodes[ino := Inode(data, false)])
    case SyncFile(ino) =>
      if ino in d.inodes then d.(inodes := d.inodes[ino := d.inodes[ino].(synced := true)]) else d
    case Touch(at) => if At(d, at).Absent? then NewFile(d, at) else d
    case Rename(from, to) =>
      if from == to then d else Put(Put(d, to, At(d, from)), from, Absent)
    case Link(from, to) => Put(d, to, LinkSource(d, from))
    case MakeSymlink(at, target) => Put(d, at, Symlink(target))
    case Unlink(at) => Put(d, at, Absent)
    case RemoveDir(at) => Put(d, at, Absent)
    case SyncDir(dir) =>
      d.(slots := map p | p in d.slots :: if p.dir == dir then d.slots[p].(older := {}) else d.slots[p])
  }

  predicate Empty(d: Disk, dir: nat) {
    forall p :: p in d.slots && p.dir == dir ==> d.slots[p].now.Absent?
  }

  /**
   When the system call succeeds. Directories are made under staging names, and renamed only to become
   generations.
   */
  predicate Enabled(d: Disk, op: Op) {
    match op
    case Write(ino, _) => ino in d.inodes
    case SyncFile(ino) => ino in d.inodes
    case Rename(from, to) =>
      && from.dir < d.next && to.dir < d.next
      && !At(d, from).Absent?
      && (At(d, from).File? ==> At(d, to) != At(d, from))
      && (At(d, from).Dir? ==> At(d, to).Absent? && from.name.Staging? && to.name.Generation?)
      && (!At(d, from).Dir? ==> !At(d, to).Dir?)
    case Link(from, to) => to.dir < d.next && !LinkSource(d, from).Absent? && At(d, to).Absent?
    case SyncDir(dir) => dir < d.next
    case MakeDir(at) => at.dir < d.next && At(d, at).Absent? && at.name.Staging?
    case MakeSymlink(at, _) => at.dir < d.next && At(d, at).Absent?
    case Create(at) => at.dir < d.next && (At(d, at).Absent? || At(d, at).File?)
    case Touch(at) => at.dir < d.next && (At(d, at).Absent? || At(d, at).File?)
    case Unlink(at) => at.dir < d.next && !At(d, at).Dir?
    case RemoveDir(at) => at.dir < d.next && At(d, at).Dir? && Empty(d, At(d, at).dir)
  }

  function Run(d: Disk, ops: seq<Op>): Disk
    decreases |ops|
  {
    if ops == [] then d else Run(Exec(d, ops[0]), ops[1..])
  }

  lemma {:induction false} RunAppend(d: Disk, a: seq<Op>, b: seq<Op>)
    ensures Run(d, a + b) == Run(Run(d, a), b)
    decreases |a|
  {
    if a == [] {
      assert a + b == b;
    } else {
      assert (a + b)[1..] == a[1..] + b;
      RunAppend(Exec(d, a[0]), a[1..], b);
    }
  }

  predicate EnabledAt(d: Disk, ops: seq<Op>, k: nat)
    requires k < |ops|
  {
    Enabled(Run(d, ops[..k]), ops[k])
  }

  /** Every system call of the list succeeds when its turn comes. */
  ghost predicate AllEnabled(d: Disk, ops: seq<Op>) {
    forall k: nat :: k < |ops| ==> EnabledAt(d, ops, k)
  }

  lemma {:induction false} EnabledAppend(d: Disk, a: seq<Op>, b: seq<Op>)
    requires AllEnabled(d, a) && AllEnabled(Run(d, a), b)
    ensures AllEnabled(d, a + b)
  {
    forall k: nat | k < |a + b| ensures EnabledAt(d, a + b, k) {
      if k < |a| {
        assert (a + b)[..k] == a[..k];
        assert EnabledAt(d, a, k);
      } else {
        assert (a + b)[..k] == a + b[..k - |a|];
        RunAppend(d, a, b[..k - |a|]);
        assert EnabledAt(Run(d, a), b, k - |a|);
      }
    }
  }

  lemma {:induction false} EnabledOne(d: Disk, a: Op)
    requires Enabled(d, a)
    ensures AllEnabled(d, [a])
  {
  }

  // ---- Well-formed disks ----------------------------------------------------------------

  ghost predicate WellFormed(d: Disk) {
    && d.next > PINS
    && (forall p :: p in d.slots ==> p.dir < d.next)
    && (forall i :: i in d.inodes ==> i < d.next)
    && (forall p :: p in d.slots ==> NodeFits(d, d.slots[p].now) && DirFits(p, d.slots[p].now))
    && (forall p, q :: p in d.slots && q in d.slots && p != q && d.slots[p].now.Dir? ==>
          d.slots[q].now != d.slots[p].now)
  }

  predicate NodeFits(d: Disk, n: Node) {
    && (n.File? ==> n.ino in d.inodes)
    && (n.Dir? ==> PINS < n.dir < d.next)
  }

  lemma {:induction false} SourceFits(d: Disk, p: Place)
    requires WellFormed(d)
    ensures !LinkSource(d, p).Dir? && NodeFits(d, LinkSource(d, p))
  {
    var n := LinkSource(d, p);
    if n.File? && !At(d, p).File? {
      var g := At(d, CURRENT).to.id;
      assert GenPlace(g) in d.slots && Place(At(d, GenPlace(g)).dir, Art(At(d, p).to.a)) in d.slots;
    }
  }

  predicate DirFits(p: Place, n: Node) { n.Dir? ==> p.name.Staging? || p.name.Generation? }

  lemma {:induction false} PutKeeps(d: Disk, p: Place, n: Node)
    requires WellFormed(d) && p.dir < d.next && NodeFits(d, n) && !n.Dir?
    ensures WellFormed(Put(d, p, n))
  {
  }

  lemma {:induction false} GrowKeeps(d: Disk, inodes: map<nat, Inode>, next: nat)
    requires WellFormed(d) && d.next <= next && d.inodes.Keys <= inodes.Keys
    requires forall i :: i in inodes ==> i < next
    ensures WellFormed(d.(inodes := inodes, next := next))
  {
  }

  lemma {:induction false} MakeDirKeeps(d: Disk, p: Place)
    requires WellFormed(d) && p.dir < d.next && p.name.Staging?
    ensures WellFormed(Exec(d, MakeDir(p)))
  {
  }

  lemma {:induction false} RenameKeeps(d: Disk, from: Place, to: Place)
    requires WellFormed(d) && to.dir < d.next && from.dir < d.next && DirFits(to, At(d, from))
    ensures WellFormed(Exec(d, Rename(from, to)))
  {
    var e := Exec(d, Rename(from, to));
    if from != to {
      assert e.slots[to].now == At(d, from) && e.slots[from].now == Absent;
      assert forall p :: p in e.slots && p != from && p != to ==> p in d.slots && e.slots[p] == d.slots[p];
    }
  }

  lemma {:induction false} SyncDirKeeps(d: Disk, dir: nat)
    requires WellFormed(d)
    ensures WellFormed(Exec(d, SyncDir(dir)))
  {
  }

  lemma {:induction false} NewFileKeeps(d: Disk, p: Place)
    requires WellFormed(d) && p.dir < d.next
    ensures WellFormed(NewFile(d, p))
  {
  }

  lemma {:induction false} WellFormedStep(d: Disk, op: Op)
    requires WellFormed(d) && Enabled(d, op)
    ensures WellFormed(Exec(d, op)) && Exec(d, op).next >= d.next
  {
    match op
    case MakeDir(at) => MakeDirKeeps(d, at);
    case Create(at) =>
      if At(d, at).File? { GrowKeeps(d, Exec(d, op).inodes, d.next); } else { NewFileKeeps(d, at); }
    case Write(ino, data) => GrowKeeps(d, Exec(d, op).inodes, d.next);
    case SyncFile(ino) => if ino in d.inodes { GrowKeeps(d, Exec(d, op).inodes, d.next); }
    case Touch(at) => if At(d, at).Absent? { NewFileKeeps(d, at); }
    case Rename(from, to) => RenameKeeps(d, from, to);
    case Link(from, to) =>
      SourceFits(d, from);
      PutKeeps(d, to, LinkSource(d, from));
    case MakeSymlink(at, target) => PutKeeps(d, at, Symlink(target));
    case Unlink(at) => PutKeeps(d, at, Absent);
    case RemoveDir(at) => PutKeeps(d, at, Absent);
    case SyncDir(dir) => SyncDirKeeps(d, dir);
  }

  lemma {:induction false} WellFormedRun(d: Disk, ops: seq<Op>)
    requires WellFormed(d) && AllEnabled(d, ops)
    ensures WellFormed(Run(d, ops)) && Run(d, ops).next >= d.next
    decreases |ops|
  {
    if ops != [] {
      var front, last := ops[..|ops| - 1], ops[|ops| - 1];
      forall k: nat | k < |front| ensures EnabledAt(d, front, k) {
        assert front[..k] == ops[..k];
        assert EnabledAt(d, ops, k);
      }
      WellFormedRun(d, front);
      assert EnabledAt(d, ops, |front|);
      WellFormedStep(Run(d, front), last);
      assert ops == front + [last];
      RunAppend(d, front, [last]);
      RunOne(Run(d, front), last);
    }
  }

  lemma {:induction false} RunNone(d: Disk)
    ensures Run(d, []) == d
  {
  }

  lemma {:induction false} RunOne(d: Disk, a: Op)
    ensures Run(d, [a]) == Exec(d, a)
  {
  }

  lemma {:induction false} RunTwo(d: Disk, a: Op, b: Op)
    ensures Run(d, [a, b]) == Exec(Exec(d, a), b)
  {
    assert [a, b] == [a] + [b];
    RunAppend(d, [a], [b]);
    RunOne(d, a);
    RunOne(Exec(d, a), b);
  }

  lemma {:induction false} RunThree(d: Disk, a: Op, b: Op, c: Op)
    ensures Run(d, [a, b, c]) == Exec(Exec(Exec(d, a), b), c)
    ensures Enabled(d, a) && Enabled(Exec(d, a), b) && Enabled(Exec(Exec(d, a), b), c) ==>
              AllEnabled(d, [a, b, c])
  {
    assert [a, b, c] == [a] + ([b] + [c]);
    RunAppend(d, [a], [b] + [c]);
    RunAppend(Exec(d, a), [b], [c]);
    RunOne(d, a);
    RunOne(Exec(d, a), b);
    RunOne(Exec(Exec(d, a), b), c);
    if Enabled(d, a) && Enabled(Exec(d, a), b) && Enabled(Exec(Exec(d, a), b), c) {
      EnabledOne(d, a);
      EnabledOne(Exec(d, a), b);
      EnabledOne(Exec(Exec(d, a), b), c);
      EnabledAppend(Exec(d, a), [b], [c]);
      EnabledAppend(d, [a], [b] + [c]);
    }
  }

  // ---- What a block of operations leaves alone ------------------------------------------

  /** A block may touch the directories made since `bound`, and the places in `names`. */
  predicate Free(p: Place, bound: nat, names: set<Place>) { p.dir >= bound || p in names }

  /** The same entry, and no entry more that a crash might bring back. */
  predicate Same(d: Disk, e: Disk, p: Place) {
    At(e, p) == At(d, p) && Look(e, p).older <= Look(d, p).older
  }

  predicate SameInode(d: Disk, e: Disk, i: nat) {
    i in d.inodes ==> i in e.inodes && e.inodes[i] == d.inodes[i]
  }

  ghost predicate Untouched(d: Disk, e: Disk, bound: nat, names: set<Place>) {
    && d.next <= e.next && e.follows == d.follows
    && (forall p :: !Free(p, bound, names) ==> Same(d, e, p))
    && (forall i: nat :: i < bound ==> SameInode(d, e, i))
  }

  lemma {:induction false} UntouchedTransitive(d: Disk, e: Disk, f: Disk, bound: nat, names: set<Place>)
    requires Untouched(d, e, bound, names) && Untouched(e, f, bound, names)
    ensures Untouched(d, f, bound, names)
  {
    forall p | !Free(p, bound, names) ensures Same(d, f, p) {
      assert Same(d, e, p) && Same(e, f, p);
    }
    forall i: nat | i < bound ensures SameInode(d, f, i) {
      assert SameInode(d, e, i) && SameInode(e, f, i);
    }
  }

  /** Everything the operation writes is in the block's share. */
  predicate Confined(op: Op, bound: nat, names: set<Place>) {
    match op
    case Create(at) => at.dir >= bound
    case Write(ino, _) => ino >= bound
    case Rename(from, to) => Free(from, bound, names) && Free(to, bound, names)
    case Link(_, to) => Free(to, bound, names)
    case SyncFile(ino) => ino >= bound
    case SyncDir(_) => true
    case _ => Free(op.at, bound, names)
  }

  /** The inodes whose bytes the operation changes. */
  function Writes(d: Disk, op: Op): set<nat> {
    match op
    case Create(at) => if At(d, at).File? then {At(d, at).ino} else {}
    case Write(ino, _) => {ino}
    case _ => {}
  }

  /** Writes no file. */
  predicate Quiet(op: Op) { !op.Create? && !op.Write? }

  /** No directory made since `bound` names an older file, so opening one truncates no older file. */
  ghost predicate Unshared(d: Disk, bound: nat) {
    forall p :: p in d.slots && p.dir >= bound && d.slots[p].now.File? ==> d.slots[p].now.ino >= bound
  }

  predicate KeepsUnshared(op: Op, bound: nat) {
    match op
    case Rename(from, to) => from.dir >= bound || to.dir < bound
    case Link(_, to) => to.dir < bound
    case _ => true
  }

  lemma {:induction false} ConfinedStep(d: Disk, op: Op, bound: nat, names: set<Place>)
    requires bound <= d.next && Confined(op, bound, names)
    requires op.Create? ==> Unshared(d, bound)
    ensures Untouched(d, Exec(d, op), bound, names)
  {
  }

  lemma {:induction false} UnsharedStep(d: Disk, op: Op, bound: nat)
    requires bound <= d.next && Unshared(d, bound) && KeepsUnshared(op, bound)
    ensures Unshared(Exec(d, op), bound)
  {
  }

  /** A block that creates files, in directories of its own. */
  lemma {:induction false} CreatingRun(d: Disk, ops: seq<Op>, bound: nat, names: set<Place>)
    requires bound <= d.next && Unshared(d, bound)
    requires forall op :: op in ops ==> Confined(op, bound, names) && KeepsUnshared(op, bound)
    ensures Untouched(d, Run(d, ops), bound, names) && Unshared(Run(d, ops), bound)
    decreases |ops|
  {
    if ops != [] {
      var e := Exec(d, ops[0]);
      assert ops[0] in ops;
      ConfinedStep(d, ops[0], bound, names);
      UnsharedStep(d, ops[0], bound);
      assert forall op :: op in ops[1..] ==> op in ops;
      CreatingRun(e, ops[1..], bound, names);
      UntouchedTransitive(d, e, Run(d, ops), bound, names);
    }
  }

  /** A block that writes no file. */
  lemma {:induction false} QuietRun(d: Disk, ops: seq<Op>, bound: nat, names: set<Place>)
    requires bound <= d.next
    requires forall op :: op in ops ==> Confined(op, bound, names) && Quiet(op)
    ensures Untouched(d, Run(d, ops), bound, names)
    decreases |ops|
  {
    if ops != [] {
      var e := Exec(d, ops[0]);
      assert ops[0] in ops;
      ConfinedStep(d, ops[0], bound, names);
      assert forall op :: op in ops[1..] ==> op in ops;
      QuietRun(e, ops[1..], bound, names);
      UntouchedTransitive(d, e, Run(d, ops), bound, names);
    }
  }
}
