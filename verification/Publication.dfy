/**
 Publication of a certificate as system calls: staging, migration of plain files, selection,
 compatibility links and cleanup. A deployment is a list of operations, so every crash point and
 every moment at which a reader looks is a prefix of the list.
 */
module Publication {
  import opened Basics
  import opened FileSystem

  /** The bytes of the five artifacts of one issuance. */
  datatype Bundle = Bundle(cert: Data, chain: Data, fullchain: Data, privkey: Data, metadata: Data)

  function Get(b: Bundle, a: Artifact): Data {
    match a
    case Cert => b.cert
    case Chain => b.chain
    case Fullchain => b.fullchain
    case Privkey => b.privkey
    case Metadata => b.metadata
  }

  function Public(a: Artifact): Place { Place(TARGET, Art(a)) }

  function PublicPending(a: Artifact): Place { Place(TARGET, ArtPending(a)) }

  const CURRENT_PENDING := Place(TARGET, CurrentPending)

  function StagePlace(id: string): Place { Place(GENERATIONS, Staging(id)) }

  function TempPlace(id: string): Place { Place(TARGET, Staging(id)) }

  // ---- The program ----------------------------------------------------------------------

  /** What a deployment draws or computes: the artifacts, fresh names, and the victims of cleanup. */
  datatype Plan = Plan(
    bundle: Bundle,
    generation: string,
    staging: string,
    legacy: string,
    legacyStaging: string,
    victims: seq<string>)

  /** Writes each artifact to its temporary name and synchronises the bytes. */
  function WriteOps(dir: nat, ino: nat, b: Bundle, arts: seq<Artifact>): seq<Op>
    decreases |arts|, dir
  {
    if arts == [] then []
    else [Create(Place(dir, Tmp(arts[0]))), Write(ino, Get(b, arts[0])), SyncFile(ino)]
         + WriteOps(dir, ino + 1, b, arts[1..])
  }

  /** A new directory with the artifacts under their temporary names. */
  function TempOps(dir: nat, b: Bundle, at: Place, arts: seq<Artifact>): seq<Op> {
    [MakeDir(at)] + WriteOps(dir, dir + 1, b, arts)
  }

  /** Moves the temporary names of one directory onto the artifact names of another. */
  function ReplaceOps(from: nat, to: nat, arts: seq<Artifact>): seq<Op>
    decreases |arts|, from
  {
    if arts == [] then []
    else [Rename(Place(from, Tmp(arts[0])), Place(to, Art(arts[0])))] + ReplaceOps(from, to, arts[1..])
  }

  /** Turns a staged directory into a generation. */
  function PublishOps(dir: nat, staging: string, g: string): seq<Op> {
    [SyncDir(dir), Rename(StagePlace(staging), GenPlace(g)), SyncDir(GENERATIONS)]
  }

  function StageOps(dir: nat, b: Bundle, staging: string, g: string): seq<Op> {
    TempOps(dir, b, StagePlace(staging), ARTIFACTS)
    + ReplaceOps(dir, dir, ARTIFACTS)
    + PublishOps(dir, staging, g)
  }

  function LinkOps(dir: nat, arts: seq<Artifact>): seq<Op>
    decreases |arts|, dir
  {
    if arts == [] then []
    else [Link(Public(arts[0]), Place(dir, Art(arts[0])))] + LinkOps(dir, arts[1..])
  }

  function SelectOps(g: string): seq<Op> {
    [Unlink(CURRENT_PENDING), MakeSymlink(CURRENT_PENDING, ToGeneration(g)),
     Rename(CURRENT_PENDING, CURRENT), SyncDir(TARGET)]
  }

  /** Puts a link through `current` in the place of whatever is not a link yet. */
  function LinkOneOps(d: Disk, a: Artifact): seq<Op> {
    if At(d, Public(a)).Symlink? then []
    else [MakeSymlink(PublicPending(a), ThroughCurrent(a)), Rename(PublicPending(a), Public(a))]
  }

  function LinkUpOps(d: Disk, arts: seq<Artifact>): seq<Op>
    decreases |arts|, d.next
  {
    if arts == [] then []
    else
      var first := LinkOneOps(d, arts[0]);
      first + LinkUpOps(Run(d, first), arts[1..])
  }

  function EnsureOps(d: Disk): seq<Op> { LinkUpOps(d, ARTIFACTS) + [SyncDir(TARGET)] }

  predicate NonePresent(d: Disk) { forall a :: At(d, Public(a)).Absent? }

  predicate AllSymlinks(d: Disk) { forall a :: At(d, Public(a)).Symlink? }

  function SaveLegacyOps(dir: nat, staging: string, legacy: string): seq<Op> {
    [MakeDir(StagePlace(staging))] + LinkOps(dir, ARTIFACTS) + PublishOps(dir, staging, legacy)
  }

  function MigrateOps(d: Disk, staging: string, legacy: string): seq<Op> {
    if NonePresent(d) || AllSymlinks(d) then []
    else
      var save := SaveLegacyOps(d.next, staging, legacy);
      var selected := Run(Run(d, save), SelectOps(legacy));
      save + SelectOps(legacy) + EnsureOps(selected)
  }

  /** Removes the entries of a directory that exist. */
  function UnlinkOps(d: Disk, dir: nat, names: seq<Name>): seq<Op>
    decreases |names|, dir
  {
    if names == [] then []
    else (if At(d, Place(dir, names[0])).Absent? then [] else [Unlink(Place(dir, names[0]))])
         + UnlinkOps(d, dir, names[1..])
  }

  const CONTENTS := [
    Art(Cert), Art(Chain), Art(Fullchain), Art(Privkey), Art(Metadata),
    Tmp(Cert), Tmp(Chain), Tmp(Fullchain), Tmp(Privkey), Tmp(Metadata)]

  /** Empties a directory and removes it. */
  function EmptyOps(d: Disk, at: Place, names: seq<Name>): seq<Op> {
    if At(d, at).Dir? then UnlinkOps(d, At(d, at).dir, names) + [RemoveDir(at)] else []
  }

  /** `shutil.rmtree`, if the directory is there. */
  function RemoveTreeOps(d: Disk, at: Place): seq<Op> { EmptyOps(d, at, CONTENTS) }

  function RemoveAllOps(d: Disk, victims: seq<string>): seq<Op>
    decreases |victims|
  {
    if victims == [] then []
    else
      var first := RemoveTreeOps(d, GenPlace(victims[0]));
      first + RemoveAllOps(Run(d, first), victims[1..])
  }

  function CleanupOps(d: Disk, victims: seq<string>): seq<Op> {
    RemoveAllOps(d, victims) + if victims == [] then [] else [SyncDir(GENERATIONS)]
  }

  /** Staging and migration. */
  function FrontOps(d: Disk, p: Plan): seq<Op> {
    var stage := StageOps(d.next, p.bundle, p.staging, p.generation);
    stage + MigrateOps(Run(d, stage), p.legacyStaging, p.legacy)
  }

  /** Selection, links and cleanup. */
  function FinishOps(d: Disk, g: string, victims: seq<string>): seq<Op> {
    var selected := Run(d, SelectOps(g));
    var ensure := EnsureOps(selected);
    SelectOps(g) + ensure + CleanupOps(Run(selected, ensure), victims)
  }

  function DeployOps(d: Disk, p: Plan): seq<Op> {
    var front := FrontOps(d, p);
    front + FinishOps(Run(d, front), p.generation, p.victims)
  }

  /** A plain deployment: staged below the target, then moved over the five names one by one. */
  function ReplaceAllOps(dir: nat, b: Bundle, staging: string): seq<Op> {
    TempOps(dir, b, TempPlace(staging), ARTIFACTS) + MoveInOps(dir, ARTIFACTS)
  }

  function MoveInOps(dir: nat, arts: seq<Artifact>): seq<Op> {
    [SyncDir(dir)] + ReplaceOps(dir, TARGET, arts) + [SyncDir(TARGET)]
  }

  function PlainOps(d: Disk, b: Bundle, staging: string): seq<Op> {
    var main := ReplaceAllOps(d.next, b, staging);
    main + RemoveTreeOps(Run(d, main), TempPlace(staging))
  }

  function PinOps(g: string): seq<Op> { [Touch(Place(PINS, Pin(g))), SyncDir(PINS)] }

  // ---- What readers see -----------------------------------------------------------------

  function DataOf(d: Disk, i: nat): Option<Data> {
    if i in d.inodes then Some(d.inodes[i].data) else None
  }

  function FileAt(d: Disk, p: Place): Option<Data> {
    match At(d, p)
    case File(i) => DataOf(d, i)
    case _ => None
  }

  function InGeneration(d: Disk, g: string, a: Artifact): Option<Data> {
    match At(d, GenPlace(g))
    case Dir(x) => FileAt(d, Place(x, Art(a)))
    case _ => None
  }

  /** What opening one of the five public names gives. */
  function Shown(d: Disk, a: Artifact): Option<Data> {
    match At(d, Public(a))
    case File(i) => DataOf(d, i)
    case Symlink(ThroughCurrent(c)) =>
      (match At(d, CURRENT)
       case Symlink(ToGeneration(g)) => InGeneration(d, g, c)
       case _ => None)
    case _ => None
  }

  /** All five files are these, at one moment. */
  ghost predicate Shows(d: Disk, b: Bundle) { forall a :: Shown(d, a) == Some(Get(b, a)) }

  ghost predicate Contains(d: Disk, g: string, b: Bundle) {
    forall a :: InGeneration(d, g, a) == Some(Get(b, a))
  }

  // ---- What a crash leaves --------------------------------------------------------------

  predicate SealedFile(d: Disk, p: Place, data: Data) {
    var slot := Look(d, p);
    slot.older == {} && slot.now.File? && slot.now.ino in d.inodes
      && d.inodes[slot.now.ino] == Inode(data, true)
  }

  /** The generation and its five files are on disk for good. */
  ghost predicate Sealed(d: Disk, g: string, b: Bundle) {
    && Look(d, GenPlace(g)).older == {}
    && At(d, GenPlace(g)).Dir? && At(d, GenPlace(g)).dir > PINS
    && forall a :: SealedFile(d, Place(At(d, GenPlace(g)).dir, Art(a)), Get(b, a))
  }

  ghost predicate ResolvesTo(d: Disk, n: Node, allowed: map<string, Bundle>) {
    n == Absent ||
    (n.Symlink? && n.to.ToGeneration? && n.to.id in allowed && Sealed(d, n.to.id, allowed[n.to.id]))
  }

  /** Whatever entry of `current` a crash keeps, it is absent or names a sealed generation. */
  ghost predicate Resolves(d: Disk, allowed: map<string, Bundle>) {
    forall n :: n in Possible(d, CURRENT) ==> ResolvesTo(d, n, allowed)
  }

  /** A disk that a crash can leave behind. */
  ghost predicate CrashImage(d: Disk, image: Disk) {
    && (forall p :: Look(image, p).older == {} && At(image, p) in Possible(d, p))
    && (forall i: nat :: i in d.inodes && d.inodes[i].synced ==> i in image.inodes && image.inodes[i] == d.inodes[i])
  }

  /** After the crash `current` is absent or leads to all five artifacts of one publication. */
  ghost predicate Recoverable(image: Disk, allowed: map<string, Bundle>) {
    var n := At(image, CURRENT);
    n == Absent ||
    (n.Symlink? && n.to.ToGeneration? && n.to.id in allowed && Contains(image, n.to.id, allowed[n.to.id]))
  }

  /** What resolves before the crash is recoverable after it, and still resolves for the next one. */
  lemma {:induction false} CrashOfResolving(d: Disk, image: Disk, allowed: map<string, Bundle>)
    requires Resolves(d, allowed) && CrashImage(d, image)
    ensures Recoverable(image, allowed) && Resolves(image, allowed)
  {
  }
}
