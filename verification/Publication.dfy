/** Publishing one immutable packet: the steps of every writer over a shared directory with rename semantics. */
module Publication {
  import opened CodeUnits
  import opened Wrappers
  import opened Sorting

  // ----- packets and manifests

  datatype Payload = Payload(name: Text, bytes: Text)
  datatype Packet = Packet(descriptor: Text, files: seq<Payload>)
  datatype Entry = Entry(name: Text, byteLength: nat, sha256: Text)

  datatype Limitation = FileSync | DirectorySync | ParentSync
  datatype Manifest = Manifest(descriptor: Text, files: seq<Entry>, packetDigest: Text, limitations: set<Limitation>)

  /** Hashing of file bytes and of the packet identity. */
  datatype Hashes = Hashes(sha: Text -> Text, packet: (Text, seq<Entry>) -> Text)

  ghost predicate CollisionFree(h: Hashes) {
    && (forall a, b :: h.sha(a) == h.sha(b) ==> a == b)
    && (forall d, d', f, f' :: h.packet(d, f) == h.packet(d', f') ==> d == d' && f == f')
  }

  function NameOf(f: Payload): Text { f.name }

  /** manifest.json */
  const MANIFEST: Text := [0x6d, 0x61, 0x6e, 0x69, 0x66, 0x65, 0x73, 0x74, 0x2e, 0x6a, 0x73, 0x6f, 0x6e]

  /** What packet snapshotting guarantees: some payloads, distinct names, none of them the manifest's. */
  predicate PacketOk(p: Packet) {
    p.files != [] && NoDuplicates(Map(NameOf, p.files)) && MANIFEST !in Map(NameOf, p.files)
  }

  function EntryOf(h: Hashes, f: Payload): Entry { Entry(f.name, |f.bytes|, h.sha(f.bytes)) }
  function EntryBy(h: Hashes): Payload -> Entry { (f: Payload) => EntryOf(h, f) }
  function Entries(h: Hashes, p: Packet): seq<Entry> { Map(EntryBy(h), p.files) }
  function PacketDigest(h: Hashes, p: Packet): Text { h.packet(p.descriptor, Entries(h, p)) }

  function ManifestOf(h: Hashes, p: Packet, limitations: set<Limitation>): Manifest {
    Manifest(p.descriptor, Entries(h, p), PacketDigest(h, p), limitations)
  }

  // ----- directories

  /** A file just created, a payload, or a manifest. */
  datatype Content = Empty | Bytes(bytes: Text) | Sealed(manifest: Manifest)

  type Dir = map<Text, Content>

  /** The first i payloads written. */
  function Written(files: seq<Payload>, i: nat): Dir
    requires i <= |files|
  {
    if i == 0 then map[] else Written(files, i - 1)[files[i - 1].name := Bytes(files[i - 1].bytes)]
  }

  function Full(h: Hashes, p: Packet, limitations: set<Limitation>): Dir {
    Written(p.files, |p.files|)[MANIFEST := Sealed(ManifestOf(h, p, limitations))]
  }

  predicate EntryMatches(h: Hashes, d: Dir, e: Entry) {
    e.name in d && d[e.name].Bytes? && |d[e.name].bytes| == e.byteLength && h.sha(d[e.name].bytes) == e.sha256
  }

  /** Exactly the listed files, each with its length and hash. */
  predicate PayloadsMatch(h: Hashes, d: Dir, entries: seq<Entry>, extra: set<Text>) {
    && d.Keys == (set i | 0 <= i < |entries| :: entries[i].name) + extra
    && forall i :: 0 <= i < |entries| ==> EntryMatches(h, d, entries[i])
  }

  /** verifyPacketDirectory: a self-consistent manifest and exactly its payloads. */
  function Verify(h: Hashes, d: Dir): Option<Manifest> {
    if MANIFEST !in d || !d[MANIFEST].Sealed? then None
    else
      var m := d[MANIFEST].manifest;
      if m.packetDigest == h.packet(m.descriptor, m.files) && PayloadsMatch(h, d, m.files, {MANIFEST}) then Some(m) else None
  }

  // ----- durability

  datatype Capability = Unknown | Supported | Unsupported

  /** What the writer has learned about syncing, and the limitations it has recorded. */
  datatype Durability = Durability(file: Capability, directory: Capability, parent: Capability, limitations: set<Limitation>)

  function CapabilityOf(u: Durability, l: Limitation): Capability {
    match l case FileSync => u.file case DirectorySync => u.directory case ParentSync => u.parent
  }

  function WithCapability(u: Durability, l: Limitation, c: Capability): Durability {
    match l
    case FileSync => u.(file := c)
    case DirectorySync => u.(directory := c)
    case ParentSync => u.(parent := c)
  }

  function Lacking(u: Durability, l: Limitation): Durability {
    WithCapability(u.(limitations := u.limitations + {l}), l, Unsupported)
  }

  /** What the environment does to a step; a faulty cleanup leaves some files behind. */
  datatype Outcome = Fine | Unavailable | Fault(left: set<Text>) | Crash

  /** syncHandle: a capability once seen to work may not be lost. */
  function Sync(u: Durability, l: Limitation, o: Outcome): Option<Durability> {
    match o
    case Fine => Some(if CapabilityOf(u, l).Unknown? then WithCapability(u, l, Supported) else u)
    case Unavailable => if CapabilityOf(u, l).Supported? then None else Some(Lacking(u, l))
    case _ => None
  }

  /** The capability records and the limitation set as the program updates them. */
  class DurabilityLog {
    var file: Capability
    var directory: Capability
    var parent: Capability
    var limitations: set<Limitation>

    constructor ()
      ensures Value() == Durability(Unknown, Unknown, Unknown, {})
    {
      file, directory, parent, limitations := Unknown, Unknown, Unknown, {};
    }

    function Value(): Durability
      reads this
    {
      Durability(file, directory, parent, limitations)
    }

    method SetCapability(l: Limitation, c: Capability)
      modifies this`file, this`directory, this`parent
      ensures Value() == WithCapability(old(Value()), l, c)
    {
      match l {
        case FileSync => file := c;
        case DirectorySync => directory := c;
        case ParentSync => parent := c;
      }
    }

    /** syncHandle: on failure nothing changes. */
    method SyncHandle(l: Limitation, o: Outcome) returns (ok: bool)
      modifies this
      ensures ok <==> Sync(old(Value()), l, o).Some?
      ensures Value() == if ok then Sync(old(Value()), l, o).value else old(Value())
    {
      var capability := CapabilityOf(Value(), l);
      if o == Fine {
        if capability == Unknown { SetCapability(l, Supported); }
        return true;
      }
      if o != Unavailable { return false; }
      if capability == Supported { return false; }
      SetCapability(l, Unsupported);
      limitations := limitations + {l};
      return true;
    }
  }

  // ----- writers

  datatype LookStep = FirstLook | SecondLook | VerifyExisting
  datatype BeginStep = CheckAbsent | OpenParent | SyncParent | MakeStaging
  datatype FillStep = CreateFile(i: nat) | FillFile(i: nat) | SyncFile(i: nat) | CheckPayloads
  datatype SealStep = OpenStaging | SyncStaging | CreateManifest | FillManifest | SyncManifest | CheckSealed
  datatype PublishStep = CheckPacket | ResyncStaging | RecheckAbsent | Rename
  datatype ConfirmStep = VerifyTarget | ResyncParent(verified: Manifest)
  datatype LoseStep = WinnerFirst | WinnerSecond | VerifyWinner
  datatype Ending = WrittenNew(manifest: Manifest) | Identical(manifest: Manifest) | Conflicted | Failed | Crashed

  /** One call of write-or-verify, by phase. */
  datatype Pc =
    | Looking(look: LookStep)
    | Beginning(begin: BeginStep)
    | Filling(fill: FillStep)
    | Sealing(seal: SealStep)
    | Publishing(publish: PublishStep)
    | Confirming(confirm: ConfirmStep)
    | Cleanup(collision: bool)
    | Losing(lose: LoseStep)
    | Finished(ending: Ending)

  datatype Writer = Writer(
    packet: Packet, pc: Pc, staging: Option<nat>, parentOpen: bool, stagingOpen: bool,
    durability: Durability, sealed: set<Limitation>)

  /** The shared root: the target directory and the staging directories. */
  datatype Disk = Disk(target: Option<Dir>, staging: map<nat, Dir>, next: nat)

  function StagingDir(d: Disk, w: Writer): Dir {
    if w.staging.Some? && w.staging.value in d.staging then d.staging[w.staging.value] else map[]
  }

  function WithStaging(d: Disk, w: Writer, dir: Dir): Disk {
    if w.staging.Some? then d.(staging := d.staging[w.staging.value := dir]) else d
  }

  function At(w: Writer, pc: Pc): Writer { w.(pc := pc) }
  function Stop(w: Writer, e: Ending): Writer { At(w, Finished(e)) }
  function Abandon(w: Writer): Writer { At(w, Cleanup(false)) }

  function Synced(w: Writer, l: Limitation, o: Outcome, pc: Pc): Writer {
    var u := Sync(w.durability, l, o);
    if u.None? then Abandon(w) else w.(durability := u.value, pc := pc)
  }

  /** Verify what stands at the target and compare packet identities. */
  function Compare(h: Hashes, d: Disk, w: Writer): Writer {
    if d.target.None? then Stop(w, Failed)
    else
      match Verify(h, d.target.value)
      case None => Stop(w, Failed)
      case Some(m) => Stop(w, if m.packetDigest == PacketDigest(h, w.packet) then Identical(m) else Conflicted)
  }

  /** rename onto the target: it succeeds when the target is absent or an empty directory. */
  predicate RenameSucceeds(d: Disk) { d.target.None? || d.target.value == map[] }

  /** readArtifactPacketIfPresent before writing: two looks, then verify. */
  function Look(h: Hashes, d: Disk, w: Writer, step: LookStep, o: Outcome): Writer {
    if o != Fine then Stop(w, Failed)
    else
      match step
      case FirstLook => At(w, Looking(if d.target.Some? then VerifyExisting else SecondLook))
      case SecondLook => At(w, if d.target.Some? then Looking(VerifyExisting) else Beginning(CheckAbsent))
      case VerifyExisting => Compare(h, d, w)
  }

  /** The same after losing a race. */
  function Lose(h: Hashes, d: Disk, w: Writer, step: LoseStep, o: Outcome): Writer {
    if o != Fine then Stop(w, Failed)
    else
      match step
      case WinnerFirst => At(w, Losing(if d.target.Some? then VerifyWinner else WinnerSecond))
      case WinnerSecond => At(w, if d.target.Some? then Losing(VerifyWinner) else Finished(Failed))
      case VerifyWinner => Compare(h, d, w)
  }

  /** The target is checked absent, the parent opened and synced, and a private directory made. */
  function Begin(d: Disk, w: Writer, step: BeginStep, o: Outcome): (Disk, Writer) {
    match step
    case CheckAbsent =>
      (d, if o != Fine then Stop(w, Failed) else At(w, if d.target.Some? then Losing(WinnerFirst) else Beginning(OpenParent)))
    case OpenParent =>
      (d, if o == Fine then w.(pc := Beginning(SyncParent), parentOpen := true)
          else if o == Unavailable then w.(pc := Beginning(MakeStaging), durability := Lacking(w.durability, ParentSync))
          else Abandon(w))
    case SyncParent => (d, Synced(w, ParentSync, o, Beginning(MakeStaging)))
    case MakeStaging =>
      if o != Fine then (d, Abandon(w))
      else (Disk(d.target, d.staging[d.next := map[]], d.next + 1), w.(staging := Some(d.next), pc := Filling(CreateFile(0))))
  }

  /** Payload i: exclusive create, write, sync; then the payload check. */
  function Fill(h: Hashes, d: Disk, w: Writer, step: FillStep, o: Outcome): (Disk, Writer) {
    var dir, files := StagingDir(d, w), w.packet.files;
    match step
    case CreateFile(i) =>
      if o != Fine || i >= |files| || files[i].name in dir then (d, Abandon(w))
      else (WithStaging(d, w, dir[files[i].name := Empty]), At(w, Filling(FillFile(i))))
    case FillFile(i) =>
      if o != Fine || i >= |files| then (d, Abandon(w))
      else (WithStaging(d, w, dir[files[i].name := Bytes(files[i].bytes)]), At(w, Filling(SyncFile(i))))
    case SyncFile(i) =>
      (d, Synced(w, FileSync, o, Filling(if i + 1 < |files| then CreateFile(i + 1) else CheckPayloads)))
    case CheckPayloads =>
      (d, if o == Fine && PayloadsMatch(h, dir, Entries(h, w.packet), {}) then At(w, Sealing(OpenStaging)) else Abandon(w))
  }

  /** The directory is opened and synced; the manifest seals the limitations, is written last, and the seal is checked. */
  function Seal(h: Hashes, d: Disk, w: Writer, step: SealStep, o: Outcome): (Disk, Writer) {
    var dir := StagingDir(d, w);
    match step
    case OpenStaging =>
      (d, if o == Fine then w.(pc := Sealing(SyncStaging), stagingOpen := true)
          else if o == Unavailable then w.(pc := Sealing(CreateManifest), durability := Lacking(w.durability, DirectorySync))
          else Abandon(w))
    case SyncStaging => (d, Synced(w, DirectorySync, o, Sealing(CreateManifest)))
    case CreateManifest =>
      if o != Fine || MANIFEST in dir then (d, Abandon(w))
      else (WithStaging(d, w, dir[MANIFEST := Empty]), w.(pc := Sealing(FillManifest), sealed := w.durability.limitations))
    case FillManifest =>
      if o != Fine then (d, Abandon(w))
      else (WithStaging(d, w, dir[MANIFEST := Sealed(ManifestOf(h, w.packet, w.sealed))]), At(w, Sealing(SyncManifest)))
    case SyncManifest => (d, Synced(w, FileSync, o, Sealing(CheckSealed)))
    case CheckSealed => (d, if w.durability.limitations == w.sealed then At(w, Publishing(CheckPacket)) else Abandon(w))
  }

  /** The sealed directory is verified and synced, the target rechecked, and the directory renamed onto it. */
  function Publish(h: Hashes, d: Disk, w: Writer, step: PublishStep, o: Outcome): (Disk, Writer) {
    var dir := StagingDir(d, w);
    match step
    case CheckPacket => (d, if o == Fine && Verify(h, dir).Some? then At(w, Publishing(ResyncStaging)) else Abandon(w))
    case ResyncStaging =>
      (d, if w.stagingOpen then Synced(w, DirectorySync, o, Publishing(RecheckAbsent)) else At(w, Publishing(RecheckAbsent)))
    case RecheckAbsent =>
      (d, if o != Fine then Abandon(w) else At(w, if d.target.Some? then Cleanup(true) else Publishing(Rename)))
    case Rename =>
      if o != Fine || w.staging.None? then (d, Abandon(w))
      else if !RenameSucceeds(d) then (d, At(w, Cleanup(true)))
      else (Disk(Some(dir), d.staging - {w.staging.value}, d.next), w.(pc := Confirming(VerifyTarget), staging := None))
  }

  /** The published target is verified and the parent synced; nothing is cleaned up any more. */
  function Confirm(h: Hashes, d: Disk, w: Writer, step: ConfirmStep, o: Outcome): Writer {
    match step
    case VerifyTarget =>
      var m := if o == Fine && d.target.Some? then Verify(h, d.target.value) else None;
      if m.Some? then At(w, Confirming(ResyncParent(m.value))) else Stop(w, Failed)
    case ResyncParent(m) =>
      var u := if w.parentOpen then Sync(w.durability, ParentSync, o) else Some(w.durability);
      if u.None? then Stop(w, Failed)
      else Stop(w.(durability := u.value), if m.packetDigest == PacketDigest(h, w.packet) then WrittenNew(m) else Conflicted)
  }

  /** A failed call removes its staging directory, then reads the winner if it lost a race. */
  function Clean(d: Disk, w: Writer, collision: bool, o: Outcome): (Disk, Writer) {
    var after := if collision then Losing(WinnerFirst) else Finished(Failed);
    var dir := StagingDir(d, w);
    if w.staging.None? then (d, At(w, after))
    else if o.Fault? then (WithStaging(d, w, map n | n in dir && n in o.left :: dir[n]), Stop(w, Failed))
    else (d.(staging := d.staging - {w.staging.value}), w.(pc := after, staging := None))
  }

  function Act(h: Hashes, d: Disk, w: Writer, o: Outcome): (Disk, Writer) {
    if o.Crash? && !w.pc.Finished? then (d, Stop(w, Crashed))
    else
      match w.pc
      case Looking(step) => (d, Look(h, d, w, step, o))
      case Beginning(step) => Begin(d, w, step, o)
      case Filling(step) => Fill(h, d, w, step, o)
      case Sealing(step) => Seal(h, d, w, step, o)
      case Publishing(step) => Publish(h, d, w, step, o)
      case Confirming(step) => (d, Confirm(h, d, w, step, o))
      case Cleanup(collision) => Clean(d, w, collision, o)
      case Losing(step) => (d, Lose(h, d, w, step, o))
      case Finished(_) => (d, w)
  }

  // ----- runs

  datatype World = World(disk: Disk, writers: seq<Writer>)
  datatype Event = Event(writer: nat, outcome: Outcome)

  function Step(h: Hashes, x: World, e: Event): World {
    if e.writer >= |x.writers| then x
    else
      var r := Act(h, x.disk, x.writers[e.writer], e.outcome);
      World(r.0, x.writers[e.writer := r.1])
  }

  function Run(h: Hashes, x: World, es: seq<Event>): World {
    if es == [] then x else Step(h, Run(h, x, es[..|es| - 1]), es[|es| - 1])
  }

  function Fresh(p: Packet): Writer {
    Writer(p, Looking(FirstLook), None, false, false, Durability(Unknown, Unknown, Unknown, {}), {})
  }

  /** Any number of calls with any packets, none started; the target absent or already a packet, and any old staging directories. */
  ghost predicate Initial(h: Hashes, x: World) {
    && (x.disk.target.Some? ==> exists p, limitations :: PacketOk(p) && x.disk.target.value == Full(h, p, limitations))
    && (forall id :: id in x.disk.staging ==> id < x.disk.next)
    && forall i :: 0 <= i < |x.writers| ==> PacketOk(x.writers[i].packet) && x.writers[i] == Fresh(x.writers[i].packet)
  }
}
