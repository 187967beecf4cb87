/** Safety of racing, crashing writers: the target is absent or one complete packet, for ever. */
module PublicationSafety {
  import opened CodeUnits
  import opened Wrappers
  import opened Sorting
  import opened Publication

  // ----- what a complete directory is

  lemma {:induction false} WrittenKeys(files: seq<Payload>, i: nat)
    requires i <= |files|
    ensures forall n :: n in Written(files, i) <==> exists k :: 0 <= k < i && files[k].name == n
  {
    if i > 0 { WrittenKeys(files, i - 1); }
  }

  lemma {:induction false} WrittenContent(files: seq<Payload>, i: nat, k: nat)
    requires k < i <= |files| && NoDuplicates(Map(NameOf, files))
    ensures files[k].name in Written(files, i) && Written(files, i)[files[k].name] == Bytes(files[k].bytes)
  {
    if k < i - 1 {
      WrittenContent(files, i - 1, k);
      assert Map(NameOf, files)[k] != Map(NameOf, files)[i - 1];
      assert NameOf(files[k]) != NameOf(files[i - 1]);
    }
  }

  lemma NextIsNew(p: Packet, i: nat)
    requires PacketOk(p) && i <= |p.files|
    ensures MANIFEST !in Written(p.files, i)
    ensures i < |p.files| ==> p.files[i].name !in Written(p.files, i)
  {
    WrittenKeys(p.files, i);
    var names := Map(NameOf, p.files);
    forall k | 0 <= k < |p.files| ensures p.files[k].name != MANIFEST {
      assert names[k] == NameOf(p.files[k]) && names[k] in names;
    }
    if i < |p.files| {
      forall k | 0 <= k < i ensures p.files[k].name != p.files[i].name {
        assert names[k] != names[i] && NameOf(p.files[k]) == names[k] && NameOf(p.files[i]) == names[i];
      }
    }
  }

  /** The written payloads pass the payload check. */
  lemma PayloadsPass(h: Hashes, p: Packet, d: Dir, extra: set<Text>)
    requires PacketOk(p) && extra <= {MANIFEST} && d.Keys == Written(p.files, |p.files|).Keys + extra
    requires forall n :: n in Written(p.files, |p.files|) ==> d[n] == Written(p.files, |p.files|)[n]
    ensures PayloadsMatch(h, d, Entries(h, p), extra)
  {
    var es := Entries(h, p);
    WrittenKeys(p.files, |p.files|);
    forall i | 0 <= i < |es| ensures EntryMatches(h, d, es[i]) && es[i].name == p.files[i].name {
      assert es[i] == EntryOf(h, p.files[i]);
      WrittenContent(p.files, |p.files|, i);
    }
    forall n ensures n in d.Keys <==> n in (set i | 0 <= i < |es| :: es[i].name) + extra {
      if n in Written(p.files, |p.files|) {
        var k :| 0 <= k < |p.files| && p.files[k].name == n;
        assert es[k].name == n;
      }
    }
  }

  /** What the writer seals, the verifier accepts, and it reads back the sealed manifest. */
  lemma FullVerifies(h: Hashes, p: Packet, limitations: set<Limitation>)
    requires PacketOk(p)
    ensures Verify(h, Full(h, p, limitations)) == Some(ManifestOf(h, p, limitations))
    ensures Full(h, p, limitations) != map[]
  {
    NextIsNew(p, |p.files|);
    PayloadsPass(h, p, Full(h, p, limitations), {MANIFEST});
    assert MANIFEST in Full(h, p, limitations);
  }

  ghost predicate Complete(h: Hashes, d: Dir) {
    exists p, limitations :: PacketOk(p) && d == Full(h, p, limitations)
  }

  /** Two packets with one digest are the same packet. */
  lemma DigestTells(h: Hashes, p: Packet, q: Packet)
    requires CollisionFree(h) && PacketDigest(h, p) == PacketDigest(h, q)
    ensures p == q
  {
    var a, b := Entries(h, p), Entries(h, q);
    assert p.descriptor == q.descriptor && a == b;
    forall i | 0 <= i < |p.files| ensures p.files[i] == q.files[i] {
      assert a[i] == EntryOf(h, p.files[i]) && b[i] == EntryOf(h, q.files[i]);
    }
    assert |a| == |p.files| && |b| == |q.files|;
  }

  // ----- durability

  /** The recorded limitations are the capabilities found missing. */
  predicate Recorded(u: Durability) {
    && (u.file.Unsupported? <==> FileSync in u.limitations)
    && (u.directory.Unsupported? <==> DirectorySync in u.limitations)
    && (u.parent.Unsupported? <==> ParentSync in u.limitations)
  }

  predicate Known(u: Durability, l: Limitation) { !CapabilityOf(u, l).Unknown? }

  /** Everything the writer knew it still knows. */
  predicate KnowsMore(u: Durability, v: Durability) {
    && (Known(u, FileSync) ==> Known(v, FileSync)) && (Known(u, DirectorySync) ==> Known(v, DirectorySync))
    && (Known(u, ParentSync) ==> Known(v, ParentSync))
  }

  /** Syncing settles a capability; one already settled can add no limitation. */
  lemma SyncKeeps(u: Durability, l: Limitation, o: Outcome)
    requires Recorded(u)
    ensures var v := Sync(u, l, o); v.Some? ==>
              && Recorded(v.value) && Known(v.value, l) && KnowsMore(u, v.value)
              && (Known(u, l) ==> v.value.limitations == u.limitations)
  {
  }

  lemma LackingKeeps(u: Durability, l: Limitation)
    requires Recorded(u)
    ensures Recorded(Lacking(u, l)) && Known(Lacking(u, l), l) && KnowsMore(u, Lacking(u, l))
  {
  }

  // ----- the invariant of one writer

  /** What the private directory holds at each step. */
  predicate FillShape(w: Writer, step: FillStep, dir: Dir) {
    var files := w.packet.files;
    match step
    case CreateFile(i) => i < |files| && dir == Written(files, i)
    case FillFile(i) => i < |files| && dir == Written(files, i)[files[i].name := Empty]
    case SyncFile(i) => i < |files| && dir == Written(files, i + 1)
    case CheckPayloads => dir == Written(files, |files|)
  }

  predicate SealShape(h: Hashes, w: Writer, step: SealStep, dir: Dir) {
    var files := w.packet.files;
    match step
    case FillManifest => dir == Written(files, |files|)[MANIFEST := Empty]
    case SyncManifest => dir == Full(h, w.packet, w.sealed)
    case CheckSealed => dir == Full(h, w.packet, w.sealed)
    case _ => dir == Written(files, |files|)
  }

  predicate Mine(d: Disk, w: Writer) { w.staging.Some? && w.staging.value in d.staging && w.staging.value < d.next }

  predicate StagingOk(h: Hashes, d: Disk, w: Writer) {
    match w.pc
    case Looking(_) => w.staging == None
    case Beginning(_) => w.staging == None
    case Filling(step) => Mine(d, w) && FillShape(w, step, d.staging[w.staging.value])
    case Sealing(step) => Mine(d, w) && SealShape(h, w, step, d.staging[w.staging.value])
    case Publishing(_) => Mine(d, w) && d.staging[w.staging.value] == Full(h, w.packet, w.sealed)
    case Confirming(_) => w.staging == None
    case _ => w.staging.Some? ==> w.staging.value < d.next
  }

  /** The target carries packet p. */
  predicate Carries(h: Hashes, d: Disk, p: Packet, m: Manifest) {
    d.target.Some? && Verify(h, d.target.value) == Some(m) && m.packetDigest == PacketDigest(h, p)
  }

  /** What the writer has seen or done at the target. */
  predicate TargetOk(h: Hashes, d: Disk, w: Writer) {
    match w.pc
    case Looking(step) => step.VerifyExisting? ==> d.target.Some?
    case Confirming(step) =>
      && d.target == Some(Full(h, w.packet, w.sealed))
      && (step.ResyncParent? ==> step.verified == ManifestOf(h, w.packet, w.sealed))
    case Cleanup(collision) => collision ==> d.target.Some?
    case Losing(_) => d.target.Some?
    case Finished(e) =>
      (match e
       case WrittenNew(m) => d.target == Some(Full(h, w.packet, w.sealed)) && m == ManifestOf(h, w.packet, w.sealed) && Carries(h, d, w.packet, m)
       case Identical(m) => Carries(h, d, w.packet, m)
       case Conflicted =>
         && d.target.Some? && Verify(h, d.target.value).Some?
         && Verify(h, d.target.value).value.packetDigest != PacketDigest(h, w.packet)
       case _ => true)
    case _ => true
  }

  /** Capabilities settled by the phase reached, and the seal. */
  predicate CapsOk(w: Writer) {
    var u := w.durability;
    && Recorded(u)
    && (match w.pc
        case Beginning(step) => step.MakeStaging? && w.parentOpen ==> Known(u, ParentSync)
        case Filling(step) =>
          && (w.parentOpen ==> Known(u, ParentSync))
          && (step.CheckPayloads? || (step.CreateFile? && step.i > 0) ==> Known(u, FileSync))
        case Sealing(step) =>
          && (w.parentOpen ==> Known(u, ParentSync)) && Known(u, FileSync)
          && (!step.OpenStaging? && !step.SyncStaging? && w.stagingOpen ==> Known(u, DirectorySync))
          && (step.FillManifest? || step.SyncManifest? || step.CheckSealed? ==> u.limitations == w.sealed)
        case Publishing(_) =>
          && (w.parentOpen ==> Known(u, ParentSync)) && (w.stagingOpen ==> Known(u, DirectorySync)) && u.limitations == w.sealed
        case Confirming(_) => (w.parentOpen ==> Known(u, ParentSync)) && u.limitations == w.sealed
        case Finished(e) => e.WrittenNew? ==> u.limitations == w.sealed
        case _ => true)
  }

  predicate WriterOk(h: Hashes, d: Disk, w: Writer) {
    PacketOk(w.packet) && CapsOk(w) && StagingOk(h, d, w) && TargetOk(h, d, w)
  }

  ghost predicate DiskOk(h: Hashes, d: Disk) {
    && (d.target.Some? ==> Complete(h, d.target.value))
    && forall id :: id in d.staging ==> id < d.next
  }

  /** A step touches only its own staging directory, and never a target that is already there. */
  predicate Frame(d: Disk, e: Disk, w: Writer, v: Writer) {
    && (d.target.Some? ==> e.target == d.target) && d.next <= e.next
    && (forall id :: id in d.staging && w.staging != Some(id) ==> id in e.staging && e.staging[id] == d.staging[id])
    && (forall id :: id in e.staging ==> id < e.next)
    && (v.staging == w.staging || v.staging == None || (v.staging == Some(d.next) && d.next < e.next))
  }

  // ----- one step

  lemma SyncedCaps(w: Writer, l: Limitation, o: Outcome, pc: Pc)
    requires Recorded(w.durability)
    ensures var v := Synced(w, l, o, pc);
            v == Abandon(w) || (v == w.(durability := v.durability, pc := pc) && Recorded(v.durability) && Known(v.durability, l)
                                && KnowsMore(w.durability, v.durability)
                                && (Known(w.durability, l) ==> v.durability.limitations == w.durability.limitations))
  {
    SyncKeeps(w.durability, l, o);
  }

  lemma BeginCaps(d: Disk, w: Writer, step: BeginStep, o: Outcome)
    requires CapsOk(w) && w.pc == Beginning(step)
    ensures CapsOk(Begin(d, w, step, o).1)
  {
    LackingKeeps(w.durability, ParentSync);
    SyncedCaps(w, ParentSync, o, Beginning(MakeStaging));
    hide Synced, Lacking, Recorded;
  }

  lemma FillCaps(h: Hashes, d: Disk, w: Writer, step: FillStep, o: Outcome)
    requires CapsOk(w) && w.pc == Filling(step)
    ensures CapsOk(Fill(h, d, w, step, o).1)
  {
    if step.SyncFile? {
      SyncedCaps(w, FileSync, o, Filling(if step.i + 1 < |w.packet.files| then CreateFile(step.i + 1) else CheckPayloads));
    }
    hide Synced, Recorded, PayloadsMatch, StagingDir, WithStaging, Entries;
  }

  lemma SealCaps(h: Hashes, d: Disk, w: Writer, step: SealStep, o: Outcome)
    requires CapsOk(w) && w.pc == Sealing(step)
    ensures CapsOk(Seal(h, d, w, step, o).1)
  {
    LackingKeeps(w.durability, DirectorySync);
    SyncedCaps(w, DirectorySync, o, Sealing(CreateManifest));
    SyncedCaps(w, FileSync, o, Sealing(CheckSealed));
    hide Synced, Lacking, Recorded, StagingDir, WithStaging, ManifestOf;
  }

  lemma PublishCaps(h: Hashes, d: Disk, w: Writer, step: PublishStep, o: Outcome)
    requires CapsOk(w) && w.pc == Publishing(step)
    ensures CapsOk(Publish(h, d, w, step, o).1)
  {
    SyncedCaps(w, DirectorySync, o, Publishing(RecheckAbsent));
    hide Synced, Recorded, StagingDir, Verify;
  }

  lemma ConfirmCaps(h: Hashes, d: Disk, w: Writer, step: ConfirmStep, o: Outcome)
    requires CapsOk(w) && w.pc == Confirming(step)
    ensures CapsOk(Confirm(h, d, w, step, o))
  {
    SyncKeeps(w.durability, ParentSync, o);
    hide Sync, Recorded, Verify, PacketDigest;
  }

  /** What a step must keep. */
  ghost predicate Kept(h: Hashes, d: Disk, w: Writer, r: (Disk, Writer)) {
    Frame(d, r.0, w, r.1) && WriterOk(h, r.0, r.1) && DiskOk(h, r.0) && r.1.packet == w.packet
  }

  lemma SameDisk(h: Hashes, d: Disk, w: Writer, v: Writer)
    requires DiskOk(h, d) && v.staging == w.staging
    ensures Frame(d, d, w, v)
  {
    hide Complete;
  }

  /** Writing into one's own directory. */
  lemma OwnDirectory(h: Hashes, d: Disk, w: Writer, v: Writer, dir: Dir)
    requires DiskOk(h, d) && Mine(d, w) && v.staging == w.staging
    ensures var e := WithStaging(d, w, dir); Frame(d, e, w, v) && DiskOk(h, e) && Mine(e, v)
    ensures var e := WithStaging(d, w, dir); e.target == d.target && e.staging[w.staging.value] == dir
    ensures StagingDir(d, w) == d.staging[w.staging.value]
  {
    hide Complete;
  }

  lemma AbandonKeeps(h: Hashes, d: Disk, w: Writer)
    requires DiskOk(h, d) && WriterOk(h, d, w) && (w.staging == None || Mine(d, w))
    ensures Kept(h, d, w, (d, Abandon(w)))
  {
    SameDisk(h, d, w, Abandon(w));
    hide Verify, Full, ManifestOf, PacketDigest, PacketOk, Recorded, Frame, Complete, FillShape, SealShape;
  }

  lemma LookKeeps(h: Hashes, d: Disk, w: Writer, o: Outcome)
    requires WriterOk(h, d, w) && (w.pc.Looking? || w.pc.Losing?)
    ensures var v := if w.pc.Looking? then Look(h, d, w, w.pc.look, o) else Lose(h, d, w, w.pc.lose, o);
            WriterOk(h, d, v) && v.staging == w.staging && v.packet == w.packet
  {
    hide Verify, Full, ManifestOf, PacketDigest, PacketOk, Recorded;
  }

  lemma BeginKeeps(h: Hashes, d: Disk, w: Writer, o: Outcome)
    requires DiskOk(h, d) && WriterOk(h, d, w) && w.pc.Beginning?
    ensures Kept(h, d, w, Begin(d, w, w.pc.begin, o))
  {
    BeginCaps(d, w, w.pc.begin, o);
    if w.pc.begin.MakeStaging? { MakeStagingKeeps(h, d, w, o); } else { SameDisk(h, d, w, Begin(d, w, w.pc.begin, o).1); }
    hide CapsOk, Verify, Full, ManifestOf, PacketDigest, PacketOk, Complete, Sync, Lacking, Frame;
  }

  lemma MakeStagingKeeps(h: Hashes, d: Disk, w: Writer, o: Outcome)
    requires DiskOk(h, d) && WriterOk(h, d, w) && w.pc == Beginning(MakeStaging)
    ensures Kept(h, d, w, Begin(d, w, MakeStaging, o))
  {
    BeginCaps(d, w, MakeStaging, o);
    NothingWritten(w.packet);
    hide CapsOk, Verify, Full, ManifestOf, PacketDigest, PacketOk, Written, Complete, Sync, Lacking;
  }

  lemma NothingWritten(p: Packet)
    requires PacketOk(p)
    ensures Written(p.files, 0) == map[] && |p.files| > 0
  {
  }

  lemma FillKeeps(h: Hashes, d: Disk, w: Writer, o: Outcome)
    requires DiskOk(h, d) && WriterOk(h, d, w) && w.pc.Filling?
    ensures Kept(h, d, w, Fill(h, d, w, w.pc.fill, o))
  {
    var r := Fill(h, d, w, w.pc.fill, o);
    FillCaps(h, d, w, w.pc.fill, o);
    if w.pc.fill.FillFile? { FilledIs(w.packet.files, w.pc.fill.i); }
    OwnDirectory(h, d, w, r.1, StagingDir(r.0, w));
    SameDisk(h, d, w, r.1);
    AbandonKeeps(h, d, w);
    hide CapsOk, Verify, Full, ManifestOf, PacketDigest, PacketOk, Written, PayloadsMatch, DiskOk, Sync, Frame, Recorded;
  }

  lemma SealKeeps(h: Hashes, d: Disk, w: Writer, o: Outcome)
    requires DiskOk(h, d) && WriterOk(h, d, w) && w.pc.Sealing?
    ensures Kept(h, d, w, Seal(h, d, w, w.pc.seal, o))
  {
    if w.pc.seal.CreateManifest? || w.pc.seal.FillManifest? { WriteManifestKeeps(h, d, w, o); } else { SealStepKeeps(h, d, w, o); }
  }

  /** Creating and writing the manifest. */
  lemma WriteManifestKeeps(h: Hashes, d: Disk, w: Writer, o: Outcome)
    requires DiskOk(h, d) && WriterOk(h, d, w) && w.pc.Sealing? && (w.pc.seal.CreateManifest? || w.pc.seal.FillManifest?)
    ensures Kept(h, d, w, Seal(h, d, w, w.pc.seal, o))
  {
    var r := Seal(h, d, w, w.pc.seal, o);
    SealCaps(h, d, w, w.pc.seal, o);
    SealedIs(h, w.packet, w.sealed);
    OwnDirectory(h, d, w, r.1, StagingDir(r.0, w));
    AbandonKeeps(h, d, w);
    hide CapsOk, Verify, Full, ManifestOf, PacketDigest, PacketOk, Written, DiskOk, Sync, Lacking, Frame;
  }

  /** The other sealing steps leave the disk alone. */
  lemma SealStepKeeps(h: Hashes, d: Disk, w: Writer, o: Outcome)
    requires DiskOk(h, d) && WriterOk(h, d, w) && w.pc.Sealing? && !w.pc.seal.CreateManifest? && !w.pc.seal.FillManifest?
    ensures Kept(h, d, w, Seal(h, d, w, w.pc.seal, o))
  {
    var r := Seal(h, d, w, w.pc.seal, o);
    SealCaps(h, d, w, w.pc.seal, o);
    SyncedCaps(w, DirectorySync, o, Sealing(CreateManifest));
    SyncedCaps(w, FileSync, o, Sealing(CheckSealed));
    SameDisk(h, d, w, r.1);
    AbandonKeeps(h, d, w);
    hide CapsOk, Verify, Full, ManifestOf, PacketDigest, PacketOk, Written, DiskOk, Synced, Lacking, Frame, Recorded, Known, KnowsMore;
  }

  lemma PublishKeeps(h: Hashes, d: Disk, w: Writer, o: Outcome)
    requires DiskOk(h, d) && WriterOk(h, d, w) && w.pc.Publishing?
    ensures Kept(h, d, w, Publish(h, d, w, w.pc.publish, o))
  {
    PublishCaps(h, d, w, w.pc.publish, o);
    SameDisk(h, d, w, w.(pc := Publishing(Rename)));
    if w.pc.publish.Rename? { RenameKeeps(h, d, w, o); } else { SameDisk(h, d, w, Publish(h, d, w, w.pc.publish, o).1); }
    hide CapsOk, Verify, Full, ManifestOf, PacketDigest, PacketOk, Sync, Frame, DiskOk;
  }

  /** The rename can only fill an absent target: a target that is there is complete, hence not empty. */
  lemma RenameKeeps(h: Hashes, d: Disk, w: Writer, o: Outcome)
    requires DiskOk(h, d) && WriterOk(h, d, w) && w.pc == Publishing(Rename)
    ensures Kept(h, d, w, Publish(h, d, w, Rename, o))
  {
    PublishCaps(h, d, w, Rename, o);
    AbandonKeeps(h, d, w);
    if d.target.Some? { TargetIsFull(h, d.target.value); }
    hide CapsOk, Verify, Full, ManifestOf, PacketDigest, PacketOk, Sync;
  }

  lemma ConfirmKeeps(h: Hashes, d: Disk, w: Writer, o: Outcome)
    requires DiskOk(h, d) && WriterOk(h, d, w) && w.pc.Confirming?
    ensures Kept(h, d, w, (d, Confirm(h, d, w, w.pc.confirm, o)))
  {
    ConfirmCaps(h, d, w, w.pc.confirm, o);
    PublishedVerifies(h, w);
    hide CapsOk, Verify, Full, ManifestOf, PacketDigest, PacketOk, Sync, Complete;
  }

  lemma CleanKeeps(h: Hashes, d: Disk, w: Writer, o: Outcome)
    requires DiskOk(h, d) && WriterOk(h, d, w) && w.pc.Cleanup?
    ensures Kept(h, d, w, Clean(d, w, w.pc.collision, o))
  {
    hide Recorded, Verify, Full, ManifestOf, PacketDigest, PacketOk, Complete;
  }

  lemma PublishedVerifies(h: Hashes, w: Writer)
    requires PacketOk(w.packet)
    ensures Verify(h, Full(h, w.packet, w.sealed)) == Some(ManifestOf(h, w.packet, w.sealed))
    ensures ManifestOf(h, w.packet, w.sealed).packetDigest == PacketDigest(h, w.packet)
  {
    FullVerifies(h, w.packet, w.sealed);
  }

  lemma FilledIs(files: seq<Payload>, i: nat)
    requires i < |files|
    ensures Written(files, i)[files[i].name := Empty][files[i].name := Bytes(files[i].bytes)] == Written(files, i + 1)
  {
  }

  lemma SealedIs(h: Hashes, p: Packet, ls: set<Limitation>)
    ensures Written(p.files, |p.files|)[MANIFEST := Empty][MANIFEST := Sealed(ManifestOf(h, p, ls))] == Full(h, p, ls)
  {
  }

  lemma TargetIsFull(h: Hashes, d: Dir)
    requires Complete(h, d)
    ensures d != map[] && Verify(h, d).Some?
  {
    var p, limitations :| PacketOk(p) && d == Full(h, p, limitations);
    FullVerifies(h, p, limitations);
  }

  lemma ActKeeps(h: Hashes, d: Disk, w: Writer, o: Outcome)
    requires DiskOk(h, d) && WriterOk(h, d, w)
    ensures Kept(h, d, w, Act(h, d, w, o))
  {
    match w.pc {
      case Looking(_) => LookKeeps(h, d, w, o);
      case Beginning(_) => BeginKeeps(h, d, w, o);
      case Filling(_) => FillKeeps(h, d, w, o);
      case Sealing(_) => SealKeeps(h, d, w, o);
      case Publishing(_) => PublishKeeps(h, d, w, o);
      case Confirming(_) => ConfirmKeeps(h, d, w, o);
      case Cleanup(_) => CleanKeeps(h, d, w, o);
      case Losing(_) => LookKeeps(h, d, w, o);
      case Finished(_) =>
    }
    CrashKeeps(h, d, w);
    hide Look, Lose, Begin, Fill, Seal, Publish, Confirm, Clean, CapsOk, StagingOk, TargetOk, PacketOk, Complete;
  }

  lemma CrashKeeps(h: Hashes, d: Disk, w: Writer)
    requires DiskOk(h, d) && WriterOk(h, d, w)
    ensures Kept(h, d, w, (d, Stop(w, Crashed))) && Kept(h, d, w, (d, w))
  {
    hide Recorded, Verify, Full, ManifestOf, PacketDigest, PacketOk, Complete, Known;
  }

  // ----- all writers together

  ghost predicate Safe(h: Hashes, x: World) {
    && DiskOk(h, x.disk)
    && (forall i :: 0 <= i < |x.writers| ==> WriterOk(h, x.disk, x.writers[i]))
    && forall i, j :: 0 <= i < j < |x.writers| && x.writers[i].staging.Some? ==> x.writers[i].staging != x.writers[j].staging
  }

  /** Another writer's step leaves a writer's invariant alone. */
  lemma OtherKeeps(h: Hashes, d: Disk, e: Disk, w: Writer, v: Writer, u: Writer)
    requires Frame(d, e, w, v) && WriterOk(h, d, u) && (u.staging.Some? ==> u.staging != w.staging)
    ensures WriterOk(h, e, u)
  {
    hide Verify, Full, ManifestOf, PacketDigest, PacketOk, FillShape, SealShape, CapsOk;
  }

  lemma StepSafe(h: Hashes, x: World, e: Event)
    requires Safe(h, x)
    ensures Safe(h, Step(h, x, e))
    ensures x.disk.target.Some? ==> Step(h, x, e).disk.target == x.disk.target
  {
    if e.writer < |x.writers| {
      hide Act, WriterOk, DiskOk;
      var i := e.writer;
      var w := x.writers[i];
      var r := Act(h, x.disk, w, e.outcome);
      ActKeeps(h, x.disk, w, e.outcome);
      var y := Step(h, x, e);
      forall j | 0 <= j < |y.writers| ensures WriterOk(h, y.disk, y.writers[j]) {
        if j != i { OtherKeeps(h, x.disk, y.disk, w, r.1, x.writers[j]); }
      }
    }
  }

  lemma InitialSafe(h: Hashes, x: World)
    requires Initial(h, x)
    ensures Safe(h, x)
  {
    hide PacketOk, Verify, Full, ManifestOf, PacketDigest;
  }

  lemma {:induction false} RunSafe(h: Hashes, x: World, es: seq<Event>)
    requires Initial(h, x)
    ensures Safe(h, Run(h, x, es))
  {
    if es == [] {
      InitialSafe(h, x);
    } else {
      RunSafe(h, x, es[..|es| - 1]);
      StepSafe(h, Run(h, x, es[..|es| - 1]), es[|es| - 1]);
    }
  }

  // ----- main results

  /** At every point of every run the target is absent or one complete, verifiable packet. */
  lemma TargetAlwaysComplete(h: Hashes, x: World, es: seq<Event>)
    requires Initial(h, x)
    ensures var t := Run(h, x, es).disk.target; t.Some? ==> Complete(h, t.value) && Verify(h, t.value).Some?
  {
    RunSafe(h, x, es);
    var t := Run(h, x, es).disk.target;
    if t.Some? { TargetIsFull(h, t.value); }
  }

  /** Once there, its content never changes. */
  lemma {:induction false} TargetNeverChanges(h: Hashes, x: World, es: seq<Event>, more: seq<Event>)
    requires Initial(h, x) && Run(h, x, es).disk.target.Some?
    ensures Run(h, x, es + more).disk.target == Run(h, x, es).disk.target
    decreases |more|
  {
    if more == [] {
      assert es + more == es;
    } else {
      var k := |more| - 1;
      assert (es + more)[..|es| + k] == es + more[..k];
      TargetNeverChanges(h, x, es, more[..k]);
      RunSafe(h, x, es + more[..k]);
      StepSafe(h, Run(h, x, es + more[..k]), more[k]);
    }
  }

  predicate Succeeded(w: Writer) { w.pc.Finished? && (w.pc.ending.WrittenNew? || w.pc.ending.Identical?) }

  /** Two calls that succeed, whichever way, were given the same packet, and it is the one at the target. */
  lemma SuccessesAgree(h: Hashes, x: World, es: seq<Event>, i: nat, j: nat)
    requires Initial(h, x) && CollisionFree(h)
    requires var y := Run(h, x, es); i < |y.writers| && j < |y.writers| && Succeeded(y.writers[i]) && Succeeded(y.writers[j])
    ensures var y := Run(h, x, es);
            && y.writers[i].packet == y.writers[j].packet && y.writers[i].pc.ending.manifest == y.writers[j].pc.ending.manifest
            && exists ls :: y.disk.target == Some(Full(h, y.writers[i].packet, ls))
  {
    RunSafe(h, x, es);
    var y := Run(h, x, es);
    var w, v := y.writers[i], y.writers[j];
    assert WriterOk(h, y.disk, w) && WriterOk(h, y.disk, v);
    hide CapsOk, StagingOk, Verify, Full;
    DigestTells(h, w.packet, v.packet);
    var p, ls :| PacketOk(p) && y.disk.target.value == Full(h, p, ls);
    FullVerifies(h, p, ls);
    DigestTells(h, w.packet, p);
  }

  /** A call that reports a conflict was given another packet than the one at the target. */
  lemma ConflictsDiffer(h: Hashes, x: World, es: seq<Event>, i: nat)
    requires Initial(h, x)
    requires var y := Run(h, x, es); i < |y.writers| && y.writers[i].pc == Finished(Conflicted)
    ensures var y := Run(h, x, es);
            y.disk.target.Some? && forall ls :: y.disk.target != Some(Full(h, y.writers[i].packet, ls))
  {
    RunSafe(h, x, es);
    var y := Run(h, x, es);
    var w := y.writers[i];
    assert WriterOk(h, y.disk, w);
    hide CapsOk, StagingOk, Verify, Full;
    forall ls ensures y.disk.target != Some(Full(h, w.packet, ls)) {
      FullVerifies(h, w.packet, ls);
    }
  }

  /** A returning writer has sealed exactly the durability limitations it knows of at return. */
  lemma SealedDurability(h: Hashes, x: World, es: seq<Event>, i: nat)
    requires Initial(h, x)
    requires var y := Run(h, x, es);
             i < |y.writers| && y.writers[i].pc.Finished? && y.writers[i].pc.ending.WrittenNew?
    ensures var w := Run(h, x, es).writers[i];
            w.pc.ending.manifest.limitations == w.durability.limitations && Recorded(w.durability)
  {
    RunSafe(h, x, es);
    var y := Run(h, x, es);
    var w := y.writers[i];
    assert WriterOk(h, y.disk, w);
    hide Verify, Full, StagingOk, Recorded;
  }

  /** The check after sealing never fails: one payload sync has settled file syncing before the seal. */
  lemma SealHolds(h: Hashes, x: World, es: seq<Event>, i: nat)
    requires Initial(h, x)
    requires var y := Run(h, x, es); i < |y.writers| && y.writers[i].pc == Sealing(CheckSealed)
    ensures var y := Run(h, x, es);
            Seal(h, y.disk, y.writers[i], CheckSealed, Fine).1 == At(y.writers[i], Publishing(CheckPacket))
  {
    RunSafe(h, x, es);
    var y := Run(h, x, es);
    assert WriterOk(h, y.disk, y.writers[i]);
    hide Verify, Full, Recorded, FillShape, SealShape;
  }

  /** A call that lost a race always finds the winner, whole, and ends in agreement or in a conflict. */
  lemma WinnerIsFound(h: Hashes, x: World, es: seq<Event>, i: nat)
    requires Initial(h, x)
    requires var y := Run(h, x, es); i < |y.writers| && y.writers[i].pc.Losing?
    ensures var y := Run(h, x, es);
            && y.disk.target.Some? && Verify(h, y.disk.target.value).Some?
            && (y.writers[i].pc.lose == VerifyWinner ==>
                  var e := Lose(h, y.disk, y.writers[i], VerifyWinner, Fine).pc.ending; e.Identical? || e.Conflicted?)
  {
    RunSafe(h, x, es);
    var y := Run(h, x, es);
    assert WriterOk(h, y.disk, y.writers[i]);
    TargetIsFull(h, y.disk.target.value);
    hide Verify, Full, CapsOk, StagingOk;
  }

  /** No two calls ever work in the same directory. */
  lemma StagingIsPrivate(h: Hashes, x: World, es: seq<Event>, i: nat, j: nat)
    requires Initial(h, x)
    requires var y := Run(h, x, es); i < j < |y.writers| && y.writers[i].staging.Some?
    ensures var y := Run(h, x, es); y.writers[i].staging != y.writers[j].staging
  {
    RunSafe(h, x, es);
  }
}
