/** Crashes during compaction: whatever a power loss leaves, the spool can be opened again. */
module SpoolCompaction {
  import opened Bytes
  import opened Frames
  import opened Slots
  import opened SpoolFile
  import opened Spool
  import opened SpoolLog
  import opened SpoolFiles
  import opened SpoolInvariant
  import opened SpoolSteps
  import opened SpoolTheorems

  /** Every checkpoint that may be found is a frame boundary of the log. */
  ghost predicate Marks(c: Config, log: Bytes, ks: iset<Checkpoint>) {
    forall k: nat :: Offset(k) in ks ==> Boundary(c.sum, Log(c, log), k)
  }

  /** The log is synced and not yet cut. */
  predicate Firm(op: Op) {
    op.CompactRename? || op.CompactSyncDir? || op.CompactTruncate?
  }

  predicate InService(p: Process) {
    p.Up? && Live(p.mem.phase) && !p.mem.failed
  }

  ghost predicate Marked(c: Config, s: State) {
    InService(s.process) ==>
      && Marks(c, s.disk.log.cur, Checkpoints(s.disk))
      && (Firm(s.process.mem.op) ==> s.disk.log.may == iset{s.disk.log.cur})
  }

  /** A step that leaves the log as it is and adds no checkpoint. */
  ghost predicate Aside(s: State, s': State) {
    InService(s'.process) ==>
      && InService(s.process) && !Firm(s'.process.mem.op)
      && s'.disk.log.cur == s.disk.log.cur && Checkpoints(s'.disk) <= Checkpoints(s.disk)
  }

  lemma AsideMarked(c: Config, s: State, s': State)
    requires Marked(c, s) && Aside(s, s')
    ensures Marked(c, s')
  {
    hide Boundary, Log, Checkpoints;
  }

  lemma OpenAside(c: Config, s: State, s': State)
    requires Inv(c, s) && OpenStep(c, s, s') && !OpenSyncDir(s, s')
    ensures Aside(s, s')
  {
    hide DiskInv, LogView, IngestInv, OpInv, CompactInv, ActiveInv, PhaseInv, Boundary, ScanLog, Records, Written, Synced,
         SlotReads, SlotContent, Trim, RetainedSize, Visible;
  }

  lemma AdmitAside(c: Config, s: State, s': State, id: Uuid)
    requires AdmitStep(c, s, s', id)
    ensures Aside(s, s')
  {
    hide Written, Synced, EntriesSynced, ReservedBytes, Zeros;
  }

  lemma SaveAside(c: Config, s: State, s': State, id: Uuid)
    requires SaveStep(c, s, s', id)
    ensures Aside(s, s')
  {
    hide Frame, Written, Synced, PutPayload, PartPayload, PayloadWrites, PutHeader, ReservedBytes, SlotHeader;
  }

  lemma LogAside(c: Config, s: State, s': State, id: Uuid)
    requires LogStep(c, s, s', id) && !exists reserved :: StepWriteFrame(c, s, s', id, reserved)
    ensures Aside(s, s')
  {
    hide StepWriteFrame, Frame, Written, EntriesSynced, FrameWrites;
  }

  lemma WorkerAside(c: Config, s: State, s': State)
    requires WorkerStep(c, s, s') && !StoreCheckpoint(s, s')
    ensures Aside(s, s')
  {
    hide StoreCheckpoint, ReadFrom;
  }

  lemma OpenSyncDirMarked(c: Config, s: State, s': State)
    requires Inv(c, s) && OpenSyncDir(s, s')
    ensures Marked(c, s')
  {
    hide LogInv, CoverInv, FilesInv, LogView, OpInv, ActiveInv, Boundary, Log, Covered, ListingInv, Accounted;
  }

  lemma WriteFrameMarked(c: Config, s: State, s': State, id: Uuid, reserved: bool)
    requires Inv(c, s) && Marked(c, s) && StepWriteFrame(c, s, s', id, reserved)
    ensures Marked(c, s')
  {
    hide DiskInv, IngestInv, PhaseInv, OpInv, ActiveInv, Boundary, Log, Whole, Frame, FrameWrites;
    if InService(s'.process) {
      var cur, frame := s.disk.log.cur, Frame(c.sum, Rec(c, id));
      forall k: nat | Offset(k) in Checkpoints(s'.disk)
        ensures Boundary(c.sum, Log(c, cur + frame), k)
      {
        assert Offset(k) in Checkpoints(s.disk);
        BoundaryKept(c, cur, id, |frame|, k);
        assert frame[..|frame|] == frame;
      }
    }
  }

  lemma StoreCheckpointMarked(c: Config, s: State, s': State)
    requires Inv(c, s) && Marked(c, s) && StoreCheckpoint(s, s')
    ensures Marked(c, s')
  {
    hide DiskInv, LogView, PhaseInv, OpInv, ActiveInv, Boundary, Log, Covered, ReaderView;
  }

  lemma CompactMarked(c: Config, s: State, s': State)
    requires Inv(c, s) && Marked(c, s) && CompactStep(c, s, s')
    ensures Marked(c, s')
  {
    hide DiskInv, LogView, IngestInv, PhaseInv, OpInv, ActiveInv, Boundary, Log;
    EmptyCovered(c, 0, s.hist.committed);
    ZeroBoundary(c, s.disk.log.cur);
  }

  lemma ZeroBoundary(c: Config, b: Bytes)
    ensures Boundary(c.sum, Log(c, b), 0)
  {
    assert End(c.sum, Log(c, b), 0) == 0;
  }

  lemma NextMarked(c: Config, s: State, s': State)
    requires Inv(c, s) && Marked(c, s) && Next(c, s, s')
    ensures Marked(c, s')
  {
    hide Inv, Marked, OpenStep, OpenSyncDir, AdmitStep, SaveStep, LogStep, StepWriteFrame, CompactStep, WorkerStep,
         StoreCheckpoint, Aside, Survives;
    if OpenSyncDir(s, s') {
      OpenSyncDirMarked(c, s, s');
    } else if id: Uuid, reserved :| StepWriteFrame(c, s, s', id, reserved) {
      WriteFrameMarked(c, s, s', id, reserved);
    } else if StoreCheckpoint(s, s') {
      StoreCheckpointMarked(c, s, s');
    } else if CompactStep(c, s, s') {
      CompactMarked(c, s, s');
    } else {
      NextAside(c, s, s');
      AsideMarked(c, s, s');
    }
  }

  lemma NextAside(c: Config, s: State, s': State)
    requires Inv(c, s) && Next(c, s, s') && !OpenSyncDir(s, s') && !StoreCheckpoint(s, s') && !CompactStep(c, s, s')
    requires !exists id: Uuid, reserved :: StepWriteFrame(c, s, s', id, reserved)
    ensures Aside(s, s')
  {
    hide Inv, OpenStep, OpenSyncDir, AdmitStep, SaveStep, LogStep, StepWriteFrame, CompactStep, WorkerStep,
         StoreCheckpoint, Survives, Checkpoints;
    if OpenStep(c, s, s') {
      OpenAside(c, s, s');
    } else if id: Uuid :| AdmitStep(c, s, s', id) {
      AdmitAside(c, s, s', id);
    } else if id: Uuid :| SaveStep(c, s, s', id) {
      SaveAside(c, s, s', id);
    } else if id: Uuid :| LogStep(c, s, s', id) {
      LogAside(c, s, s', id);
    } else if WorkerStep(c, s, s') {
      WorkerAside(c, s, s');
    }
  }

  lemma {:induction false} RunMarked(c: Config, run: seq<State>, i: nat)
    requires Run(c, run) && i < |run|
    ensures Marked(c, run[i])
    decreases i
  {
    hide Inv, Next;
    if i > 0 {
      RunMarked(c, run, i - 1);
      RunInv(c, run, i - 1);
      RunStep(c, run, i - 1);
      hide Marked;
      NextMarked(c, run[i - 1], run[i]);
    }
  }

  /**
    From the sync of the log to the end of the compaction, a power loss never makes `open` refuse: if the checkpoint
    it leaves can be read at all, it is a frame boundary of the log it leaves.
   */
  lemma CompactionCrashOpens(c: Config, run: seq<State>, i: nat, d: Disk)
    requires Run(c, run) && i < |run| && run[i].process.Up? && Survives(run[i].disk, d) && !d.checkpoint.cur.Short?
    requires Compacting(run[i].process.mem.op) && !run[i].process.mem.op.CompactSyncLog?
    ensures Boundary(c.sum, Records(c.sum, d.log.cur), CheckpointValue(d.checkpoint.cur))
  {
    hide Run, DiskInv, LogView, IngestInv, PhaseInv, OpInv, ActiveInv, Boundary, Records, SurvivesFiles;
    RunInv(c, run, i);
    RunMarked(c, run, i);
    ZeroBoundary(c, d.log.cur);
    var k := d.checkpoint.cur;
    if k.Offset? && k.offset > 0 {
      assert Offset(k.offset) in Checkpoints(run[i].disk);
    }
  }

  /** Once a compaction is through, the log is empty and the checkpoint 0, whatever a power loss leaves. */
  lemma CompactedStays(c: Config, run: seq<State>, i: nat, d: Disk)
    requires Run(c, run) && i + 1 < |run| && StepCompactSyncTruncated(run[i], run[i + 1])
    requires Survives(run[i + 1].disk, d)
    ensures d.log.cur == [] && d.checkpoint.cur == Offset(0)
  {
    hide Run, DiskInv, LogView, IngestInv, PhaseInv, OpInv, ActiveInv, SurvivesFiles;
    RunInv(c, run, i);
  }

  // ---------------------------------------------------------------- when the log is compacted

  /** An admission was denied at `j`, and up to `i` the process neither ended nor finished a compaction. */
  ghost predicate DeniedAt(run: seq<State>, j: nat, i: nat)
    requires i < |run|
  {
    && j < i && AdmitDenied(run[j], run[j + 1])
    && forall k :: j < k < i ==> GoesOn(run, k)
  }

  ghost predicate GoesOn(run: seq<State>, k: nat)
    requires k + 1 < |run|
  {
    run[k + 1].process.Up? && !StepCompactSyncTruncated(run[k], run[k + 1])
  }

  ghost predicate Pressed(p: Process) {
    p.Up? && p.mem.pressure
  }

  lemma PressureOpen(c: Config, s: State, s': State)
    requires OpenStep(c, s, s') && s'.process.Up?
    ensures Pressed(s'.process) <==> Pressed(s.process)
  {
    hide Boundary, ScanLog, Records, Written, Synced, SlotReads, SlotContent, Trim, RetainedSize, Visible;
  }

  lemma PressureWriter(c: Config, s: State, s': State, id: Uuid)
    requires SaveStep(c, s, s', id) || LogStep(c, s, s', id)
    ensures s'.process.Up? ==> (Pressed(s'.process) <==> Pressed(s.process))
  {
    hide Frame, Written, Synced, EntriesSynced, PutPayload, PartPayload, PayloadWrites, PutHeader, FrameWrites, ReservedBytes,
         SlotHeader;
  }

  lemma PressureAdmit(c: Config, s: State, s': State, id: Uuid)
    requires AdmitStep(c, s, s', id)
    ensures Pressed(s'.process) <==> AdmitDenied(s, s') || Pressed(s.process)
  {
    hide Written, Synced, EntriesSynced, ReservedBytes, Zeros;
  }

  lemma PressureRest(c: Config, s: State, s': State)
    requires CompactStep(c, s, s') || WorkerStep(c, s, s')
    ensures s'.process.Up? ==>
              (Pressed(s'.process) <==> Pressed(s.process) && !StepCompactSyncTruncated(s, s'))
  {
    hide Written, Synced, ReadFrom;
  }

  lemma DeniedStep(s: State, s': State)
    requires AdmitDenied(s, s')
    ensures s.process.Up? && Pressed(s'.process) && !StepCompactSyncTruncated(s, s')
  {
  }

  lemma CutStep(c: Config, s: State, s': State)
    requires StepCompactSyncTruncated(s, s')
    ensures CompactStep(c, s, s') && !Pressed(s'.process)
  {
  }

  lemma PressureStep(c: Config, s: State, s': State)
    requires Next(c, s, s') && s'.process.Up?
    ensures Pressed(s'.process) <==>
            AdmitDenied(s, s') || (Pressed(s.process) && !StepCompactSyncTruncated(s, s'))
  {
    hide OpenStep, AdmitStep, SaveStep, LogStep, CompactStep, WorkerStep, AdmitDenied, StepCompactSyncTruncated, Pressed,
         Survives;
    if AdmitDenied(s, s') {
      DeniedStep(s, s');
    } else if StepCompactSyncTruncated(s, s') {
      CutStep(c, s, s');
    } else if OpenStep(c, s, s') {
      PressureOpen(c, s, s');
    } else if id: Uuid :| AdmitStep(c, s, s', id) {
      PressureAdmit(c, s, s', id);
    } else if id: Uuid :| SaveStep(c, s, s', id) || LogStep(c, s, s', id) {
      PressureWriter(c, s, s', id);
    } else {
      PressureRest(c, s, s');
    }
  }

  lemma {:induction false} PressureIff(c: Config, run: seq<State>, i: nat)
    requires Run(c, run) && i < |run| && run[i].process.Up?
    ensures run[i].process.mem.pressure <==> exists j: nat :: DeniedAt(run, j, i)
    decreases i
  {
    hide Next, AdmitDenied, StepCompactSyncTruncated;
    if i > 0 {
      var p := i - 1;
      RunStep(c, run, p);
      PressureStep(c, run[p], run[i]);
      if run[p].process.Up? {
        PressureIff(c, run, p);
        if j: nat :| DeniedAt(run, j, p) {
          assert GoesOn(run, p) ==> DeniedAt(run, j, i);
        }
      }
      if AdmitDenied(run[p], run[i]) {
        assert DeniedAt(run, p, i);
      }
      if j: nat :| DeniedAt(run, j, i) {
        if j < p {
          DeniedIsUp(run, j, i);
          assert DeniedAt(run, j, p);
        }
      }
    }
  }

  lemma DeniedIsUp(run: seq<State>, j: nat, i: nat)
    requires i < |run| && DeniedAt(run, j, i)
    ensures run[i].process.Up? && run[i - 1].process.Up?
  {
    hide StepCompactSyncTruncated;
    if j < i - 1 {
      assert GoesOn(run, i - 1);
      if j < i - 2 {
        assert GoesOn(run, i - 2);
      }
    }
  }

  /**
    With everything published delivered, the log may be compacted exactly if it has reached the threshold, or an
    admission was denied since the process started and since its last compaction.
   */
  lemma CompactsWhenDue(c: Config, run: seq<State>, i: nat)
    requires Run(c, run) && i < |run| && Ready(run[i]) && !run[i].process.mem.failed
    requires var m := run[i].process.mem; m.worker.Waiting? && m.checkpoint == m.endOffset == m.published > 0
    ensures (exists s' :: CompactBegin(c, run[i], s')) <==>
            run[i].process.mem.endOffset >= c.threshold || exists j: nat :: DeniedAt(run, j, i)
  {
    hide Run, DeniedAt;
    PressureIff(c, run, i);
    var s := run[i];
    if s.process.mem.pressure || s.process.mem.endOffset >= c.threshold {
      assert CompactBegin(c, s, s.(process := Up(s.process.mem.(op := CompactSyncLog))));
    }
  }
}
