/** What the protocol gets done: stored checkpoints count, published records are all there, synced records stay. */
module SpoolProgress {
  import opened Bytes
  import opened Frames
  import opened Slots
  import opened SpoolFile
  import opened Spool
  import opened SpoolLog
  import opened SpoolFiles
  import opened SpoolInvariant
  import opened SpoolSteps
  import opened SpoolTheorems

  // ---------------------------------------------------------------- the stored checkpoint

  /** From the rename on, the checkpoint file is ahead of what the process goes by. */
  predicate Renamed(op: Op) {
    op.CompactSyncDir? || op.CompactTruncate? || op.CompactSyncTruncated?
  }

  /**
    The file holds the offset the process goes by, and everything written is published: except for a frame that is
    about to be synced, during compaction, and once a failure is latched.
   */
  ghost predicate Stored(s: State) {
    s.process.Up? ==>
      var m := s.process.mem;
      && CheckpointValue(s.disk.checkpoint.cur) <= m.checkpoint
      && (!m.failed && !Renamed(m.op) ==> CheckpointValue(s.disk.checkpoint.cur) == m.checkpoint)
      && (!m.failed && !m.op.SyncFrame? ==> m.published == m.endOffset)
  }

  lemma OpenStored(c: Config, s: State, s': State)
    requires Stored(s) && OpenStep(c, s, s')
    ensures Stored(s')
  {
    hide OpenRead, OpenRepairSync, OpenRefuse, OpenList, OpenReadable, OpenUndecodable, OpenTrim, OpenRetain, OpenSyncDir,
         OpenAppend, OpenDone, Stored;
    if OpenRead(c, s, s') || OpenRepairSync(s, s') || OpenRefuse(c, s, s') || OpenList(c, s, s') {
      OpenStartStored(c, s, s');
    } else if id: Uuid :| OpenReadable(c, s, s', id) || OpenUndecodable(c, s, s', id) || OpenTrim(c, s, s', id)
                          || OpenRetain(s, s', id) {
      OpenListingStored(c, s, s', id);
    } else {
      OpenEndStored(c, s, s');
    }
  }

  lemma OpenStartStored(c: Config, s: State, s': State)
    requires Stored(s) && (OpenRead(c, s, s') || OpenRepairSync(s, s') || OpenRefuse(c, s, s') || OpenList(c, s, s'))
    ensures Stored(s')
  {
    hide Boundary, ScanLog, Records, Written, Synced, Visible;
  }

  lemma OpenListingStored(c: Config, s: State, s': State, id: Uuid)
    requires Stored(s)
    requires OpenReadable(c, s, s', id) || OpenUndecodable(c, s, s', id) || OpenTrim(c, s, s', id) || OpenRetain(s, s', id)
    ensures Stored(s')
  {
    hide Written, Synced, SlotReads, SlotContent, Trim, RetainedSize;
  }

  lemma OpenEndStored(c: Config, s: State, s': State)
    requires Stored(s) && (OpenSyncDir(s, s') || (exists id: Uuid :: OpenAppend(c, s, s', id)) || OpenDone(s, s'))
    ensures Stored(s')
  {
  }

  lemma AdmitStored(c: Config, s: State, s': State, id: Uuid)
    requires Stored(s) && AdmitStep(c, s, s', id)
    ensures Stored(s')
  {
    hide Stored, Admit, AdmitDenied, StepCreateSlot, StepAllocateSlot, StepSyncSlot, StepCreateIntent, StepWriteIntent,
         StepSyncIntent, StepSyncEntries;
    if Admit(c, s, s', id) || AdmitDenied(s, s') || StepCreateSlot(s, s', id) || StepAllocateSlot(s, s', id) {
      AdmitBeginStored(c, s, s', id);
    } else {
      AdmitEndStored(c, s, s', id);
    }
  }

  lemma AdmitBeginStored(c: Config, s: State, s': State, id: Uuid)
    requires Stored(s)
    requires Admit(c, s, s', id) || AdmitDenied(s, s') || StepCreateSlot(s, s', id) || StepAllocateSlot(s, s', id)
    ensures Stored(s')
  {
    hide CheckpointValue, Written, Zeros;
  }

  lemma AdmitEndStored(c: Config, s: State, s': State, id: Uuid)
    requires Stored(s)
    requires || StepSyncSlot(s, s', id) || StepCreateIntent(s, s', id) || StepWriteIntent(c, s, s', id)
             || StepSyncIntent(s, s', id) || StepSyncEntries(s, s', id)
    ensures Stored(s')
  {
    hide CheckpointValue, Written, Synced, EntriesSynced;
  }

  lemma SaveStored(c: Config, s: State, s': State, id: Uuid)
    requires Stored(s) && SaveStep(c, s, s', id)
    ensures Stored(s')
  {
    hide Stored, AppendReserved, AppendUnreserved, StepWritePayload, StepWritePayloadFails, StepWriteHeader,
         StepSyncTerminal;
    if AppendReserved(c, s, s', id) || AppendUnreserved(c, s, s', id) || StepSyncTerminal(s, s', id) {
      AppendStored(c, s, s', id);
    } else {
      TerminalStored(c, s, s', id);
    }
  }

  lemma AppendStored(c: Config, s: State, s': State, id: Uuid)
    requires Stored(s)
    requires AppendReserved(c, s, s', id) || AppendUnreserved(c, s, s', id) || StepSyncTerminal(s, s', id)
    ensures Stored(s')
  {
    hide CheckpointValue, Frame, Synced, ReservedBytes;
  }

  lemma TerminalStored(c: Config, s: State, s': State, id: Uuid)
    requires Stored(s)
    requires || StepWritePayload(c, s, s', id) || (exists y :: StepWritePayloadFails(c, s, s', id, y))
             || StepWriteHeader(c, s, s', id)
    ensures Stored(s')
  {
    hide CheckpointValue, Written, PutPayload, PartPayload, PayloadWrites, PutHeader, SlotHeader;
  }

  lemma LogStored(c: Config, s: State, s': State, id: Uuid)
    requires Stored(s) && LogStep(c, s, s', id)
    ensures Stored(s')
  {
    hide Stored, StepWriteFrame, StepWriteFrameFails, StepSyncFrame, StepUnlinkIntent, StepSyncIntentGone, StepUnlinkSlot,
         StepSyncSlotGone;
    if || StepUnlinkIntent(s, s', id) || StepSyncIntentGone(s, s', id) || StepUnlinkSlot(s, s', id)
       || StepSyncSlotGone(s, s', id) {
      CleanupStored(s, s', id);
    } else {
      FrameStored(c, s, s', id);
    }
  }

  lemma FrameStored(c: Config, s: State, s': State, id: Uuid)
    requires Stored(s)
    requires || (exists reserved :: StepWriteFrame(c, s, s', id, reserved))
             || (exists reserved, k :: StepWriteFrameFails(c, s, s', id, reserved, k))
             || StepSyncFrame(s, s', id)
    ensures Stored(s')
  {
    hide CheckpointValue, Frame, Written, Synced, FrameWrites;
  }

  lemma CleanupStored(s: State, s': State, id: Uuid)
    requires Stored(s)
    requires || StepUnlinkIntent(s, s', id) || StepSyncIntentGone(s, s', id) || StepUnlinkSlot(s, s', id)
             || StepSyncSlotGone(s, s', id)
    ensures Stored(s')
  {
    hide CheckpointValue, EntriesSynced;
  }

  lemma CompactStored(c: Config, s: State, s': State)
    requires Inv(c, s) && Stored(s) && CompactStep(c, s, s')
    ensures Stored(s')
  {
    hide Written, Synced, LogInv, CoverInv, FilesInv, LogView, IngestInv, PhaseInv, OpInv, ActiveInv;
  }

  lemma WorkerStored(c: Config, s: State, s': State)
    requires Stored(s) && WorkerStep(c, s, s')
    ensures Stored(s')
  {
    hide ReadFrom;
  }

  lemma NextStored(c: Config, s: State, s': State)
    requires Inv(c, s) && Stored(s) && Next(c, s, s')
    ensures Stored(s')
  {
    hide Inv, OpenStep, AdmitStep, SaveStep, LogStep, CompactStep, WorkerStep, Survives;
    if OpenStep(c, s, s') { OpenStored(c, s, s'); }
    else if id: Uuid :| AdmitStep(c, s, s', id) { AdmitStored(c, s, s', id); }
    else if id: Uuid :| SaveStep(c, s, s', id) { SaveStored(c, s, s', id); }
    else if id: Uuid :| LogStep(c, s, s', id) { LogStored(c, s, s', id); }
    else if CompactStep(c, s, s') { CompactStored(c, s, s'); }
    else if WorkerStep(c, s, s') { WorkerStored(c, s, s'); }
  }

  lemma {:induction false} RunStored(c: Config, run: seq<State>, i: nat)
    requires Run(c, run) && i < |run|
    ensures Stored(run[i])
    decreases i
  {
    hide Inv, Next, Stored;
    if i == 0 {
      StartStored(run[0]);
    } else {
      RunStored(c, run, i - 1);
      RunInv(c, run, i - 1);
      RunStep(c, run, i - 1);
      NextStored(c, run[i - 1], run[i]);
    }
  }

  lemma StartStored(s: State)
    requires Init(s)
    ensures Stored(s)
  {
  }

  /**
    A serving process without a latched failure goes by the offset in the checkpoint file, and has published all of its
    log, except while a frame is being synced or the log compacted.
   */
  lemma CheckpointIsStored(c: Config, run: seq<State>, i: nat)
    requires Run(c, run) && i < |run| && run[i].process.Up? && !run[i].process.mem.failed
    ensures !Renamed(run[i].process.mem.op) ==>
              CheckpointValue(run[i].disk.checkpoint.cur) == run[i].process.mem.checkpoint
    ensures !run[i].process.mem.op.SyncFrame? ==> run[i].process.mem.published == run[i].process.mem.endOffset
  {
    hide Run;
    RunStored(c, run, i);
  }

  /** Nothing but a power loss and the rename of a compaction can take the stored checkpoint back. */
  ghost predicate Steady(s: State, s': State) {
    (PowerLoss(s, s') ==> Kill(s, s')) && !StepCompactRename(s, s')
  }

  lemma WriterLeavesCheckpoint(c: Config, s: State, s': State, id: Uuid)
    requires AdmitStep(c, s, s', id) || SaveStep(c, s, s', id) || LogStep(c, s, s', id)
    ensures s'.disk.checkpoint == s.disk.checkpoint
  {
    hide Frame, Written, Synced, EntriesSynced, PutPayload, PartPayload, PayloadWrites, PutHeader, FrameWrites, ReservedBytes,
         SlotHeader, Zeros;
  }

  lemma NextSteady(c: Config, s: State, s': State)
    requires Stored(s) && Next(c, s, s') && Steady(s, s')
    ensures CheckpointValue(s'.disk.checkpoint.cur) >= CheckpointValue(s.disk.checkpoint.cur)
  {
    hide OpenStep, AdmitStep, SaveStep, LogStep, ReadFrom, Survives, Written, Synced;
    if OpenStep(c, s, s') {
      OpenLeavesCheckpoint(c, s, s');
    } else if id: Uuid :| AdmitStep(c, s, s', id) || SaveStep(c, s, s', id) || LogStep(c, s, s', id) {
      WriterLeavesCheckpoint(c, s, s', id);
    }
  }

  lemma OpenLeavesCheckpoint(c: Config, s: State, s': State)
    requires OpenStep(c, s, s')
    ensures s'.disk.checkpoint == s.disk.checkpoint
  {
    hide Boundary, ScanLog, Records, Written, Synced, SlotReads, SlotContent, Trim, RetainedSize, Visible;
  }

  lemma {:induction false} StoredNeverBack(c: Config, run: seq<State>, i: nat, j: nat)
    requires Run(c, run) && i <= j < |run| && forall k :: i <= k < j ==> Steady(run[k], run[k + 1])
    ensures CheckpointValue(run[j].disk.checkpoint.cur) >= CheckpointValue(run[i].disk.checkpoint.cur)
    decreases j - i
  {
    hide Run, Next, Stored, Steady;
    if i < j {
      StoredNeverBack(c, run, i, j - 1);
      RunStored(c, run, j - 1);
      RunStep(c, run, j - 1);
      assert Steady(run[j - 1], run[j - 1 + 1]);
      NextSteady(c, run[j - 1], run[j]);
    }
  }

  /**
    A batch whose checkpoint was stored is not delivered again: through any number of kills and reopenings, short of a
    power loss or a compaction, the worker reads on from behind it.
   */
  lemma NotDeliveredAgain(c: Config, run: seq<State>, i: nat, j: nat)
    requires Run(c, run) && i < j < |run| && StoreCheckpoint(run[i], run[i + 1])
    requires forall k :: i + 1 <= k < j ==> Steady(run[k], run[k + 1])
    requires run[j].process.Up? && run[j].process.mem.worker.Waiting?
    ensures run[j].process.mem.reader >= run[i].process.mem.worker.end
  {
    hide Run, Steady, Inv, Stored, StoreCheckpoint;
    StoresEnd(run[i], run[i + 1]);
    StoredNeverBack(c, run, i + 1, j);
    RunStored(c, run, j);
    RunInv(c, run, j);
    WaitingReads(c, run[j]);
  }

  lemma StoresEnd(s: State, s': State)
    requires StoreCheckpoint(s, s')
    ensures s.process.Up? && s.process.mem.worker.Committed?
    ensures CheckpointValue(s'.disk.checkpoint.cur) == s.process.mem.worker.end
  {
  }

  lemma WaitingReads(c: Config, s: State)
    requires Inv(c, s) && Stored(s) && s.process.Up? && s.process.mem.worker.Waiting?
    ensures s.process.mem.reader == s.process.mem.checkpoint >= CheckpointValue(s.disk.checkpoint.cur)
  {
    hide DiskInv, LogView, PhaseInv, OpInv, CompactInv, ActiveInv, Covered, ReaderView;
  }

  // ---------------------------------------------------------------- synced records

  /** The log is left alone or synced; more may be committed. */
  ghost predicate LogKept(s: State, s': State) {
    (s'.disk.log == s.disk.log || s'.disk.log == Synced(s.disk.log)) && s.hist.committed <= s'.hist.committed
  }

  lemma LogKeptKeeps(c: Config, s: State, s': State)
    requires LogInv(c, s.disk.log, s.hist) && LogKept(s, s')
    ensures Keeps(c, s.disk.log, s.hist.committed, s'.disk.log, s'.hist.committed)
  {
    hide LogOk, Log;
  }

  lemma OpenLogKept(c: Config, s: State, s': State)
    requires OpenStep(c, s, s') && !OpenRead(c, s, s')
    ensures LogKept(s, s')
  {
    hide OpenRead, Boundary, Records, Written, SlotReads, SlotContent, Trim, RetainedSize, Visible;
  }

  lemma WriterLogKept(c: Config, s: State, s': State, id: Uuid)
    requires AdmitStep(c, s, s', id) || SaveStep(c, s, s', id)
    ensures LogKept(s, s')
  {
    hide Frame, Written, EntriesSynced, PutPayload, PartPayload, PayloadWrites, PutHeader, ReservedBytes, SlotHeader, Zeros;
  }

  lemma RetireLogKept(s: State, s': State, id: Uuid)
    requires || StepSyncFrame(s, s', id) || StepUnlinkIntent(s, s', id) || StepSyncIntentGone(s, s', id)
             || StepUnlinkSlot(s, s', id) || StepSyncSlotGone(s, s', id)
    ensures LogKept(s, s')
  {
    hide Written, EntriesSynced;
  }

  lemma OthersLogKept(c: Config, s: State, s': State)
    requires (CompactStep(c, s, s') && !StepCompactTruncate(s, s')) || WorkerStep(c, s, s') || Kill(s, s')
    ensures LogKept(s, s')
  {
    hide StepCompactTruncate, ReadFrom;
  }

  lemma OpenReadKeeps(c: Config, s: State, s': State)
    requires Inv(c, s) && OpenRead(c, s, s')
    ensures Keeps(c, s.disk.log, s.hist.committed, s'.disk.log, s'.hist.committed)
  {
    var log := s.disk.log;
    RepairKeeps(c, log, Checkpoints(s.disk), s.hist);
    hide MemInv, LogInv, FilesInv, CoverInv, Keeps, ScanLog;
    KeepsSame(c, log, s.hist.committed);
  }

  lemma FrameKeeps(c: Config, s: State, s': State, id: Uuid, reserved: bool, k: nat)
    requires Inv(c, s) && (StepWriteFrame(c, s, s', id, reserved) || StepWriteFrameFails(c, s, s', id, reserved, k))
    ensures Keeps(c, s.disk.log, s.hist.committed, s'.disk.log, s'.hist.committed)
  {
    hide Frame, LogInv, CoverInv, FilesInv, IngestInv, Whole, Log, ActiveInv, Accounted, FrameWrites, Within, Keeps, Written;
    var frame := Frame(c.sum, Rec(c, id));
    if StepWriteFrame(c, s, s', id, reserved) {
      WriteFrameIsAppended(c, s.disk.log, id);
      AppendKeeps(c, s.disk.log, Checkpoints(s.disk), s.hist, id, |frame|);
    } else {
      AppendKeeps(c, s.disk.log, Checkpoints(s.disk), s.hist, id, k);
    }
  }

  lemma CutKeeps(c: Config, s: State, s': State)
    requires Inv(c, s) && StepCompactTruncate(s, s')
    ensures Keeps(c, s.disk.log, s.hist.committed, s'.disk.log, s'.hist.committed)
  {
    hide LogInv, CoverInv, FilesInv, Keeps, Log, CoveredIn, Whole, Cat, PhaseInv, OpInv, ActiveInv, Boundary;
    WholeIsCat(c, s.disk.log.cur);
    CoveredWhole(c, Log(c, s.disk.log.cur), s.hist.committed);
    TruncateKeeps(c, s.disk.log, Checkpoints(s.disk), s.hist);
  }

  lemma NextKeeps(c: Config, s: State, s': State)
    requires Inv(c, s) && Next(c, s, s')
    ensures Keeps(c, s.disk.log, s.hist.committed, s'.disk.log, s'.hist.committed)
  {
    hide Inv, LogInv, Keeps, OpenStep, OpenRead, AdmitStep, SaveStep, StepWriteFrame, StepWriteFrameFails, StepSyncFrame,
         StepUnlinkIntent, StepSyncIntentGone, StepUnlinkSlot, StepSyncSlotGone, CompactStep, StepCompactTruncate,
         WorkerStep, LogKept, Kill, Survives;
    InvLog(c, s);
    if OpenRead(c, s, s') {
      OpenReadKeeps(c, s, s');
    } else if StepCompactTruncate(s, s') {
      CutKeeps(c, s, s');
    } else if id: Uuid, reserved :| StepWriteFrame(c, s, s', id, reserved) {
      FrameKeeps(c, s, s', id, reserved, 0);
    } else if id: Uuid, reserved, k :| StepWriteFrameFails(c, s, s', id, reserved, k) {
      FrameKeeps(c, s, s', id, reserved, k);
    } else if PowerLoss(s, s') {
      LossKeeps(c, s, s');
    } else {
      NextLogKept(c, s, s');
      LogKeptKeeps(c, s, s');
    }
  }

  lemma LossKeeps(c: Config, s: State, s': State)
    requires LogInv(c, s.disk.log, s.hist) && CoverInv(c, s.disk.log, Checkpoints(s.disk), s.hist.committed)
    requires PowerLoss(s, s')
    ensures Keeps(c, s.disk.log, s.hist.committed, s'.disk.log, s'.hist.committed)
  {
    hide LogInv, CoverInv, Keeps, SurvivesFiles;
    SurviveKeeps(c, s.disk.log, Checkpoints(s.disk), s.hist, s'.disk.log, Checkpoints(s'.disk));
  }

  lemma NextLogKept(c: Config, s: State, s': State)
    requires Next(c, s, s') && !OpenRead(c, s, s') && !StepCompactTruncate(s, s') && !PowerLoss(s, s')
    requires !exists id: Uuid, reserved :: StepWriteFrame(c, s, s', id, reserved)
    requires !exists id: Uuid, reserved, k :: StepWriteFrameFails(c, s, s', id, reserved, k)
    ensures LogKept(s, s')
  {
    hide OpenStep, OpenRead, AdmitStep, SaveStep, StepWriteFrame, StepWriteFrameFails, StepSyncFrame, StepUnlinkIntent,
         StepSyncIntentGone, StepUnlinkSlot, StepSyncSlotGone, CompactStep, StepCompactTruncate, WorkerStep, LogKept, Kill,
         PowerLoss;
    if OpenStep(c, s, s') {
      OpenLogKept(c, s, s');
    } else if id: Uuid :| AdmitStep(c, s, s', id) || SaveStep(c, s, s', id) {
      WriterLogKept(c, s, s', id);
    } else if id: Uuid :| LogStep(c, s, s', id) {
      RetireLogKept(s, s', id);
    } else {
      OthersLogKept(c, s, s');
    }
  }

  lemma InvLog(c: Config, s: State)
    requires Inv(c, s)
    ensures LogInv(c, s.disk.log, s.hist) && CoverInv(c, s.disk.log, Checkpoints(s.disk), s.hist.committed)
  {
    hide MemInv, LogInv, CoverInv, FilesInv;
  }

  lemma {:induction false} RecordedStays(c: Config, run: seq<State>, i: nat, j: nat, id: Uuid)
    requires Run(c, run) && i <= j < |run| && Recorded(c, run[i].disk.log, run[i].hist.committed, id)
    ensures Recorded(c, run[j].disk.log, run[j].hist.committed, id)
    decreases j - i
  {
    hide Run, Inv, Next, Recorded;
    if i < j {
      RecordedStays(c, run, i, j - 1, id);
      RunInv(c, run, j - 1);
      RunStep(c, run, j - 1);
      NextKeeps(c, run[j - 1], run[j]);
    }
  }

  /**
    Whatever was in the log when it was synced, admitted or not, is never lost: in every later state, and whatever a
    power loss leaves of it, the record is committed or in the log.
   */
  lemma SyncedNeverLost(c: Config, run: seq<State>, i: nat, j: nat, id: Uuid, d: Disk)
    requires Run(c, run) && i < j < |run| && SyncData(run[i], run[i + 1])
    requires Rec(c, id) in Records(c.sum, run[i].disk.log.cur)
    requires Survives(run[j].disk, d) || d == run[j].disk
    ensures Rec(c, id) in run[j].hist.committed || Rec(c, id) in Records(c.sum, d.log.cur)
  {
    hide Run, Records, SurvivesFiles;
    assert Recorded(c, run[i + 1].disk.log, run[i + 1].hist.committed, id);
    RecordedStays(c, run, i + 1, j, id);
    RunInv(c, run, j);
    hide Inv;
    InvLog(c, run[j]);
  }

  // ---------------------------------------------------------------- the evidence of unknown requests

  /** The slot is the same in every version, and without zeros at its end. */
  ghost predicate Settled(x: Cell<Bytes>) {
    x.may == iset{x.cur} && Shorn(x.cur)
  }

  ghost predicate Evident(f: Files) {
    f.slotEntry.may == iset{false} || Settled(f.slot)
  }

  ghost predicate Evidence(files: map<Uuid, Files>, unknown: set<Uuid>) {
    forall id :: id in unknown ==> id in files && Evident(files[id])
  }

  /** What may happen to the slot of an unknown request: nothing. */
  ghost predicate Preserved(f: Files, f': Files) {
    && (f.slotEntry.may == iset{false} ==> f'.slotEntry.may == iset{false})
    && (Settled(f.slot) ==> f'.slot == f.slot)
  }

  ghost predicate AllPreserved(files: map<Uuid, Files>, files': map<Uuid, Files>, unknown: set<Uuid>) {
    forall id :: id in unknown && id in files ==> id in files' && Preserved(files[id], files'[id])
  }

  lemma TrimmedSettled(x: Cell<Bytes>)
    requires Settled(x)
    ensures Written(x, Trim(x.cur), iset{}) == x == Synced(x)
  {
    TrimUnique(x.cur, x.cur);
    hide Trim;
    assert Written(x, x.cur, iset{}).may == x.may;
  }

  lemma SurvivesPreserved(f: Files, f': Files)
    requires EntriesOk(f) && SurvivesFiles(f, f')
    ensures Preserved(f, f')
  {
    if Settled(f.slot) {
      assert f'.slot.cur == f.slot.cur;
    }
  }

  lemma EntriesOf(c: Config, d: Disk, h: History, id: Uuid)
    requires FilesInv(c, d, h) && id in d.files
    ensures EntriesOk(d.files[id])
  {
    FileOf(c, d, h, id);
    hide SlotOk, Owed, FilesInv;
  }

  lemma OnePreserved(files: map<Uuid, Files>, id: Uuid, f: Files, unknown: set<Uuid>)
    requires id in unknown && id in files ==> Preserved(files[id], f)
    ensures AllPreserved(files, files[id := f], unknown)
  {
    hide Settled;
  }

  lemma EntriesPreserved(c: Config, d: Disk, h: History, unknown: set<Uuid>)
    requires FilesInv(c, d, h)
    ensures AllPreserved(d.files, EntriesSynced(d.files), unknown)
  {
    hide Settled, FilesInv;
    forall id | id in d.files
      ensures Preserved(d.files[id], EntriesSynced(d.files)[id])
    {
      EntriesOf(c, d, h, id);
    }
  }

  lemma TrimPreserved(c: Config, s: State, s': State, id: Uuid)
    requires FilesInv(c, s.disk, s.hist) && (OpenTrim(c, s, s', id) || OpenRetain(s, s', id))
    ensures AllPreserved(s.disk.files, s'.disk.files, s.hist.unknown)
  {
    hide Trim, FilesInv, RetainedSize, SlotContent;
    var f := s.disk.files[id];
    EntriesOf(c, s.disk, s.hist, id);
    if Settled(f.slot) {
      TrimmedSettled(f.slot);
    }
    hide Settled;
    OnePreserved(s.disk.files, id, s'.disk.files[id], s.hist.unknown);
  }

  lemma RetainedEvident(c: Config, s: State, s': State, id: Uuid)
    requires FilesInv(c, s.disk, s.hist) && Visible(s.disk, id) && OpenRetain(s, s', id)
    requires s.disk.files[id].slotEntry.cur ==> Shorn(s.disk.files[id].slot.cur)
    ensures Evident(s'.disk.files[id])
  {
    hide FilesInv, RetainedSize;
    EntriesOf(c, s.disk, s.hist, id);
    var f := s.disk.files[id];
    if !f.slotEntry.cur {
      assert true !in f.slotEntry.may;
      assert forall b :: b in f.slotEntry.may <==> b in iset{false};
    }
  }

  lemma SavePreserved(c: Config, s: State, s': State, id: Uuid)
    requires SaveStep(c, s, s', id) && s.process.Up?
    requires Saving(s.process.mem.op) ==> s.process.mem.op.id !in s.hist.unknown
    ensures AllPreserved(s.disk.files, s'.disk.files, s.hist.unknown)
  {
    hide Frame, Written, Synced, PutPayload, PartPayload, PayloadWrites, PutHeader, ReservedBytes, SlotHeader, Preserved;
    SamePreserved(s.disk.files, s.hist.unknown);
    if id in s'.disk.files && Saving(s.process.mem.op) {
      OnePreserved(s.disk.files, id, s'.disk.files[id], s.hist.unknown);
    }
  }

  lemma SamePreserved(files: map<Uuid, Files>, unknown: set<Uuid>)
    ensures AllPreserved(files, files, unknown)
  {
  }

  lemma AdmitPreserved(c: Config, s: State, s': State, id: Uuid)
    requires FilesInv(c, s.disk, s.hist) && AdmitStep(c, s, s', id) && s.process.Up?
    requires Reserving(s.process.mem.op) ==> s.process.mem.op.id !in s.hist.unknown
    ensures AllPreserved(s.disk.files, s'.disk.files, s.hist.unknown)
  {
    hide FilesInv, Written, Synced, EntriesSynced, ReservedBytes, Zeros, Preserved;
    SamePreserved(s.disk.files, s.hist.unknown);
    EntriesPreserved(c, s.disk, s.hist, s.hist.unknown);
    if id in s'.disk.files && Reserving(s.process.mem.op) && !s.process.mem.op.SyncEntries? {
      OnePreserved(s.disk.files, id, s'.disk.files[id], s.hist.unknown);
    }
  }

  lemma LogPreserved(c: Config, s: State, s': State, id: Uuid)
    requires FilesInv(c, s.disk, s.hist) && LogStep(c, s, s', id)
    ensures AllPreserved(s.disk.files, s'.disk.files, s.hist.unknown)
  {
    hide StepUnlinkIntent, StepUnlinkSlot, FilesInv, Frame, Written, Synced, EntriesSynced, FrameWrites, AllPreserved;
    SamePreserved(s.disk.files, s.hist.unknown);
    EntriesPreserved(c, s.disk, s.hist, s.hist.unknown);
    if StepUnlinkIntent(s, s', id) || StepUnlinkSlot(s, s', id) {
      UnlinkPreserved(c, s, s', id);
    }
  }

  lemma UnlinkPreserved(c: Config, s: State, s': State, id: Uuid)
    requires FilesInv(c, s.disk, s.hist) && (StepUnlinkIntent(s, s', id) || StepUnlinkSlot(s, s', id))
    ensures AllPreserved(s.disk.files, s'.disk.files, s.hist.unknown)
  {
    hide FilesInv, Settled;
    var f, f' := s.disk.files[id], s'.disk.files[id];
    assert f.slotEntry.may == iset{false} ==> f'.slotEntry.may == iset{false};
    OnePreserved(s.disk.files, id, f', s.hist.unknown);
  }

  lemma OpenPreserved(c: Config, s: State, s': State)
    requires FilesInv(c, s.disk, s.hist) && OpenStep(c, s, s')
    ensures AllPreserved(s.disk.files, s'.disk.files, s.hist.unknown)
  {
    hide FilesInv, OpenTrim, OpenRetain, AllPreserved, Boundary, ScanLog, Records, Written, Synced, SlotReads, SlotContent,
         Visible;
    SamePreserved(s.disk.files, s.hist.unknown);
    if id: Uuid :| OpenTrim(c, s, s', id) || OpenRetain(s, s', id) {
      TrimPreserved(c, s, s', id);
    }
  }

  lemma LossPreserved(c: Config, s: State, s': State)
    requires FilesInv(c, s.disk, s.hist) && PowerLoss(s, s')
    ensures AllPreserved(s.disk.files, s'.disk.files, s.hist.unknown)
  {
    hide FilesInv, Preserved, SurvivesCell;
    forall id | id in s.disk.files
      ensures id in s'.disk.files && Preserved(s.disk.files[id], s'.disk.files[id])
    {
      EntriesOf(c, s.disk, s.hist, id);
      SurvivesPreserved(s.disk.files[id], s'.disk.files[id]);
    }
  }

  lemma OthersPreserved(c: Config, s: State, s': State)
    requires CompactStep(c, s, s') || WorkerStep(c, s, s') || Kill(s, s')
    ensures AllPreserved(s.disk.files, s'.disk.files, s.hist.unknown)
  {
    hide AllPreserved, ReadFrom, Written, Synced;
    SamePreserved(s.disk.files, s.hist.unknown);
  }

  /** The operation under way is not on a request that was given up as unknown. */
  lemma OpIsKnown(c: Config, s: State)
    requires Inv(c, s) && s.process.Up?
    ensures Reserving(s.process.mem.op) || Saving(s.process.mem.op) ==> s.process.mem.op.id !in s.hist.unknown
  {
    hide LogInv, CoverInv, LogView, IngestInv, PhaseInv, Image, PayloadWritten, FileInv, SoundSlot;
  }

  lemma NextPreserved(c: Config, s: State, s': State)
    requires Inv(c, s) && Next(c, s, s')
    ensures AllPreserved(s.disk.files, s'.disk.files, s.hist.unknown)
  {
    hide Inv, FilesInv, OpenStep, AdmitStep, SaveStep, LogStep, CompactStep, WorkerStep, Kill, PowerLoss, AllPreserved;
    InvFiles(c, s);
    if s.process.Up? {
      OpIsKnown(c, s);
    }
    if OpenStep(c, s, s') { OpenPreserved(c, s, s'); }
    else if id: Uuid :| AdmitStep(c, s, s', id) { StepIsUp(c, s, s', id); AdmitPreserved(c, s, s', id); }
    else if id: Uuid :| SaveStep(c, s, s', id) { StepIsUp(c, s, s', id); SavePreserved(c, s, s', id); }
    else if id: Uuid :| LogStep(c, s, s', id) { LogPreserved(c, s, s', id); }
    else if PowerLoss(s, s') { LossPreserved(c, s, s'); }
    else { OthersPreserved(c, s, s'); }
  }

  lemma StepIsUp(c: Config, s: State, s': State, id: Uuid)
    requires AdmitStep(c, s, s', id) || SaveStep(c, s, s', id)
    ensures s.process.Up?
  {
    hide Frame, Written, Synced, PutPayload, PartPayload, PayloadWrites, PutHeader, ReservedBytes, SlotHeader, EntriesSynced;
  }

  /** Only `open` gives a request up. */
  lemma NextUnknown(c: Config, s: State, s': State, id: Uuid)
    requires Inv(c, s) && Next(c, s, s') && id in s'.hist.unknown && id !in s.hist.unknown
    ensures OpenRetain(s, s', id) && Visible(s.disk, id)
    ensures s.disk.files[id].slotEntry.cur ==> Shorn(s.disk.files[id].slot.cur)
  {
    hide Inv, OpenStep, AdmitStep, SaveStep, LogStep, ReadFrom, Survives, Written, Synced, OpenRetain, Visible;
    if OpenStep(c, s, s') {
      OpenUnknown(c, s, s', id);
      RetainsVisible(c, s, s', id);
    } else if x: Uuid :| AdmitStep(c, s, s', x) || SaveStep(c, s, s', x) || LogStep(c, s, s', x) {
      WriterUnknown(c, s, s', x);
    }
  }

  lemma OpenUnknown(c: Config, s: State, s': State, id: Uuid)
    requires OpenStep(c, s, s') && id in s'.hist.unknown && id !in s.hist.unknown
    ensures OpenRetain(s, s', id)
  {
    hide Boundary, ScanLog, Records, Written, Synced, SlotReads, SlotContent, Trim, RetainedSize, Visible;
  }

  lemma RetainsVisible(c: Config, s: State, s': State, id: Uuid)
    requires Inv(c, s) && OpenRetain(s, s', id)
    ensures Visible(s.disk, id) && (s.disk.files[id].slotEntry.cur ==> Shorn(s.disk.files[id].slot.cur))
  {
    hide DiskInv, LogView, IngestInv, OpInv, CompactInv, ActiveInv, Accounted, ListingInv, SlotReads, RetainedSize;
  }

  lemma WriterUnknown(c: Config, s: State, s': State, id: Uuid)
    requires AdmitStep(c, s, s', id) || SaveStep(c, s, s', id) || LogStep(c, s, s', id)
    ensures s'.hist.unknown == s.hist.unknown
  {
    hide Frame, Written, Synced, EntriesSynced, PutPayload, PartPayload, PayloadWrites, PutHeader, FrameWrites, ReservedBytes,
         SlotHeader, Zeros;
  }

  lemma NextEvidence(c: Config, s: State, s': State)
    requires Inv(c, s) && Next(c, s, s') && Evidence(s.disk.files, s.hist.unknown)
    ensures Evidence(s'.disk.files, s'.hist.unknown)
  {
    hide Inv, Next, Settled, OpenRetain, Visible, Shorn;
    NextPreserved(c, s, s');
    InvFiles(c, s);
    forall id | id in s'.hist.unknown
      ensures id in s'.disk.files && Evident(s'.disk.files[id])
    {
      if id in s.hist.unknown {
        assert Preserved(s.disk.files[id], s'.disk.files[id]);
      } else {
        NextUnknown(c, s, s', id);
        RetainHasFile(s, s', id);
        RetainedEvident(c, s, s', id);
      }
    }
  }

  lemma RetainHasFile(s: State, s': State, id: Uuid)
    requires OpenRetain(s, s', id)
    ensures id in s'.disk.files
  {
  }

  lemma {:induction false} RunEvidence(c: Config, run: seq<State>, i: nat)
    requires Run(c, run) && i < |run|
    ensures Evidence(run[i].disk.files, run[i].hist.unknown)
    decreases i
  {
    hide Inv, Next, Evident;
    if i > 0 {
      hide Evidence;
      RunEvidence(c, run, i - 1);
      RunInv(c, run, i - 1);
      RunStep(c, run, i - 1);
      NextEvidence(c, run[i - 1], run[i]);
    }
  }

  lemma {:induction false} RunPreserved(c: Config, run: seq<State>, i: nat, j: nat, id: Uuid)
    requires Run(c, run) && i <= j < |run| && id in run[i].hist.unknown && id in run[i].disk.files
    ensures id in run[j].disk.files && Preserved(run[i].disk.files[id], run[j].disk.files[id])
    decreases j - i
  {
    hide Run, Inv, Next, Settled;
    if i < j {
      RunPreserved(c, run, i, j - 1, id);
      RunInv(c, run, j - 1);
      RunStep(c, run, j - 1);
      RunLater(c, run, i, j - 1);
      NextPreserved(c, run[j - 1], run[j]);
    }
  }

  /**
    Nothing of the slot of a request given up as unknown is ever lost, and nothing but its evidence is kept: in every later
    state, and whatever a power loss leaves, it holds the very same bytes, the last of them no zero.
   */
  lemma EvidenceStays(c: Config, run: seq<State>, i: nat, j: nat, id: Uuid, d: Disk)
    requires Run(c, run) && i <= j < |run| && id in run[i].hist.unknown
    requires Survives(run[j].disk, d) || d == run[j].disk
    ensures id in run[i].disk.files && id in d.files
    ensures run[i].disk.files[id].slotEntry.cur ==>
              d.files[id].slot.cur == run[i].disk.files[id].slot.cur && Shorn(d.files[id].slot.cur)
  {
    hide Run, Inv;
    RunEvidence(c, run, i);
    RunInv(c, run, i);
    InvFiles(c, run[i]);
    EntriesOf(c, run[i].disk, run[i].hist, id);
    RunPreserved(c, run, i, j, id);
    assert d == run[j].disk || SurvivesFiles(run[j].disk.files[id], d.files[id]);
  }
}
