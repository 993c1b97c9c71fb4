/** What the protocol guarantees over every run, through any number of kills and power losses. */
module SpoolTheorems {
  import opened Bytes
  import opened Frames
  import opened Slots
  import opened SpoolFile
  import opened Spool
  import opened SpoolLog
  import opened SpoolFiles
  import opened SpoolInvariant
  import opened SpoolSteps

  // ---------------------------------------------------------------- the invariant over runs

  lemma OpenStepInv(c: Config, s: State, s': State)
    requires Inv(c, s) && OpenStep(c, s, s')
    ensures Inv(c, s')
  {
    hide Inv, OpenRead, OpenRepairSync, OpenList, OpenReadable, OpenTrim, OpenRetain, OpenSyncDir, OpenAppend,
         OpenDone;
    if OpenRead(c, s, s') { OpenReadInv(c, s, s'); }
    else if OpenRepairSync(s, s') { OpenRepairSyncInv(c, s, s'); }
    else if OpenRefuse(c, s, s') { StoppedInv(c, s, s'); }
    else if OpenList(c, s, s') { OpenListInv(c, s, s'); }
    else if id: Uuid :| OpenReadable(c, s, s', id) { OpenReadableInv(c, s, s', id); }
    else if id: Uuid :| OpenUndecodable(c, s, s', id) { StoppedInv(c, s, s'); }
    else if id: Uuid :| OpenTrim(c, s, s', id) { OpenTrimInv(c, s, s', id); }
    else if id: Uuid :| OpenRetain(s, s', id) { OpenRetainInv(c, s, s', id); }
    else if OpenSyncDir(s, s') { OpenSyncDirInv(c, s, s'); }
    else if id: Uuid :| OpenAppend(c, s, s', id) { OpenAppendInv(c, s, s', id); }
    else { OpenDoneInv(c, s, s'); }
  }

  lemma StoppedInv(c: Config, s: State, s': State)
    requires Inv(c, s) && s' == s.(process := Down)
    ensures Inv(c, s')
  {
    hide DiskInv;
  }

  lemma AdmitStepInv(c: Config, s: State, s': State, id: Uuid)
    requires Inv(c, s) && AdmitStep(c, s, s', id)
    ensures Inv(c, s')
  {
    hide Inv, Admit, AdmitDenied, StepCreateSlot, StepAllocateSlot, StepSyncSlot, StepCreateIntent, StepWriteIntent,
         StepSyncIntent, StepSyncEntries;
    if Admit(c, s, s', id) { AdmitInv(c, s, s', id); }
    else if AdmitDenied(s, s') { AdmitDeniedInv(c, s, s'); }
    else if StepCreateSlot(s, s', id) { CreateSlotInv(c, s, s', id); }
    else if StepAllocateSlot(s, s', id) { AllocateSlotInv(c, s, s', id); }
    else if StepSyncSlot(s, s', id) { SyncSlotInv(c, s, s', id); }
    else if StepCreateIntent(s, s', id) { CreateIntentInv(c, s, s', id); }
    else if StepWriteIntent(c, s, s', id) { WriteIntentInv(c, s, s', id); }
    else if StepSyncIntent(s, s', id) { SyncIntentInv(c, s, s', id); }
    else { SyncEntriesInv(c, s, s', id); }
  }

  lemma SaveStepInv(c: Config, s: State, s': State, id: Uuid)
    requires Inv(c, s) && SaveStep(c, s, s', id)
    ensures Inv(c, s')
  {
    hide Inv, AppendReserved, AppendUnreserved, StepWritePayload, StepWritePayloadFails, StepWriteHeader, StepSyncTerminal;
    if AppendReserved(c, s, s', id) { AppendReservedInv(c, s, s', id); }
    else if AppendUnreserved(c, s, s', id) { AppendUnreservedInv(c, s, s', id); }
    else if StepWritePayload(c, s, s', id) { WritePayloadInv(c, s, s', id); }
    else if y :| StepWritePayloadFails(c, s, s', id, y) { WritePayloadFailsInv(c, s, s', id, y); }
    else if StepWriteHeader(c, s, s', id) { WriteHeaderInv(c, s, s', id); }
    else { SyncTerminalInv(c, s, s', id); }
  }

  lemma LogStepInv(c: Config, s: State, s': State, id: Uuid)
    requires Inv(c, s) && LogStep(c, s, s', id)
    ensures Inv(c, s')
  {
    hide Inv, StepWriteFrame, StepWriteFrameFails, StepSyncFrame, StepUnlinkIntent, StepSyncIntentGone, StepUnlinkSlot,
         StepSyncSlotGone;
    if reserved :| StepWriteFrame(c, s, s', id, reserved) { WriteFrameInv(c, s, s', id, reserved); }
    else if reserved, k :| StepWriteFrameFails(c, s, s', id, reserved, k) { WriteFrameFailsInv(c, s, s', id, reserved, k); }
    else if StepSyncFrame(s, s', id) { SyncFrameInv(c, s, s', id); }
    else if StepUnlinkIntent(s, s', id) { UnlinkIntentInv(c, s, s', id); }
    else if StepSyncIntentGone(s, s', id) { SyncIntentGoneInv(c, s, s', id); }
    else if StepUnlinkSlot(s, s', id) { UnlinkSlotInv(c, s, s', id); }
    else { SyncSlotGoneInv(c, s, s', id); }
  }

  lemma CompactStepInv(c: Config, s: State, s': State)
    requires Inv(c, s) && CompactStep(c, s, s')
    ensures Inv(c, s')
  {
    hide Inv, IoFailure, SyncData, SyncDataFails, CompactBegin, StepCompactSyncLog, StepCompactRename, StepCompactSyncDir,
         StepCompactTruncate, StepCompactSyncTruncated;
    if IoFailure(s, s') { IoFailureInv(c, s, s'); }
    else if SyncData(s, s') { SyncDataInv(c, s, s'); }
    else if SyncDataFails(s, s') { SyncDataFailsInv(c, s, s'); }
    else if CompactBegin(c, s, s') { CompactBeginInv(c, s, s'); }
    else if StepCompactSyncLog(s, s') { CompactSyncLogInv(c, s, s'); }
    else if StepCompactRename(s, s') { CompactRenameInv(c, s, s'); }
    else if StepCompactSyncDir(s, s') { CompactSyncDirInv(c, s, s'); }
    else if StepCompactTruncate(s, s') { CompactTruncateInv(c, s, s'); }
    else { CompactSyncTruncatedInv(c, s, s'); }
  }

  lemma WorkerStepInv(c: Config, s: State, s': State)
    requires Inv(c, s) && WorkerStep(c, s, s')
    ensures Inv(c, s')
  {
    hide Inv, ReadBatch, Commit, ResetReader, StoreCheckpoint;
    if max :| ReadBatch(c, s, s', max) { ReadBatchInv(c, s, s', max); }
    else if Commit(s, s') { CommitInv(c, s, s'); }
    else if ResetReader(s, s') { ResetReaderInv(c, s, s'); }
    else { StoreCheckpointInv(c, s, s'); }
  }

  lemma NextInv(c: Config, s: State, s': State)
    requires Inv(c, s) && Next(c, s, s')
    ensures Inv(c, s')
  {
    hide Inv, OpenStep, AdmitStep, SaveStep, LogStep, CompactStep, WorkerStep, Kill, PowerLoss;
    if OpenStep(c, s, s') { OpenStepInv(c, s, s'); }
    else if id: Uuid :| AdmitStep(c, s, s', id) { AdmitStepInv(c, s, s', id); }
    else if id: Uuid :| SaveStep(c, s, s', id) { SaveStepInv(c, s, s', id); }
    else if id: Uuid :| LogStep(c, s, s', id) { LogStepInv(c, s, s', id); }
    else if CompactStep(c, s, s') { CompactStepInv(c, s, s'); }
    else if WorkerStep(c, s, s') { WorkerStepInv(c, s, s'); }
    else if Kill(s, s') { KillInv(c, s, s'); }
    else { PowerLossInv(c, s, s'); }
  }

  lemma {:induction false} RunInv(c: Config, run: seq<State>, i: nat)
    requires Run(c, run) && i < |run|
    ensures Inv(c, run[i])
    decreases i
  {
    hide Inv, Next, Init;
    if i == 0 {
      InitInv(c, run[0]);
    } else {
      RunInv(c, run, i - 1);
      NextInv(c, run[i - 1], run[i]);
    }
  }

  // ---------------------------------------------------------------- nothing that happened unhappens

  ghost predicate Later(h: History, h': History) {
    && h.granted <= h'.granted && h.issued <= h'.issued && h.saved <= h'.saved
    && h.unknown <= h'.unknown && h.committed <= h'.committed
  }

  lemma OpenLater(c: Config, s: State, s': State)
    requires OpenStep(c, s, s')
    ensures Later(s.hist, s'.hist)
  {
    hide Boundary, ScanLog, Records, Written, Synced, SlotReads, Trim, RetainedSize, Visible;
  }

  lemma WriterLater(c: Config, s: State, s': State, id: Uuid)
    requires AdmitStep(c, s, s', id) || SaveStep(c, s, s', id) || LogStep(c, s, s', id)
    ensures Later(s.hist, s'.hist)
  {
    hide Frame, Written, Synced, EntriesSynced, PutPayload, PartPayload, PayloadWrites, PutHeader, FrameWrites, ReservedBytes;
  }

  lemma NextLater(c: Config, s: State, s': State)
    requires Next(c, s, s')
    ensures Later(s.hist, s'.hist)
  {
    hide OpenStep, AdmitStep, SaveStep, LogStep, ReadFrom, Survives, Written, Synced;
    if OpenStep(c, s, s') {
      OpenLater(c, s, s');
    } else if id: Uuid :| AdmitStep(c, s, s', id) || SaveStep(c, s, s', id) || LogStep(c, s, s', id) {
      WriterLater(c, s, s', id);
    }
  }

  lemma RunStep(c: Config, run: seq<State>, i: nat)
    requires Run(c, run) && i + 1 < |run|
    ensures Next(c, run[i], run[i + 1])
  {
    hide Next;
  }

  lemma {:induction false} RunLater(c: Config, run: seq<State>, i: nat, j: nat)
    requires Run(c, run) && i <= j < |run|
    ensures Later(run[i].hist, run[j].hist)
    decreases j - i
  {
    hide Run, Next;
    if i < j {
      RunLater(c, run, i, j - 1);
      RunStep(c, run, j - 1);
      NextLater(c, run[j - 1], run[j]);
    }
  }

  // ---------------------------------------------------------------- the guarantees

  /** A record of `log` that ends after `offset` and is the one of `id`: still to be read and committed. */
  ghost predicate Ahead(c: Config, log: Bytes, offset: nat, id: Uuid) {
    var rs := Records(c.sum, log);
    exists k :: 0 <= k < |rs| && rs[k] == Rec(c, id) && End(c.sum, rs, k + 1) > offset
  }

  /**
    Once `save_terminal` has returned for an admitted request, every later successful `open` leaves that
    very record in the log behind the checkpoint, unless it is committed already.
   */
  lemma TerminalSurvives(c: Config, run: seq<State>, i: nat, j: nat, id: Uuid)
    requires Run(c, run) && i < j < |run|
    requires id in run[i].hist.saved && id in run[i].hist.granted
    requires OpenDone(run[j - 1], run[j])
    ensures || Rec(c, id) in run[j].hist.committed
            || Ahead(c, run[j].disk.log.cur, run[j].process.mem.checkpoint, id)
  {
    hide Run;
    RunInv(c, run, j - 1);
    RunLater(c, run, i, j - 1);
    RecoveredAhead(c, run[j - 1], id);
  }

  lemma RecoveredAhead(c: Config, s: State, id: Uuid)
    requires Inv(c, s) && s.process.Up? && s.process.mem.phase == Recovering({})
    requires id in s.hist.saved && id in s.hist.granted
    ensures Rec(c, id) in s.hist.committed || Ahead(c, s.disk.log.cur, s.process.mem.checkpoint, id)
  {
    hide LogInv, CoverInv, FilesInv, LogView, OpInv, ActiveInv, End, Boundary, Records;
    var rs := Log(c, s.disk.log.cur);
    if Rec(c, id) !in s.hist.committed {
      var k :| 0 <= k < |rs| && rs[k] == Rec(c, id);
      assert End(c.sum, rs, k + 1) > s.process.mem.checkpoint;
    }
  }

  /**
    At every step of every run, whatever a power loss would leave, compaction half done included: the
    checkpoint found on disk lies past committed records only.
   */
  lemma CheckpointNeverPastUncommitted(c: Config, run: seq<State>, i: nat, d: Disk, k: nat)
    requires Run(c, run) && i < |run|
    requires Survives(run[i].disk, d) || d == run[i].disk
    requires k < |Records(c.sum, d.log.cur)|
    requires End(c.sum, Records(c.sum, d.log.cur), k + 1) <= CheckpointValue(d.checkpoint.cur)
    ensures Records(c.sum, d.log.cur)[k] in run[i].hist.committed
  {
    hide Run, Records, End, SurvivesFiles;
    RunInv(c, run, i);
    CoveredAfterLoss(c, run[i].disk, run[i].hist, d);
  }

  lemma CoveredAfterLoss(c: Config, d: Disk, h: History, d': Disk)
    requires DiskInv(c, d, h) && (Survives(d, d') || d' == d)
    ensures Covered(c, d'.log.cur, CheckpointValue(d'.checkpoint.cur), h.committed)
  {
    hide LogOk, FilesInv, Covered, SurvivesFiles;
    var k := d'.checkpoint.cur;
    if k.Offset? {
      assert k in Checkpoints(d) && d'.log.cur in d.log.may;
    } else {
      NothingCovered(c, d'.log.cur, h.committed);
    }
  }

  /** `open` goes on only from a checkpoint that is a frame boundary; a serving process stays on boundaries. */
  lemma ServesFromBoundary(c: Config, run: seq<State>, i: nat)
    requires Run(c, run) && i < |run|
    requires run[i].process.Up? && Live(run[i].process.mem.phase) && !run[i].process.mem.failed
    requires !run[i].process.mem.op.CompactSyncTruncated?
    ensures var m := run[i].process.mem;
            var log := run[i].disk.log.cur;
            && Cat(c.sum, Records(c.sum, log)) == log && |log| == m.endOffset
            && Boundary(c.sum, Records(c.sum, log), m.checkpoint)
            && Boundary(c.sum, Records(c.sum, log), m.published)
            && m.checkpoint <= m.published
  {
    hide Run, DiskInv, PhaseInv, OpInv, Covered, Boundary, Whole, Cat, Records;
    RunInv(c, run, i);
    WholeIsCat(c, run[i].disk.log.cur);
  }

  /**
    A request whose `reserve` returned is never lost: now and whatever a power loss leaves, its record is
    committed or in the log, or both its files are there, the intent complete.
   */
  lemma AdmittedNeverLost(c: Config, run: seq<State>, i: nat, id: Uuid, d: Disk)
    requires Run(c, run) && i < |run|
    requires id in run[i].hist.granted && (Survives(run[i].disk, d) || d == run[i].disk)
    ensures || Rec(c, id) in run[i].hist.committed
            || Rec(c, id) in Records(c.sum, d.log.cur)
            || (&& id in d.files && d.files[id].slotEntry.cur && d.files[id].intentEntry.cur
                && d.files[id].intent.cur == c.intent(id))
  {
    hide Run, MemInv, LogOk, CoverInv, Records, SlotOk;
    RunInv(c, run, i);
    FileOf(c, run[i].disk, run[i].hist, id);
    assert d == run[i].disk || SurvivesFiles(run[i].disk.files[id], d.files[id]);
  }

  /** Every log that is, or that a power loss would leave, is the frames of its records and a torn tail. */
  lemma LogAlwaysScans(c: Config, run: seq<State>, i: nat, b: Bytes)
    requires Run(c, run) && i < |run| && (b in run[i].disk.log.may || b == run[i].disk.log.cur)
    ensures ScanLog(c.sum, b).Scanned?
    ensures var s := ScanLog(c.sum, b);
            s.end <= |b| && b == Cat(c.sum, s.records) + b[s.end..] && IsTail(c.sum, b[s.end..])
  {
    hide Run, Inv, ScanLog, Cat, IsTail;
    RunInv(c, run, i);
    InvScans(c, run[i], b);
    ScannedParts(c.sum, b);
  }

  lemma InvScans(c: Config, s: State, b: Bytes)
    requires Inv(c, s) && (b in s.disk.log.may || b == s.disk.log.cur)
    ensures Framed(c.sum, b)
  {
    hide MemInv, CoverInv, FilesInv, Framed, Genuine, AllIn;
    assert LogOk(c, s.disk.log.cur, b, s.hist);
  }

  /** The log never keeps `open` from starting: it can refuse for the checkpoint, if that was cut short. */
  lemma LogNeverRefused(c: Config, run: seq<State>, i: nat)
    requires Run(c, run) && i < |run| && run[i].process.Down?
    ensures (exists s' :: OpenRead(c, run[i], s')) <==> !run[i].disk.checkpoint.cur.Short?
  {
    hide Run, Inv, ScanLog;
    RunInv(c, run, i);
    InvScans(c, run[i], run[i].disk.log.cur);
    if !run[i].disk.checkpoint.cur.Short? {
      OpenReads(c, run[i]);
    }
  }

  lemma OpenReads(c: Config, s: State)
    requires s.process.Down? && !s.disk.checkpoint.cur.Short? && ScanLog(c.sum, s.disk.log.cur).Scanned?
    ensures exists s' :: OpenRead(c, s, s')
  {
    hide ScanLog;
    var log := s.disk.log;
    var end := ScanLog(c.sum, log.cur).end;
    var torn := end < |log.cur|;
    var k := CheckpointValue(s.disk.checkpoint.cur);
    var d := s.disk.(log := if torn then Written(log, log.cur[..end], iset{}) else log);
    var p := Up(Mem(Repairing(torn), Idle, Waiting, k, end, end, k, false, false, {}, 0, map[]));
    assert OpenRead(c, s, State(d, p, s.hist));
  }

  /** No log ever holds, nor could a power loss leave in it, a record that was not presented for its id. */
  lemma NeverFabricated(c: Config, run: seq<State>, i: nat, b: Bytes, k: nat)
    requires Run(c, run) && i < |run|
    requires (b in run[i].disk.log.may || b == run[i].disk.log.cur) && k < |Records(c.sum, b)|
    ensures var r := Records(c.sum, b)[k];
            r.id in run[i].hist.issued && r == Rec(c, r.id)
  {
    hide Run, MemInv, CoverInv, FilesInv, Records, Framed;
    RunInv(c, run, i);
    assert LogOk(c, run[i].disk.log.cur, b, run[i].hist);
  }

  /** What `open` decodes from a slot is the record of that request, and was presented. */
  lemma RecoveredExactly(c: Config, run: seq<State>, i: nat, id: Uuid)
    requires Run(c, run) && Codec(c) && i + 1 < |run| && OpenReadable(c, run[i], run[i + 1], id)
    ensures SlotReads(c, run[i].disk, id, Readable(SCHEMA, c.payload(id)))
    ensures run[i + 1].process.mem.recovered[id] == c.payload(id)
    ensures id in run[i].hist.issued
  {
    hide Run, Codec, MemInv, LogInv, CoverInv, FilesInv, ReadTerminal;
    RunInv(c, run, i);
    FoundActive(c, run[i].disk, run[i].hist, id);
    DecodedGenuine(c, run[i].disk, run[i].hist, id);
  }

  /** What is in memory for recovery is what was presented. */
  ghost predicate Recovers(c: Config, p: Process) {
    p.Up? ==>
      && (p.mem.phase.Listing? || p.mem.phase.Retaining? ==> Presents(c, p.mem.recovered, p.mem.phase.found))
      && (p.mem.phase.Recovering? ==> Presents(c, p.mem.recovered, p.mem.phase.todo))
  }

  ghost predicate Presents(c: Config, recovered: map<Uuid, Bytes>, ids: set<Uuid>) {
    forall id :: id in ids ==> id in recovered && recovered[id] == c.payload(id)
  }

  /** The process goes on with what it recovered, or with less of it. */
  ghost predicate KeepsRecovered(p: Process, p': Process) {
    p'.Up? ==>
      && p.Up? && p'.mem.recovered == p.mem.recovered
      && (p'.mem.phase == p.mem.phase ||
          (p.mem.phase.Recovering? && p'.mem.phase.Recovering? && p'.mem.phase.todo <= p.mem.phase.todo))
  }

  lemma OpenRecovers(c: Config, s: State, s': State)
    requires Inv(c, s) && Codec(c) && OpenStep(c, s, s') && Recovers(c, s.process)
    ensures Recovers(c, s'.process)
  {
    hide Inv, Codec, OpenReadable;
    if id: Uuid :| OpenReadable(c, s, s', id) {
      InvFiles(c, s);
      ReadableRecovers(c, s, s', id);
    } else {
      hide Boundary, ScanLog, Records, Written, Synced, SlotReads, SlotContent, Trim, RetainedSize, Visible;
    }
  }

  lemma ReadableRecovers(c: Config, s: State, s': State, id: Uuid)
    requires FilesInv(c, s.disk, s.hist) && Codec(c) && OpenReadable(c, s, s', id) && Recovers(c, s.process)
    ensures Recovers(c, s'.process)
  {
    hide FilesInv, Codec, ReadTerminal;
    DecodedGenuine(c, s.disk, s.hist, id);
  }

  lemma InvFiles(c: Config, s: State)
    requires Inv(c, s)
    ensures FilesInv(c, s.disk, s.hist)
  {
    hide MemInv, LogInv, CoverInv, FilesInv;
  }

  lemma OthersKeepRecovered(c: Config, s: State, s': State)
    requires Next(c, s, s') && !OpenStep(c, s, s')
    ensures KeepsRecovered(s.process, s'.process)
  {
    hide OpenStep, AdmitStep, SaveStep, LogStep, WorkerStep, CompactStep, Survives, KeepsRecovered;
    if id: Uuid :| AdmitStep(c, s, s', id) {
      AdmitKeepsRecovered(c, s, s', id);
    } else if id: Uuid :| SaveStep(c, s, s', id) {
      SaveKeepsRecovered(c, s, s', id);
    } else if id: Uuid :| LogStep(c, s, s', id) {
      LogKeepsRecovered(c, s, s', id);
    } else if CompactStep(c, s, s') || WorkerStep(c, s, s') {
      ServerKeepsRecovered(c, s, s');
    } else {
      EndKeepsRecovered(s, s');
    }
  }

  lemma AdmitKeepsRecovered(c: Config, s: State, s': State, id: Uuid)
    requires AdmitStep(c, s, s', id)
    ensures KeepsRecovered(s.process, s'.process)
  {
    hide Written, Synced, EntriesSynced, ReservedBytes;
  }

  lemma SaveKeepsRecovered(c: Config, s: State, s': State, id: Uuid)
    requires SaveStep(c, s, s', id)
    ensures KeepsRecovered(s.process, s'.process)
  {
    hide Frame, Written, Synced, PutPayload, PartPayload, PayloadWrites, PutHeader, ReservedBytes;
  }

  lemma LogKeepsRecovered(c: Config, s: State, s': State, id: Uuid)
    requires LogStep(c, s, s', id)
    ensures KeepsRecovered(s.process, s'.process)
  {
    hide Frame, Written, Synced, EntriesSynced, FrameWrites;
  }

  lemma ServerKeepsRecovered(c: Config, s: State, s': State)
    requires CompactStep(c, s, s') || WorkerStep(c, s, s')
    ensures KeepsRecovered(s.process, s'.process)
  {
    hide ReadFrom, Written, Synced;
  }

  lemma EndKeepsRecovered(s: State, s': State)
    requires Kill(s, s') || PowerLoss(s, s')
    ensures KeepsRecovered(s.process, s'.process)
  {
    hide Survives;
  }

  lemma {:induction false} RunRecovers(c: Config, run: seq<State>, i: nat)
    requires Run(c, run) && Codec(c) && i < |run|
    ensures Recovers(c, run[i].process)
    decreases i
  {
    hide Inv, Codec, Next, OpenStep, Recovers;
    if i == 0 {
      StartRecovers(c, run[0]);
    } else {
      RunRecovers(c, run, i - 1);
      RunInv(c, run, i - 1);
      RunStep(c, run, i - 1);
      if OpenStep(c, run[i - 1], run[i]) {
        OpenRecovers(c, run[i - 1], run[i]);
      } else {
        OthersKeepRecovered(c, run[i - 1], run[i]);
        KeptRecovers(c, run[i - 1].process, run[i].process);
      }
    }
  }

  lemma StartRecovers(c: Config, s: State)
    requires Init(s)
    ensures Recovers(c, s.process)
  {
  }

  lemma KeptRecovers(c: Config, p: Process, p': Process)
    requires Recovers(c, p) && KeepsRecovered(p, p')
    ensures Recovers(c, p')
  {
  }

  /** Recovery only ever appends what was presented: nothing keeps it from appending a record it has read. */
  lemma RecoveryAppendsPresented(c: Config, run: seq<State>, i: nat, id: Uuid)
    requires Run(c, run) && Codec(c) && i < |run| && run[i].process.Up?
    requires run[i].process.mem.phase.Recovering? && id in run[i].process.mem.phase.todo
    ensures id in run[i].process.mem.recovered && run[i].process.mem.recovered[id] == c.payload(id)
  {
    hide Run, Codec;
    RunRecovers(c, run, i);
  }

  /** A request retained as unknown stays unknown: no later state, and no power loss, makes its slot readable. */
  lemma UnknownStaysUnknown(c: Config, run: seq<State>, i: nat, j: nat, id: Uuid, d: Disk)
    requires Run(c, run) && i <= j < |run|
    requires id in run[i].hist.unknown
    requires Survives(run[j].disk, d) || d == run[j].disk
    ensures SlotReads(c, d, id, Unreadable)
  {
    hide Run, MemInv, LogInv, CoverInv, Records, SlotOk, ReadTerminal;
    RunInv(c, run, j);
    RunLater(c, run, i, j);
    FileOf(c, run[j].disk, run[j].hist, id);
    assert d == run[j].disk || SurvivesFiles(run[j].disk.files[id], d.files[id]);
  }

  /**
    A batch read in any reachable state never fails, and returns precisely the records from the
    checkpoint on, in the order of the log.
   */
  lemma BatchesAreExact(c: Config, run: seq<State>, i: nat, max: nat)
    requires Run(c, run) && i < |run|
    requires WorkerRuns(run[i]) && run[i].process.mem.worker.Waiting?
    requires run[i].process.mem.checkpoint < run[i].process.mem.published
    ensures var m := run[i].process.mem;
            var rs := Records(c.sum, run[i].disk.log.cur);
            var r := ReadFrom(c.sum, run[i].disk.log.cur, m.reader, m.published, max);
            exists a: nat, b: nat :: a <= b <= |rs| && End(c.sum, rs, a) == m.checkpoint && End(c.sum, rs, b) == m.published
                           && r == Reading(rs[a..Min(a + max, b)], End(c.sum, rs, Min(a + max, b)), false)
  {
    RunInv(c, run, i);
    assert LogOk(c, run[i].disk.log.cur, run[i].disk.log.cur, run[i].hist);
    hide Run, DiskInv, PhaseInv, OpInv, Covered, ReadFrom, End, Records, Framed, LogOk;
    var m := run[i].process.mem;
    var cur := run[i].disk.log.cur;
    var rs := Log(c, cur);
    var a: nat :| a <= |rs| && End(c.sum, rs, a) == m.checkpoint;
    var b: nat :| b <= |rs| && End(c.sum, rs, b) == m.published;
    if b < a { EndMonotone(c.sum, rs, b, a); }
    BatchAt(c, cur, a, b, max);
  }

  /** The ingest worker never stops over an unreadable log. */
  lemma WorkerNeverStops(c: Config, run: seq<State>, i: nat)
    requires Run(c, run) && i < |run| && run[i].process.Up?
    ensures !run[i].process.mem.worker.Stopped?
  {
    hide Run, DiskInv, PhaseInv, OpInv, Covered, LogView;
    RunInv(c, run, i);
  }
}
