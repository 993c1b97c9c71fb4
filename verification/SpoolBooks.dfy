/** The writer's books: which requests it has reservations for, and which files they account for. */
module SpoolBooks {
  import opened Bytes
  import opened Frames
  import opened Slots
  import opened SpoolFile
  import opened Spool
  import opened SpoolLog
  import opened SpoolFiles
  import opened SpoolInvariant
  import opened SpoolTheorems

  predicate Present(f: Files) {
    f.slotEntry.cur || f.intentEntry.cur
  }

  /** No file is left lying about: each belongs to a claimed request, or to one retained as unknown. */
  ghost predicate Tidy(files: map<Uuid, Files>, phase: Phase, ids: set<Uuid>, unknown: set<Uuid>) {
    && (phase.Recovering? ==> phase.todo == ids)
    && (!phase.Repairing? ==> forall id :: id in files && Present(files[id]) ==> id in Claimed(phase, ids) + unknown)
  }

  predicate On(op: Op, id: Uuid) {
    (Reserving(op) || Saving(op) || Logging(op) || Retiring(op)) && op.id == id
  }

  /** The request was admitted, both its files are there, and its record is still to come. */
  ghost predicate Open(files: map<Uuid, Files>, granted: set<Uuid>, saved: set<Uuid>, id: Uuid) {
    id in granted && id !in saved && id in files && files[id].slotEntry.cur && files[id].intentEntry.cur
  }

  ghost predicate Balanced(files: map<Uuid, Files>, op: Op, ids: set<Uuid>, granted: set<Uuid>, saved: set<Uuid>) {
    && (forall id :: id in ids && !On(op, id) ==> Open(files, granted, saved, id))
    && (Saving(op) ==> Open(files, granted, saved, op.id))
    && (op.WriteFrame? && !op.reserved ==> op.id !in ids)
  }

  ghost predicate Books(s: State) {
    s.process.Up? ==>
      var m := s.process.mem;
      && Tidy(s.disk.files, m.phase, m.ids, s.hist.unknown)
      && (m.phase.Serving? && !m.failed ==> Balanced(s.disk.files, m.op, m.ids, s.hist.granted, s.hist.saved))
  }

  // ---------------------------------------------------------------- steps

  lemma OpenBooks(c: Config, s: State, s': State)
    requires Inv(c, s) && Books(s) && OpenStep(c, s, s')
    ensures Books(s')
  {
    hide OpenRead, OpenRepairSync, OpenRefuse, OpenList, OpenReadable, OpenUndecodable, OpenTrim, OpenRetain, OpenSyncDir,
         OpenAppend, OpenDone, Inv, Books;
    if OpenRead(c, s, s') || OpenRepairSync(s, s') || OpenRefuse(c, s, s') || OpenList(c, s, s') {
      OpenStartBooks(c, s, s');
    } else if id: Uuid :| OpenReadable(c, s, s', id) || OpenUndecodable(c, s, s', id) || OpenTrim(c, s, s', id)
                          || OpenRetain(s, s', id) {
      OpenListingBooks(c, s, s', id);
    } else {
      OpenEndBooks(c, s, s');
    }
  }

  lemma OpenStartBooks(c: Config, s: State, s': State)
    requires Books(s) && (OpenRead(c, s, s') || OpenRepairSync(s, s') || OpenRefuse(c, s, s') || OpenList(c, s, s'))
    ensures Books(s')
  {
    hide Boundary, ScanLog, Records, Written, Synced, Open;
  }

  lemma OpenListingBooks(c: Config, s: State, s': State, id: Uuid)
    requires Books(s)
    requires OpenReadable(c, s, s', id) || OpenUndecodable(c, s, s', id) || OpenTrim(c, s, s', id) || OpenRetain(s, s', id)
    ensures Books(s')
  {
    hide Written, Synced, SlotReads, SlotContent, Trim, RetainedSize, Open;
  }

  lemma OpenEndBooks(c: Config, s: State, s': State)
    requires Inv(c, s) && Books(s) && (OpenSyncDir(s, s') || (exists id: Uuid :: OpenAppend(c, s, s', id)) || OpenDone(s, s'))
    ensures Books(s')
  {
    hide DiskInv, LogView, IngestInv, CompactInv, ActiveInv, PhaseInv, OpInv, Open;
  }

  lemma OneFile(files: map<Uuid, Files>, id: Uuid, f: Files, phase: Phase, ids: set<Uuid>, unknown: set<Uuid>)
    requires Tidy(files, phase, ids, unknown) && (Present(f) ==> id in Claimed(phase, ids) || (id in files && Present(files[id])))
    ensures Tidy(files[id := f], phase, ids, unknown)
  {
    hide Claimed, Present;
  }

  /** On its way through an operation, a request's own files may change. */
  ghost predicate OneStep(s: State, s': State, id: Uuid) {
    && s.process.Up? && s'.process.Up? && On(s.process.mem.op, id) && On(s'.process.mem.op, id)
    && id in s.disk.files && id in s'.disk.files && s'.disk.files == s.disk.files[id := s'.disk.files[id]]
    && s'.process.mem == s.process.mem.(op := s'.process.mem.op)
    && s'.hist.granted == s.hist.granted && s'.hist.unknown == s.hist.unknown
    && s.hist.saved <= s'.hist.saved <= s.hist.saved + {id}
  }

  lemma OneStepBooks(s: State, s': State, id: Uuid)
    requires Books(s) && OneStep(s, s', id)
    requires Present(s'.disk.files[id]) ==> id in Claimed(s.process.mem.phase, s.process.mem.ids) || Present(s.disk.files[id])
    requires !s'.process.mem.op.WriteFrame? || s'.process.mem.op.reserved
    requires Saving(s'.process.mem.op) ==>
               && Saving(s.process.mem.op) && s'.hist.saved == s.hist.saved
               && s'.disk.files[id].slotEntry == s.disk.files[id].slotEntry
               && s'.disk.files[id].intentEntry == s.disk.files[id].intentEntry
    ensures Books(s')
  {
    hide Present, Claimed;
    var m := s.process.mem;
    OneFile(s.disk.files, id, s'.disk.files[id], m.phase, m.ids, s.hist.unknown);
    hide Tidy;
    if m.phase.Serving? && !m.failed {
      forall x | x in m.ids && !On(s'.process.mem.op, x)
        ensures Open(s'.disk.files, s'.hist.granted, s'.hist.saved, x)
      {
        assert x != id && Open(s.disk.files, s.hist.granted, s.hist.saved, x);
      }
    }
  }

  lemma AdmitSteps(c: Config, s: State, s': State, id: Uuid)
    requires || StepAllocateSlot(s, s', id) || StepSyncSlot(s, s', id) || StepCreateIntent(s, s', id)
             || StepWriteIntent(c, s, s', id) || StepSyncIntent(s, s', id)
    ensures OneStep(s, s', id) && Reserving(s'.process.mem.op) && Reserving(s.process.mem.op)
  {
    hide Written, Synced, Zeros;
  }

  lemma AdmitBegins(c: Config, s: State, s': State, id: Uuid)
    requires Inv(c, s) && Books(s) && (Admit(c, s, s', id) || AdmitDenied(s, s') || StepCreateSlot(s, s', id))
    ensures Books(s')
  {
    hide DiskInv, LogView, IngestInv, CompactInv, ActiveInv, PhaseInv, ReservedBytes;
  }

  lemma AdmitEnds(c: Config, s: State, s': State, id: Uuid)
    requires Inv(c, s) && Books(s) && StepSyncEntries(s, s', id)
    ensures Books(s')
  {
    hide LogInv, CoverInv, FilesInv, LogView, IngestInv, CompactInv, ActiveInv, PhaseInv;
  }

  lemma AdmitBooks(c: Config, s: State, s': State, id: Uuid)
    requires Inv(c, s) && Books(s) && AdmitStep(c, s, s', id)
    ensures Books(s')
  {
    hide Books, Admit, AdmitDenied, StepCreateSlot, StepAllocateSlot, StepSyncSlot, StepCreateIntent, StepWriteIntent,
         StepSyncIntent, StepSyncEntries, OneStep, DiskInv, LogView, IngestInv, CompactInv, ActiveInv, PhaseInv;
    if Admit(c, s, s', id) || AdmitDenied(s, s') || StepCreateSlot(s, s', id) {
      AdmitBegins(c, s, s', id);
    } else if StepSyncEntries(s, s', id) {
      AdmitEnds(c, s, s', id);
    } else {
      AdmitSteps(c, s, s', id);
      AdmitClaims(c, s, s', id);
      OneStepBooks(s, s', id);
    }
  }

  lemma AdmitClaims(c: Config, s: State, s': State, id: Uuid)
    requires Inv(c, s) && OneStep(s, s', id) && Reserving(s.process.mem.op) && Reserving(s'.process.mem.op)
    ensures id in s'.disk.files && id in s.disk.files && id in Claimed(s.process.mem.phase, s.process.mem.ids)
    ensures !Saving(s'.process.mem.op) && !s'.process.mem.op.WriteFrame?
  {
    hide DiskInv, LogView, IngestInv, CompactInv, ActiveInv, PhaseInv, ReserveInv;
  }

  lemma SaveSteps(c: Config, s: State, s': State, id: Uuid)
    requires || StepWritePayload(c, s, s', id) || StepWriteHeader(c, s, s', id)
             || (StepSyncTerminal(s, s', id) && !s.process.mem.failed)
    ensures OneStep(s, s', id) && Saving(s.process.mem.op)
    ensures s'.disk.files[id].slotEntry == s.disk.files[id].slotEntry
    ensures s'.disk.files[id].intentEntry == s.disk.files[id].intentEntry
    ensures Saving(s'.process.mem.op) ==> s'.hist.saved == s.hist.saved
    ensures s'.process.mem.op.WriteFrame? ==> s'.process.mem.op.reserved
  {
    hide Written, Synced, PutPayload, PayloadWrites, PutHeader, SlotHeader;
  }

  lemma SaveEnds(c: Config, s: State, s': State, id: Uuid)
    requires Books(s)
    requires || AppendReserved(c, s, s', id) || AppendUnreserved(c, s, s', id)
             || (exists y :: StepWritePayloadFails(c, s, s', id, y)) || (StepSyncTerminal(s, s', id) && s.process.mem.failed)
    ensures Books(s')
  {
    hide ReservedBytes, Frame, Written, Synced, PartPayload, PayloadWrites;
  }

  lemma SaveBooks(c: Config, s: State, s': State, id: Uuid)
    requires Books(s) && SaveStep(c, s, s', id)
    ensures Books(s')
  {
    hide Books, AppendReserved, AppendUnreserved, StepWritePayload, StepWritePayloadFails, StepWriteHeader, OneStep;
    if || StepWritePayload(c, s, s', id) || StepWriteHeader(c, s, s', id)
       || (StepSyncTerminal(s, s', id) && !s.process.mem.failed) {
      SaveSteps(c, s, s', id);
      OneStepOf(s, s', id);
      OneStepBooks(s, s', id);
    } else {
      SaveEnds(c, s, s', id);
    }
  }

  lemma OneStepOf(s: State, s': State, id: Uuid)
    requires OneStep(s, s', id)
    ensures id in s.disk.files && id in s'.disk.files && s.process.Up? && s'.process.Up?
  {
  }

  lemma FrameBooks(c: Config, s: State, s': State, id: Uuid)
    requires Inv(c, s) && Books(s)
    requires || (exists reserved :: StepWriteFrame(c, s, s', id, reserved))
             || (exists reserved, k :: StepWriteFrameFails(c, s, s', id, reserved, k))
             || StepSyncFrame(s, s', id)
    ensures Books(s')
  {
    hide DiskInv, LogView, IngestInv, CompactInv, ActiveInv, PhaseInv, Frame, FrameWrites, Written, Synced, Open;
  }

  lemma UnlinkBooks(s: State, s': State, id: Uuid)
    requires Books(s) && (StepUnlinkIntent(s, s', id) || StepUnlinkSlot(s, s', id))
    ensures Books(s')
  {
    UnlinkSteps(s, s', id);
    hide StepUnlinkIntent, StepUnlinkSlot, Books, OneStep;
    OneStepOf(s, s', id);
    OneStepBooks(s, s', id);
  }

  lemma UnlinkSteps(s: State, s': State, id: Uuid)
    requires StepUnlinkIntent(s, s', id) || StepUnlinkSlot(s, s', id)
    ensures OneStep(s, s', id) && (Present(s'.disk.files[id]) ==> Present(s.disk.files[id]))
    ensures Retiring(s'.process.mem.op)
  {
  }

  lemma GoneBooks(c: Config, s: State, s': State, id: Uuid)
    requires Inv(c, s) && Books(s) && (StepSyncIntentGone(s, s', id) || StepSyncSlotGone(s, s', id))
    ensures Books(s')
  {
    hide LogInv, CoverInv, FilesInv, LogView, IngestInv, CompactInv, ActiveInv, PhaseInv, Recorded;
    if StepSyncSlotGone(s, s', id) {
      GoneIsAbsent(c, s, id);
    }
  }

  lemma GoneIsAbsent(c: Config, s: State, id: Uuid)
    requires Inv(c, s) && s.process.Up? && s.process.mem.op == SyncSlotGone(id)
    ensures id in s.disk.files ==> !Present(s.disk.files[id])
  {
    hide LogInv, CoverInv, LogView, IngestInv, CompactInv, ActiveInv, PhaseInv, Recorded, SlotOk, Owed;
    if id in s.disk.files {
      FileOf(c, s.disk, s.hist, id);
    }
  }

  lemma LogBooks(c: Config, s: State, s': State, id: Uuid)
    requires Inv(c, s) && Books(s) && LogStep(c, s, s', id)
    ensures Books(s')
  {
    hide Inv, Books, StepWriteFrame, StepWriteFrameFails, StepSyncFrame, StepUnlinkIntent, StepSyncIntentGone, StepUnlinkSlot,
         StepSyncSlotGone;
    if StepUnlinkIntent(s, s', id) || StepUnlinkSlot(s, s', id) {
      UnlinkBooks(s, s', id);
    } else if StepSyncIntentGone(s, s', id) || StepSyncSlotGone(s, s', id) {
      GoneBooks(c, s, s', id);
    } else {
      FrameBooks(c, s, s', id);
    }
  }

  predicate Free(op: Op) {
    op.Idle? || Compacting(op)
  }

  /** A step that touches neither the files nor the books. */
  ghost predicate Apart(s: State, s': State) {
    s'.process.Up? ==>
      && s.process.Up? && s'.disk.files == s.disk.files && s'.process.mem.ids == s.process.mem.ids
      && s'.process.mem.phase == s.process.mem.phase
      && s'.hist.granted == s.hist.granted && s'.hist.saved == s.hist.saved && s'.hist.unknown == s.hist.unknown
      && (!s'.process.mem.failed ==>
            && !s.process.mem.failed
            && (s'.process.mem.op == s.process.mem.op || (Free(s.process.mem.op) && Free(s'.process.mem.op))))
  }

  lemma ApartBooks(s: State, s': State)
    requires Books(s) && Apart(s, s')
    ensures Books(s')
  {
    hide Tidy, Open;
  }

  lemma CompactApart(c: Config, s: State, s': State)
    requires CompactStep(c, s, s')
    ensures Apart(s, s')
  {
    hide Written, Synced;
  }

  lemma WorkerApart(c: Config, s: State, s': State)
    requires WorkerStep(c, s, s')
    ensures Apart(s, s')
  {
    hide ReadFrom;
  }

  lemma RestBooks(c: Config, s: State, s': State)
    requires Books(s) && (CompactStep(c, s, s') || WorkerStep(c, s, s'))
    ensures Books(s')
  {
    hide Books, CompactStep, WorkerStep, Apart;
    if CompactStep(c, s, s') {
      CompactApart(c, s, s');
    } else {
      WorkerApart(c, s, s');
    }
    ApartBooks(s, s');
  }

  lemma NextBooks(c: Config, s: State, s': State)
    requires Inv(c, s) && Books(s) && Next(c, s, s')
    ensures Books(s')
  {
    hide Inv, OpenStep, AdmitStep, SaveStep, LogStep, CompactStep, WorkerStep, Survives, Tidy, Balanced;
    if OpenStep(c, s, s') { OpenBooks(c, s, s'); }
    else if id: Uuid :| AdmitStep(c, s, s', id) { AdmitBooks(c, s, s', id); }
    else if id: Uuid :| SaveStep(c, s, s', id) { SaveBooks(c, s, s', id); }
    else if id: Uuid :| LogStep(c, s, s', id) { LogBooks(c, s, s', id); }
    else if CompactStep(c, s, s') || WorkerStep(c, s, s') { RestBooks(c, s, s'); }
  }

  lemma {:induction false} RunBooks(c: Config, run: seq<State>, i: nat)
    requires Run(c, run) && i < |run|
    ensures Books(run[i])
    decreases i
  {
    hide Inv, Next, Tidy, Balanced;
    if i > 0 {
      RunBooks(c, run, i - 1);
      RunInv(c, run, i - 1);
      RunStep(c, run, i - 1);
      hide Books;
      NextBooks(c, run[i - 1], run[i]);
    }
  }

  /**
    Whenever a serving process without a latched failure has nothing under way, its reservations are for admitted
    requests whose record is still to come, with both their files there, and every other file in the directory belongs
    to a request retained as unknown.  So every reservation is released, and its files removed, once its record is saved.
   */
  lemma BooksBalance(c: Config, run: seq<State>, i: nat, id: Uuid)
    requires Run(c, run) && i < |run| && run[i].process.Up?
    requires run[i].process.mem.phase.Serving? && run[i].process.mem.op.Idle? && !run[i].process.mem.failed
    ensures id in run[i].process.mem.ids ==>
              && id in run[i].hist.granted && id !in run[i].hist.saved && id in run[i].disk.files
              && run[i].disk.files[id].slotEntry.cur && run[i].disk.files[id].intentEntry.cur
    ensures Visible(run[i].disk, id) ==> id in run[i].process.mem.ids || id in run[i].hist.unknown
  {
    hide Run;
    RunBooks(c, run, i);
  }

  // ---------------------------------------------------------------- what there is room for

  /** What the log may not grow into: twice the size of every open reservation, and what is retained. */
  ghost function Spoken(m: Mem, more: nat): nat {
    (2 * 1_048_592 + 2 * 16_384) * (|m.ids| + more) + m.retained
  }

  lemma IdleLog(c: Config, run: seq<State>, i: nat)
    requires Run(c, run) && i < |run| && Ready(run[i]) && !run[i].process.mem.failed
    ensures run[i].process.mem.endOffset == |run[i].disk.log.cur|
  {
    hide Run, DiskInv, IngestInv, PhaseInv, OpInv, ActiveInv, Whole, Within;
    RunInv(c, run, i);
  }

  /** A request is admitted exactly if, with its own reservation, everything that is spoken for fits. */
  lemma AdmitsWhenRoom(c: Config, run: seq<State>, i: nat, id: Uuid)
    requires Run(c, run) && i < |run| && Ready(run[i]) && !run[i].process.mem.failed
    requires id !in run[i].disk.files && |c.intent(id)| <= MAX_INTENT
    ensures (exists s' :: Admit(c, run[i], s', id)) <==>
            |run[i].disk.log.cur| + Spoken(run[i].process.mem, 1) <= c.maxBytes
  {
    hide Run;
    IdleLog(c, run, i);
    BooksBalance(c, run, i, id);
    var s, m := run[i], run[i].process.mem;
    if m.endOffset + ReservedBytes(m) + 2 * RESERVATION <= c.maxBytes {
      assert Admit(c, s, s.(process := Up(m.(op := CreateSlot(id), ids := m.ids + {id}))), id);
    }
  }

  /** A record without a reservation is taken exactly if its frame fits beside everything that is spoken for. */
  lemma AppendsWhenRoom(c: Config, run: seq<State>, i: nat, id: Uuid)
    requires Run(c, run) && i < |run| && Ready(run[i]) && !run[i].process.mem.failed
    requires id !in run[i].process.mem.ids && |c.payload(id)| <= MAX_PAYLOAD
    ensures (exists s' :: AppendUnreserved(c, run[i], s', id)) <==>
            |run[i].disk.log.cur| + Spoken(run[i].process.mem, 0) + 32 + |c.payload(id)| <= c.maxBytes
  {
    hide Run;
    IdleLog(c, run, i);
    var s, m := run[i], run[i].process.mem;
    if m.endOffset + ReservedBytes(m) + |Frame(c.sum, Rec(c, id))| <= c.maxBytes {
      assert AppendUnreserved(c, s, s.(process := Up(m.(op := WriteFrame(id, false))),
                                       hist := s.hist.(issued := s.hist.issued + {id})), id);
    }
  }

  /** A reservation is good for its record however full the spool is, and even if the log is out of service. */
  lemma ReservedIsTaken(c: Config, s: State, id: Uuid)
    requires Ready(s) && id in s.process.mem.ids && |c.payload(id)| <= MAX_PAYLOAD
    ensures exists s' :: AppendReserved(c, s, s', id)
  {
    assert AppendReserved(c, s, s.(process := Up(s.process.mem.(op := WritePayload(id))),
                                   hist := s.hist.(issued := s.hist.issued + {id})), id);
  }
}
