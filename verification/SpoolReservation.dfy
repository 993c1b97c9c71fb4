/** What a reservation is for: the space of the terminal record is there from `reserve` until the record is logged. */
module SpoolReservation {
  import opened Bytes
  import opened Frames
  import opened Slots
  import opened SpoolFile
  import opened Spool
  import opened SpoolLog
  import opened SpoolFiles
  import opened SpoolInvariant
  import opened SpoolTheorems

  /** Allocated in full, in every version that a power loss may leave. */
  ghost predicate Full(x: Cell<Bytes>) {
    |x.cur| == SLOT_BYTES && forall y :: y in x.may ==> |y| == SLOT_BYTES
  }

  predicate Allocated(op: Op) {
    op.CreateIntent? || op.WriteIntent? || op.SyncIntent? || op.SyncEntries?
  }

  /** From its sync on, the slot of a request that is being admitted is allocated in full. */
  ghost predicate Readied(d: Disk, op: Op) {
    && (op.SyncSlot? ==> op.id in d.files && |d.files[op.id].slot.cur| == SLOT_BYTES)
    && (Allocated(op) ==> op.id in d.files && Full(d.files[op.id].slot))
  }

  ghost predicate Prepared(s: State) {
    s.process.Up? ==> Readied(s.disk, s.process.mem.op)
  }

  /** A step that is on no admission: one that is under way goes on, or has ended. */
  ghost predicate Elsewhere(s: State, s': State) {
    s'.process.Up? && Reserving(s'.process.mem.op) ==>
      s.process.Up? && s'.process.mem.op == s.process.mem.op && s'.disk.files == s.disk.files
  }

  lemma ElsewherePrepared(s: State, s': State)
    requires Prepared(s) && Elsewhere(s, s')
    ensures Prepared(s')
  {
    hide Full;
  }

  lemma AdmitPrepared(c: Config, s: State, s': State, id: Uuid)
    requires Prepared(s) && AdmitStep(c, s, s', id)
    ensures Prepared(s')
  {
    hide Prepared, Admit, AdmitDenied, StepCreateSlot, StepAllocateSlot, StepSyncSlot, StepCreateIntent, StepWriteIntent,
         StepSyncIntent, StepSyncEntries;
    if Admit(c, s, s', id) || AdmitDenied(s, s') || StepCreateSlot(s, s', id) || StepAllocateSlot(s, s', id)
       || StepSyncSlot(s, s', id) {
      SlotPrepared(c, s, s', id);
    } else {
      IntentPrepared(c, s, s', id);
    }
  }

  lemma SlotPrepared(c: Config, s: State, s': State, id: Uuid)
    requires Prepared(s)
    requires || Admit(c, s, s', id) || AdmitDenied(s, s') || StepCreateSlot(s, s', id) || StepAllocateSlot(s, s', id)
             || StepSyncSlot(s, s', id)
    ensures Prepared(s')
  {
    hide ReservedBytes;
  }

  lemma IntentPrepared(c: Config, s: State, s': State, id: Uuid)
    requires Prepared(s)
    requires || StepCreateIntent(s, s', id) || StepWriteIntent(c, s, s', id) || StepSyncIntent(s, s', id)
             || StepSyncEntries(s, s', id)
    ensures Prepared(s')
  {
    hide Written, Synced, EntriesSynced, Full;
  }

  lemma OpenElsewhere(c: Config, s: State, s': State)
    requires Inv(c, s) && OpenStep(c, s, s')
    ensures Elsewhere(s, s')
  {
    hide DiskInv, LogView, IngestInv, OpInv, CompactInv, ActiveInv, PhaseInv, Boundary, ScanLog, Records, Written, Synced,
         SlotReads, SlotContent, Trim, RetainedSize, Visible;
  }

  lemma SaveElsewhere(c: Config, s: State, s': State, id: Uuid)
    requires SaveStep(c, s, s', id)
    ensures Elsewhere(s, s')
  {
    hide Frame, Written, Synced, PutPayload, PartPayload, PayloadWrites, PutHeader, ReservedBytes, SlotHeader;
  }

  lemma LogElsewhere(c: Config, s: State, s': State, id: Uuid)
    requires LogStep(c, s, s', id)
    ensures Elsewhere(s, s')
  {
    hide Frame, Written, EntriesSynced, FrameWrites;
  }

  lemma RestElsewhere(c: Config, s: State, s': State)
    requires CompactStep(c, s, s') || WorkerStep(c, s, s')
    ensures Elsewhere(s, s')
  {
    hide ReadFrom, Written, Synced;
  }

  lemma NextPrepared(c: Config, s: State, s': State)
    requires Inv(c, s) && Prepared(s) && Next(c, s, s')
    ensures Prepared(s')
  {
    hide Inv, Prepared, OpenStep, AdmitStep, SaveStep, LogStep, CompactStep, WorkerStep, Elsewhere, Survives;
    if id: Uuid :| AdmitStep(c, s, s', id) {
      AdmitPrepared(c, s, s', id);
    } else {
      NextElsewhere(c, s, s');
      ElsewherePrepared(s, s');
    }
  }

  lemma NextElsewhere(c: Config, s: State, s': State)
    requires Inv(c, s) && Next(c, s, s') && !exists id: Uuid :: AdmitStep(c, s, s', id)
    ensures Elsewhere(s, s')
  {
    hide Inv, OpenStep, AdmitStep, SaveStep, LogStep, CompactStep, WorkerStep, Survives;
    if OpenStep(c, s, s') {
      OpenElsewhere(c, s, s');
    } else if id: Uuid :| SaveStep(c, s, s', id) {
      SaveElsewhere(c, s, s', id);
    } else if id: Uuid :| LogStep(c, s, s', id) {
      LogElsewhere(c, s, s', id);
    } else if CompactStep(c, s, s') || WorkerStep(c, s, s') {
      RestElsewhere(c, s, s');
    }
  }

  lemma {:induction false} RunPrepared(c: Config, run: seq<State>, i: nat)
    requires Run(c, run) && i < |run|
    ensures Prepared(run[i])
    decreases i
  {
    hide Inv, Next, Readied;
    if i > 0 {
      RunPrepared(c, run, i - 1);
      RunInv(c, run, i - 1);
      RunStep(c, run, i - 1);
      hide Prepared;
      NextPrepared(c, run[i - 1], run[i]);
    }
  }

  // ---------------------------------------------------------------- while the reservation lasts

  /** A serving process has the slot of an admitted request in full, as long as it holds the reservation. */
  ghost predicate Held(s: State, id: Uuid) {
    && s.process.Up? && s.process.mem.phase.Serving? && id in s.disk.files && id in s.hist.granted
    && (id in s.process.mem.ids ==> Full(s.disk.files[id].slot))
  }

  lemma PayloadFull(x: Cell<Bytes>, p: Bytes, y: Bytes)
    requires Full(x) && |p| <= MAX_PAYLOAD && PartPayload(x.cur, p, y)
    ensures Full(Written(x, y, PayloadWrites(x, p)))
  {
  }

  lemma HeaderFull(x: Cell<Bytes>, h: Bytes)
    requires Full(x) && |h| == SLOT_HEADER
    ensures Full(Written(x, PutHeader(x.cur, h), iset y | y in x.may :: PutHeader(y, h)))
  {
  }

  lemma WholePayload(y: Bytes, p: Bytes)
    ensures PartPayload(y, p, PutPayload(y, p))
  {
  }

  lemma AdmitHeld(c: Config, s: State, s': State, x: Uuid, id: Uuid)
    requires Inv(c, s) && Held(s, id) && AdmitStep(c, s, s', x)
    ensures Held(s', id)
  {
    hide DiskInv, LogView, IngestInv, PhaseInv, CompactInv, ActiveInv, Written, Synced, ReservedBytes, Zeros, Full;
  }

  lemma SaveHeld(c: Config, s: State, s': State, x: Uuid, id: Uuid)
    requires Inv(c, s) && Held(s, id) && SaveStep(c, s, s', x) && s'.process.Up?
    ensures Held(s', id)
  {
    hide DiskInv, LogView, IngestInv, PhaseInv, CompactInv, ActiveInv, Image, PayloadWritten, Frame, Written, PutPayload,
         PartPayload, PayloadWrites, PutHeader, ReservedBytes, SlotHeader, Full;
    var f, p := s.disk.files[id], c.payload(id);
    if id in s.process.mem.ids {
      SyncedFull(f.slot);
      if |p| <= MAX_PAYLOAD {
        WholePayload(f.slot.cur, p);
        PayloadFull(f.slot, p, PutPayload(f.slot.cur, p));
        HeaderFull(f.slot, SlotHeader(c.sum, p));
      }
      if x == id {
        if y :| StepWritePayloadFails(c, s, s', id, y) {
          PayloadFull(f.slot, p, y);
        }
      }
    }
  }

  lemma SyncedFull(x: Cell<Bytes>)
    requires Full(x)
    ensures Full(Synced(x))
  {
  }

  lemma LogHeld(c: Config, s: State, s': State, x: Uuid, id: Uuid)
    requires Held(s, id) && LogStep(c, s, s', x)
    ensures Held(s', id)
  {
    hide Frame, Written, Synced, FrameWrites, Full;
  }

  lemma RestHeld(c: Config, s: State, s': State, id: Uuid)
    requires Held(s, id) && (CompactStep(c, s, s') || WorkerStep(c, s, s'))
    ensures Held(s', id)
  {
    hide ReadFrom, Written, Synced, Full;
  }

  lemma NotOpening(c: Config, s: State, s': State, id: Uuid)
    requires Held(s, id)
    ensures !OpenStep(c, s, s')
  {
    hide Boundary, ScanLog, Records, Written, Synced, SlotReads, SlotContent, Trim, RetainedSize, Visible;
  }

  lemma NextHeld(c: Config, s: State, s': State, id: Uuid)
    requires Inv(c, s) && Held(s, id) && Next(c, s, s') && s'.process.Up?
    ensures Held(s', id)
  {
    hide Inv, Held, OpenStep, AdmitStep, SaveStep, LogStep, CompactStep, WorkerStep, Survives;
    NotOpening(c, s, s', id);
    if x: Uuid :| AdmitStep(c, s, s', x) { AdmitHeld(c, s, s', x, id); }
    else if x: Uuid :| SaveStep(c, s, s', x) { SaveHeld(c, s, s', x, id); }
    else if x: Uuid :| LogStep(c, s, s', x) { LogHeld(c, s, s', x, id); }
    else if CompactStep(c, s, s') || WorkerStep(c, s, s') { RestHeld(c, s, s', id); }
  }

  lemma {:induction false} RunHeld(c: Config, run: seq<State>, i: nat, j: nat, id: Uuid)
    requires Run(c, run) && i <= j < |run| && Held(run[i], id) && forall k :: i <= k <= j ==> run[k].process.Up?
    ensures Held(run[j], id)
    decreases j - i
  {
    hide Run, Inv, Next, Held;
    if i < j {
      RunHeld(c, run, i, j - 1, id);
      RunInv(c, run, j - 1);
      RunStep(c, run, j - 1);
      NextHeld(c, run[j - 1], run[j], id);
    }
  }

  /**
    From the moment `reserve` returns, and as long as the process holds the reservation, the slot is on disk at its
    full size, in every later state and whatever a power loss leaves: saving the terminal record needs no space.
   */
  lemma ReservationKept(c: Config, run: seq<State>, i: nat, j: nat, id: Uuid, d: Disk)
    requires Run(c, run) && i < j < |run| && StepSyncEntries(run[i], run[i + 1], id)
    requires (forall k :: i < k <= j ==> run[k].process.Up?) && id in run[j].process.mem.ids
    requires Survives(run[j].disk, d) || d == run[j].disk
    ensures id in d.files && |d.files[id].slot.cur| == SLOT_BYTES
  {
    hide Run, Inv;
    RunPrepared(c, run, i);
    RunInv(c, run, i);
    Granted(c, run[i], run[i + 1], id);
    hide StepSyncEntries;
    RunHeld(c, run, i + 1, j, id);
    assert d == run[j].disk || SurvivesFiles(run[j].disk.files[id], d.files[id]);
  }

  lemma Granted(c: Config, s: State, s': State, id: Uuid)
    requires Inv(c, s) && Prepared(s) && StepSyncEntries(s, s', id)
    ensures Held(s', id)
  {
    hide DiskInv, LogView, IngestInv, PhaseInv, CompactInv, ActiveInv, OpInv, Full;
  }
}
