/** The physical size of the spool never exceeds its configured limit. */
module SpoolCapacity {
  import opened Bytes
  import opened Frames
  import opened Slots
  import opened SpoolFile
  import opened Spool
  import opened SpoolLog
  import opened SpoolFiles
  import opened SpoolInvariant
  import opened SpoolTheorems

  /** The space that a request's visible files take: their bytes, and no file less than a block. */
  ghost function Size(f: Files): nat {
    (if f.slotEntry.cur then Block(|f.slot.cur|) else 0) + (if f.intentEntry.cur then Block(|f.intent.cur|) else 0)
  }

  ghost function Block(bytes: nat): nat {
    if bytes < 4096 then 4096 else bytes
  }

  ghost function Total(files: map<Uuid, Files>, ids: set<Uuid>): nat
    requires ids <= files.Keys
    decreases |ids|
  {
    if ids == {} then 0
    else
      var id :| id in ids;
      Size(files[id]) + Total(files, ids - {id})
  }

  /** Log, slots and intents, the retained ones included. */
  ghost function Physical(d: Disk): nat {
    |d.log.cur| + Total(d.files, d.files.Keys)
  }

  // ---------------------------------------------------------------- sums

  lemma {:induction false} TotalOne(files: map<Uuid, Files>, ids: set<Uuid>, id: Uuid)
    requires ids <= files.Keys && id in ids
    ensures Total(files, ids) == Size(files[id]) + Total(files, ids - {id})
    decreases |ids|
  {
    var x :| x in ids && Total(files, ids) == Size(files[x]) + Total(files, ids - {x});
    if x != id {
      TotalOne(files, ids - {x}, id);
      TotalOne(files, ids - {id}, x);
      assert ids - {x} - {id} == ids - {id} - {x};
    }
  }

  ghost predicate Smaller(files: map<Uuid, Files>, ids: set<Uuid>, files': map<Uuid, Files>, ids': set<Uuid>)
    requires ids' <= files'.Keys && ids <= files.Keys
  {
    forall id :: id in ids' ==> Size(files'[id]) == 0 || (id in ids && Size(files'[id]) <= Size(files[id]))
  }

  lemma {:induction false} TotalSmaller(files: map<Uuid, Files>, ids: set<Uuid>, files': map<Uuid, Files>, ids': set<Uuid>)
    requires ids <= files.Keys && ids' <= files'.Keys && Smaller(files, ids, files', ids')
    ensures Total(files', ids') <= Total(files, ids)
    decreases |ids'|
  {
    if ids' != {} {
      var id :| id in ids';
      TotalOne(files', ids', id);
      if id in ids {
        TotalOne(files, ids, id);
        TotalSmaller(files, ids - {id}, files', ids' - {id});
      } else {
        TotalSmaller(files, ids, files', ids' - {id});
      }
    }
  }

  lemma {:induction false} TotalSplit(files: map<Uuid, Files>, a: set<Uuid>, b: set<Uuid>)
    requires a <= files.Keys && b <= files.Keys && a !! b
    ensures Total(files, a + b) == Total(files, a) + Total(files, b)
    decreases |a|
  {
    if a == {} {
      assert a + b == b;
    } else {
      var id :| id in a;
      TotalOne(files, a, id);
      TotalOne(files, a + b, id);
      TotalSplit(files, a - {id}, b);
      assert (a + b) - {id} == (a - {id}) + b;
    }
  }

  lemma {:induction false} TotalBound(files: map<Uuid, Files>, ids: set<Uuid>)
    requires ids <= files.Keys && forall id :: id in ids ==> Size(files[id]) <= RESERVATION
    ensures Total(files, ids) <= Reservations(|ids|)
    decreases |ids|
  {
    if ids != {} {
      var id :| id in ids;
      TotalOne(files, ids, id);
      TotalBound(files, ids - {id});
    }
  }

  // ---------------------------------------------------------------- retained files

  /** The requests whose files are not (yet) counted as retained. */
  ghost function Active(m: Mem): set<Uuid> {
    Claimed(m.phase, m.ids)
  }

  ghost function Others(s: State): set<Uuid>
    requires s.process.Up?
  {
    s.disk.files.Keys - Active(s.process.mem)
  }

  /** `retained` counts at least the bytes of all files that belong to no reservation. */
  ghost predicate CountInv(s: State) {
    s.process.Up? ==>
      && Apart(s.process.mem.phase)
      && (!s.process.mem.phase.Repairing? ==> Total(s.disk.files, Others(s)) <= s.process.mem.retained)
  }

  /** No request is listed twice. */
  ghost predicate Apart(p: Phase) {
    && (p.Listing? || p.Retaining? ==> p.todo !! p.found)
    && (p.Retaining? ==> p.id !in p.todo && p.id !in p.found)
  }

  ghost predicate Shrinks(s: State, s': State) {
    && s.process.Up? && s'.process.Up? && s.process.mem.retained == s'.process.mem.retained
    && !s.process.mem.phase.Repairing? && !s'.process.mem.phase.Repairing?
    && Smaller(s.disk.files, Others(s), s'.disk.files, Others(s'))
  }

  lemma CountShrinks(s: State, s': State)
    requires CountInv(s) && Shrinks(s, s') && Apart(s'.process.mem.phase)
    ensures CountInv(s')
  {
    TotalSmaller(s.disk.files, Others(s), s'.disk.files, Others(s'));
  }

  lemma OpenListCount(c: Config, s: State, s': State)
    requires OpenList(c, s, s')
    ensures CountInv(s')
  {
    hide Boundary, Records;
    var files := s'.disk.files;
    TotalSmaller(files, {}, files, Others(s'));
  }

  lemma OpenRetainCount(s: State, s': State, id: Uuid)
    requires CountInv(s) && OpenRetain(s, s', id)
    ensures CountInv(s')
  {
    var files, files' := s.disk.files, s'.disk.files;
    assert Others(s') == Others(s) + {id};
    TotalOne(files', Others(s'), id);
    assert Others(s') - {id} == Others(s);
    TotalSmaller(files, Others(s), files', Others(s));
  }

  lemma OpenCount(c: Config, s: State, s': State)
    requires CountInv(s) && OpenStep(c, s, s')
    ensures CountInv(s')
  {
    hide OpenRead, OpenRepairSync, OpenRefuse, OpenList, OpenReadable, OpenUndecodable, OpenTrim, OpenRetain, OpenSyncDir,
         OpenAppend, OpenDone, CountInv;
    if s'.process.Down? {
      DownCap(c, s');
    } else if OpenRead(c, s, s') || OpenRepairSync(s, s') || OpenRefuse(c, s, s') {
      OpenStartCount(c, s, s');
    } else if OpenList(c, s, s') {
      OpenListCount(c, s, s');
    } else if id: Uuid :| OpenRetain(s, s', id) {
      OpenRetainCount(s, s', id);
    } else if id: Uuid :| OpenTrim(c, s, s', id) {
      OpenTrimCount(c, s, s', id);
    } else {
      OpenGoesOnCount(c, s, s');
    }
  }

  lemma OpenStartCount(c: Config, s: State, s': State)
    requires CountInv(s) && s'.process.Up?
    requires OpenRead(c, s, s') || OpenRepairSync(s, s') || OpenRefuse(c, s, s')
    ensures CountInv(s')
  {
    hide Boundary, Records, ScanLog, Written, Synced, Total;
  }

  lemma OpenGoesOnCount(c: Config, s: State, s': State)
    requires CountInv(s) && s'.process.Up?
    requires || (exists id: Uuid :: OpenReadable(c, s, s', id))
             || (exists id: Uuid :: OpenUndecodable(c, s, s', id))
             || OpenSyncDir(s, s')
             || (exists id: Uuid :: OpenAppend(c, s, s', id))
             || OpenDone(s, s')
    ensures CountInv(s')
  {
    hide SlotContent, Total;
    assert s'.process.mem.phase.Listing? ==> Others(s') == Others(s);
    CountShrinks(s, s');
  }

  lemma OpenTrimCount(c: Config, s: State, s': State, id: Uuid)
    requires CountInv(s) && OpenTrim(c, s, s', id)
    ensures CountInv(s')
  {
    hide ReadTerminal, Total;
    assert Active(s'.process.mem) == Active(s.process.mem);
    CountShrinks(s, s');
  }

  // ---------------------------------------------------------------- room for what is promised

  ghost function FrameBytes(c: Config, id: Uuid): nat {
    HEADER + |c.payload(id)|
  }

  /** A reserved record is in the log while its slot still is on disk. */
  predicate Twice(op: Op) {
    op.SyncFrame? || Retiring(op)
  }

  /**
    What the log must leave free: twice the reservation of every admitted request, of which the frame
    takes one half once it is written; and the retained files.
   */
  ghost function Need(c: Config, retained: nat, admitted: nat, failed: bool, op: Op): int {
    retained
    + (if failed then Reservations(admitted) else 2 * Reservations(admitted))
    - (if !failed && Twice(op) then RESERVATION else 0)
    + (if !failed && op.WriteFrame? && !op.reserved then FrameBytes(c, op.id) else 0)
  }

  /** Most operations need what the reservations need. */
  lemma NeedPlain(c: Config, retained: nat, admitted: nat, failed: bool, op: Op)
    requires !Twice(op) && (op.WriteFrame? ==> op.reserved)
    ensures Need(c, retained, admitted, failed, op) == Need(c, retained, admitted, failed, Idle)
  {
  }

  lemma NeedFailed(c: Config, retained: nat, admitted: nat, op: Op)
    ensures Need(c, retained, admitted, true, op) <= Need(c, retained, admitted, false, Idle)
    ensures Need(c, retained, admitted, true, op) == Need(c, retained, admitted, true, Idle)
  {
  }

  ghost predicate RoomInv(c: Config, s: State) {
    s.process.Up? && Live(s.process.mem.phase) ==>
      var m := s.process.mem;
      |s.disk.log.cur| + Need(c, m.retained, |m.ids|, m.failed, m.op) <= c.maxBytes
  }

  lemma Member(ids: set<Uuid>, id: Uuid)
    requires id in ids
    ensures |ids| >= 1 && |ids - {id}| == |ids| - 1
  {
  }

  /** The operation under way works on a reservation, unless it appends without one. */
  lemma OpIsReserved(c: Config, s: State)
    requires Inv(c, s) && s.process.Up?
    ensures var m := s.process.mem;
            && (Reserving(m.op) || Saving(m.op) || Twice(m.op) || (m.op.WriteFrame? && m.op.reserved) ==> m.op.id in m.ids)
            && (m.op.WriteFrame? ==> !m.failed && |c.payload(m.op.id)| <= MAX_PAYLOAD)
            && (Twice(m.op) ==> !m.failed)
            && (m.op.SyncSlotGone? && m.op.id in s.disk.files ==> Size(s.disk.files[m.op.id]) == 0)
  {
    hide LogInv, CoverInv, IngestInv, LogView, PhaseInv, ActiveInv, NewFiles, Image, PayloadWritten, Recorded, Log;
    var m := s.process.mem;
    if m.op.SyncSlotGone? && m.op.id in s.disk.files {
      FileOf(c, s.disk, s.hist, m.op.id);
    }
  }

  /** Of the files outside the reservations, none appears or grows. */
  ghost predicate Settled(s: State, s': State) {
    && s.process.Up? && s'.process.Up? && Live(s.process.mem.phase) && Live(s'.process.mem.phase)
    && s.process.mem.retained == s'.process.mem.retained
    && forall id :: id in s'.disk.files && id !in s'.process.mem.ids ==>
         Size(s'.disk.files[id]) == 0
         || (id in s.disk.files && id !in s.process.mem.ids && Size(s'.disk.files[id]) <= Size(s.disk.files[id]))
  }

  lemma SettledCount(s: State, s': State)
    requires CountInv(s) && Settled(s, s')
    ensures CountInv(s')
  {
    hide Size, Total;
    CountShrinks(s, s');
  }

  lemma AdmitSettled(c: Config, s: State, s': State, id: Uuid)
    requires s.process.Up? && Live(s.process.mem.phase) && AdmitStep(c, s, s', id)
    requires Reserving(s.process.mem.op) ==> s.process.mem.op.id in s.process.mem.ids
    ensures Settled(s, s')
  {
    hide Admit, AdmitDenied, StepCreateSlot, StepAllocateSlot, StepSyncSlot, StepCreateIntent, StepWriteIntent,
         StepSyncIntent, StepSyncEntries, Settled;
    if StepCreateSlot(s, s', id) || StepAllocateSlot(s, s', id) || StepSyncSlot(s, s', id) {
      SlotSettled(s, s', id);
    } else if StepCreateIntent(s, s', id) || StepWriteIntent(c, s, s', id) || StepSyncIntent(s, s', id) {
      IntentSettled(c, s, s', id);
    } else {
      GrantSettled(c, s, s', id);
    }
  }

  lemma SlotSettled(s: State, s': State, id: Uuid)
    requires s.process.Up? && Live(s.process.mem.phase)
    requires StepCreateSlot(s, s', id) || StepAllocateSlot(s, s', id) || StepSyncSlot(s, s', id)
    requires Reserving(s.process.mem.op) ==> s.process.mem.op.id in s.process.mem.ids
    ensures Settled(s, s')
  {
    hide Written, Zeros;
  }

  lemma IntentSettled(c: Config, s: State, s': State, id: Uuid)
    requires s.process.Up? && Live(s.process.mem.phase)
    requires StepCreateIntent(s, s', id) || StepWriteIntent(c, s, s', id) || StepSyncIntent(s, s', id)
    requires Reserving(s.process.mem.op) ==> s.process.mem.op.id in s.process.mem.ids
    ensures Settled(s, s')
  {
    hide Written;
  }

  lemma GrantSettled(c: Config, s: State, s': State, id: Uuid)
    requires s.process.Up? && Live(s.process.mem.phase)
    requires Admit(c, s, s', id) || AdmitDenied(s, s') || StepSyncEntries(s, s', id)
    ensures Settled(s, s')
  {
    hide ReservedBytes;
  }

  lemma SaveSettled(c: Config, s: State, s': State, id: Uuid)
    requires s.process.Up? && Live(s.process.mem.phase) && SaveStep(c, s, s', id) && s'.process.Up?
    requires Saving(s.process.mem.op) ==> s.process.mem.op.id in s.process.mem.ids
    ensures Settled(s, s')
  {
    hide Written, PutPayload, PutHeader, PartPayload, PayloadWrites, ReservedBytes, Frame;
  }

  lemma LogSettled(c: Config, s: State, s': State, id: Uuid)
    requires s.process.Up? && Live(s.process.mem.phase) && LogStep(c, s, s', id) && s'.process.Up?
    requires Twice(s.process.mem.op) ==> s.process.mem.op.id in s.process.mem.ids
    requires s.process.mem.op.SyncSlotGone? && id in s.disk.files ==> Size(s.disk.files[id]) == 0
    ensures Settled(s, s')
  {
    hide StepWriteFrame, StepWriteFrameFails, StepSyncFrame, StepUnlinkIntent, StepSyncIntentGone, StepUnlinkSlot,
         StepSyncSlotGone, Settled;
    if (exists reserved :: StepWriteFrame(c, s, s', id, reserved))
       || (exists reserved, k :: StepWriteFrameFails(c, s, s', id, reserved, k)) || StepSyncFrame(s, s', id) {
      FrameSettled(c, s, s', id);
    } else {
      RetireSettled(s, s', id);
    }
  }

  lemma FrameSettled(c: Config, s: State, s': State, id: Uuid)
    requires s.process.Up? && Live(s.process.mem.phase) && s'.process.Up?
    requires || (exists reserved :: StepWriteFrame(c, s, s', id, reserved))
             || (exists reserved, k :: StepWriteFrameFails(c, s, s', id, reserved, k))
             || StepSyncFrame(s, s', id)
    ensures Settled(s, s')
  {
    hide Frame, FrameWrites, Written, Synced;
  }

  lemma RetireSettled(s: State, s': State, id: Uuid)
    requires s.process.Up? && Live(s.process.mem.phase) && s'.process.Up?
    requires StepUnlinkIntent(s, s', id) || StepSyncIntentGone(s, s', id) || StepUnlinkSlot(s, s', id)
             || StepSyncSlotGone(s, s', id)
    requires Twice(s.process.mem.op) ==> s.process.mem.op.id in s.process.mem.ids
    requires s.process.mem.op.SyncSlotGone? && id in s.disk.files ==> Size(s.disk.files[id]) == 0
    ensures Settled(s, s')
  {
  }

  /** Facts about a running process that the limit depends on. */
  ghost predicate Consistent(c: Config, s: State) {
    s.process.Up? ==>
      var m := s.process.mem;
      && (!Live(m.phase) ==> m.op.Idle? && m.worker.Waiting?)
      && (m.phase.Recovering? ==> !m.failed)
      && (Reserving(m.op) || Saving(m.op) || Twice(m.op) || (m.op.WriteFrame? && m.op.reserved) ==> m.op.id in m.ids)
      && (m.op.WriteFrame? ==> !m.failed && |c.payload(m.op.id)| <= MAX_PAYLOAD)
      && (Twice(m.op) ==> !m.failed)
      && (!m.failed && m.op.Idle? && Live(m.phase) ==> |s.disk.log.cur| == m.endOffset)
      && (m.op.SyncSlotGone? && m.op.id in s.disk.files ==> Size(s.disk.files[m.op.id]) == 0)
  }

  lemma AdmitRoom(c: Config, s: State, s': State, id: Uuid)
    requires Consistent(c, s) && RoomInv(c, s) && AdmitStep(c, s, s', id)
    ensures RoomInv(c, s')
  {
    hide Admit, AdmitStep, Consistent, RoomInv;
    if Admit(c, s, s', id) {
      GrantRoom(c, s, s', id);
    } else {
      AdmitPlain(c, s, s', id);
      PlainRoom(c, s, s');
    }
  }

  /** Neither the log, nor the reservations, nor what they need changes. */
  ghost predicate Plain(s: State, s': State) {
    && s.process.Up? && s'.process.Up? && s'.disk.log == s.disk.log
    && var m, m' := s.process.mem, s'.process.mem;
       && m'.phase == m.phase && m'.retained == m.retained && m'.ids == m.ids && m'.failed == m.failed
       && !Twice(m.op) && !Twice(m'.op)
       && (m.op.WriteFrame? ==> m.op.reserved) && (m'.op.WriteFrame? ==> m'.op.reserved)
  }

  lemma AdmitPlain(c: Config, s: State, s': State, id: Uuid)
    requires AdmitStep(c, s, s', id) && !Admit(c, s, s', id)
    ensures Plain(s, s')
  {
    hide Admit, AdmitDenied, StepCreateSlot, StepAllocateSlot, StepSyncSlot, StepCreateIntent, StepWriteIntent,
         StepSyncIntent, StepSyncEntries, Plain;
    if StepCreateSlot(s, s', id) || StepAllocateSlot(s, s', id) || StepSyncSlot(s, s', id) {
      SlotPlain(s, s', id);
    } else if StepCreateIntent(s, s', id) || StepWriteIntent(c, s, s', id) || StepSyncIntent(s, s', id) {
      IntentPlain(c, s, s', id);
    } else {
      GrantedPlain(s, s', id);
    }
  }

  lemma SlotPlain(s: State, s': State, id: Uuid)
    requires StepCreateSlot(s, s', id) || StepAllocateSlot(s, s', id) || StepSyncSlot(s, s', id)
    ensures Plain(s, s')
  {
    hide Written, Synced, Zeros;
  }

  lemma IntentPlain(c: Config, s: State, s': State, id: Uuid)
    requires StepCreateIntent(s, s', id) || StepWriteIntent(c, s, s', id) || StepSyncIntent(s, s', id)
    ensures Plain(s, s')
  {
    hide Written, Synced;
  }

  lemma GrantedPlain(s: State, s': State, id: Uuid)
    requires AdmitDenied(s, s') || StepSyncEntries(s, s', id)
    ensures Plain(s, s')
  {
    hide EntriesSynced;
  }

  lemma PlainRoom(c: Config, s: State, s': State)
    requires RoomInv(c, s) && Plain(s, s')
    ensures RoomInv(c, s')
  {
    hide Need;
    var m, m' := s.process.mem, s'.process.mem;
    NeedPlain(c, m.retained, |m.ids|, m.failed, m.op);
    NeedPlain(c, m'.retained, |m'.ids|, m'.failed, m'.op);
  }

  lemma GrantRoom(c: Config, s: State, s': State, id: Uuid)
    requires Consistent(c, s) && RoomInv(c, s) && Admit(c, s, s', id)
    ensures RoomInv(c, s')
  {
    hide Size, FrameBytes;
    var m := s.process.mem;
    assert |m.ids + {id}| == |m.ids| + 1;
  }

  lemma AppendUnreservedRoom(c: Config, s: State, s': State, id: Uuid)
    requires Consistent(c, s) && RoomInv(c, s) && AppendUnreserved(c, s, s', id)
    ensures RoomInv(c, s')
  {
    hide Size, FrameHeader;
  }

  lemma SaveRoom(c: Config, s: State, s': State, id: Uuid)
    requires Consistent(c, s) && RoomInv(c, s) && SaveStep(c, s, s', id)
    ensures RoomInv(c, s')
  {
    hide SaveStep, AppendUnreserved, Consistent, RoomInv, StepWritePayloadFails;
    if AppendUnreserved(c, s, s', id) {
      AppendUnreservedRoom(c, s, s', id);
    } else if y :| StepWritePayloadFails(c, s, s', id, y) {
      WritePayloadFailsRoom(c, s, s', id, y);
    } else {
      SavePlain(c, s, s', id);
      PlainRoom(c, s, s');
    }
  }

  lemma SavePlain(c: Config, s: State, s': State, id: Uuid)
    requires SaveStep(c, s, s', id)
    requires !AppendUnreserved(c, s, s', id) && !exists y :: StepWritePayloadFails(c, s, s', id, y)
    ensures Plain(s, s')
  {
    hide AppendUnreserved, StepWritePayloadFails, Written, Synced, PutPayload, PutHeader, PayloadWrites, SlotHeader;
  }

  lemma WritePayloadFailsRoom(c: Config, s: State, s': State, id: Uuid, y: Bytes)
    requires RoomInv(c, s) && StepWritePayloadFails(c, s, s', id, y)
    ensures RoomInv(c, s')
  {
    hide Need, Written, PayloadWrites, PartPayload;
    var m := s.process.mem;
    NeedPlain(c, m.retained, |m.ids|, m.failed, m.op);
    NeedFailed(c, m.retained, |m.ids|, m.op);
  }

  lemma WriteFrameRoom(c: Config, s: State, s': State, id: Uuid, reserved: bool)
    requires Consistent(c, s) && RoomInv(c, s) && StepWriteFrame(c, s, s', id, reserved)
    ensures RoomInv(c, s')
  {
    hide FrameHeader, FrameWrites, Size;
  }

  lemma WriteFrameFailsRoom(c: Config, s: State, s': State, id: Uuid, reserved: bool, k: nat)
    requires Consistent(c, s) && RoomInv(c, s) && StepWriteFrameFails(c, s, s', id, reserved, k)
    ensures RoomInv(c, s')
  {
    hide FrameHeader, FrameWrites, Size;
  }

  lemma LogRoom(c: Config, s: State, s': State, id: Uuid)
    requires Consistent(c, s) && RoomInv(c, s) && LogStep(c, s, s', id)
    ensures RoomInv(c, s')
  {
    hide StepWriteFrame, StepWriteFrameFails, EntriesSynced, Size, Written;
    if reserved :| StepWriteFrame(c, s, s', id, reserved) {
      WriteFrameRoom(c, s, s', id, reserved);
    } else if reserved, k :| StepWriteFrameFails(c, s, s', id, reserved, k) {
      WriteFrameFailsRoom(c, s, s', id, reserved, k);
    } else if StepSyncSlotGone(s, s', id) && Live(s.process.mem.phase) {
      Member(s.process.mem.ids, id);
    }
  }

  lemma FailureRoom(c: Config, s: State, s': State)
    requires Consistent(c, s) && RoomInv(c, s) && (IoFailure(s, s') || SyncDataFails(s, s'))
    ensures RoomInv(c, s')
  {
    hide Size, FrameBytes;
  }

  lemma CompactRoom(c: Config, s: State, s': State)
    requires Consistent(c, s) && RoomInv(c, s) && CompactStep(c, s, s')
    ensures RoomInv(c, s')
  {
    hide IoFailure, SyncDataFails, Consistent, Need;
    if IoFailure(s, s') || SyncDataFails(s, s') {
      FailureRoom(c, s, s');
    } else {
      var m, m' := s.process.mem, s'.process.mem;
      NeedPlain(c, m.retained, |m.ids|, m.failed, m.op);
      NeedPlain(c, m'.retained, |m'.ids|, m'.failed, m'.op);
    }
  }

  lemma WorkerRoom(c: Config, s: State, s': State)
    requires RoomInv(c, s) && WorkerStep(c, s, s')
    ensures RoomInv(c, s')
  {
    hide WorkerStep, Need;
    WorkerAside(c, s, s');
  }

  lemma WorkerAside(c: Config, s: State, s': State)
    requires WorkerStep(c, s, s')
    ensures s.process.Up? && s'.process.Up? && s'.disk.log == s.disk.log
    ensures var m, m' := s.process.mem, s'.process.mem;
            m'.phase == m.phase && m'.retained == m.retained && m'.ids == m.ids && m'.failed == m.failed && m'.op == m.op
  {
    hide ReadFrom;
  }

  lemma InvIsConsistent(c: Config, s: State)
    requires Inv(c, s)
    ensures Consistent(c, s)
  {
    if s.process.Up? {
      OpIsReserved(c, s);
      hide DiskInv, IngestInv, PhaseInv, ActiveInv, OpInv, Whole, Within, Size;
    }
  }

  // ---------------------------------------------------------------- every step

  ghost predicate StaysLive(s: State, s': State) {
    s.process.Up? && s'.process.Up? && Live(s.process.mem.phase) ==> Live(s'.process.mem.phase)
  }

  /** Counting is kept by every step; room is kept from the moment recovery is done reading. */
  lemma NextCap(c: Config, s: State, s': State)
    requires Consistent(c, s) && CountInv(s) && Next(c, s, s')
    ensures CountInv(s')
    ensures s.process.Up? && Live(s.process.mem.phase) && RoomInv(c, s) ==> RoomInv(c, s')
    ensures StaysLive(s, s')
  {
    hide OpenStep, AdmitStep, SaveStep, LogStep, CompactStep, WorkerStep, CountInv, RoomInv, Consistent, Settled, Survives;
    if OpenStep(c, s, s') {
      OpenCap(c, s, s');
    } else if id: Uuid :| AdmitStep(c, s, s', id) {
      AdmitCap(c, s, s', id);
    } else if id: Uuid :| SaveStep(c, s, s', id) {
      SaveCap(c, s, s', id);
    } else if id: Uuid :| LogStep(c, s, s', id) {
      LogCap(c, s, s', id);
    } else if CompactStep(c, s, s') {
      CompactCap(c, s, s');
    } else if WorkerStep(c, s, s') {
      WorkerCap(c, s, s');
    } else {
      DownCap(c, s');
    }
  }

  lemma DownCap(c: Config, s: State)
    requires s.process.Down?
    ensures CountInv(s) && RoomInv(c, s)
  {
    hide Total, Size;
  }

  lemma OpenCap(c: Config, s: State, s': State)
    requires CountInv(s) && OpenStep(c, s, s')
    ensures CountInv(s')
    ensures s.process.Up? && Live(s.process.mem.phase) && RoomInv(c, s) ==> RoomInv(c, s')
    ensures StaysLive(s, s')
  {
    OpenCount(c, s, s');
    if s.process.Up? && Live(s.process.mem.phase) {
      hide CountInv;
      OpenLive(c, s, s');
    }
  }

  lemma OpenLive(c: Config, s: State, s': State)
    requires OpenStep(c, s, s') && s.process.Up? && Live(s.process.mem.phase)
    ensures RoomInv(c, s) ==> RoomInv(c, s')
    ensures StaysLive(s, s')
  {
    hide Boundary, Records, ScanLog, Written, Synced, Trim, ReadTerminal, RetainedSize, Visible;
  }

  lemma AdmitCap(c: Config, s: State, s': State, id: Uuid)
    requires Consistent(c, s) && CountInv(s) && AdmitStep(c, s, s', id)
    ensures CountInv(s')
    ensures RoomInv(c, s) ==> RoomInv(c, s')
    ensures StaysLive(s, s')
  {
    AdmitSettled(c, s, s', id);
    hide Settled, CountInv, RoomInv, AdmitStep;
    SettledCount(s, s');
    if RoomInv(c, s) { AdmitRoom(c, s, s', id); }
  }

  lemma SaveCap(c: Config, s: State, s': State, id: Uuid)
    requires Consistent(c, s) && CountInv(s) && SaveStep(c, s, s', id)
    ensures CountInv(s')
    ensures RoomInv(c, s) ==> RoomInv(c, s')
    ensures StaysLive(s, s')
  {
    if s'.process.Down? {
      DownCap(c, s');
    } else {
      SaveSettled(c, s, s', id);
      hide Settled, CountInv, RoomInv, SaveStep;
      SettledCount(s, s');
      if RoomInv(c, s) { SaveRoom(c, s, s', id); }
    }
  }

  lemma LogCap(c: Config, s: State, s': State, id: Uuid)
    requires Consistent(c, s) && CountInv(s) && LogStep(c, s, s', id)
    ensures CountInv(s')
    ensures RoomInv(c, s) ==> RoomInv(c, s')
    ensures StaysLive(s, s')
  {
    if s'.process.Down? {
      DownCap(c, s');
    } else {
      LogSettled(c, s, s', id);
      hide Settled, CountInv, RoomInv, LogStep;
      SettledCount(s, s');
      if RoomInv(c, s) { LogRoom(c, s, s', id); }
    }
  }

  lemma CompactCap(c: Config, s: State, s': State)
    requires Consistent(c, s) && CountInv(s) && CompactStep(c, s, s')
    ensures CountInv(s')
    ensures RoomInv(c, s) ==> RoomInv(c, s')
    ensures StaysLive(s, s')
  {
    hide CountInv, RoomInv, Size, Written, Synced;
    if s'.process.Down? {
      DownCap(c, s');
    } else {
      SettledCount(s, s');
      if RoomInv(c, s) { CompactRoom(c, s, s'); }
    }
  }

  lemma WorkerCap(c: Config, s: State, s': State)
    requires CountInv(s) && WorkerStep(c, s, s')
    ensures CountInv(s')
    ensures RoomInv(c, s) ==> RoomInv(c, s')
    ensures StaysLive(s, s')
  {
    hide CountInv, RoomInv, Size, ReadFrom;
    SettledCount(s, s');
    if RoomInv(c, s) { WorkerRoom(c, s, s'); }
  }

  lemma {:induction false} RunCount(c: Config, run: seq<State>, i: nat)
    requires Run(c, run) && i < |run|
    ensures CountInv(run[i])
    decreases i
  {
    hide Next, CountInv, Consistent, Inv, RoomInv;
    if i == 0 {
      DownCap(c, run[0]);
    } else {
      hide Run;
      RunCount(c, run, i - 1);
      RunStep(c, run, i - 1);
      RunInv(c, run, i - 1);
      InvIsConsistent(c, run[i - 1]);
      NextCap(c, run[i - 1], run[i]);
    }
  }

  // ---------------------------------------------------------------- the limit

  lemma FileBound(c: Config, d: Disk, h: History, id: Uuid)
    requires FilesInv(c, d, h) && id in d.files
    ensures Size(d.files[id]) <= RESERVATION
  {
    hide Recorded, Owed, HeaderZero, HeaderWritten, TornByte, ReadTerminal;
  }

  lemma ActiveBound(files: map<Uuid, Files>, ids: set<Uuid>)
    requires forall id :: id in files ==> Size(files[id]) <= RESERVATION
    ensures Total(files, files.Keys) <= Reservations(|ids|) + Total(files, files.Keys - ids)
  {
    hide Size, Total;
    var mine := files.Keys * ids;
    TotalBound(files, mine);
    Cardinality(mine, ids);
    TotalSplit(files, mine, files.Keys - ids);
    assert mine + (files.Keys - ids) == files.Keys;
  }

  lemma FilesTotal(c: Config, s: State)
    requires FilesInv(c, s.disk, s.hist) && CountInv(s) && s.process.Up? && Live(s.process.mem.phase)
    ensures Total(s.disk.files, s.disk.files.Keys) <= Reservations(|s.process.mem.ids|) + s.process.mem.retained
  {
    hide FilesInv, Size, Total;
    forall id | id in s.disk.files
      ensures Size(s.disk.files[id]) <= RESERVATION
    {
      FileBound(c, s.disk, s.hist, id);
    }
    ActiveBound(s.disk.files, s.process.mem.ids);
  }

  lemma NeedCovers(c: Config, m: Mem)
    requires Twice(m.op) ==> m.op.id in m.ids
    ensures Need(c, m.retained, |m.ids|, m.failed, m.op) >= Reservations(|m.ids|) + m.retained
  {
  }

  /** With room for what is promised, what is there already fits. */
  lemma RoomIsEnough(c: Config, s: State)
    requires FilesInv(c, s.disk, s.hist) && Consistent(c, s)
    requires CountInv(s) && RoomInv(c, s) && s.process.Up? && Live(s.process.mem.phase)
    ensures Physical(s.disk) <= c.maxBytes
  {
    hide CountInv, FilesInv, Total, Size, Need;
    FilesTotal(c, s);
    NeedCovers(c, s.process.mem);
  }

  lemma {:induction false} Cardinality(a: set<Uuid>, b: set<Uuid>)
    requires a <= b
    ensures |a| <= |b|
    decreases |a|
  {
    if a != {} {
      var x :| x in a;
      Cardinality(a - {x}, b - {x});
    }
  }

  lemma {:induction false} RunRoom(c: Config, run: seq<State>, i: nat, j: nat)
    requires Run(c, run) && i <= j < |run|
    requires forall k :: i <= k <= j ==> run[k].process.Up?
    requires Live(run[i].process.mem.phase) && RoomInv(c, run[i])
    ensures Live(run[j].process.mem.phase) && RoomInv(c, run[j])
    decreases j - i
  {
    hide Run, Next, CountInv, RoomInv, Consistent, Inv;
    if i < j {
      RunRoom(c, run, i, j - 1);
      RunStep(c, run, j - 1);
      RunInv(c, run, j - 1);
      RunCount(c, run, j - 1);
      InvIsConsistent(c, run[j - 1]);
      NextCap(c, run[j - 1], run[j]);
    }
  }

  /**
    A process whose recovery starts within budget keeps the spool within `max_bytes` at every step, even
    while a record is both in its slot and in the log, and although admitted records are appended without
    any check of the capacity.
   */
  lemma NeverOverLimit(c: Config, run: seq<State>, i: nat, j: nat)
    requires Run(c, run) && i < j < |run|
    requires OpenSyncDir(run[i], run[i + 1])
    requires run[i + 1].process.mem.endOffset + ReservedBytes(run[i + 1].process.mem) <= c.maxBytes
    requires forall k :: i < k <= j ==> run[k].process.Up?
    ensures Physical(run[j].disk) <= c.maxBytes
  {
    hide Run, CountInv, Physical, MemInv, LogInv, CoverInv, FilesInv, Consistent, RoomInv;
    RunInv(c, run, i);
    InvIsConsistent(c, run[i]);
    RunInv(c, run, i + 1);
    InvIsConsistent(c, run[i + 1]);
    RecoveryStarts(c, run[i], run[i + 1]);
    RunRoom(c, run, i + 1, j);
    RunInv(c, run, j);
    InvIsConsistent(c, run[j]);
    RunCount(c, run, j);
    RoomIsEnough(c, run[j]);
  }

  lemma RecoveryStarts(c: Config, s: State, s': State)
    requires Consistent(c, s) && Consistent(c, s') && OpenSyncDir(s, s')
    requires s'.process.mem.endOffset + ReservedBytes(s'.process.mem) <= c.maxBytes
    ensures Live(s'.process.mem.phase) && RoomInv(c, s')
  {
    hide Size;
  }
}
