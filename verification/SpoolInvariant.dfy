/** The invariant of the protocol: what the disk and a running process keep at every step. */
module SpoolInvariant {
  import opened Bytes
  import opened Frames
  import opened Slots
  import opened SpoolFile
  import opened Spool
  import opened SpoolLog
  import opened SpoolFiles

  ghost function Checkpoints(d: Disk): iset<Checkpoint> {
    d.checkpoint.may + d.stale
  }

  /** A checkpoint file holds one offset, though it may be found cut short. */
  ghost predicate CheckpointOk(k: Cell<Checkpoint>) {
    k.cur in k.may && forall x :: x in k.may && x.Offset? ==> x == k.cur
  }

  ghost predicate DiskInv(c: Config, d: Disk, h: History) {
    && LogInv(c, d.log, h)
    && CheckpointOk(d.checkpoint)
    && CoverInv(c, d.log, Checkpoints(d), h.committed)
    && FilesInv(c, d, h)
  }

  // ---------------------------------------------------------------- the log as the process knows it

  /** Unless a failure is latched, the log is whole frames up to the writer's end offset. */
  ghost predicate LogView(c: Config, cur: Bytes, ks: iset<Checkpoint>, failed: bool, truncated: bool, live: bool, end: nat) {
    && (!failed && !truncated ==> Whole(c.sum, cur) && |cur| == end)
    && (!failed && live ==> Within(ks, |cur|))
  }

  /** Checkpoint and published end are frame boundaries, unless the log is broken and nothing is left to read. */
  ghost predicate ReaderView(c: Config, log: Bytes, checkpoint: nat, published: nat, worker: Worker, broken: bool) {
    || (broken && checkpoint == published && worker.Waiting?)
    || (&& Boundary(c.sum, Log(c, log), checkpoint)
        && Boundary(c.sum, Log(c, log), published)
        && checkpoint <= published)
  }

  /** A batch reaches from the checkpoint to a frame boundary, and covers what lies between. */
  ghost predicate WorkerView(c: Config, log: Bytes, checkpoint: nat, published: nat, reader: nat, worker: Worker, done: set<Record>) {
    match worker
    case Waiting => reader == checkpoint
    case Read(rs, start, end) =>
      && start == checkpoint <= end <= published && reader == end && Boundary(c.sum, Log(c, log), end)
      && Covered(c, log, end, done + set r | r in rs)
    case Committed(start, end) =>
      && start == checkpoint <= end <= published && reader == end && Boundary(c.sum, Log(c, log), end)
      && Covered(c, log, end, done)
    case Stopped => false
  }

  ghost predicate IngestInv(c: Config, log: Bytes, checkpoint: nat, published: nat, reader: nat, worker: Worker,
                            listed: bool, broken: bool, done: set<Record>)
  {
    && Covered(c, log, checkpoint, done)
    && (if listed then ReaderView(c, log, checkpoint, published, worker, broken) else published == |log|)
    && WorkerView(c, log, checkpoint, published, reader, worker, done)
  }

  // ---------------------------------------------------------------- the phases of `open`

  predicate Live(phase: Phase) {
    phase.Recovering? || phase.Serving?
  }

  /** Every record saved in its slot is committed, in the log, or still to be recovered. */
  ghost predicate Accounted(c: Config, log: Bytes, h: History, pending: set<Uuid>) {
    forall id :: id in h.saved && id in h.granted ==>
      Rec(c, id) in h.committed || Rec(c, id) in Log(c, log) || id in pending
  }

  ghost predicate ListingInv(c: Config, d: Disk, todo: set<Uuid>, found: set<Uuid>) {
    && (forall id :: id in todo ==> Visible(d, id))
    && (forall id :: id in found ==> id in d.files && !SlotReads(c, d, id, Unreadable))
  }

  ghost predicate Presented(c: Config, ids: set<Uuid>, issued: set<Uuid>) {
    forall id :: id in ids ==> id in issued && |c.payload(id)| <= MAX_PAYLOAD
  }

  ghost predicate PhaseInv(c: Config, d: Disk, phase: Phase, ids: set<Uuid>, checkpoint: nat, h: History) {
    && (!Live(phase) ==> checkpoint == CheckpointValue(d.checkpoint.cur))
    && (phase.Listing? || phase.Retaining? ==> checkpoint <= |d.log.cur|)
    && match phase
       case Repairing(_) => true
       case Listing(todo, found) =>
         ListingInv(c, d, todo, found) && Accounted(c, d.log.cur, h, todo + found)
       case Retaining(id, todo, found) =>
         && ListingInv(c, d, todo, found) && Accounted(c, d.log.cur, h, todo + found + {id})
         && Visible(d, id) && SlotReads(c, d, id, Unreadable)
         && (d.files[id].slotEntry.cur ==> Shorn(d.files[id].slot.cur))
       case Recovering(todo) =>
         todo <= ids && Presented(c, todo, h.issued) && Accounted(c, d.log.cur, h, todo)
       case Serving => true
  }

  predicate Quiet(phase: Phase, op: Op, worker: Worker, failed: bool, ids: set<Uuid>) {
    match phase
    case Serving => failed ==> op.Idle? || Saving(op)
    case Recovering(_) => worker.Waiting? && !failed && !Compacting(op) && !Reserving(op)
    case _ => worker.Waiting? && !failed && op.Idle? && ids == {}
  }

  /** The requests whose files the process has on its books, or has yet to look at. */
  ghost function Claimed(phase: Phase, ids: set<Uuid>): set<Uuid> {
    match phase
    case Repairing(_) => {}
    case Listing(todo, found) => todo + found
    case Retaining(id, todo, found) => todo + found + {id}
    case Recovering(_) => ids
    case Serving => ids
  }

  // ---------------------------------------------------------------- the operation under way

  predicate Reserving(op: Op) {
    || op.CreateSlot? || op.AllocateSlot? || op.SyncSlot? || op.CreateIntent? || op.WriteIntent? || op.SyncIntent?
    || op.SyncEntries?
  }

  predicate Saving(op: Op) {
    op.WritePayload? || op.WriteHeader? || op.SyncTerminal?
  }

  predicate Logging(op: Op) {
    op.WriteFrame? || op.SyncFrame?
  }

  predicate Retiring(op: Op) {
    op.UnlinkIntent? || op.SyncIntentGone? || op.UnlinkSlot? || op.SyncSlotGone?
  }

  ghost predicate NewFiles(d: Disk, h: History, id: Uuid) {
    && id in d.files && id !in h.granted && id !in h.saved && id !in h.unknown
    && d.files[id].slotEntry.cur
    && forall y :: y in d.files[id].slot.may ==> AllZero(y)
  }

  ghost predicate ReserveInv(c: Config, d: Disk, op: Op, h: History)
    requires Reserving(op)
  {
    && |c.intent(op.id)| <= MAX_INTENT
    && if op.CreateSlot? then op.id !in d.files else
      && NewFiles(d, h, op.id)
      && (op.WriteIntent? || op.SyncIntent? || op.SyncEntries? ==> d.files[op.id].intentEntry.cur)
      && (op.SyncIntent? ==> d.files[op.id].intent.cur == c.intent(op.id))
      && (op.SyncEntries? ==> d.files[op.id].intent.may == iset{c.intent(op.id)})
  }

  ghost predicate SaveInv(c: Config, d: Disk, op: Op, ids: set<Uuid>, h: History)
    requires Saving(op)
  {
    && op.id in h.issued && |c.payload(op.id)| <= MAX_PAYLOAD && op.id in ids
    && (op.WriteHeader? ==> op.id in d.files && PayloadWritten(c.payload(op.id), d.files[op.id].slot.cur))
    && (op.SyncTerminal? ==> op.id in d.files && Image(c.sum, c.payload(op.id), d.files[op.id].slot.cur))
  }

  ghost predicate FrameInv(c: Config, d: Disk, op: Op, ids: set<Uuid>, h: History)
    requires Logging(op)
  {
    && op.id in h.issued && ValidRecord(Rec(c, op.id))
    && (op.SyncFrame? || op.reserved ==> op.id in ids)
    && (op.SyncFrame? ==> Rec(c, op.id) in Log(c, d.log.cur))
  }

  ghost predicate RetireInv(c: Config, d: Disk, op: Op, ids: set<Uuid>, h: History)
    requires Retiring(op)
  {
    && Recorded(c, d.log, h.committed, op.id) && op.id in ids
    && (op.SyncIntentGone? && op.id in d.files ==> !d.files[op.id].intentEntry.cur)
    && ((op.UnlinkSlot? || op.SyncSlotGone?) && op.id in d.files ==> d.files[op.id].intentEntry.may == iset{false})
    && (op.SyncSlotGone? && op.id in d.files ==> !d.files[op.id].slotEntry.cur)
  }

  ghost predicate CompactInv(d: Disk, m: Mem) {
    Compacting(m.op) ==>
      && !m.failed && m.worker.Waiting? && m.reader == m.checkpoint == m.endOffset == m.published
      && (m.op.CompactSyncDir? || m.op.CompactTruncate? || m.op.CompactSyncTruncated? ==> d.checkpoint.may == iset{Offset(0)})
      && (m.op.CompactTruncate? || m.op.CompactSyncTruncated? ==> d.stale == iset{})
      && (m.op.CompactSyncTruncated? ==> d.log.cur == [])
  }

  ghost predicate OpInv(c: Config, d: Disk, op: Op, ids: set<Uuid>, phase: Phase, h: History) {
    && (Reserving(op) ==> ReserveInv(c, d, op, h) && op.id in ids)
    && (Saving(op) ==> SaveInv(c, d, op, ids, h))
    && (Logging(op) ==> FrameInv(c, d, op, ids, h))
    && (Retiring(op) ==> RetireInv(c, d, op, ids, h))
    && (phase.Recovering? && (Saving(op) || Logging(op) || Retiring(op)) ==> op.id in phase.todo)
    && (phase.Recovering? && op.WriteFrame? ==> op.reserved)
  }

  /** The slots of active reservations are fit to be written. */
  ghost predicate ActiveInv(files: map<Uuid, Files>, ids: set<Uuid>, unknown: set<Uuid>) {
    forall id :: id in ids && id in files ==> id !in unknown && SoundSlot(files[id].slot)
  }

  ghost predicate MemInv(c: Config, d: Disk, m: Mem, h: History) {
    && LogView(c, d.log.cur, Checkpoints(d), m.failed, m.op.CompactSyncTruncated?, Live(m.phase), m.endOffset)
    && IngestInv(c, d.log.cur, m.checkpoint, m.published, m.reader, m.worker, !m.phase.Repairing?,
                 m.failed || m.op.CompactSyncTruncated?, h.committed)
    && PhaseInv(c, d, m.phase, m.ids, m.checkpoint, h)
    && Quiet(m.phase, m.op, m.worker, m.failed, m.ids)
    && OpInv(c, d, m.op, m.ids, m.phase, h)
    && CompactInv(d, m)
    && ActiveInv(d.files, m.ids, h.unknown)
  }

  ghost predicate Inv(c: Config, s: State) {
    && DiskInv(c, s.disk, s.hist)
    && (s.process.Up? ==> MemInv(c, s.disk, s.process.mem, s.hist))
  }

  lemma InitInv(c: Config, s: State)
    requires Init(s)
    ensures Inv(c, s)
  {
  }
}
