/**
  The durable request-log protocol, one step per system call.

  The disk keeps, for every file and every directory entry, what a process sees and everything that may
  be found after a power loss.  A process may be killed, and power may be lost, between any two steps.
  The writer's mutex allows one writer operation at a time; the ingest worker runs beside it.
 */
module Spool {
  import opened Bytes
  import opened Frames
  import opened Slots
  import opened SpoolFile

  type Uuid = s: Bytes | |s| == 16 witness Zeros(16)

  /**
    What stays fixed over a run: the checksum, the one terminal payload and the one intent that callers
    present for each request, which payloads decode as a record of a request, and the configured limits.
   */
  datatype Config = Config(
    sum: Checksum,
    payload: Uuid -> Bytes,
    intent: Uuid -> Bytes,
    decodes: (Uuid, nat, Bytes) -> bool,
    maxBytes: nat,
    threshold: nat)

  /** The record of request `id`, encoded at the current schema version. */
  ghost function Rec(c: Config, id: Uuid): Record {
    Record(id, SCHEMA, c.payload(id))
  }

  /**
    What the codec is trusted with.  A payload decodes as the record it encodes.  Payloads are JSON texts, and
    after section 7 of RFC 8259 no NUL stands in one: neither does the encoder write it nor the decoder take it.
   */
  ghost predicate Codec(c: Config) {
    && (forall id: Uuid :: c.decodes(id, SCHEMA, c.payload(id)))
    && (forall id: Uuid, schema, q :: c.decodes(id, schema, q) ==> 0 !in q)
  }

  // ---------------------------------------------------------------- the disk

  /** Something on disk: what is visible now, and what may be there after a power loss. */
  datatype Cell<!T(!new)> = Cell(cur: T, may: iset<T>)

  ghost function Synced<T(!new)>(x: Cell<T>): Cell<T> {
    Cell(x.cur, iset{x.cur})
  }

  /** A write that is not synced yet: `torn` are the states it may leave besides the old and the new one. */
  ghost function Written<T(!new)>(x: Cell<T>, v: T, torn: iset<T>): Cell<T> {
    Cell(v, x.may + torn + iset{v})
  }

  /** The checkpoint file: not there, an offset, or a file of the wrong length. */
  datatype Checkpoint = Absent | Offset(offset: nat) | Short

  /** The files of one request: the terminal slot and the intent, each with its directory entry. */
  datatype Files = Files(slotEntry: Cell<bool>, slot: Cell<Bytes>, intentEntry: Cell<bool>, intent: Cell<Bytes>)

  /**
    `checkpoint` is the file that carries the name now; `stale` holds the contents of files that carried
    the name before and may carry it again after a power loss, because the directory is not synced.
   */
  datatype Disk = Disk(
    log: Cell<Bytes>,
    checkpoint: Cell<Checkpoint>,
    stale: iset<Checkpoint>,
    files: map<Uuid, Files>)

  /** The admissions directory is synced: its entries are the visible ones. */
  ghost function EntriesSynced(files: map<Uuid, Files>): map<Uuid, Files> {
    map id | id in files ::
      files[id].(slotEntry := Synced(files[id].slotEntry), intentEntry := Synced(files[id].intentEntry))
  }

  ghost predicate Visible(d: Disk, id: Uuid) {
    id in d.files && (d.files[id].slotEntry.cur || d.files[id].intentEntry.cur)
  }

  ghost predicate SurvivesCell<T(!new)>(x: Cell<T>, x': Cell<T>) {
    x'.cur in x.may && x'.may == iset{x'.cur}
  }

  /** What a power loss leaves of one request's files. */
  ghost predicate SurvivesFiles(f: Files, f': Files) {
    && SurvivesCell(f.slotEntry, f'.slotEntry)
    && SurvivesCell(f.slot, f'.slot)
    && SurvivesCell(f.intentEntry, f'.intentEntry)
    && SurvivesCell(f.intent, f'.intent)
  }

  ghost predicate Survives(d: Disk, d': Disk) {
    && SurvivesCell(d.log, d'.log)
    && d'.checkpoint.cur in d.checkpoint.may + d.stale
    && d'.checkpoint.may == iset{d'.checkpoint.cur}
    && d'.stale == iset{}
    && d'.files.Keys == d.files.Keys
    && forall id :: id in d.files ==> SurvivesFiles(d.files[id], d'.files[id])
  }

  // ---------------------------------------------------------------- the process

  /** The writer operation under way, named by the system call it makes next. */
  datatype Op =
    | Idle
    // admission of a request
    | CreateSlot(id: Uuid) | AllocateSlot(id: Uuid) | SyncSlot(id: Uuid)
    | CreateIntent(id: Uuid) | WriteIntent(id: Uuid) | SyncIntent(id: Uuid) | SyncEntries(id: Uuid)
    // append of a terminal record
    | WritePayload(id: Uuid) | WriteHeader(id: Uuid) | SyncTerminal(id: Uuid)
    | WriteFrame(id: Uuid, reserved: bool) | SyncFrame(id: Uuid)
    | UnlinkIntent(id: Uuid) | SyncIntentGone(id: Uuid) | UnlinkSlot(id: Uuid) | SyncSlotGone(id: Uuid)
    // compaction
    | CompactSyncLog | CompactRename | CompactSyncDir | CompactTruncate | CompactSyncTruncated

  predicate Compacting(op: Op) {
    op.CompactSyncLog? || op.CompactRename? || op.CompactSyncDir? || op.CompactTruncate? || op.CompactSyncTruncated?
  }

  datatype Phase =
    | Repairing(torn: bool)                       // log read, its torn tail cut if `torn`
    | Listing(todo: set<Uuid>, found: set<Uuid>)  // admission files still to read, readable slots found
    | Retaining(id: Uuid, todo: set<Uuid>, found: set<Uuid>)
    | Recovering(todo: set<Uuid>)                 // recovered records still to append
    | Serving

  datatype Worker =
    | Waiting
    | Read(records: seq<Record>, start: nat, end: nat)
    | Committed(start: nat, end: nat)
    | Stopped

  datatype Mem = Mem(
    phase: Phase,
    op: Op,
    worker: Worker,
    reader: nat,
    endOffset: nat,
    published: nat,
    checkpoint: nat,
    failed: bool,
    pressure: bool,
    ids: set<Uuid>,
    retained: nat,
    recovered: map<Uuid, Bytes>)                  // payloads that `open` has read from slots

  datatype Process = Down | Up(mem: Mem)

  /** What has happened so far; nothing in a step depends on it. */
  datatype History = History(
    granted: set<Uuid>,       // `reserve` returned
    issued: set<Uuid>,        // a terminal record was presented to `append`
    saved: set<Uuid>,         // `save_terminal` returned
    unknown: set<Uuid>,       // retained by recovery without a terminal record
    committed: set<Record>)   // accepted by the database

  datatype State = State(disk: Disk, process: Process, hist: History)

  ghost predicate Init(s: State) {
    && s.disk == Disk(Cell([], iset{[]}), Cell(Absent, iset{Absent}), iset{}, map[])
    && s.process == Down
    && s.hist == History({}, {}, {}, {}, {})
  }

  ghost function ReservedBytes(m: Mem): nat {
    2 * Reservations(|m.ids|) + m.retained
  }

  ghost function CheckpointValue(k: Checkpoint): nat {
    if k.Offset? then k.offset else 0
  }

  // ---------------------------------------------------------------- steps of `open`

  /** The checkpoint and the log are read; a torn tail is cut.  Without this step `open` has refused. */
  ghost predicate OpenRead(c: Config, s: State, s': State) {
    var log := s.disk.log;
    var scan := ScanLog(c.sum, log.cur);
    && s.process.Down?
    && !s.disk.checkpoint.cur.Short?
    && scan.Scanned?
    && var torn := scan.end < |log.cur|;
       var k := CheckpointValue(s.disk.checkpoint.cur);
       && s'.disk == s.disk.(log := if torn then Written(log, log.cur[..scan.end], iset{}) else log)
       && s'.process == Up(Mem(Repairing(torn), Idle, Waiting, k, scan.end, scan.end, k, false, false, {}, 0, map[]))
       && s'.hist == s.hist
  }

  ghost predicate OpenRepairSync(s: State, s': State) {
    && s.process.Up? && s.process.mem.phase == Repairing(true)
    && s' == s.(disk := s.disk.(log := Synced(s.disk.log)), process := Up(s.process.mem.(phase := Repairing(false))))
  }

  /** The checkpoint is no frame boundary of the log: `open` refuses. */
  ghost predicate OpenRefuse(c: Config, s: State, s': State) {
    && s.process.Up? && s.process.mem.phase == Repairing(false)
    && !Boundary(c.sum, Records(c.sum, s.disk.log.cur), s.process.mem.checkpoint)
    && s' == s.(process := Down)
  }

  ghost predicate OpenList(c: Config, s: State, s': State) {
    && s.process.Up? && s.process.mem.phase == Repairing(false)
    && Boundary(c.sum, Records(c.sum, s.disk.log.cur), s.process.mem.checkpoint)
    && s' == s.(process := Up(s.process.mem.(phase := Listing(set id | id in s.disk.files && Visible(s.disk, id), {}))))
  }

  ghost function SlotContent(c: Config, f: Files): Terminal {
    if f.slotEntry.cur then ReadTerminal(c.sum, f.slot.cur) else Unreadable
  }

  ghost predicate SlotReads(c: Config, d: Disk, id: Uuid, t: Terminal) {
    id in d.files && t == SlotContent(c, d.files[id])
  }

  /** A slot with the right checksum is decoded; the record is kept in memory until all slots are read. */
  ghost predicate OpenReadable(c: Config, s: State, s': State, id: Uuid) {
    && s.process.Up? && s.process.mem.phase.Listing? && id in s.process.mem.phase.todo
    && id in s.disk.files
    && var t := SlotContent(c, s.disk.files[id]);
       var m := s.process.mem;
       && t.Readable? && c.decodes(id, t.schema, t.payload)
       && s' == s.(process := Up(m.(phase := Listing(m.phase.todo - {id}, m.phase.found + {id}),
                                    recovered := m.recovered[id := t.payload])))
  }

  /** The checksum is right but the payload does not decode: `open` refuses. */
  ghost predicate OpenUndecodable(c: Config, s: State, s': State, id: Uuid) {
    && s.process.Up? && s.process.mem.phase.Listing? && id in s.process.mem.phase.todo
    && id in s.disk.files
    && s' == s.(process := Down)
    && var t := SlotContent(c, s.disk.files[id]);
       t.Readable? && !c.decodes(id, t.schema, t.payload)
  }

  /** A slot without a readable record loses its trailing zeros and nothing else. */
  ghost predicate OpenTrim(c: Config, s: State, s': State, id: Uuid) {
    && s.process.Up? && s.process.mem.phase.Listing? && id in s.process.mem.phase.todo
    && SlotReads(c, s.disk, id, Unreadable)
    && var f := s.disk.files[id];
       var p := s.process.mem.phase;
       && |f.slot.cur| <= SLOT_BYTES
       && s' == s.(disk := s.disk.(files := s.disk.files[id :=
                             if f.slotEntry.cur then f.(slot := Written(f.slot, Trim(f.slot.cur), iset{})) else f]),
                   process := Up(s.process.mem.(phase := Retaining(id, p.todo - {id}, p.found))))
  }

  function Max(a: nat, b: nat): nat {
    if a >= b then a else b
  }

  ghost function RetainedSize(f: Files): nat {
    (if f.intentEntry.cur then Max(|f.intent.cur|, 4096) else 0) + (if f.slotEntry.cur then Max(|f.slot.cur|, 4096) else 0)
  }

  ghost predicate OpenRetain(s: State, s': State, id: Uuid) {
    && s.process.Up? && s.process.mem.phase.Retaining? && s.process.mem.phase.id == id && id in s.disk.files
    && var f := s.disk.files[id];
       var p := s.process.mem.phase;
       && s'.disk == s.disk.(files := s.disk.files[id := if f.slotEntry.cur then f.(slot := Synced(f.slot)) else f])
       && s'.process == Up(s.process.mem.(phase := Listing(p.todo, p.found), retained := s.process.mem.retained + RetainedSize(f)))
       && s'.hist == s.hist.(unknown := s.hist.unknown + {id})
  }

  ghost predicate OpenSyncDir(s: State, s': State) {
    && s.process.Up? && s.process.mem.phase.Listing? && s.process.mem.phase.todo == {}
    && var found := s.process.mem.phase.found;
       s' == s.(disk := s.disk.(stale := iset{}), process := Up(s.process.mem.(phase := Recovering(found), ids := found)))
  }

  /**
    What was read is appended.  A run knows one payload for each request; that it is always the one that was
    read is `SpoolTheorems.RecoveryAppendsPresented`.
   */
  ghost predicate OpenAppend(c: Config, s: State, s': State, id: Uuid) {
    && s.process.Up? && s.process.mem.phase.Recovering? && s.process.mem.op.Idle? && id in s.process.mem.phase.todo
    && id in s.process.mem.recovered && s.process.mem.recovered[id] == c.payload(id)
    && s' == s.(process := Up(s.process.mem.(op := WritePayload(id))))
  }

  ghost predicate OpenDone(s: State, s': State) {
    && s.process.Up? && s.process.mem.phase == Recovering({}) && s.process.mem.op.Idle?
    && s' == s.(process := Up(s.process.mem.(phase := Serving)))
  }

  // ---------------------------------------------------------------- admission

  ghost predicate Ready(s: State) {
    s.process.Up? && s.process.mem.phase.Serving? && s.process.mem.op.Idle?
  }

  /** Each request draws a fresh UUID, so that no file of that name was ever there. */
  ghost predicate Admit(c: Config, s: State, s': State, id: Uuid) {
    && Ready(s) && !s.process.mem.failed
    && var m := s.process.mem;
       && m.endOffset + ReservedBytes(m) + 2 * RESERVATION <= c.maxBytes
       && |c.intent(id)| <= MAX_INTENT
       && id !in m.ids && id !in s.disk.files
       && s' == s.(process := Up(m.(op := CreateSlot(id), ids := m.ids + {id})))
  }

  ghost predicate AdmitDenied(s: State, s': State) {
    && Ready(s) && !s.process.mem.failed
    && s' == s.(process := Up(s.process.mem.(pressure := true)))
  }

  ghost predicate StepCreateSlot(s: State, s': State, id: Uuid) {
    && s.process.Up? && s.process.mem.op == CreateSlot(id) && id !in s.disk.files
    && var f := Files(Cell(true, iset{false, true}), Cell([], iset{[]}), Cell(false, iset{false}), Cell([], iset{[]}));
       s' == s.(disk := s.disk.(files := s.disk.files[id := f]), process := Up(s.process.mem.(op := AllocateSlot(id))))
  }

  ghost predicate StepAllocateSlot(s: State, s': State, id: Uuid) {
    && s.process.Up? && s.process.mem.op == AllocateSlot(id) && id in s.disk.files
    && var f := s.disk.files[id];
       var f' := f.(slot := Written(f.slot, Zeros(SLOT_BYTES), iset k | 0 <= k <= SLOT_BYTES :: Zeros(k)));
       s' == s.(disk := s.disk.(files := s.disk.files[id := f']), process := Up(s.process.mem.(op := SyncSlot(id))))
  }

  ghost predicate StepSyncSlot(s: State, s': State, id: Uuid) {
    && s.process.Up? && s.process.mem.op == SyncSlot(id) && id in s.disk.files
    && var f := s.disk.files[id];
       s' == s.(disk := s.disk.(files := s.disk.files[id := f.(slot := Synced(f.slot))]),
                process := Up(s.process.mem.(op := CreateIntent(id))))
  }

  ghost predicate StepCreateIntent(s: State, s': State, id: Uuid) {
    && s.process.Up? && s.process.mem.op == CreateIntent(id) && id in s.disk.files
    && var f := s.disk.files[id];
       s' == s.(disk := s.disk.(files := s.disk.files[id := f.(intentEntry := Written(f.intentEntry, true, iset{}))]),
                process := Up(s.process.mem.(op := WriteIntent(id))))
  }

  ghost predicate StepWriteIntent(c: Config, s: State, s': State, id: Uuid) {
    && s.process.Up? && s.process.mem.op == WriteIntent(id) && id in s.disk.files
    && var f := s.disk.files[id];
       var b := c.intent(id);
       var f' := f.(intent := Written(f.intent, b, iset k | 0 <= k <= |b| :: b[..k]));
       s' == s.(disk := s.disk.(files := s.disk.files[id := f']), process := Up(s.process.mem.(op := SyncIntent(id))))
  }

  ghost predicate StepSyncIntent(s: State, s': State, id: Uuid) {
    && s.process.Up? && s.process.mem.op == SyncIntent(id) && id in s.disk.files
    && var f := s.disk.files[id];
       s' == s.(disk := s.disk.(files := s.disk.files[id := f.(intent := Synced(f.intent))]),
                process := Up(s.process.mem.(op := SyncEntries(id))))
  }

  ghost predicate StepSyncEntries(s: State, s': State, id: Uuid) {
    && s.process.Up? && s.process.mem.op == SyncEntries(id)
    && s'.disk == s.disk.(files := EntriesSynced(s.disk.files))
    && s'.process == Up(s.process.mem.(op := Idle))
    && s'.hist == s.hist.(granted := s.hist.granted + {id})
  }

  // ---------------------------------------------------------------- append

  ghost predicate AppendReserved(c: Config, s: State, s': State, id: Uuid) {
    && Ready(s) && |c.payload(id)| <= MAX_PAYLOAD && id in s.process.mem.ids
    && s'.disk == s.disk
    && s'.process == Up(s.process.mem.(op := WritePayload(id)))
    && s'.hist == s.hist.(issued := s.hist.issued + {id})
  }

  ghost predicate AppendUnreserved(c: Config, s: State, s': State, id: Uuid) {
    && Ready(s) && |c.payload(id)| <= MAX_PAYLOAD && id !in s.process.mem.ids && !s.process.mem.failed
    && var m := s.process.mem;
       && m.endOffset + ReservedBytes(m) + |Frame(c.sum, Rec(c, id))| <= c.maxBytes
       && s'.disk == s.disk
       && s'.process == Up(m.(op := WriteFrame(id, false)))
       && s'.hist == s.hist.(issued := s.hist.issued + {id})
  }

  ghost function PayloadWrites(x: Cell<Bytes>, p: Bytes): iset<Bytes> {
    iset y, z | y in x.may && PartPayload(y, p, z) :: z
  }

  ghost predicate StepWritePayload(c: Config, s: State, s': State, id: Uuid) {
    && s.process.Up? && s.process.mem.op == WritePayload(id) && id in s.disk.files
    && var f := s.disk.files[id];
       var p := c.payload(id);
       var f' := f.(slot := Written(f.slot, PutPayload(f.slot.cur, p), PayloadWrites(f.slot, p)));
       s' == s.(disk := s.disk.(files := s.disk.files[id := f']), process := Up(s.process.mem.(op := WriteHeader(id))))
  }

  /** The payload write fails part way: the writer latches its failure, recovery gives up. */
  ghost predicate StepWritePayloadFails(c: Config, s: State, s': State, id: Uuid, y: Bytes) {
    && s.process.Up? && s.process.mem.op == WritePayload(id) && id in s.disk.files
    && var f := s.disk.files[id];
       var p := c.payload(id);
       var f' := f.(slot := Written(f.slot, y, PayloadWrites(f.slot, p)));
       && PartPayload(f.slot.cur, p, y)
       && s' == s.(disk := s.disk.(files := s.disk.files[id := f']), process := Failed(s.process.mem))
  }

  ghost predicate StepWriteHeader(c: Config, s: State, s': State, id: Uuid) {
    && s.process.Up? && s.process.mem.op == WriteHeader(id) && id in s.disk.files && |c.payload(id)| <= MAX_PAYLOAD
    && var f := s.disk.files[id];
       var h := SlotHeader(c.sum, c.payload(id));
       var f' := f.(slot := Written(f.slot, PutHeader(f.slot.cur, h), iset y | y in f.slot.may :: PutHeader(y, h)));
       s' == s.(disk := s.disk.(files := s.disk.files[id := f']), process := Up(s.process.mem.(op := SyncTerminal(id))))
  }

  /** The terminal record is durable in its slot, even if the log is out of service. */
  ghost predicate StepSyncTerminal(s: State, s': State, id: Uuid) {
    && s.process.Up? && s.process.mem.op == SyncTerminal(id) && id in s.disk.files
    && var f := s.disk.files[id];
       && s'.disk == s.disk.(files := s.disk.files[id := f.(slot := Synced(f.slot))])
       && s'.process == Up(s.process.mem.(op := if s.process.mem.failed then Idle else WriteFrame(id, true)))
       && s'.hist == s.hist.(saved := s.hist.saved + {id})
  }

  /** A write of `frame` at the end of the log survives as one of its prefixes. */
  ghost function FrameWrites(log: Cell<Bytes>, frame: Bytes): iset<Bytes> {
    iset k | 0 <= k <= |frame| :: log.cur + frame[..k]
  }

  ghost predicate StepWriteFrame(c: Config, s: State, s': State, id: Uuid, reserved: bool) {
    && s.process.Up? && s.process.mem.op == WriteFrame(id, reserved) && ValidRecord(Rec(c, id))
    && var frame := Frame(c.sum, Rec(c, id));
       var log := s.disk.log;
       var m := s.process.mem;
       var end := m.endOffset + |frame|;
       s' == s.(disk := s.disk.(log := Written(log, log.cur + frame, FrameWrites(log, frame))),
                process := Up(if reserved then m.(endOffset := end, op := SyncFrame(id))
                              else m.(endOffset := end, published := end, op := Idle)))
  }

  /** A partial frame stays behind the published end; no later append may follow it. */
  ghost predicate StepWriteFrameFails(c: Config, s: State, s': State, id: Uuid, reserved: bool, k: nat) {
    && s.process.Up? && s.process.mem.op == WriteFrame(id, reserved) && ValidRecord(Rec(c, id))
    && var frame := Frame(c.sum, Rec(c, id));
       var log := s.disk.log;
       && k < |frame|
       && s' == s.(disk := s.disk.(log := Written(log, log.cur + frame[..k], FrameWrites(log, frame[..k]))),
                   process := Failed(s.process.mem))
  }

  ghost predicate StepSyncFrame(s: State, s': State, id: Uuid) {
    && s.process.Up? && s.process.mem.op == SyncFrame(id)
    && var m := s.process.mem;
       s' == s.(disk := s.disk.(log := Synced(s.disk.log)),
                process := Up(m.(published := m.endOffset, op := UnlinkIntent(id))))
  }

  ghost predicate StepUnlinkIntent(s: State, s': State, id: Uuid) {
    && s.process.Up? && s.process.mem.op == UnlinkIntent(id) && id in s.disk.files
    && var f := s.disk.files[id];
       s' == s.(disk := s.disk.(files := s.disk.files[id := f.(intentEntry := Written(f.intentEntry, false, iset{}))]),
                process := Up(s.process.mem.(op := SyncIntentGone(id))))
  }

  ghost predicate StepSyncIntentGone(s: State, s': State, id: Uuid) {
    && s.process.Up? && s.process.mem.op == SyncIntentGone(id)
    && s' == s.(disk := s.disk.(files := EntriesSynced(s.disk.files)), process := Up(s.process.mem.(op := UnlinkSlot(id))))
  }

  ghost predicate StepUnlinkSlot(s: State, s': State, id: Uuid) {
    && s.process.Up? && s.process.mem.op == UnlinkSlot(id) && id in s.disk.files
    && var f := s.disk.files[id];
       s' == s.(disk := s.disk.(files := s.disk.files[id := f.(slotEntry := Written(f.slotEntry, false, iset{}))]),
                process := Up(s.process.mem.(op := SyncSlotGone(id))))
  }

  ghost predicate StepSyncSlotGone(s: State, s': State, id: Uuid) {
    && s.process.Up? && s.process.mem.op == SyncSlotGone(id)
    && var m := s.process.mem;
       s' == s.(disk := s.disk.(files := EntriesSynced(s.disk.files)),
                process := Up(m.(op := Idle, ids := m.ids - {id},
                                 phase := if m.phase.Recovering? then Recovering(m.phase.todo - {id}) else m.phase)))
  }

  /** After a failed system call a serving process latches the failure; a recovering one gives up. */
  ghost function Failed(m: Mem): Process {
    if m.phase.Serving? then Up(m.(failed := true, op := Idle)) else Down
  }

  /** A system call fails without effect. */
  ghost predicate IoFailure(s: State, s': State) {
    && s.process.Up? && (s.process.mem.op.Idle? ==> !s.process.mem.phase.Serving?)
    && s' == s.(process := Failed(s.process.mem))
  }

  // ---------------------------------------------------------------- periodic sync and compaction

  ghost predicate SyncData(s: State, s': State) {
    && Ready(s)
    && s' == s.(disk := s.disk.(log := Synced(s.disk.log)))
  }

  /** A periodic sync fails, or an admission before it made any file: the writer latches its failure. */
  ghost predicate SyncDataFails(s: State, s': State) {
    && Ready(s)
    && s' == s.(process := Failed(s.process.mem))
  }

  ghost predicate CompactBegin(c: Config, s: State, s': State) {
    && Ready(s) && !s.process.mem.failed && s.process.mem.worker.Waiting?
    && var m := s.process.mem;
       && m.checkpoint == m.endOffset == m.published > 0
       && (m.pressure || m.endOffset >= c.threshold)
       && s' == s.(process := Up(m.(op := CompactSyncLog)))
  }

  ghost predicate StepCompactSyncLog(s: State, s': State) {
    && s.process.Up? && s.process.mem.op.CompactSyncLog?
    && s' == s.(disk := s.disk.(log := Synced(s.disk.log)), process := Up(s.process.mem.(op := CompactRename)))
  }

  /** A synced temporary file holding offset 0 is renamed over the checkpoint. */
  ghost predicate StepCompactRename(s: State, s': State) {
    && s.process.Up? && s.process.mem.op.CompactRename?
    && s' == s.(disk := s.disk.(checkpoint := Cell(Offset(0), iset{Offset(0)}), stale := s.disk.stale + s.disk.checkpoint.may),
                process := Up(s.process.mem.(op := CompactSyncDir)))
  }

  ghost predicate StepCompactSyncDir(s: State, s': State) {
    && s.process.Up? && s.process.mem.op.CompactSyncDir?
    && s' == s.(disk := s.disk.(stale := iset{}), process := Up(s.process.mem.(op := CompactTruncate)))
  }

  ghost predicate StepCompactTruncate(s: State, s': State) {
    && s.process.Up? && s.process.mem.op.CompactTruncate?
    && s' == s.(disk := s.disk.(log := Written(s.disk.log, [], iset{})),
                process := Up(s.process.mem.(op := CompactSyncTruncated)))
  }

  /** The compacted log is durable; the worker's reader starts again at 0. */
  ghost predicate StepCompactSyncTruncated(s: State, s': State) {
    && s.process.Up? && s.process.mem.op.CompactSyncTruncated?
    && s' == s.(disk := s.disk.(log := Synced(s.disk.log)),
                process := Up(s.process.mem.(op := Idle, endOffset := 0, published := 0, checkpoint := 0, reader := 0,
                                             pressure := false)))
  }

  // ---------------------------------------------------------------- the ingest worker

  ghost predicate WorkerRuns(s: State) {
    s.process.Up? && s.process.mem.phase.Serving? && !Compacting(s.process.mem.op)
  }

  ghost predicate ReadBatch(c: Config, s: State, s': State, max: nat) {
    && WorkerRuns(s) && s.process.mem.worker.Waiting?
    && var m := s.process.mem;
       var r := ReadFrom(c.sum, s.disk.log.cur, m.reader, m.published, max);
       s' == s.(process := Up(if r.failed then m.(reader := r.offset, worker := Stopped)
                              else if r.records == [] then m
                              else m.(reader := r.offset, worker := Read(r.records, m.reader, r.offset))))
  }

  ghost predicate Commit(s: State, s': State) {
    && WorkerRuns(s) && s.process.mem.worker.Read?
    && var w := s.process.mem.worker;
       && s'.disk == s.disk
       && s'.process == Up(s.process.mem.(worker := Committed(w.start, w.end)))
       && s'.hist == s.hist.(committed := s.hist.committed + set r | r in w.records)
  }

  /** The batch was not accepted, or its checkpoint could not be written: read it again. */
  ghost predicate ResetReader(s: State, s': State) {
    && WorkerRuns(s) && (s.process.mem.worker.Read? || s.process.mem.worker.Committed?)
    && s' == s.(process := Up(s.process.mem.(worker := Waiting, reader := s.process.mem.worker.start)))
  }

  /** A temporary file that is not synced is renamed over the checkpoint. */
  ghost predicate StoreCheckpoint(s: State, s': State) {
    && WorkerRuns(s) && s.process.mem.worker.Committed?
    && var m := s.process.mem;
       && m.checkpoint <= m.worker.end <= m.published
       && s' == s.(disk := s.disk.(checkpoint := Cell(Offset(m.worker.end), iset{Offset(m.worker.end), Short}),
                                   stale := s.disk.stale + s.disk.checkpoint.may),
                   process := Up(m.(worker := Waiting, checkpoint := m.worker.end)))
  }

  // ---------------------------------------------------------------- ends of a process

  ghost predicate Kill(s: State, s': State) {
    s' == s.(process := Down)
  }

  ghost predicate PowerLoss(s: State, s': State) {
    Survives(s.disk, s'.disk) && s'.process == Down && s'.hist == s.hist
  }

  // ---------------------------------------------------------------- runs

  ghost predicate OpenStep(c: Config, s: State, s': State) {
    || OpenRead(c, s, s') || OpenRepairSync(s, s') || OpenRefuse(c, s, s') || OpenList(c, s, s')
    || (exists id: Uuid :: OpenReadable(c, s, s', id))
    || (exists id: Uuid :: OpenUndecodable(c, s, s', id))
    || (exists id: Uuid :: OpenTrim(c, s, s', id))
    || (exists id: Uuid :: OpenRetain(s, s', id))
    || OpenSyncDir(s, s')
    || (exists id: Uuid :: OpenAppend(c, s, s', id))
    || OpenDone(s, s')
  }

  ghost predicate AdmitStep(c: Config, s: State, s': State, id: Uuid) {
    || Admit(c, s, s', id) || AdmitDenied(s, s')
    || StepCreateSlot(s, s', id) || StepAllocateSlot(s, s', id) || StepSyncSlot(s, s', id)
    || StepCreateIntent(s, s', id) || StepWriteIntent(c, s, s', id) || StepSyncIntent(s, s', id)
    || StepSyncEntries(s, s', id)
  }

  ghost predicate SaveStep(c: Config, s: State, s': State, id: Uuid) {
    || AppendReserved(c, s, s', id) || AppendUnreserved(c, s, s', id)
    || StepWritePayload(c, s, s', id) || (exists y :: StepWritePayloadFails(c, s, s', id, y))
    || StepWriteHeader(c, s, s', id) || StepSyncTerminal(s, s', id)
  }

  ghost predicate LogStep(c: Config, s: State, s': State, id: Uuid) {
    || (exists reserved :: StepWriteFrame(c, s, s', id, reserved))
    || (exists reserved, k :: StepWriteFrameFails(c, s, s', id, reserved, k))
    || StepSyncFrame(s, s', id)
    || StepUnlinkIntent(s, s', id) || StepSyncIntentGone(s, s', id)
    || StepUnlinkSlot(s, s', id) || StepSyncSlotGone(s, s', id)
  }

  ghost predicate CompactStep(c: Config, s: State, s': State) {
    || IoFailure(s, s') || SyncData(s, s') || SyncDataFails(s, s')
    || CompactBegin(c, s, s') || StepCompactSyncLog(s, s') || StepCompactRename(s, s') || StepCompactSyncDir(s, s')
    || StepCompactTruncate(s, s') || StepCompactSyncTruncated(s, s')
  }

  ghost predicate WorkerStep(c: Config, s: State, s': State) {
    || (exists max :: ReadBatch(c, s, s', max))
    || Commit(s, s') || ResetReader(s, s') || StoreCheckpoint(s, s')
  }

  ghost predicate Next(c: Config, s: State, s': State) {
    || OpenStep(c, s, s')
    || (exists id: Uuid :: AdmitStep(c, s, s', id))
    || (exists id: Uuid :: SaveStep(c, s, s', id))
    || (exists id: Uuid :: LogStep(c, s, s', id))
    || CompactStep(c, s, s')
    || WorkerStep(c, s, s')
    || Kill(s, s')
    || PowerLoss(s, s')
  }

  ghost predicate Run(c: Config, run: seq<State>) {
    && |run| > 0
    && Init(run[0])
    && forall i :: 0 <= i < |run| - 1 ==> Next(c, run[i], run[i + 1])
  }
}
