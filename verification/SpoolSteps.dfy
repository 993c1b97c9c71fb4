/** Every step of the protocol keeps the invariant. */
module SpoolSteps {
  import opened Bytes
  import opened Frames
  import opened Slots
  import opened SpoolFile
  import opened Spool
  import opened SpoolLog
  import opened SpoolFiles
  import opened SpoolInvariant

  // ---------------------------------------------------------------- open

  lemma NothingCovered(c: Config, b: Bytes, done: set<Record>)
    ensures Covered(c, b, 0, done)
  {
    hide Frame, Cat, End;
    var rs := Log(c, b);
    forall k | 1 <= k <= |rs|
      ensures End(c.sum, rs, k) > 0
    {
      EndStep(c.sum, rs, k - 1);
    }
  }

  lemma CheckpointCovers(c: Config, d: Disk, h: History)
    requires DiskInv(c, d, h)
    ensures Covered(c, d.log.cur, CheckpointValue(d.checkpoint.cur), h.committed)
  {
    hide Covered, LogOk, FilesInv;
    var k := d.checkpoint.cur;
    if k.Offset? {
      assert k in Checkpoints(d);
    } else {
      NothingCovered(c, d.log.cur, h.committed);
    }
  }

  lemma OpenReadDisk(c: Config, s: State, s': State)
    requires Inv(c, s) && OpenRead(c, s, s')
    ensures DiskInv(c, s'.disk, s'.hist)
    ensures Whole(c.sum, s'.disk.log.cur) && |s'.disk.log.cur| == s'.process.mem.endOffset
  {
    var log := s.disk.log;
    RepairKeeps(c, log, Checkpoints(s.disk), s.hist);
    hide LogInv, FilesInv, CoverInv, Keeps;
    if s.disk != s'.disk {
      FilesKeep(c, s.disk, s.hist, s'.disk, s.hist);
    } else {
      assert log.cur[..|log.cur|] == log.cur;
    }
  }

  lemma OpenReadInv(c: Config, s: State, s': State)
    requires Inv(c, s) && OpenRead(c, s, s')
    ensures Inv(c, s')
  {
    hide DiskInv, Covered, Whole;
    OpenReadDisk(c, s, s');
    CheckpointCovers(c, s'.disk, s'.hist);
  }

  lemma OpenRepairSyncInv(c: Config, s: State, s': State)
    requires Inv(c, s) && OpenRepairSync(s, s')
    ensures Inv(c, s')
  {
    hide LogInv, FilesInv, CoverInv, LogView, Keeps, IngestInv;
    SyncKeeps(c, s.disk.log, Checkpoints(s.disk), s.hist);
    FilesKeep(c, s.disk, s.hist, s'.disk, s'.hist);
  }

  lemma SavedVisible(c: Config, d: Disk, h: History, id: Uuid)
    requires LogInv(c, d.log, h) && FilesInv(c, d, h) && id in h.saved && id in h.granted
    ensures id in d.files
    ensures Rec(c, id) in h.committed || Rec(c, id) in Log(c, d.log.cur)
            || (Visible(d, id) && !SlotReads(c, d, id, Unreadable))
  {
    hide Log, LogOk, Torn, Image, ReadTerminal;
    var f := d.files[id];
    assert FileInv(c, id, f, Recorded(c, d.log, h.committed, id), h);
    if Durable(c, id, f) {
      ImageReadable(c.sum, c.payload(id), f.slot.cur);
    }
  }

  lemma BoundaryWithin(c: Config, b: Bytes, offset: nat)
    requires Whole(c.sum, b) && Boundary(c.sum, Log(c, b), offset)
    ensures offset <= |b|
  {
    hide Frame, Cat, End;
    var rs := Log(c, b);
    var k :| 0 <= k <= |rs| && End(c.sum, rs, k) == offset;
    EndMonotone(c.sum, rs, k, |rs|);
    EndOfAll(c.sum, rs);
    WholeIsCat(c, b);
  }

  lemma ListedAccounted(c: Config, s: State, todo: set<Uuid>)
    requires DiskInv(c, s.disk, s.hist) && todo == set id | id in s.disk.files && Visible(s.disk, id)
    ensures Accounted(c, s.disk.log.cur, s.hist, todo + {})
  {
    hide Log, CoverInv, LogInv, FilesInv, SlotReads;
    forall id | id in s.hist.saved && id in s.hist.granted
      ensures Rec(c, id) in s.hist.committed || Rec(c, id) in Log(c, s.disk.log.cur) || id in todo
    {
      SavedVisible(c, s.disk, s.hist, id);
    }
  }

  lemma OpenListInv(c: Config, s: State, s': State)
    requires Inv(c, s) && OpenList(c, s, s')
    ensures Inv(c, s')
  {
    hide Covered, DiskInv, Boundary, Whole, SlotReads, Accounted, Records;
    assert Boundary(c.sum, Log(c, s.disk.log.cur), s.process.mem.checkpoint);
    hide Log;
    WholeIsCat(c, s.disk.log.cur);
    BoundaryWithin(c, s.disk.log.cur, s.process.mem.checkpoint);
    ListedAccounted(c, s, s'.process.mem.phase.todo);
  }

  lemma OpenReadableInv(c: Config, s: State, s': State, id: Uuid)
    requires Inv(c, s) && OpenReadable(c, s, s', id)
    ensures Inv(c, s')
  {
    hide LogInv, CoverInv, LogView, IngestInv, Accounted, ListingInv, FilesInv, OpInv, CompactInv, ActiveInv, ReadTerminal;
    var p := s.process.mem.phase;
    ListingFound(c, s.disk, s.hist, p.todo, p.found, id);
    OpeningInv(c, s, s');
  }

  lemma ListingFound(c: Config, d: Disk, h: History, todo: set<Uuid>, found: set<Uuid>, id: Uuid)
    requires ListingInv(c, d, todo, found) && Accounted(c, d.log.cur, h, todo + found)
    requires id in todo && id in d.files && !SlotReads(c, d, id, Unreadable)
    ensures ListingInv(c, d, todo - {id}, found + {id})
    ensures Accounted(c, d.log.cur, h, (todo - {id}) + (found + {id}))
  {
    hide SlotReads, Visible, Log;
    assert todo + found == (todo - {id}) + (found + {id});
  }

  /** While `open` reads the admission files, only those and its own progress change. */
  lemma OpeningInv(c: Config, s: State, s': State)
    requires Inv(c, s) && s.process.Up? && !Live(s.process.mem.phase)
    requires s'.process.Up?
    requires s'.process.mem.(retained := s.process.mem.retained, recovered := s.process.mem.recovered) ==
             s.process.mem.(phase := s'.process.mem.phase)
    requires s'.disk == s.disk.(files := s'.disk.files) && s'.hist == s.hist.(unknown := s'.hist.unknown)
    requires !Live(s'.process.mem.phase) && s.process.mem.phase.Repairing? == s'.process.mem.phase.Repairing?
    requires FilesInv(c, s'.disk, s'.hist)
    requires PhaseInv(c, s'.disk, s'.process.mem.phase, {}, s.process.mem.checkpoint, s'.hist)
    ensures Inv(c, s')
  {
    hide Log, IngestInv, LogView, CoverInv, Recorded, FilesInv, Accounted, ListingInv, SlotReads, Visible, Framed, Genuine, AllIn;
  }

  lemma OpenTrimFiles(c: Config, s: State, s': State, id: Uuid)
    requires FilesInv(c, s.disk, s.hist) && OpenTrim(c, s, s', id)
    ensures FilesInv(c, s'.disk, s'.hist) && SlotReads(c, s'.disk, id, Unreadable)
  {
    hide Recorded, ReadTerminal, Trim, FilesInv, FileInv;
    var f := s.disk.files[id];
    FileOf(c, s.disk, s.hist, id);
    if f.slotEntry.cur {
      Trimmed(c, id, f, Recorded(c, s.disk.log, s.hist.committed, id), s.hist);
    }
    FilesOne(c, s.disk, s.hist, id, s'.disk.files[id], s'.disk, s'.hist);
  }

  lemma OpenTrimInv(c: Config, s: State, s': State, id: Uuid)
    requires Inv(c, s) && OpenTrim(c, s, s', id)
    ensures Inv(c, s')
  {
    hide LogInv, CoverInv, IngestInv, LogView, FilesInv, OpInv, CompactInv, ActiveInv, Log, ReadTerminal, Trim;
    OpenTrimFiles(c, s, s', id);
    var p := s.process.mem.phase;
    assert p.todo + p.found == (p.todo - {id}) + p.found + {id};
    OpeningInv(c, s, s');
  }

  lemma RetainedAccounted(c: Config, s: State, id: Uuid)
    requires Inv(c, s) && s.process.Up? && s.process.mem.phase.Retaining? && s.process.mem.phase.id == id
    ensures Accounted(c, s.disk.log.cur, s.hist, s.process.mem.phase.todo + s.process.mem.phase.found)
  {
    hide Log, LogInv, IngestInv, LogView, CoverInv, FilesInv, SlotReads, ListingInv;
    if id in s.hist.saved && id in s.hist.granted {
      SavedVisible(c, s.disk, s.hist, id);
    }
  }

  lemma RetainedStuck(c: Config, d: Disk, h: History, id: Uuid)
    requires FilesInv(c, d, h) && Visible(d, id) && SlotReads(c, d, id, Unreadable)
    ensures var f := d.files[id];
            var f' := if f.slotEntry.cur then f.(slot := Synced(f.slot)) else f;
            FileInv(c, id, f', Recorded(c, d.log, h.committed, id), h.(unknown := h.unknown + {id}))
  {
    hide Recorded, ReadTerminal, Torn, AllZero, Sound, Image;
    var f := d.files[id];
    assert FileInv(c, id, f, Recorded(c, d.log, h.committed, id), h);
    SlotSynced(c, id, f, Recorded(c, d.log, h.committed, id), h);
    if !f.slotEntry.cur {
      assert f.intentEntry.cur && f.intentEntry.cur in f.intentEntry.may;
      assert forall b :: b in f.slotEntry.may <==> b in iset{false};
      assert f.slotEntry.may == iset{false};
    }
  }

  lemma OpenRetainFiles(c: Config, s: State, s': State, id: Uuid)
    requires FilesInv(c, s.disk, s.hist) && OpenRetain(s, s', id)
    requires Visible(s.disk, id) && SlotReads(c, s.disk, id, Unreadable)
    ensures FilesInv(c, s'.disk, s'.hist)
  {
    hide Recorded, SlotReads, FilesInv, FileInv, Visible;
    RetainedStuck(c, s.disk, s.hist, id);
    FilesOne(c, s.disk, s.hist, id, s'.disk.files[id], s'.disk, s'.hist);
  }

  lemma OpenRetainInv(c: Config, s: State, s': State, id: Uuid)
    requires Inv(c, s) && OpenRetain(s, s', id)
    ensures Inv(c, s')
  {
    hide LogInv, CoverInv, IngestInv, LogView, FilesInv, OpInv, CompactInv, ActiveInv, Log, ReadTerminal;
    OpenRetainFiles(c, s, s', id);
    RetainedAccounted(c, s, id);
    OpeningInv(c, s, s');
  }

  lemma OpenSyncDirFiles(c: Config, s: State, s': State)
    requires FilesInv(c, s.disk, s.hist) && OpenSyncDir(s, s')
    requires ListingInv(c, s.disk, {}, s.process.mem.phase.found)
    ensures FilesInv(c, s'.disk, s'.hist)
    ensures ActiveInv(s'.disk.files, s.process.mem.phase.found, s'.hist.unknown)
    ensures Presented(c, s.process.mem.phase.found, s'.hist.issued)
  {
    hide Recorded, SlotReads, FilesInv, SoundSlot, Keeps;
    KeepsSame(c, s.disk.log, s.hist.committed);
    FilesKeep(c, s.disk, s.hist, s'.disk, s'.hist);
    forall id | id in s.process.mem.phase.found
      ensures id !in s.hist.unknown && SoundSlot(s.disk.files[id].slot)
      ensures id in s.hist.issued && |c.payload(id)| <= MAX_PAYLOAD
    {
      FoundActive(c, s.disk, s.hist, id);
    }
  }

  lemma OpenSyncDirInv(c: Config, s: State, s': State)
    requires Inv(c, s) && OpenSyncDir(s, s')
    ensures Inv(c, s')
  {
    hide LogInv, CoverInv, LogView, IngestInv, Accounted, FilesInv, ListingInv, ActiveInv;
    OpenSyncDirFiles(c, s, s');
    OpenSyncDirCovers(c, s.disk, s.hist, s.process.mem.checkpoint);
    OpenSyncDirView(c, s.disk, s.process.mem);
    assert {} + s.process.mem.phase.found == s.process.mem.phase.found;
  }

  lemma KeepsSame(c: Config, log: Cell<Bytes>, done: set<Record>)
    ensures Keeps(c, log, done, log, done)
  {
  }

  /** The directory sync leaves one checkpoint, the one that was found on a frame boundary. */
  lemma OpenSyncDirCovers(c: Config, d: Disk, h: History, checkpoint: nat)
    requires DiskInv(c, d, h)
    ensures CoverInv(c, d.log, Checkpoints(d.(stale := iset{})), h.committed)
  {
    hide FilesInv, LogInv, Covered;
  }

  lemma OpenSyncDirView(c: Config, d: Disk, m: Mem)
    requires LogView(c, d.log.cur, Checkpoints(d), m.failed, m.op.CompactSyncTruncated?, Live(m.phase), m.endOffset)
    requires CheckpointOk(d.checkpoint) && m.checkpoint == CheckpointValue(d.checkpoint.cur) <= |d.log.cur|
    ensures LogView(c, d.log.cur, Checkpoints(d.(stale := iset{})), m.failed, m.op.CompactSyncTruncated?, true, m.endOffset)
  {
    hide Whole;
  }

  /** A readable slot is that of an active request whose record was presented. */
  lemma FoundActive(c: Config, d: Disk, h: History, id: Uuid)
    requires FilesInv(c, d, h) && id in d.files && !SlotReads(c, d, id, Unreadable)
    ensures id !in h.unknown && SoundSlot(d.files[id].slot)
    ensures id in h.issued && |c.payload(id)| <= MAX_PAYLOAD
  {
    hide Recorded, ReadTerminal, Torn, Sound;
    var f := d.files[id];
    FileOf(c, d, h, id);
    TornReadsTrue(c.sum, c.payload(id), f.slot.cur);
    if id !in h.issued {
      ZeroHeaderUnreadable(c.sum, f.slot.cur);
    }
  }

  /** A slot that decodes holds precisely the record that was presented for its request. */
  lemma DecodedGenuine(c: Config, d: Disk, h: History, id: Uuid)
    requires FilesInv(c, d, h) && id in d.files && Codec(c)
    requires var t := SlotContent(c, d.files[id]); t.Readable? && c.decodes(id, t.schema, t.payload)
    ensures SlotContent(c, d.files[id]) == Readable(SCHEMA, c.payload(id))
  {
    hide Recorded, ReadTerminal, Torn, Sound;
    FileOf(c, d, h, id);
    TornReadsTrue(c.sum, c.payload(id), d.files[id].slot.cur);
  }

  lemma OpenAppendInv(c: Config, s: State, s': State, id: Uuid)
    requires Inv(c, s) && OpenAppend(c, s, s', id)
    ensures Inv(c, s')
  {
    hide LogInv, CoverInv, LogView, IngestInv, Accounted, FilesInv, ActiveInv;
  }

  lemma OpenDoneInv(c: Config, s: State, s': State)
    requires Inv(c, s) && OpenDone(s, s')
    ensures Inv(c, s')
  {
    hide LogInv, CoverInv, LogView, IngestInv, Accounted, FilesInv, ActiveInv;
  }

  // ---------------------------------------------------------------- admission

  /** Steps that touch only the admission files and the operation under way. */
  lemma LiveInv(c: Config, s: State, s': State)
    requires Inv(c, s) && s.process.Up? && Live(s.process.mem.phase) && !Compacting(s.process.mem.op)
    requires s'.process.Up? && Live(s'.process.mem.phase) && !Compacting(s'.process.mem.op)
    requires s'.process.mem == s.process.mem.(op := s'.process.mem.op, ids := s'.process.mem.ids, phase := s'.process.mem.phase)
    requires s'.disk == s.disk.(files := s'.disk.files)
    requires s'.hist == s.hist.(granted := s'.hist.granted, saved := s'.hist.saved)
    requires FilesInv(c, s'.disk, s'.hist)
    requires PhaseInv(c, s'.disk, s'.process.mem.phase, s'.process.mem.ids, s'.process.mem.checkpoint, s'.hist)
    requires Quiet(s'.process.mem.phase, s'.process.mem.op, s'.process.mem.worker, s'.process.mem.failed, s'.process.mem.ids)
    requires OpInv(c, s'.disk, s'.process.mem.op, s'.process.mem.ids, s'.process.mem.phase, s'.hist)
    requires ActiveInv(s'.disk.files, s'.process.mem.ids, s'.hist.unknown)
    ensures Inv(c, s')
  {
    hide Log, IngestInv, LogView, CoverInv, FilesInv, PhaseInv, OpInv, ActiveInv, Framed, Genuine, AllIn;
  }

  lemma AdmitInv(c: Config, s: State, s': State, id: Uuid)
    requires Inv(c, s) && Admit(c, s, s', id)
    ensures Inv(c, s')
  {
    hide LogInv, CoverInv, LogView, IngestInv, FilesInv;
  }

  lemma AdmitDeniedInv(c: Config, s: State, s': State)
    requires Inv(c, s) && AdmitDenied(s, s')
    ensures Inv(c, s')
  {
    hide LogInv, CoverInv, LogView, IngestInv, FilesInv, ActiveInv;
  }

  lemma CreateSlotFiles(c: Config, s: State, s': State, id: Uuid)
    requires FilesInv(c, s.disk, s.hist) && StepCreateSlot(s, s', id)
    ensures FilesInv(c, s'.disk, s'.hist) && NewFiles(s'.disk, s'.hist, id) && SoundSlot(s'.disk.files[id].slot)
  {
    hide Recorded, ReadTerminal, Torn;
    ZeroIsTorn(c.sum, c.payload(id), []);
    FilesOne(c, s.disk, s.hist, id, s'.disk.files[id], s'.disk, s'.hist);
  }

  lemma CreateSlotInv(c: Config, s: State, s': State, id: Uuid)
    requires Inv(c, s) && StepCreateSlot(s, s', id)
    ensures Inv(c, s')
  {
    hide LogInv, CoverInv, LogView, IngestInv, FilesInv, SoundSlot, AllZero;
    CreateSlotFiles(c, s, s', id);
    LiveInv(c, s, s');
  }

  /** One file of a new reservation changes, and its slot stays zero. */
  lemma ReserveFiles(c: Config, d: Disk, h: History, id: Uuid, f: Files, d': Disk)
    requires FilesInv(c, d, h) && NewFiles(d, h, id) && d' == d.(files := d.files[id := f])
    requires f.slotEntry == d.files[id].slotEntry && CellOk(f.intentEntry) && CellOk(f.intent)
    requires forall b :: b in f.intent.may ==> |b| <= MAX_INTENT
    requires f.slot == d.files[id].slot || f.slot == Synced(d.files[id].slot)
             || f.slot == Written(d.files[id].slot, Zeros(SLOT_BYTES), iset k | 0 <= k <= SLOT_BYTES :: Zeros(k))
    ensures FilesInv(c, d', h) && NewFiles(d', h, id) && SoundSlot(f.slot)
  {
    hide Recorded, ReadTerminal, Torn, Image;
    FileOf(c, d, h, id);
    forall y | y in f.slot.may
      ensures AllZero(y) && Torn(c.sum, c.payload(id), y) && Sound(y)
    {
      if y !in d.files[id].slot.may { ZeroIsTorn(c.sum, c.payload(id), y); }
    }
    FilesOne(c, d, h, id, f, d', h);
  }

  lemma FileCells(c: Config, d: Disk, h: History, id: Uuid)
    requires FilesInv(c, d, h) && id in d.files
    ensures EntriesOk(d.files[id])
  {
  }

  lemma AllocateSlotInv(c: Config, s: State, s': State, id: Uuid)
    requires Inv(c, s) && StepAllocateSlot(s, s', id)
    ensures Inv(c, s')
  {
    hide LogInv, CoverInv, LogView, IngestInv, FilesInv, SoundSlot, AllZero, FileInv, Recorded;
    FileCells(c, s.disk, s.hist, id);
    ReserveFiles(c, s.disk, s.hist, id, s'.disk.files[id], s'.disk);
    LiveInv(c, s, s');
  }

  lemma SyncSlotInv(c: Config, s: State, s': State, id: Uuid)
    requires Inv(c, s) && StepSyncSlot(s, s', id)
    ensures Inv(c, s')
  {
    hide LogInv, CoverInv, LogView, IngestInv, FilesInv, SoundSlot, AllZero, FileInv, Recorded;
    FileCells(c, s.disk, s.hist, id);
    ReserveFiles(c, s.disk, s.hist, id, s'.disk.files[id], s'.disk);
    LiveInv(c, s, s');
  }

  lemma CreateIntentInv(c: Config, s: State, s': State, id: Uuid)
    requires Inv(c, s) && StepCreateIntent(s, s', id)
    ensures Inv(c, s')
  {
    hide LogInv, CoverInv, LogView, IngestInv, FilesInv, SoundSlot, AllZero, FileInv, Recorded;
    FileCells(c, s.disk, s.hist, id);
    ReserveFiles(c, s.disk, s.hist, id, s'.disk.files[id], s'.disk);
    LiveInv(c, s, s');
  }

  lemma WriteIntentInv(c: Config, s: State, s': State, id: Uuid)
    requires Inv(c, s) && StepWriteIntent(c, s, s', id)
    ensures Inv(c, s')
  {
    hide LogInv, CoverInv, LogView, IngestInv, FilesInv, SoundSlot, AllZero, FileInv, Recorded;
    FileCells(c, s.disk, s.hist, id);
    ReserveFiles(c, s.disk, s.hist, id, s'.disk.files[id], s'.disk);
    LiveInv(c, s, s');
  }

  lemma SyncIntentInv(c: Config, s: State, s': State, id: Uuid)
    requires Inv(c, s) && StepSyncIntent(s, s', id)
    ensures Inv(c, s')
  {
    hide LogInv, CoverInv, LogView, IngestInv, FilesInv, SoundSlot, AllZero, FileInv, Recorded;
    FileCells(c, s.disk, s.hist, id);
    ReserveFiles(c, s.disk, s.hist, id, s'.disk.files[id], s'.disk);
    LiveInv(c, s, s');
  }

  lemma SyncEntriesInv(c: Config, s: State, s': State, id: Uuid)
    requires Inv(c, s) && StepSyncEntries(s, s', id)
    ensures Inv(c, s')
  {
    hide LogInv, CoverInv, LogView, IngestInv, FilesInv, SoundSlot;
    EntriesSyncedKeeps(c, s.disk, s.hist, id, s'.disk, s'.hist);
    LiveInv(c, s, s');
  }

  // ---------------------------------------------------------------- append: the terminal slot

  /** A request is presented to `append`: more is issued, one operation begins. */
  lemma AppendBegins(c: Config, s: State, s': State, id: Uuid)
    requires Inv(c, s) && Ready(s)
    requires s'.disk == s.disk && s'.hist == s.hist.(issued := s.hist.issued + {id})
    requires s'.process.Up? && s'.process == Up(s.process.mem.(op := s'.process.mem.op)) && !Compacting(s'.process.mem.op)
    requires Quiet(Serving, s'.process.mem.op, s.process.mem.worker, s.process.mem.failed, s.process.mem.ids)
    requires OpInv(c, s.disk, s'.process.mem.op, s.process.mem.ids, Serving, s'.hist)
    ensures Inv(c, s')
  {
    hide LogInv, CoverInv, LogView, IngestInv, FilesInv, OpInv, ActiveInv, Keeps;
    HistoryKeeps(c, s.disk.log, Checkpoints(s.disk), s.hist, s'.hist);
    FilesKeep(c, s.disk, s.hist, s'.disk, s'.hist);
  }

  lemma AppendReservedInv(c: Config, s: State, s': State, id: Uuid)
    requires Inv(c, s) && AppendReserved(c, s, s', id)
    ensures Inv(c, s')
  {
    hide DiskInv, LogView, IngestInv, ActiveInv;
    AppendBegins(c, s, s', id);
  }

  lemma AppendUnreservedInv(c: Config, s: State, s': State, id: Uuid)
    requires Inv(c, s) && AppendUnreserved(c, s, s', id)
    ensures Inv(c, s')
  {
    hide DiskInv, LogView, IngestInv, ActiveInv;
    AppendBegins(c, s, s', id);
  }

  /** One slot of an active reservation changes. */
  lemma SlotWriteFiles(c: Config, d: Disk, h: History, id: Uuid, slot: Cell<Bytes>, d': Disk, h': History)
    requires FilesInv(c, d, h) && id in d.files && d' == d.(files := d.files[id := d.files[id].(slot := slot)])
    requires h' == h || h' == h.(saved := h.saved + {id})
    requires FileInv(c, id, d.files[id].(slot := slot), Recorded(c, d.log, h.committed, id), h')
    ensures FilesInv(c, d', h')
  {
    hide FilesInv, FileInv, Recorded;
    FilesOne(c, d, h, id, d.files[id].(slot := slot), d', h');
  }

  lemma WritePayloadFiles(c: Config, d: Disk, h: History, id: Uuid, y: Bytes)
    requires FilesInv(c, d, h) && id in d.files && SoundSlot(d.files[id].slot) && id in h.issued && id !in h.unknown
    requires |c.payload(id)| <= MAX_PAYLOAD && PartPayload(d.files[id].slot.cur, c.payload(id), y)
    ensures var slot := Written(d.files[id].slot, y, PayloadWrites(d.files[id].slot, c.payload(id)));
            && FilesInv(c, d.(files := d.files[id := d.files[id].(slot := slot)]), h)
            && SoundSlot(slot)
  {
    hide FilesInv, FileInv, Recorded, SoundSlot, PartPayload, PayloadWrites;
    var slot := Written(d.files[id].slot, y, PayloadWrites(d.files[id].slot, c.payload(id)));
    FileOf(c, d, h, id);
    PayloadPut(c, id, d.files[id], Recorded(c, d.log, h.committed, id), h, y);
    SlotWriteFiles(c, d, h, id, slot, d.(files := d.files[id := d.files[id].(slot := slot)]), h);
  }

  lemma WritePayloadInv(c: Config, s: State, s': State, id: Uuid)
    requires Inv(c, s) && StepWritePayload(c, s, s', id)
    ensures Inv(c, s')
  {
    hide LogInv, CoverInv, LogView, IngestInv, FilesInv, SoundSlot, PayloadWrites, PartPayload, PutPayload, PayloadWritten, Accounted;
    PutPayloadIsPart(c.payload(id), s.disk.files[id].slot.cur);
    PutPayloadWrites(c.payload(id), s.disk.files[id].slot.cur);
    WritePayloadFiles(c, s.disk, s.hist, id, PutPayload(s.disk.files[id].slot.cur, c.payload(id)));
    LiveInv(c, s, s');
  }

  /** After a failed system call: a serving process keeps going, with its failure latched. */
  lemma FailedInv(c: Config, s: State, s': State)
    requires Inv(c, s) && s.process.Up? && s'.process == Failed(s.process.mem) && s'.hist == s.hist
    requires DiskInv(c, s'.disk, s'.hist)
    requires var m := s.process.mem;
             IngestInv(c, s'.disk.log.cur, m.checkpoint, m.published, m.reader, m.worker, !m.phase.Repairing?, true, s.hist.committed)
    requires ActiveInv(s'.disk.files, s.process.mem.ids, s.hist.unknown)
    ensures Inv(c, s')
  {
    hide DiskInv, IngestInv, ActiveInv;
  }

  lemma IngestBroken(c: Config, s: State)
    requires Inv(c, s) && s.process.Up?
    ensures var m := s.process.mem;
            IngestInv(c, s.disk.log.cur, m.checkpoint, m.published, m.reader, m.worker, !m.phase.Repairing?, true, s.hist.committed)
  {
    hide DiskInv, Covered, Boundary, Log;
  }

  lemma WritePayloadFailsInv(c: Config, s: State, s': State, id: Uuid, y: Bytes)
    requires Inv(c, s) && StepWritePayloadFails(c, s, s', id, y)
    ensures Inv(c, s')
  {
    hide LogInv, CoverInv, LogView, IngestInv, FilesInv, SoundSlot, PayloadWrites, PartPayload, PayloadWritten, Accounted;
    WritePayloadFiles(c, s.disk, s.hist, id, y);
    IngestBroken(c, s);
    FailedInv(c, s, s');
  }

  lemma IoFailureInv(c: Config, s: State, s': State)
    requires Inv(c, s) && IoFailure(s, s')
    ensures Inv(c, s')
  {
    hide DiskInv, LogView, IngestInv, PhaseInv, OpInv, CompactInv, ActiveInv;
    IngestBroken(c, s);
    FailedInv(c, s, s');
  }

  lemma WriteHeaderFiles(c: Config, d: Disk, h: History, id: Uuid)
    requires FilesInv(c, d, h) && id in d.files && SoundSlot(d.files[id].slot) && id in h.issued && id !in h.unknown
    requires |c.payload(id)| <= MAX_PAYLOAD && PayloadWritten(c.payload(id), d.files[id].slot.cur)
    ensures var x := d.files[id].slot;
            var head := SlotHeader(c.sum, c.payload(id));
            var slot := Written(x, PutHeader(x.cur, head), iset y | y in x.may :: PutHeader(y, head));
            && FilesInv(c, d.(files := d.files[id := d.files[id].(slot := slot)]), h)
            && SoundSlot(slot) && Image(c.sum, c.payload(id), slot.cur)
  {
    hide FilesInv, FileInv, Recorded, SoundSlot, SlotHeader, PutHeader, PayloadWritten, Image;
    var x := d.files[id].slot;
    var head := SlotHeader(c.sum, c.payload(id));
    var slot := Written(x, PutHeader(x.cur, head), iset y | y in x.may :: PutHeader(y, head));
    FileOf(c, d, h, id);
    HeaderPut(c, id, d.files[id], Recorded(c, d.log, h.committed, id), h);
    SlotWriteFiles(c, d, h, id, slot, d.(files := d.files[id := d.files[id].(slot := slot)]), h);
  }

  lemma WriteHeaderInv(c: Config, s: State, s': State, id: Uuid)
    requires Inv(c, s) && StepWriteHeader(c, s, s', id)
    ensures Inv(c, s')
  {
    hide LogInv, CoverInv, LogView, IngestInv, FilesInv, SoundSlot, SlotHeader, PutHeader, PayloadWritten, Accounted, Image;
    WriteHeaderFiles(c, s.disk, s.hist, id);
    LiveInv(c, s, s');
  }

  lemma SyncTerminalFiles(c: Config, d: Disk, h: History, id: Uuid)
    requires FilesInv(c, d, h) && id in d.files && Image(c.sum, c.payload(id), d.files[id].slot.cur)
    ensures var slot := Synced(d.files[id].slot);
            FilesInv(c, d.(files := d.files[id := d.files[id].(slot := slot)]), h.(saved := h.saved + {id}))
  {
    hide FilesInv, FileInv, Recorded, Image;
    var slot := Synced(d.files[id].slot);
    FileOf(c, d, h, id);
    TerminalSynced(c, id, d.files[id], Recorded(c, d.log, h.committed, id), h);
    SlotWriteFiles(c, d, h, id, slot, d.(files := d.files[id := d.files[id].(slot := slot)]), h.(saved := h.saved + {id}));
  }

  lemma SyncTerminalInv(c: Config, s: State, s': State, id: Uuid)
    requires Inv(c, s) && StepSyncTerminal(s, s', id)
    ensures Inv(c, s')
  {
    hide LogInv, CoverInv, LogView, IngestInv, FilesInv, Image, Log;
    SyncTerminalFiles(c, s.disk, s.hist, id);
    FileCells(c, s.disk, s.hist, id);
    LiveInv(c, s, s');
  }

  // ---------------------------------------------------------------- append: the log

  /** Boundaries stay boundaries, and cover what they covered, when a frame is written behind them. */
  lemma BoundaryKept(c: Config, cur: Bytes, id: Uuid, j: nat, offset: nat)
    requires Whole(c.sum, cur) && ValidRecord(Rec(c, id)) && j <= |Frame(c.sum, Rec(c, id))|
    requires Boundary(c.sum, Log(c, cur), offset)
    ensures offset <= |cur|
    ensures Boundary(c.sum, Log(c, cur + Frame(c.sum, Rec(c, id))[..j]), offset)
  {
    hide Frame, Log, Whole, Boundary;
    BoundaryWithin(c, cur, offset);
    AppendedLog(c, cur, id, j);
    BoundaryPrefix(c, Log(c, cur), Log(c, cur + Frame(c.sum, Rec(c, id))[..j]), offset);
  }

  lemma CoveredKept(c: Config, cur: Bytes, id: Uuid, j: nat, offset: nat, done: set<Record>)
    requires Whole(c.sum, cur) && ValidRecord(Rec(c, id)) && j <= |Frame(c.sum, Rec(c, id))|
    requires Covered(c, cur, offset, done) && offset <= |cur|
    ensures Covered(c, cur + Frame(c.sum, Rec(c, id))[..j], offset, done)
  {
    hide Frame, Log, Whole, CoveredIn, Cat;
    AppendedLog(c, cur, id, j);
    WholeIsCat(c, cur);
    CoveredSnoc(c, Log(c, cur), Rec(c, id), offset, done);
  }

  lemma IngestAppended(c: Config, cur: Bytes, id: Uuid, j: nat, m: Mem, done: set<Record>, broken: bool, published: nat)
    requires Whole(c.sum, cur) && ValidRecord(Rec(c, id)) && j <= |Frame(c.sum, Rec(c, id))|
    requires IngestInv(c, cur, m.checkpoint, m.published, m.reader, m.worker, true, false, done)
    requires published == m.published || (published == |cur| + j && j == |Frame(c.sum, Rec(c, id))|)
    ensures IngestInv(c, cur + Frame(c.sum, Rec(c, id))[..j], m.checkpoint, published, m.reader, m.worker, true, broken, done)
  {
    hide Frame, Log, Whole, Boundary, Covered;
    var cur' := cur + Frame(c.sum, Rec(c, id))[..j];
    BoundaryKept(c, cur, id, j, m.checkpoint);
    BoundaryKept(c, cur, id, j, m.published);
    CoveredKept(c, cur, id, j, m.checkpoint, done);
    if m.worker.Read? || m.worker.Committed? {
      BoundaryKept(c, cur, id, j, m.worker.end);
      CoveredKept(c, cur, id, j, m.worker.end, if m.worker.Read? then done + set r | r in m.worker.records else done);
    }
    if published != m.published {
      AppendedLog(c, cur, id, j);
      WholeIsCat(c, cur');
    }
  }

  lemma WriteFrameDisk(c: Config, d: Disk, h: History, id: Uuid, j: nat)
    requires DiskInv(c, d, h) && Whole(c.sum, d.log.cur) && Within(Checkpoints(d), |d.log.cur|)
    requires id in h.issued && ValidRecord(Rec(c, id)) && j <= |Frame(c.sum, Rec(c, id))|
    ensures DiskInv(c, d.(log := Appended(c, d.log, id, j)), h)
    ensures Log(c, d.log.cur) <= Log(c, Appended(c, d.log, id, j).cur)
  {
    hide Frame, LogInv, CoverInv, FilesInv, Keeps, Whole, Log, Within;
    AppendKeeps(c, d.log, Checkpoints(d), h, id, j);
    FilesKeep(c, d, h, d.(log := Appended(c, d.log, id, j)), h);
  }

  lemma AccountedGrows(c: Config, log: Bytes, log': Bytes, h: History, pending: set<Uuid>)
    requires Accounted(c, log, h, pending) && Log(c, log) <= Log(c, log')
    ensures Accounted(c, log', h, pending)
  {
    hide Log;
  }

  lemma WriteFrameIsAppended(c: Config, log: Cell<Bytes>, id: Uuid)
    requires ValidRecord(Rec(c, id))
    ensures var frame := Frame(c.sum, Rec(c, id));
            Written(log, log.cur + frame, FrameWrites(log, frame)) == Appended(c, log, id, |frame|)
  {
    hide Frame;
    var frame := Frame(c.sum, Rec(c, id));
    assert frame[..|frame|] == frame;
  }

  lemma WriteFrameView(c: Config, d: Disk, id: Uuid, failed: bool, end: nat)
    requires ValidRecord(Rec(c, id)) && LogView(c, d.log.cur, Checkpoints(d), failed, false, true, end) && !failed
    ensures var frame := Frame(c.sum, Rec(c, id));
            LogView(c, d.log.cur + frame, Checkpoints(d), failed, false, true, end + |frame|)
  {
    hide Frame, Whole, Log;
    var frame := Frame(c.sum, Rec(c, id));
    AppendedLog(c, d.log.cur, id, |frame|);
    assert frame[..|frame|] == frame;
  }

  lemma WriteFrameInv(c: Config, s: State, s': State, id: Uuid, reserved: bool)
    requires Inv(c, s) && StepWriteFrame(c, s, s', id, reserved)
    ensures Inv(c, s')
  {
    hide Frame, LogInv, CoverInv, FilesInv, IngestInv, Whole, Log, ActiveInv, Accounted, FrameWrites, Appended, Within, Checkpoints;
    var m := s.process.mem;
    var cur := s.disk.log.cur;
    var frame := Frame(c.sum, Rec(c, id));
    WriteFrameIsAppended(c, s.disk.log, id);
    WriteFrameDisk(c, s.disk, s.hist, id, |frame|);
    WriteFrameView(c, s.disk, id, m.failed, m.endOffset);
    WriteFrameIngest(c, s, s', id, reserved);
    hide DiskInv, LogView;
    assert Checkpoints(s'.disk) == Checkpoints(s.disk) by { SameCheckpoints(s.disk, s'.disk); }
    if m.phase.Recovering? {
      AccountedGrows(c, cur, s'.disk.log.cur, s.hist, m.phase.todo);
    }
  }

  lemma SameCheckpoints(d: Disk, d': Disk)
    requires d'.checkpoint == d.checkpoint && d'.stale == d.stale
    ensures Checkpoints(d') == Checkpoints(d)
  {
  }

  lemma WriteFrameIngest(c: Config, s: State, s': State, id: Uuid, reserved: bool)
    requires Inv(c, s) && StepWriteFrame(c, s, s', id, reserved)
    ensures var m := s'.process.mem;
            IngestInv(c, s'.disk.log.cur, m.checkpoint, m.published, m.reader, m.worker, true, false, s.hist.committed)
    ensures reserved ==> Rec(c, id) in Log(c, s'.disk.log.cur)
  {
    hide DiskInv, Frame, IngestInv, Whole, Log, Accounted, FrameWrites;
    var cur := s.disk.log.cur;
    var frame := Frame(c.sum, Rec(c, id));
    assert frame[..|frame|] == frame;
    AppendedLog(c, cur, id, |frame|);
    IngestAppended(c, cur, id, |frame|, s.process.mem, s.hist.committed, false, s'.process.mem.published);
  }

  lemma WriteFrameFailsInv(c: Config, s: State, s': State, id: Uuid, reserved: bool, k: nat)
    requires Inv(c, s) && StepWriteFrameFails(c, s, s', id, reserved, k)
    ensures Inv(c, s')
  {
    hide Frame, LogInv, CoverInv, FilesInv, IngestInv, Whole, Log, ActiveInv, Accounted, FrameWrites;
    WriteFrameDisk(c, s.disk, s.hist, id, k);
    IngestAppended(c, s.disk.log.cur, id, k, s.process.mem, s.hist.committed, true, s.process.mem.published);
    FailedInv(c, s, s');
  }

  lemma SyncLogDisk(c: Config, d: Disk, h: History)
    requires DiskInv(c, d, h)
    ensures DiskInv(c, d.(log := Synced(d.log)), h)
  {
    hide LogInv, CoverInv, FilesInv, Keeps;
    SyncKeeps(c, d.log, Checkpoints(d), h);
    FilesKeep(c, d, h, d.(log := Synced(d.log)), h);
  }

  lemma IngestPublishes(c: Config, cur: Bytes, m: Mem, done: set<Record>)
    requires Whole(c.sum, cur) && IngestInv(c, cur, m.checkpoint, m.published, m.reader, m.worker, true, false, done)
    ensures IngestInv(c, cur, m.checkpoint, |cur|, m.reader, m.worker, true, false, done)
  {
    hide Log, Whole, Boundary, Covered;
    BoundaryWithin(c, cur, m.published);
    WholeIsCat(c, cur);
  }

  lemma SyncFrameInv(c: Config, s: State, s': State, id: Uuid)
    requires Inv(c, s) && StepSyncFrame(s, s', id)
    ensures Inv(c, s')
  {
    hide LogInv, CoverInv, FilesInv, IngestInv, Whole, Log, ActiveInv, Accounted;
    SyncLogDisk(c, s.disk, s.hist);
    IngestPublishes(c, s.disk.log.cur, s.process.mem, s.hist.committed);
  }

  // ---------------------------------------------------------------- append: retiring the reservation

  /** The entries of a request whose record is safe may go, the intent first. */
  lemma RetireFile(c: Config, d: Disk, h: History, id: Uuid, f: Files, d': Disk)
    requires FilesInv(c, d, h) && id in d.files && d' == d.(files := d.files[id := f])
    requires Recorded(c, d.log, h.committed, id) && id !in h.unknown
    requires || f == d.files[id].(intentEntry := Written(d.files[id].intentEntry, false, iset{}))
             || (f == d.files[id].(slotEntry := Written(d.files[id].slotEntry, false, iset{})) && d.files[id].intentEntry.may == iset{false})
    ensures FilesInv(c, d', h)
  {
    hide Recorded, SlotOk, FilesInv;
    FileOf(c, d, h, id);
    FilesOne(c, d, h, id, f, d', h);
  }

  lemma UnlinkIntentInv(c: Config, s: State, s': State, id: Uuid)
    requires Inv(c, s) && StepUnlinkIntent(s, s', id)
    ensures Inv(c, s')
  {
    hide LogInv, CoverInv, LogView, IngestInv, FilesInv, SoundSlot, Accounted, Recorded;
    RetireFile(c, s.disk, s.hist, id, s'.disk.files[id], s'.disk);
    LiveInv(c, s, s');
  }

  lemma UnlinkSlotInv(c: Config, s: State, s': State, id: Uuid)
    requires Inv(c, s) && StepUnlinkSlot(s, s', id)
    ensures Inv(c, s')
  {
    hide LogInv, CoverInv, LogView, IngestInv, FilesInv, SoundSlot, Accounted, Recorded;
    RetireFile(c, s.disk, s.hist, id, s'.disk.files[id], s'.disk);
    LiveInv(c, s, s');
  }

  lemma SyncIntentGoneInv(c: Config, s: State, s': State, id: Uuid)
    requires Inv(c, s) && StepSyncIntentGone(s, s', id)
    ensures Inv(c, s')
  {
    hide LogInv, CoverInv, LogView, IngestInv, FilesInv, SoundSlot, Accounted, Recorded;
    EntriesSyncedKeeps(c, s.disk, s.hist, id, s'.disk, s'.hist);
    LiveInv(c, s, s');
  }

  lemma AccountedRecorded(c: Config, d: Disk, h: History, pending: set<Uuid>, id: Uuid)
    requires LogInv(c, d.log, h) && Recorded(c, d.log, h.committed, id) && Accounted(c, d.log.cur, h, pending)
    ensures Accounted(c, d.log.cur, h, pending - {id})
  {
    hide Log, LogOk;
  }

  lemma SyncSlotGoneInv(c: Config, s: State, s': State, id: Uuid)
    requires Inv(c, s) && StepSyncSlotGone(s, s', id)
    ensures Inv(c, s')
  {
    hide LogInv, CoverInv, LogView, IngestInv, FilesInv, SoundSlot, Accounted, Recorded;
    EntriesSyncedKeeps(c, s.disk, s.hist, id, s'.disk, s'.hist);
    if s.process.mem.phase.Recovering? {
      AccountedRecorded(c, s.disk, s.hist, s.process.mem.phase.todo, id);
    }
    LiveInv(c, s, s');
  }

  // ---------------------------------------------------------------- periodic sync and compaction

  lemma SyncDataInv(c: Config, s: State, s': State)
    requires Inv(c, s) && SyncData(s, s')
    ensures Inv(c, s')
  {
    hide DiskInv, LogView, IngestInv, ActiveInv;
    SyncLogDisk(c, s.disk, s.hist);
  }

  lemma SyncDataFailsInv(c: Config, s: State, s': State)
    requires Inv(c, s) && SyncDataFails(s, s')
    ensures Inv(c, s')
  {
    hide DiskInv, LogView, IngestInv, ActiveInv;
    IngestBroken(c, s);
    FailedInv(c, s, s');
  }

  lemma CompactBeginInv(c: Config, s: State, s': State)
    requires Inv(c, s) && CompactBegin(c, s, s')
    ensures Inv(c, s')
  {
    hide DiskInv, LogView, Covered, ReaderView, ActiveInv;
  }

  lemma CompactSyncLogInv(c: Config, s: State, s': State)
    requires Inv(c, s) && StepCompactSyncLog(s, s')
    ensures Inv(c, s')
  {
    hide DiskInv, LogView, IngestInv, ActiveInv;
    SyncLogDisk(c, s.disk, s.hist);
  }

  /** A new checkpoint over a covered offset, beside everything the name may still stand for. */
  lemma CheckpointDisk(c: Config, d: Disk, h: History, k: Cell<Checkpoint>, offset: nat, d': Disk)
    requires DiskInv(c, d, h) && Covered(c, d.log.cur, offset, h.committed)
    requires k.cur == Offset(offset) && k.cur in k.may && k.may <= iset{Offset(offset), Short}
    requires d' == d.(checkpoint := k, stale := d.stale + d.checkpoint.may)
    ensures DiskInv(c, d', h)
    ensures forall x :: x in Checkpoints(d') && x.Offset? ==> x in Checkpoints(d) || x.offset == offset
  {
    hide LogInv, FilesInv, Keeps, Covered;
    CheckpointKeeps(c, d.log, Checkpoints(d), h, offset);
    KeepsSame(c, d.log, h.committed);
    FilesKeep(c, d, h, d', h);
  }

  lemma CompactRenameInv(c: Config, s: State, s': State)
    requires Inv(c, s) && StepCompactRename(s, s')
    ensures Inv(c, s')
  {
    hide LogInv, CoverInv, FilesInv, IngestInv, ActiveInv, Whole, Covered;
    NothingCovered(c, s.disk.log.cur, s.hist.committed);
    CheckpointDisk(c, s.disk, s.hist, s'.disk.checkpoint, 0, s'.disk);
  }

  lemma SyncDirDisk(c: Config, d: Disk, h: History)
    requires DiskInv(c, d, h)
    ensures DiskInv(c, d.(stale := iset{}), h)
  {
    hide LogInv, FilesInv, Keeps, Covered;
    KeepsSame(c, d.log, h.committed);
    FilesKeep(c, d, h, d.(stale := iset{}), h);
  }

  lemma CompactSyncDirInv(c: Config, s: State, s': State)
    requires Inv(c, s) && StepCompactSyncDir(s, s')
    ensures Inv(c, s')
  {
    hide DiskInv, IngestInv, ActiveInv, Whole;
    SyncDirDisk(c, s.disk, s.hist);
  }

  lemma CompactTruncateDisk(c: Config, d: Disk, h: History)
    requires DiskInv(c, d, h) && Whole(c.sum, d.log.cur) && Covered(c, d.log.cur, |d.log.cur|, h.committed)
    ensures DiskInv(c, d.(log := Written(d.log, [], iset{})), h)
  {
    hide LogInv, CoverInv, FilesInv, Keeps, Log, CoveredIn, Whole, Cat;
    WholeIsCat(c, d.log.cur);
    CoveredWhole(c, Log(c, d.log.cur), h.committed);
    TruncateKeeps(c, d.log, Checkpoints(d), h);
    FilesKeep(c, d, h, d.(log := Written(d.log, [], iset{})), h);
  }

  lemma EmptyCovered(c: Config, offset: nat, done: set<Record>)
    ensures Log(c, []) == [] && Whole(c.sum, []) && Covered(c, [], offset, done) && Boundary(c.sum, Log(c, []), 0)
  {
    NothingScanned(c.sum, [], 0);
  }

  lemma CompactTruncateInv(c: Config, s: State, s': State)
    requires Inv(c, s) && StepCompactTruncate(s, s')
    ensures Inv(c, s')
  {
    hide DiskInv, ActiveInv, Whole, Covered, Boundary, Log;
    CompactTruncateDisk(c, s.disk, s.hist);
    EmptyCovered(c, s.process.mem.checkpoint, s.hist.committed);
  }

  lemma CompactSyncTruncatedInv(c: Config, s: State, s': State)
    requires Inv(c, s) && StepCompactSyncTruncated(s, s')
    ensures Inv(c, s')
  {
    hide DiskInv, ActiveInv, Whole, Covered, Boundary, Log;
    SyncLogDisk(c, s.disk, s.hist);
    EmptyCovered(c, 0, s.hist.committed);
  }

  // ---------------------------------------------------------------- the worker

  lemma ReadBatchInv(c: Config, s: State, s': State, max: nat)
    requires Inv(c, s) && ReadBatch(c, s, s', max)
    ensures Inv(c, s')
  {
    hide LogInv, CoverInv, FilesInv, LogView, ActiveInv, OpInv, Covered, Boundary, Log, ReadFrom;
    var m := s.process.mem;
    ReadBatchView(c, s, max);
  }

  lemma ReadBatchView(c: Config, s: State, max: nat)
    requires Inv(c, s) && WorkerRuns(s) && s.process.mem.worker.Waiting?
    ensures var m := s.process.mem;
            var r := ReadFrom(c.sum, s.disk.log.cur, m.reader, m.published, max);
            && !r.failed
            && (r.records != [] ==>
                  && m.checkpoint == m.reader <= r.offset <= m.published
                  && ReaderView(c, s.disk.log.cur, m.checkpoint, m.published, Read(r.records, m.reader, r.offset), true)
                  && Boundary(c.sum, Log(c, s.disk.log.cur), r.offset)
                  && Covered(c, s.disk.log.cur, r.offset, s.hist.committed + set x | x in r.records))
  {
    var m := s.process.mem;
    assert LogOk(c, s.disk.log.cur, s.disk.log.cur, s.hist);
    hide LogInv, CoverInv, FilesInv, LogView, ActiveInv, OpInv, Covered, Boundary, Log, ReadFrom, Framed;
    if m.checkpoint == m.published {
      ReadNothing(c.sum, s.disk.log.cur, m.reader, m.published, max, []);
    } else {
      BatchCovers(c, s.disk.log.cur, m.reader, m.published, max, s.hist.committed);
    }
  }

  lemma CommitInv(c: Config, s: State, s': State)
    requires Inv(c, s) && Commit(s, s')
    ensures Inv(c, s')
  {
    hide LogInv, CoverInv, FilesInv, LogView, ActiveInv, Boundary, Log, Keeps, Accounted;
    HistoryKeeps(c, s.disk.log, Checkpoints(s.disk), s.hist, s'.hist);
    FilesKeep(c, s.disk, s.hist, s'.disk, s'.hist);
  }

  lemma ResetReaderInv(c: Config, s: State, s': State)
    requires Inv(c, s) && ResetReader(s, s')
    ensures Inv(c, s')
  {
    hide DiskInv, LogView, ActiveInv, Boundary, Log, Covered, OpInv;
  }

  lemma StoreCheckpointInv(c: Config, s: State, s': State)
    requires Inv(c, s) && StoreCheckpoint(s, s')
    ensures Inv(c, s')
  {
    hide LogInv, CoverInv, FilesInv, ActiveInv, Boundary, Log, Covered, Whole;
    CheckpointDisk(c, s.disk, s.hist, s'.disk.checkpoint, s.process.mem.worker.end, s'.disk);
    if !s.process.mem.failed {
      BoundaryWithin(c, s.disk.log.cur, s.process.mem.worker.end);
    }
  }

  // ---------------------------------------------------------------- ends of a process

  lemma KillInv(c: Config, s: State, s': State)
    requires Inv(c, s) && Kill(s, s')
    ensures Inv(c, s')
  {
    hide DiskInv;
  }

  lemma PowerLossInv(c: Config, s: State, s': State)
    requires Inv(c, s) && PowerLoss(s, s')
    ensures Inv(c, s')
  {
    hide LogInv, CoverInv, FilesInv, Keeps;
    SurviveKeeps(c, s.disk.log, Checkpoints(s.disk), s.hist, s'.disk.log, Checkpoints(s'.disk));
    SurvivesKeeps(c, s.disk, s.hist, s'.disk);
  }
}
