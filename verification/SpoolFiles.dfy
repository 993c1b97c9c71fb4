/** What every surviving version of a request's slot and intent files has in common. */
module SpoolFiles {
  import opened Bytes
  import opened Frames
  import opened Slots
  import opened Spool
  import opened SpoolLog

  ghost predicate CellOk<T(!new)>(x: Cell<T>) {
    x.cur in x.may
  }

  /** The slot holds nothing but (parts of) its own request's record, and nothing before that is presented. */
  ghost predicate SlotOk(c: Config, id: Uuid, slot: Cell<Bytes>, issued: set<Uuid>) {
    && (forall y :: y in slot.may ==> Torn(c.sum, c.payload(id), y))
    && (id !in issued ==> forall y :: y in slot.may ==> AllZero(y))
    && (ReadTerminal(c.sum, slot.cur) != Unreadable ==> SoundSlot(slot))
  }

  ghost predicate SoundSlot(slot: Cell<Bytes>) {
    forall y :: y in slot.may ==> Sound(y)
  }

  /** Both files are there after any power loss, the intent with its full content. */
  ghost predicate Kept(c: Config, id: Uuid, f: Files) {
    && f.slotEntry.may == iset{true}
    && f.intentEntry.may == iset{true}
    && f.intent.may == iset{c.intent(id)}
  }

  /** The slot is there after any power loss, with the terminal record in it. */
  ghost predicate Durable(c: Config, id: Uuid, f: Files) {
    && f.slotEntry.may == iset{true}
    && forall y :: y in f.slot.may ==> Image(c.sum, c.payload(id), y)
  }

  /** No power loss and no reopening brings a readable record back. */
  ghost predicate Stuck(c: Config, f: Files) {
    || f.slotEntry.may == iset{false}
    || forall y :: y in f.slot.may ==> ReadTerminal(c.sum, y) == Unreadable
  }

  ghost predicate EntriesOk(f: Files) {
    && CellOk(f.slotEntry) && CellOk(f.slot) && CellOk(f.intentEntry) && CellOk(f.intent)
    && (forall b :: b in f.intent.may ==> |b| <= MAX_INTENT)
    // The slot is unlinked only after the intent is gone for good.
    && (!f.slotEntry.cur && true in f.slotEntry.may ==> f.intentEntry.may == iset{false})
  }

  /** The obligations towards a request, given whether its record is safe in the log or the database. */
  ghost predicate Owed(c: Config, id: Uuid, f: Files, recorded: bool, h: History) {
    && (id in h.unknown ==> Stuck(c, f))
    && (id in h.granted ==> recorded || Kept(c, id, f))
    && (id in h.granted && id in h.saved ==> recorded || Durable(c, id, f))
  }

  ghost predicate FileInv(c: Config, id: Uuid, f: Files, recorded: bool, h: History) {
    EntriesOk(f) && SlotOk(c, id, f.slot, h.issued) && Owed(c, id, f, recorded, h)
  }

  ghost predicate FilesInv(c: Config, d: Disk, h: History) {
    && h.granted <= d.files.Keys && h.saved <= d.files.Keys && h.unknown <= d.files.Keys
    && forall id :: id in d.files ==> FileInv(c, id, d.files[id], Recorded(c, d.log, h.committed, id), h)
  }

  lemma FileOf(c: Config, d: Disk, h: History, id: Uuid)
    requires FilesInv(c, d, h) && id in d.files
    ensures FileInv(c, id, d.files[id], Recorded(c, d.log, h.committed, id), h)
  {
  }

  // ---------------------------------------------------------------- changes around the files

  lemma FilesKeep(c: Config, d: Disk, h: History, d': Disk, h': History)
    requires FilesInv(c, d, h) && d'.files == d.files
    requires Keeps(c, d.log, h.committed, d'.log, h'.committed)
    requires h'.granted == h.granted && h'.saved == h.saved && h'.unknown == h.unknown && h.issued <= h'.issued
    ensures FilesInv(c, d', h')
  {
    hide Recorded, EntriesOk, Kept, Durable, Stuck, Torn, AllZero, SoundSlot, ReadTerminal;
  }

  lemma FilesOne(c: Config, d: Disk, h: History, id: Uuid, f: Files, d': Disk, h': History)
    requires FilesInv(c, d, h) && d'.log == d.log && d'.files == d.files[id := f]
    requires h'.issued == h.issued && h'.committed == h.committed
    requires h'.granted == h.granted
    requires h.saved <= h'.saved <= h.saved + {id}
    requires h.unknown <= h'.unknown <= h.unknown + {id}
    requires FileInv(c, id, f, Recorded(c, d.log, h.committed, id), h')
    ensures FilesInv(c, d', h')
  {
    hide Recorded, EntriesOk, Kept, Durable, Stuck, SlotOk;
  }

  lemma EntriesSyncedFile(c: Config, id: Uuid, f: Files, recorded: bool, h: History)
    requires FileInv(c, id, f, recorded, h)
    ensures var f' := f.(slotEntry := Synced(f.slotEntry), intentEntry := Synced(f.intentEntry));
            FileInv(c, id, f', recorded, h)
  {
    hide Torn, AllZero, Sound, ReadTerminal, Image;
  }

  /** Syncing the directory keeps all obligations, and fulfils those of `id` if its files are complete. */
  lemma EntriesSyncedKeeps(c: Config, d: Disk, h: History, id: Uuid, d': Disk, h': History)
    requires FilesInv(c, d, h) && d'.log == d.log && d'.files == EntriesSynced(d.files)
    requires h' == h || h' == h.(granted := h.granted + {id})
    requires h' != h ==> id in d.files && id !in h.saved
                         && d.files[id].slotEntry.cur && d.files[id].intentEntry.cur
                         && d.files[id].intent.may == iset{c.intent(id)}
    ensures FilesInv(c, d', h')
  {
    hide Recorded, EntriesOk, Durable, Stuck, SlotOk;
    forall i | i in d'.files
      ensures FileInv(c, i, d'.files[i], Recorded(c, d'.log, h'.committed, i), h')
    {
      EntriesSyncedFile(c, i, d.files[i], Recorded(c, d.log, h.committed, i), h);
    }
  }

  lemma SurvivesFile(c: Config, id: Uuid, f: Files, f': Files, recorded: bool, recorded': bool, h: History)
    requires FileInv(c, id, f, recorded, h) && SurvivesFiles(f, f') && (recorded ==> recorded')
    ensures FileInv(c, id, f', recorded', h)
  {
    hide Torn, AllZero, ReadTerminal, Image;
    assert ReadTerminal(c.sum, f'.slot.cur) != Unreadable ==> |f'.slot.cur| >= SLOT_HEADER by {
      if |f'.slot.cur| < SLOT_HEADER { ShortUnreadable(c.sum, f'.slot.cur); }
    }
  }

  lemma SurvivesKeeps(c: Config, d: Disk, h: History, d': Disk)
    requires FilesInv(c, d, h) && Survives(d, d')
    requires Keeps(c, d.log, h.committed, d'.log, h.committed)
    ensures FilesInv(c, d', h)
  {
    hide Recorded, FileInv, SurvivesFiles;
    forall id | id in d'.files
      ensures FileInv(c, id, d'.files[id], Recorded(c, d'.log, h.committed, id), h)
    {
      SurvivesFile(c, id, d.files[id], d'.files[id], Recorded(c, d.log, h.committed, id),
                   Recorded(c, d'.log, h.committed, id), h);
    }
  }

  // ---------------------------------------------------------------- changes of one slot

  lemma SlotSynced(c: Config, id: Uuid, f: Files, recorded: bool, h: History)
    requires FileInv(c, id, f, recorded, h)
    ensures FileInv(c, id, f.(slot := Synced(f.slot)), recorded, h)
    ensures SoundSlot(f.slot) ==> SoundSlot(Synced(f.slot))
  {
    hide Torn, AllZero, Sound, ReadTerminal, Image;
  }

  /** After the final sync of a terminal record its slot is durable. */
  lemma TerminalSynced(c: Config, id: Uuid, f: Files, recorded: bool, h: History)
    requires FileInv(c, id, f, recorded, h) && Image(c.sum, c.payload(id), f.slot.cur)
    ensures FileInv(c, id, f.(slot := Synced(f.slot)), recorded, h.(saved := h.saved + {id}))
  {
    hide Torn, AllZero, Sound, ReadTerminal, Image;
  }

  /** A payload write, whole or not, leaves the slot torn at worst, and a durable record as it is. */
  lemma PayloadPut(c: Config, id: Uuid, f: Files, recorded: bool, h: History, y: Bytes)
    requires FileInv(c, id, f, recorded, h) && SoundSlot(f.slot) && id in h.issued && id !in h.unknown
    requires |c.payload(id)| <= MAX_PAYLOAD && PartPayload(f.slot.cur, c.payload(id), y)
    ensures var f' := f.(slot := Written(f.slot, y, PayloadWrites(f.slot, c.payload(id))));
            FileInv(c, id, f', recorded, h) && SoundSlot(f'.slot)
  {
    hide Torn, Sound, ReadTerminal, Image, PartPayload;
    var p := c.payload(id);
    var f' := f.(slot := Written(f.slot, y, PayloadWrites(f.slot, p)));
    forall z | z in f'.slot.may
      ensures Torn(c.sum, p, z) && Sound(z)
      ensures Durable(c, id, f) ==> Image(c.sum, p, z)
    {
      if z !in f.slot.may {
        var x :| x in f.slot.may && PartPayload(x, p, z);
        PartPayloadTorn(c.sum, p, x, z);
      }
    }
  }

  lemma HeaderPut(c: Config, id: Uuid, f: Files, recorded: bool, h: History)
    requires FileInv(c, id, f, recorded, h) && SoundSlot(f.slot) && id in h.issued && id !in h.unknown
    requires |c.payload(id)| <= MAX_PAYLOAD
    ensures var head := SlotHeader(c.sum, c.payload(id));
            var f' := f.(slot := Written(f.slot, PutHeader(f.slot.cur, head), iset y | y in f.slot.may :: PutHeader(y, head)));
            && FileInv(c, id, f', recorded, h) && SoundSlot(f'.slot)
            && (PayloadWritten(c.payload(id), f.slot.cur) ==> Image(c.sum, c.payload(id), f'.slot.cur))
  {
    hide Torn, Sound, ReadTerminal, Image, PutHeader, SlotHeader, PayloadWritten;
    var p := c.payload(id);
    var head := SlotHeader(c.sum, p);
    var f' := f.(slot := Written(f.slot, PutHeader(f.slot.cur, head), iset y | y in f.slot.may :: PutHeader(y, head)));
    forall z | z in f'.slot.may
      ensures Torn(c.sum, p, z) && Sound(z)
      ensures Durable(c, id, f) ==> Image(c.sum, p, z)
    {
      if z !in f.slot.may {
        var x :| x in f.slot.may && z == PutHeader(x, head);
        PutHeaderTorn(c.sum, p, x);
      }
    }
    PutHeaderTorn(c.sum, p, f.slot.cur);
  }

  /** Trimming an unreadable slot keeps it unreadable; a request with a durable record has none. */
  lemma Trimmed(c: Config, id: Uuid, f: Files, recorded: bool, h: History)
    requires FileInv(c, id, f, recorded, h) && f.slotEntry.cur && ReadTerminal(c.sum, f.slot.cur) == Unreadable
    ensures var f' := f.(slot := Written(f.slot, Trim(f.slot.cur), iset{}));
            FileInv(c, id, f', recorded, h) && ReadTerminal(c.sum, f'.slot.cur) == Unreadable
  {
    hide ReadTerminal, Image, Torn, Sound;
    var y := f.slot.cur;
    var n := KeptLen(y);
    CutSlot(c.sum, y, n);
    CutTorn(c.sum, c.payload(id), y, n);
    if Durable(c, id, f) {
      ImageReadable(c.sum, c.payload(id), y);
    }
  }
}
