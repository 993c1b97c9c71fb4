/** What every surviving version of the log, paired with every surviving checkpoint, has in common. */
module SpoolLog {
  import opened Bytes
  import opened Frames
  import opened SpoolFile
  import opened Spool

  ghost function Log(c: Config, b: Bytes): (rs: seq<Record>)
    ensures ValidRecords(rs)
  {
    Records(c.sum, b)
  }

  /** Every record is the one that was presented for its id. */
  ghost predicate Genuine(c: Config, issued: set<Uuid>, rs: seq<Record>)
    requires ValidRecords(rs)
  {
    forall i :: 0 <= i < |rs| ==> rs[i].id in issued && rs[i] == Rec(c, rs[i].id)
  }

  ghost predicate AllIn(rs: seq<Record>, done: set<Record>) {
    forall i :: 0 <= i < |rs| ==> rs[i] in done
  }

  ghost predicate LogOk(c: Config, cur: Bytes, b: Bytes, h: History) {
    && Framed(c.sum, b)
    && Genuine(c, h.issued, Log(c, b))
    && (Log(c, b) <= Log(c, cur) || AllIn(Log(c, b), h.committed))
  }

  /** Every version of the log consists of genuine frames, and is an earlier version unless all committed. */
  ghost predicate LogInv(c: Config, log: Cell<Bytes>, h: History) {
    && log.cur in log.may
    && forall b :: b in log.may ==> LogOk(c, log.cur, b, h)
  }

  /** All frames of `rs` that end at or before `offset` are in `done`. */
  ghost predicate CoveredIn(c: Config, rs: seq<Record>, offset: nat, done: set<Record>)
    requires ValidRecords(rs)
  {
    forall k :: 0 <= k < |rs| && End(c.sum, rs, k + 1) <= offset ==> rs[k] in done
  }

  ghost predicate Covered(c: Config, b: Bytes, offset: nat, done: set<Record>) {
    CoveredIn(c, Log(c, b), offset, done)
  }

  /** No surviving checkpoint lies past an uncommitted frame of any surviving log. */
  ghost predicate CoverInv(c: Config, log: Cell<Bytes>, checkpoints: iset<Checkpoint>, done: set<Record>) {
    forall b, k :: b in log.may && k in checkpoints && k.Offset? ==> Covered(c, b, k.offset, done)
  }

  ghost predicate Within(checkpoints: iset<Checkpoint>, n: nat) {
    forall k :: k in checkpoints && k.Offset? ==> k.offset <= n
  }

  /** The record of `id` is committed, or in every version of the log. */
  ghost predicate Recorded(c: Config, log: Cell<Bytes>, done: set<Record>, id: Uuid) {
    Rec(c, id) in done || forall b :: b in log.may ==> Rec(c, id) in Log(c, b)
  }

  ghost predicate Keeps(c: Config, log: Cell<Bytes>, done: set<Record>, log': Cell<Bytes>, done': set<Record>) {
    forall id: Uuid :: Recorded(c, log, done, id) ==> Recorded(c, log', done', id)
  }

  // ---------------------------------------------------------------- ends of frames

  lemma EndPrefix(c: Config, rs: seq<Record>, all: seq<Record>, k: nat)
    requires ValidRecords(all) && rs <= all && k <= |rs|
    ensures ValidRecords(rs) && End(c.sum, rs, k) == End(c.sum, all, k)
  {
    assert rs[..k] == all[..k];
  }

  lemma CoveredPrefix(c: Config, rs: seq<Record>, all: seq<Record>, offset: nat, done: set<Record>)
    requires ValidRecords(all) && rs <= all && CoveredIn(c, all, offset, done)
    ensures ValidRecords(rs) && CoveredIn(c, rs, offset, done)
  {
    hide End;
    forall k | 0 <= k < |rs| && End(c.sum, rs, k + 1) <= offset
      ensures rs[k] in done
    {
      EndPrefix(c, rs, all, k + 1);
    }
  }

  /** A record added after `offset` is not covered by it. */
  lemma CoveredSnoc(c: Config, rs: seq<Record>, r: Record, offset: nat, done: set<Record>)
    requires ValidRecords(rs) && ValidRecord(r) && CoveredIn(c, rs, offset, done)
    requires offset <= |Cat(c.sum, rs)|
    ensures ValidRecords(rs + [r]) && CoveredIn(c, rs + [r], offset, done)
  {
    hide Frame, Cat, End;
    var all := rs + [r];
    forall k | 0 <= k < |all| && End(c.sum, all, k + 1) <= offset
      ensures all[k] in done
    {
      EndPrefix(c, rs, all, |rs|);
      EndOfAll(c.sum, rs);
      if k < |rs| {
        EndPrefix(c, rs, all, k + 1);
      } else {
        EndStep(c.sum, all, k);
      }
    }
  }

  lemma CoveredWhole(c: Config, rs: seq<Record>, done: set<Record>)
    requires ValidRecords(rs) && CoveredIn(c, rs, |Cat(c.sum, rs)|, done)
    ensures AllIn(rs, done)
  {
    hide Frame, Cat, End;
    forall k | 0 <= k < |rs|
      ensures rs[k] in done
    {
      EndMonotone(c.sum, rs, k + 1, |rs|);
      EndOfAll(c.sum, rs);
    }
  }

  lemma BoundaryPrefix(c: Config, rs: seq<Record>, all: seq<Record>, offset: nat)
    requires ValidRecords(all) && rs <= all && Boundary(c.sum, rs, offset)
    ensures Boundary(c.sum, all, offset)
  {
    hide End;
    var k :| 0 <= k <= |rs| && End(c.sum, rs, k) == offset;
    EndPrefix(c, rs, all, k);
  }

  lemma WholeIsCat(c: Config, b: Bytes)
    requires Whole(c.sum, b)
    ensures Cat(c.sum, Log(c, b)) == b
    ensures Boundary(c.sum, Log(c, b), |b|)
  {
    CatOfScan(c.sum, b);
    assert b[..|b|] == b;
    EndOfAll(c.sum, Log(c, b));
  }

  // ---------------------------------------------------------------- changes of the log

  /** The log after (part of) the frame of `id` is appended to a log of whole frames. */
  lemma AppendedLog(c: Config, cur: Bytes, id: Uuid, k: nat)
    requires Whole(c.sum, cur) && ValidRecord(Rec(c, id)) && k <= |Frame(c.sum, Rec(c, id))|
    ensures var frame := Frame(c.sum, Rec(c, id));
            var b := cur + frame[..k];
            && Framed(c.sum, b)
            && Log(c, b) == (if k == |frame| then Log(c, cur) + [Rec(c, id)] else Log(c, cur))
            && (k == |frame| ==> Whole(c.sum, b))
  {
    var frame := Frame(c.sum, Rec(c, id));
    if k == |frame| {
      assert frame[..k] == frame;
      ScanAppendFrame(c.sum, cur, Rec(c, id));
    } else {
      TornFrameIsTail(c.sum, Rec(c, id), k);
      ScanAppend(c.sum, cur, frame[..k]);
    }
  }

  /** `log` after `j` bytes of the frame of `id` were written behind it. */
  ghost function Appended(c: Config, log: Cell<Bytes>, id: Uuid, j: nat): Cell<Bytes>
    requires ValidRecord(Rec(c, id)) && j <= |Frame(c.sum, Rec(c, id))|
  {
    var part := Frame(c.sum, Rec(c, id))[..j];
    Written(log, log.cur + part, FrameWrites(log, part))
  }

  lemma AppendedPrefix(c: Config, log: Cell<Bytes>, id: Uuid, j: nat, b: Bytes) returns (i: nat)
    requires ValidRecord(Rec(c, id)) && j <= |Frame(c.sum, Rec(c, id))|
    requires b in Appended(c, log, id, j).may && b !in log.may
    ensures i <= j && b == log.cur + Frame(c.sum, Rec(c, id))[..i]
  {
    hide Frame;
    var frame := Frame(c.sum, Rec(c, id));
    if b == log.cur + frame[..j] {
      i := j;
    } else {
      i :| 0 <= i <= j && b == log.cur + frame[..j][..i];
      assert frame[..j][..i] == frame[..i];
    }
  }

  lemma AppendedVersion(c: Config, log: Cell<Bytes>, ks: iset<Checkpoint>, h: History, id: Uuid, j: nat, b: Bytes)
    requires LogInv(c, log, h) && CoverInv(c, log, ks, h.committed)
    requires Whole(c.sum, log.cur) && ValidRecord(Rec(c, id)) && id in h.issued && Within(ks, |log.cur|)
    requires j <= |Frame(c.sum, Rec(c, id))|
    requires b in Appended(c, log, id, j).may && b !in log.may
    ensures Log(c, log.cur) <= Log(c, b)
    ensures LogOk(c, Appended(c, log, id, j).cur, b, h)
    ensures forall k :: k in ks && k.Offset? ==> Covered(c, b, k.offset, h.committed)
  {
    hide Frame, Log;
    var i := AppendedPrefix(c, log, id, j, b);
    AppendedLog(c, log.cur, id, i);
    AppendedLog(c, log.cur, id, j);
    assert LogOk(c, log.cur, log.cur, h);
    WholeIsCat(c, log.cur);
    forall k | k in ks && k.Offset?
      ensures Covered(c, b, k.offset, h.committed)
    {
      assert Covered(c, log.cur, k.offset, h.committed);
      CoveredSnoc(c, Log(c, log.cur), Rec(c, id), k.offset, h.committed);
    }
  }

  lemma AppendKeeps(c: Config, log: Cell<Bytes>, ks: iset<Checkpoint>, h: History, id: Uuid, j: nat)
    requires LogInv(c, log, h) && CoverInv(c, log, ks, h.committed)
    requires Whole(c.sum, log.cur) && ValidRecord(Rec(c, id)) && id in h.issued && Within(ks, |log.cur|)
    requires j <= |Frame(c.sum, Rec(c, id))|
    ensures var log' := Appended(c, log, id, j);
            && LogInv(c, log', h) && CoverInv(c, log', ks, h.committed)
            && Keeps(c, log, h.committed, log', h.committed)
            && Log(c, log.cur) <= Log(c, log'.cur)
  {
    hide Frame, Log, Framed, CoveredIn, Genuine, AllIn;
    var log' := Appended(c, log, id, j);
    AppendedLog(c, log.cur, id, j);
    forall b | b in log'.may
      ensures LogOk(c, log'.cur, b, h)
      ensures b in log.may || Log(c, log.cur) <= Log(c, b)
      ensures forall k :: k in ks && k.Offset? ==> Covered(c, b, k.offset, h.committed)
    {
      if b in log.may {
        assert LogOk(c, log.cur, b, h);
      } else {
        AppendedVersion(c, log, ks, h, id, j, b);
      }
    }
  }

  lemma SyncKeeps(c: Config, log: Cell<Bytes>, ks: iset<Checkpoint>, h: History)
    requires LogInv(c, log, h) && CoverInv(c, log, ks, h.committed)
    ensures LogInv(c, Synced(log), h) && CoverInv(c, Synced(log), ks, h.committed)
    ensures Keeps(c, log, h.committed, Synced(log), h.committed)
  {
  }

  lemma RepairKeeps(c: Config, log: Cell<Bytes>, ks: iset<Checkpoint>, h: History)
    requires LogInv(c, log, h) && CoverInv(c, log, ks, h.committed)
    ensures Framed(c.sum, log.cur)
    ensures var cut := log.cur[..ScanLog(c.sum, log.cur).end];
            var log' := Written(log, cut, iset{});
            && Whole(c.sum, cut) && Log(c, cut) == Log(c, log.cur)
            && LogInv(c, log', h) && CoverInv(c, log', ks, h.committed)
            && Keeps(c, log, h.committed, log', h.committed)
  {
    assert LogOk(c, log.cur, log.cur, h);
    ScanRepaired(c.sum, log.cur);
    hide Log, ScanLog;
    forall b | b in log.may
      ensures LogOk(c, log.cur, b, h)
    {
    }
  }

  lemma TruncateKeeps(c: Config, log: Cell<Bytes>, ks: iset<Checkpoint>, h: History)
    requires LogInv(c, log, h) && CoverInv(c, log, ks, h.committed)
    requires AllIn(Log(c, log.cur), h.committed)
    ensures var log' := Written(log, [], iset{});
            && LogInv(c, log', h) && CoverInv(c, log', ks, h.committed)
            && Keeps(c, log, h.committed, log', h.committed)
  {
    assert Log(c, []) == [];
    hide Log;
    var log' := Written(log, [], iset{});
    forall b | b in log.may
      ensures LogOk(c, [], b, h)
    {
      assert LogOk(c, log.cur, b, h);
    }
    forall id: Uuid | Recorded(c, log, h.committed, id)
      ensures Recorded(c, log', h.committed, id)
    {
      assert log.cur in log.may;
    }
  }

  lemma SurviveKeeps(c: Config, log: Cell<Bytes>, ks: iset<Checkpoint>, h: History, log': Cell<Bytes>, ks': iset<Checkpoint>)
    requires LogInv(c, log, h) && CoverInv(c, log, ks, h.committed)
    requires SurvivesCell(log, log') && ks' <= ks
    ensures LogInv(c, log', h) && CoverInv(c, log', ks', h.committed)
    ensures Keeps(c, log, h.committed, log', h.committed)
  {
  }

  /** An offset that covers the visible log covers every version of it. */
  lemma CheckpointKeeps(c: Config, log: Cell<Bytes>, ks: iset<Checkpoint>, h: History, offset: nat)
    requires LogInv(c, log, h) && CoverInv(c, log, ks, h.committed)
    requires Covered(c, log.cur, offset, h.committed)
    ensures CoverInv(c, log, ks + iset{Offset(offset), Short}, h.committed)
  {
    hide Log, CoveredIn, End;
    forall b | b in log.may
      ensures Covered(c, b, offset, h.committed)
    {
      assert LogOk(c, log.cur, b, h);
      if Log(c, b) <= Log(c, log.cur) {
        CoveredPrefix(c, Log(c, b), Log(c, log.cur), offset, h.committed);
      } else {
        AllCovered(c, Log(c, b), offset, h.committed);
      }
    }
  }

  lemma AllCovered(c: Config, rs: seq<Record>, offset: nat, done: set<Record>)
    requires ValidRecords(rs) && AllIn(rs, done)
    ensures CoveredIn(c, rs, offset, done)
  {
  }

  /** More requests presented, more records committed. */
  lemma HistoryKeeps(c: Config, log: Cell<Bytes>, ks: iset<Checkpoint>, h: History, h': History)
    requires LogInv(c, log, h) && CoverInv(c, log, ks, h.committed)
    requires h.issued <= h'.issued && h.committed <= h'.committed
    ensures LogInv(c, log, h') && CoverInv(c, log, ks, h'.committed)
    ensures Keeps(c, log, h.committed, log, h'.committed)
  {
    hide Log, End;
  }

  /**
    The next batch: over a published part that ends on a frame boundary, reading from a covered boundary
    returns records such that, once these are committed, the new offset is covered too.
   */
  lemma BatchCovers(c: Config, b: Bytes, start: nat, published: nat, max: nat, done: set<Record>)
    requires Framed(c.sum, b) && Covered(c, b, start, done)
    requires Boundary(c.sum, Log(c, b), start) && Boundary(c.sum, Log(c, b), published) && start <= published
    ensures var r := ReadFrom(c.sum, b, start, published, max);
            && !r.failed
            && start <= r.offset <= published
            && Boundary(c.sum, Log(c, b), r.offset)
            && Covered(c, b, r.offset, done + set x | x in r.records)
  {
    hide Log, Frame, Cat, End, ReadFrom, Framed;
    var rs := Log(c, b);
    var i :| 0 <= i <= |rs| && End(c.sum, rs, i) == start;
    var j :| 0 <= j <= |rs| && End(c.sum, rs, j) == published;
    if j < i { EndMonotone(c.sum, rs, j, i); }
    var n := Min(i + max, j);
    BatchAt(c, b, i, j, max);
    EndMonotone(c.sum, rs, i, n);
    EndMonotone(c.sum, rs, n, j);
    BatchCoversIn(c, rs, i, n, done);
  }

  /** Reading within the first `j` records of the log. */
  lemma BatchAt(c: Config, b: Bytes, i: nat, j: nat, max: nat)
    requires Framed(c.sum, b) && i <= j <= |Log(c, b)|
    ensures var rs := Log(c, b);
            var n := Min(i + max, j);
            ReadFrom(c.sum, b, End(c.sum, rs, i), End(c.sum, rs, j), max) == Reading(rs[i..n], End(c.sum, rs, n), false)
  {
    hide Log, Cat, Frame, End, ReadFrom, Framed;
    var rs := Log(c, b);
    var some := rs[..j];
    PrefixIsCat(c, b, j);
    EndPrefix(c, some, rs, i);
    EndPrefix(c, some, rs, j);
    EndOfAll(c.sum, some);
    BatchIsNextRecords(c.sum, b, some, i, max);
    var n := Min(i + max, j);
    EndPrefix(c, some, rs, n);
    assert some[i..n] == rs[i..n];
  }

  lemma PrefixIsCat(c: Config, b: Bytes, j: nat)
    requires Framed(c.sum, b) && j <= |Log(c, b)|
    ensures ValidRecords(Log(c, b)[..j]) && Cat(c.sum, Log(c, b)[..j]) <= b
  {
    hide Log, Cat, Frame, Framed;
    LogIsCat(c, b);
    var rs := Log(c, b);
    assert rs == rs[..j] + rs[j..];
    CatSplit(c.sum, rs[..j], rs[j..]);
  }

  lemma LogIsCat(c: Config, b: Bytes)
    requires Framed(c.sum, b)
    ensures Cat(c.sum, Log(c, b)) <= b
  {
    CatOfScan(c.sum, b);
  }

  lemma BatchCoversIn(c: Config, rs: seq<Record>, i: nat, n: nat, done: set<Record>)
    requires ValidRecords(rs) && i <= n <= |rs| && CoveredIn(c, rs, End(c.sum, rs, i), done)
    ensures CoveredIn(c, rs, End(c.sum, rs, n), done + set x | x in rs[i..n])
  {
    hide Cat, Frame, End;
    forall k | 0 <= k < |rs| && End(c.sum, rs, k + 1) <= End(c.sum, rs, n)
      ensures rs[k] in done + set x | x in rs[i..n]
    {
      if k < i {
        EndMonotone(c.sum, rs, k + 1, i);
      } else {
        if k >= n { EndMonotone(c.sum, rs, n, k + 1); }
        assert rs[k] == rs[i..n][k - i];
      }
    }
  }
}
