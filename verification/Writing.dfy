/** Linking a job into a file, unlinking it, and writing its records: after each complete
    write a restart would recover the job exactly as it was just written. */
module Writing {
  import opened Records
  import opened Replay
  import opened WalState
  import opened Linking
  import opened Upkeep

  // ---------- One job set aside ----------

  lemma SetAside(s: Log, id: u64, maxN: nat)
    requires Base(s, {}, maxN) && id in s.jobs
    ensures Base(s, {id}, maxN)
  {
    hide Numbered, Counted, Linked, Written, Tallied, HeadHeld, JobsFit, Consistent;
    AsideFits(s, id, maxN);
    AsideConsistent(s, id);
  }

  lemma AsideFits(s: Log, id: u64, maxN: nat)
    requires JobsFit(s, {}, maxN)
    ensures JobsFit(s, {id}, maxN)
  {
    forall k | k in s.jobs
      ensures JobFits(s.book, k, s.jobs[k], k in {id}, maxN)
    {
      assert JobFits(s.book, k, s.jobs[k], k in {}, maxN);
    }
  }

  lemma AsideConsistent(s: Log, id: u64)
    requires Consistent(s, {}) && id in s.jobs
    ensures Consistent(s, {id})
  {
    assert Recoverable(s) - {} == Recoverable(s) && Persisted(s) - {} == Persisted(s);
    hide Tame;
  }

  // What a restart recovers of a job is what it should.
  ghost predicate Agrees(s: Log, id: u64) {
    && (id in Recoverable(s) <==> id in Persisted(s))
    && (id in Recoverable(s) ==> Recoverable(s)[id] == Persisted(s)[id])
  }

  lemma StoresAgree(a: Store, b: Store, id: u64)
    requires a - {id} == b - {id} && (id in a <==> id in b) && (id in a ==> a[id] == b[id])
    ensures a == b
  {
    forall k | k in a
      ensures k in b && a[k] == b[k]
    {
      assert k != id ==> k in a - {id} && (a - {id})[k] == (b - {id})[k];
    }
    forall k | k in b
      ensures k in a
    {
      assert k != id ==> k in b - {id};
    }
  }

  lemma PutBack(s: Log, id: u64, maxN: nat)
    requires Base(s, {id}, maxN) && Agrees(s, id)
    requires id in s.jobs && s.jobs[id].home.In? ==> LiveState(s.jobs[id].rec.state)
    ensures Base(s, {}, maxN)
  {
    StoresAgree(Recoverable(s), Persisted(s), id);
    forall k | k in s.jobs
      ensures JobFits(s.book, k, s.jobs[k], k in {}, maxN)
    {
      assert JobFits(s.book, k, s.jobs[k], k in {id}, maxN);
    }
  }

  // ---------- Unlinking ----------

  lemma {:induction false} WithoutOne(ids: seq<u64>, id: u64)
    requires Distinct(ids)
    ensures Distinct(Without(ids, id))
    ensures |Without(ids, id)| == |ids| - if id in ids then 1 else 0
    ensures forall k :: k in Without(ids, id) <==> k in ids && k != id
  {
    if ids != [] {
      var tail := ids[1..];
      assert ids == [ids[0]] + tail;
      assert forall i, j :: 0 <= i < j < |tail| ==> tail[i] == ids[i + 1] && tail[j] == ids[j + 1];
      WithoutOne(tail, id);
      assert ids[0] !in tail;
      if ids[0] != id {
        var w := Without(tail, id);
        forall i, j | 0 <= i < j < 1 + |w|
          ensures ([ids[0]] + w)[i] != ([ids[0]] + w)[j]
        {
          assert w[j - 1] in w;
          if i > 0 {
            assert w[i - 1] != w[j - 1];
          }
        }
      }
    }
  }

  ghost function DropFrom(f: File, q: nat, id: u64): File {
    if f.seqNo == q then f.(jobs := Without(f.jobs, id), refs := f.refs - 1) else f
  }

  lemma UnlinkedFiles(s: Log, q: nat, id: u64)
    requires id in s.jobs
    ensures var s' := Unlinked(s, q, id);
            && |Files(s')| == |Files(s)| && |s'.past| == |s.past| && |s'.live| == |s.live|
            && (forall i :: 0 <= i < |Files(s)| ==> Files(s')[i] == DropFrom(Files(s)[i], q, id))
            && (forall i :: 0 <= i < |s.past| ==> s'.past[i] == DropFrom(s.past[i], q, id))
            && (forall i :: 0 <= i < |s.live| ==> s'.live[i] == DropFrom(s.live[i], q, id))
  {
  }

  // The file a job is linked into is the only one with that number, and lists the job.
  lemma HomeOf(s: Log, id: u64) returns (h: nat)
    requires id in s.jobs && s.jobs[id].home.In? && Linked(s) && Numbered(s)
    ensures h < |Files(s)| && Files(s)[h].seqNo == s.jobs[id].home.seqNo && id in Files(s)[h].jobs
    ensures forall i :: 0 <= i < |Files(s)| && i != h ==> Files(s)[i].seqNo != s.jobs[id].home.seqNo
  {
    assert JobLinked(s, id);
    h :| 0 <= h < |Files(s)| && Files(s)[h].seqNo == s.jobs[id].home.seqNo && id in Files(s)[h].jobs;
    forall i | 0 <= i < |Files(s)| && i != h
      ensures Files(s)[i].seqNo != s.jobs[id].home.seqNo
    {
      if i < h {
        assert Files(s)[i].seqNo < Files(s)[h].seqNo;
      } else {
        assert Files(s)[h].seqNo < Files(s)[i].seqNo;
      }
    }
  }

  lemma UnlinkedLinked(s: Log, id: u64)
    requires id in s.jobs && s.jobs[id].home.In? && Linked(s) && Numbered(s)
    ensures Linked(Unlinked(s, s.jobs[id].home.seqNo, id))
  {
    var q := s.jobs[id].home.seqNo;
    var s' := Unlinked(s, q, id);
    UnlinkedFiles(s, q, id);
    forall i | 0 <= i < |Files(s')|
      ensures FileLinked(s', Files(s')[i])
    {
      assert FileLinked(s, Files(s)[i]);
      WithoutOne(Files(s)[i].jobs, id);
    }
    forall k | k in s'.jobs
      ensures JobLinked(s', k)
    {
      if k != id {
        assert JobLinked(s, k);
        if s.jobs[k].home.In? {
          var h := HomeOf(s, k);
          assert FileLinked(s, Files(s)[h]);
          WithoutOne(Files(s)[h].jobs, id);
          assert Files(s')[h].seqNo == s'.jobs[k].home.seqNo && k in Files(s')[h].jobs;
        }
      }
    }
  }

  lemma UnlinkedCounted(s: Log, id: u64)
    requires id in s.jobs && s.jobs[id].home.In? && Linked(s) && Numbered(s) && Counted(s)
    ensures Numbered(Unlinked(s, s.jobs[id].home.seqNo, id)) && Counted(Unlinked(s, s.jobs[id].home.seqNo, id))
  {
    var q := s.jobs[id].home.seqNo;
    var s' := Unlinked(s, q, id);
    UnlinkedFiles(s, q, id);
    var h := HomeOf(s, id);
    assert FileLinked(s, Files(s)[h]);
    WithoutOne(Files(s)[h].jobs, id);
    forall i | 0 <= i < |s'.past|
      ensures PastFile(s'.past[i])
    {
      assert PastFile(s.past[i]) && Files(s)[i] == s.past[i];
    }
    forall i | 0 <= i < |s'.live|
      ensures LiveFile(s'.live[i])
    {
      assert LiveFile(s.live[i]) && Files(s)[|s.past| + i] == s.live[i];
    }
    forall i | 0 < i < |s'.live|
      ensures s'.live[i].jobs == [] && s'.live[i].recs == []
    {
      assert Files(s)[|s.past| + i] == s.live[i] && s.live[i].jobs == [];
    }
  }

  lemma UnlinkedWritten(s: Log, q: nat, id: u64)
    requires id in s.jobs && Written(s)
    ensures Written(Unlinked(s, q, id))
    ensures SegmentsOf(Files(Unlinked(s, q, id))) == SegmentsOf(Files(s))
  {
    var s' := Unlinked(s, q, id);
    UnlinkedFiles(s, q, id);
    forall i | 0 <= i < |Files(s')|
      ensures FileWritten(s'.book, s'.fileSize, Files(s')[i])
    {
      assert FileWritten(s.book, s.fileSize, Files(s)[i]);
    }
  }

  lemma UnlinkedPersisted(s: Log, id: u64)
    requires id in s.jobs && s.jobs[id].home.In? && Tallied(s)
    ensures var s' := Unlinked(s, s.jobs[id].home.seqNo, id);
            Persisted(s') == Persisted(s) - {id} && Tallied(s')
  {
    SumUsedRemove(Persisted(s), id);
    assert Persisted(Unlinked(s, s.jobs[id].home.seqNo, id)) == Persisted(s) - {id};
  }

  lemma UnlinkedKeeps(s: Log, id: u64, maxN: nat)
    requires Base(s, {id}, maxN) && id in s.jobs && s.jobs[id].home.In?
    ensures var s' := Unlinked(s, s.jobs[id].home.seqNo, id);
            Loose(s', {id}, maxN) && Recoverable(s') == Recoverable(s)
  {
    var q := s.jobs[id].home.seqNo;
    var s' := Unlinked(s, q, id);
    UnlinkedLinked(s, id);
    UnlinkedCounted(s, id);
    UnlinkedWritten(s, q, id);
    UnlinkedPersisted(s, id);
    UnlinkedFits(s, id, maxN);
    UnlinkedConsistent(s, id);
    hide Linked, Counted, Numbered, Written, Tallied, JobsFit, Consistent, Recoverable;
  }

  lemma UnlinkedConsistent(s: Log, id: u64)
    requires Consistent(s, {id}) && Tallied(s) && Written(s) && id in s.jobs && s.jobs[id].home.In?
    ensures var s' := Unlinked(s, s.jobs[id].home.seqNo, id);
            Consistent(s', {id}) && Recoverable(s') == Recoverable(s)
  {
    var q := s.jobs[id].home.seqNo;
    var s' := Unlinked(s, q, id);
    UnlinkedWritten(s, q, id);
    UnlinkedPersisted(s, id);
    assert Recoverable(s') == Recoverable(s);
    hide Tallied, Written, Recoverable, Tame, Persisted, Files;
    assert Persisted(s) - {id} - {id} == Persisted(s) - {id};
  }

  lemma UnlinkedFits(s: Log, id: u64, maxN: nat)
    requires JobsFit(s, {id}, maxN) && id in s.jobs && s.jobs[id].home.In?
    ensures JobsFit(Unlinked(s, s.jobs[id].home.seqNo, id), {id}, maxN)
  {
    var s' := Unlinked(s, s.jobs[id].home.seqNo, id);
    forall k | k in s'.jobs
      ensures JobFits(s'.book, k, s'.jobs[k], k in {id}, maxN)
    {
      assert JobFits(s.book, k, s.jobs[k], k in {id}, maxN);
    }
  }

  /** Unlinking a job from its file, with the collection it may set off, changes neither
      what the current and later files hold nor what is recoverable of any other job. */
  lemma RmJobKeeps(s: Log, id: u64, maxN: nat)
    requires Base(s, {id}, maxN) && id in s.jobs && s.jobs[id].home.In?
    ensures var s' := FileRmJob(s, s.jobs[id].home.seqNo, id);
            && Kept(s, s', {id}, maxN)
            && s'.live == DropJob(s.live, s.jobs[id].home.seqNo, id)
            && s'.jobs == s.jobs[id := s.jobs[id].(home := Nowhere, used := 0)]
  {
    hide Loose, Unlinked, Unreferenced, Gc, FileRmJob, Recoverable, HeadHeld;
    var q := s.jobs[id].home.seqNo;
    var s0 := Unlinked(s, q, id);
    RmIs(s, q, id);
    UnlinkedIs(s, q, id);
    UnlinkedKeeps(s, id, maxN);
    GcKeeps(s0, {id}, maxN);
    if !Unreferenced(s0, q) {
      StillHeld(s, id, maxN);
    }
  }

  lemma RmIs(s: Log, q: nat, id: u64)
    requires id in s.jobs && s.jobs[id].home == In(q)
    ensures var u := Unlinked(s, q, id);
            FileRmJob(s, q, id) == if Unreferenced(u, q) then Gc(u) else u
  {
    hide Gc, Unreferenced, Unlinked;
  }

  lemma UnlinkedIs(s: Log, q: nat, id: u64)
    requires id in s.jobs
    ensures Unlinked(s, q, id).live == DropJob(s.live, q, id)
    ensures Unlinked(s, q, id).jobs == s.jobs[id := s.jobs[id].(home := Nowhere, used := 0)]
  {
  }

  // A head file that has lost a job but is still referred to.
  lemma StillHeld(s: Log, id: u64, maxN: nat)
    requires Base(s, {id}, maxN) && id in s.jobs && s.jobs[id].home.In?
    requires !Unreferenced(Unlinked(s, s.jobs[id].home.seqNo, id), s.jobs[id].home.seqNo)
    ensures HeadHeld(Unlinked(s, s.jobs[id].home.seqNo, id))
  {
    hide Loose;
    var q := s.jobs[id].home.seqNo;
    var s0 := Unlinked(s, q, id);
    UnlinkedFiles(s, q, id);
    assert s0.past != [] ==> s0.past[0] in s0.past + s0.live;
  }

  // ---------- Appending a record to the current file ----------

  // What the one book says, the other says too.
  ghost predicate Extends(a: map<u64, Deed>, b: map<u64, Deed>) {
    forall id :: id in a ==> id in b && b[id] == a[id]
  }

  // s' is s with record r added to the current file and paid for by its reserve; the lists
  // of jobs may differ as well.
  ghost predicate Appended(s: Log, s': Log, r: Rec) {
    && s.live != [] && s'.past == s.past && |s'.live| == |s.live| && s'.live[1..] == s.live[1..]
    && s'.fileSize == s.fileSize && s'.next == s.next && s'.nfile == s.nfile && Extends(s.book, s'.book)
    && var f, f' := s.live[0], s'.live[0];
       f' == f.(recs := f.recs + [r], resv := f.resv - RecSize(r), jobs := f'.jobs, refs := f'.refs)
  }

  lemma AppendedFiles(s: Log, s': Log, r: Rec)
    requires Appended(s, s', r)
    ensures |Files(s')| == |Files(s)|
    ensures forall i :: 0 <= i < |Files(s)| && i != |s.past| ==> Files(s')[i] == Files(s)[i]
    ensures Files(s')[|s.past|] == s'.live[0] && Files(s)[|s.past|] == s.live[0]
  {
    forall i | 0 <= i < |Files(s)| && i != |s.past|
      ensures Files(s')[i] == Files(s)[i]
    {
      if i > |s.past| {
        assert s'.live[1..][i - |s.past| - 1] == s.live[1..][i - |s.past| - 1];
      }
    }
  }

  lemma AppendedReplay(s: Log, s': Log, r: Rec)
    requires Appended(s, s', r) && Counted(s) && Tame(SegmentsOf(Files(s))) && TameRec(Recoverable(s), r)
    ensures Recoverable(s') == ApplyRec(Recoverable(s), s.live[0].seqNo, r)
    ensures Tame(SegmentsOf(Files(s')))
  {
    AppendedFiles(s, s', r);
    var segs, k := SegmentsOf(Files(s)), |s.past|;
    forall i | k < i < |segs|
      ensures segs[i].recs == []
    {
      assert Files(s)[i] == s.live[i - k];
    }
    assert SegmentsOf(Files(s')) == segs[k := Segment(segs[k].seqNo, segs[k].recs + [r])];
    ReplayAppend(segs, k, r);
  }

  lemma AppendedWritten(s: Log, s': Log, r: Rec)
    requires Appended(s, s', r) && Written(s) && Counted(s) && Registered(s'.book, r)
    ensures Written(s')
  {
    AppendedFiles(s, s', r);
    forall i | 0 <= i < |Files(s')|
      ensures FileWritten(s'.book, s'.fileSize, Files(s')[i])
    {
      assert FileWritten(s.book, s.fileSize, Files(s)[i]);
      if i == |s.past| {
        assert LiveFile(s.live[0]);
        var rs := s.live[0].recs;
        assert (rs + [r])[..|rs|] == rs;
      }
    }
  }

  lemma AppendedNumbered(s: Log, s': Log, r: Rec)
    requires Appended(s, s', r) && Numbered(s)
    ensures Numbered(s')
  {
    AppendedFiles(s, s', r);
    assert forall i :: 0 <= i < |Files(s)| ==> Files(s')[i].seqNo == Files(s)[i].seqNo;
  }

  // ---------- Short records ----------

  ghost function ShortWritten(s: Log, id: u64): Log
    requires id in s.jobs && s.live != []
  {
    WriteRec(s, id, Short(s.jobs[id].rec))
  }

  lemma ShortAppended(s: Log, id: u64)
    requires id in s.jobs && s.live != []
    ensures Appended(s, ShortWritten(s, id), Short(s.jobs[id].rec))
    ensures ShortWritten(s, id).live[0].jobs == s.live[0].jobs && ShortWritten(s, id).live[0].refs == s.live[0].refs
    ensures ShortWritten(s, id).jobs == s.jobs[id := s.jobs[id].(used := s.jobs[id].used + Z, logged := s.jobs[id].rec)]
    ensures ShortWritten(s, id).alive == s.alive + Z
  {
  }

  lemma ShortLinked(s: Log, id: u64)
    requires id in s.jobs && s.live != [] && Linked(s) && Counted(s)
    ensures Linked(ShortWritten(s, id)) && Counted(ShortWritten(s, id))
  {
    var s' := ShortWritten(s, id);
    ShortAppended(s, id);
    AppendedFiles(s, s', Short(s.jobs[id].rec));
    hide ShortWritten;
    forall i | 0 <= i < |Files(s')|
      ensures FileLinked(s', Files(s')[i])
    {
      assert FileLinked(s, Files(s)[i]);
    }
    forall k | k in s'.jobs
      ensures JobLinked(s', k)
    {
      assert JobLinked(s, k);
      if s.jobs[k].home.In? {
        var i :| 0 <= i < |Files(s)| && Files(s)[i].seqNo == s.jobs[k].home.seqNo && k in Files(s)[i].jobs;
        assert k in Files(s')[i].jobs;
      }
    }
    forall i | 0 <= i < |s'.live|
      ensures LiveFile(s'.live[i]) && (i > 0 ==> s'.live[i].jobs == [] && s'.live[i].recs == [])
    {
      assert LiveFile(s.live[i]);
      assert i > 0 ==> s'.live[1..][i - 1] == s.live[1..][i - 1];
    }
  }

  lemma ShortPersisted(s: Log, id: u64)
    requires id in s.jobs && s.live != [] && s.jobs[id].home.In? && Tallied(s)
    ensures var s', j := ShortWritten(s, id), s.jobs[id];
            && Persisted(s') == Persisted(s)[id := EntryOf(j).(rec := Recovered(j.rec), used := j.used + Z)]
            && Tallied(s')
  {
    var s', j := ShortWritten(s, id), s.jobs[id];
    var e := EntryOf(j).(rec := Recovered(j.rec), used := j.used + Z);
    assert Persisted(s') == Persisted(s)[id := e];
    SumUsedRemove(Persisted(s), id);
    SumUsedSet(Persisted(s), id, e);
  }

  lemma ShortFits(s: Log, id: u64, maxN: nat)
    requires id in s.jobs && s.live != [] && s.jobs[id].home.In? && JobsFit(s, {id}, maxN)
    ensures JobsFit(ShortWritten(s, id), {id}, maxN)
  {
    var s' := ShortWritten(s, id);
    forall k | k in s'.jobs
      ensures JobFits(s'.book, k, s'.jobs[k], k in {id}, maxN)
    {
      assert JobFits(s.book, k, s.jobs[k], k in {id}, maxN);
    }
  }

  // Away from job id a record of job id changes nothing.
  lemma ApplyElsewhere(m: Store, p: Store, p': Store, file: nat, r: Rec)
    requires m - {r.job.id} == p - {r.job.id} && p' - {r.job.id} == p - {r.job.id}
    ensures ApplyRec(m, file, r) - {r.job.id} == p' - {r.job.id}
  {
    assert ApplyRec(m, file, r) - {r.job.id} == m - {r.job.id};
  }

  lemma ShortConsistent(s: Log, id: u64)
    requires id in s.jobs && s.live != [] && s.jobs[id].home.In? && s.jobs[id].rec.id == id
    requires s.jobs[id].rec.bodySize == |s.jobs[id].body|
    requires Consistent(s, {id}) && Counted(s) && Tallied(s)
    ensures var s' := ShortWritten(s, id);
            && Consistent(s', {id})
            && Recoverable(s') == ApplyRec(Recoverable(s), s.live[0].seqNo, Short(s.jobs[id].rec))
  {
    hide Counted, Tallied, Recoverable, Persisted, Tame, ShortWritten, Files;
    var s', r := ShortWritten(s, id), Short(s.jobs[id].rec);
    ShortAppended(s, id);
    ShortPersisted(s, id);
    AppendedReplay(s, s', r);
    var p, p' := Persisted(s), Persisted(s');
    ApplyElsewhere(Recoverable(s), p, p', s.live[0].seqNo, r);
  }

  /** A short record of a linked job. */
  lemma ShortKeeps(s: Log, id: u64, maxN: nat)
    requires id in s.jobs && s.jobs[id].home.In? && Base(s, {id}, maxN)
    requires LiveState(s.jobs[id].rec.state) || s.jobs[id].rec.state == INVALID
    ensures var s' := ShortWritten(s, id);
            && Base(s', {id}, maxN)
            && Recoverable(s') == ApplyRec(Recoverable(s), s.live[0].seqNo, Short(s.jobs[id].rec))
  {
    var s', r := ShortWritten(s, id), Short(s.jobs[id].rec);
    assert JobFits(s.book, id, s.jobs[id], id in {id}, maxN);
    hide Linked, Counted, Written, Tallied, JobsFit, Recoverable, Consistent, ShortWritten, HeadHeld;
    ShortAppended(s, id);
    ShortLinked(s, id);
    ShortPersisted(s, id);
    ShortFits(s, id, maxN);
    ShortConsistent(s, id);
    AppendedWritten(s, s', r);
    AppendedNumbered(s, s', r);
    AppendedHeld(s, s', r);
  }

  lemma AppendedHeld(s: Log, s': Log, r: Rec)
    requires Appended(s, s', r) && HeadHeld(s)
    ensures HeadHeld(s')
  {
  }

  lemma ShortAgrees(m: Store, p: Store, file: nat, j: Job, id: u64)
    requires m == p && j.home.In? && j.rec.id == id && LiveState(j.rec.state)
    requires id in p && p[id] == EntryOf(j)
    ensures var m' := ApplyRec(m, file, Short(j.rec));
            id in m' && m'[id] == EntryOf(j).(rec := Recovered(j.rec), used := j.used + Z)
  {
  }

  lemma ConsistentMeansEqual(s: Log)
    requires Consistent(s, {})
    ensures Recoverable(s) == Persisted(s)
  {
    assert Recoverable(s) - {} == Recoverable(s) && Persisted(s) - {} == Persisted(s);
  }

  /** Updating a job: its short record makes a restart recover the job as it is now. */
  lemma UpdateKeeps(s: Log, id: u64, maxN: nat)
    requires id in s.jobs && s.jobs[id].home.In? && Base(s, {}, maxN) && LiveState(s.jobs[id].rec.state)
    ensures var s', j := ShortWritten(s, id), s.jobs[id];
            && Base(s', {}, maxN)
            && Persisted(s') == Persisted(s)[id := EntryOf(j).(rec := Recovered(j.rec), used := j.used + Z)]
  {
    hide Base, Recoverable, ShortWritten, Persisted;
    BaseFacts(s, id, {}, maxN);
    var s', j := ShortWritten(s, id), s.jobs[id];
    SetAside(s, id, maxN);
    ShortKeeps(s, id, maxN);
    ShortPersisted(s, id);
    ShortAppended(s, id);
    ShortAgrees(Recoverable(s), Persisted(s), s.live[0].seqNo, j, id);
    PutBack(s', id, maxN);
  }

  lemma BaseFacts(s: Log, id: u64, skip: set<u64>, maxN: nat)
    requires Base(s, skip, maxN) && id in s.jobs
    ensures s.live != [] && s.jobs[id].rec.id == id && Tallied(s)
    ensures s.jobs[id].home.In? ==> id in Persisted(s) && Persisted(s)[id] == EntryOf(s.jobs[id])
    ensures skip == {} ==> Recoverable(s) == Persisted(s)
  {
    assert JobFits(s.book, id, s.jobs[id], id in skip, maxN);
    if skip == {} {
      ConsistentMeansEqual(s);
    }
  }

  lemma DeletedIsGone(m: Store, file: nat, job: JobRec)
    requires job.state == INVALID
    ensures job.id !in ApplyRec(m, file, Short(job))
  {
  }

  /** Deleting a job: after its delete record and its unlinking, a restart would recover
      every other job as before, and this one not at all. */
  lemma DeleteKeeps(s: Log, id: u64, maxN: nat)
    requires id in s.jobs && s.jobs[id].home.In? && Base(s, {id}, maxN) && s.jobs[id].rec.state == INVALID
    ensures var s1, q := ShortWritten(s, id), s.jobs[id].home.seqNo;
            var s' := FileRmJob(s1, q, id);
            && Base(s', {}, maxN) && Persisted(s') == Persisted(s) - {id}
            && s'.live == DropJob(s1.live, q, id)
            && id in s'.jobs && s'.jobs[id].home == Nowhere
  {
    hide Base, Recoverable, ShortWritten, FileRmJob, DropJob, Persisted;
    BaseFacts(s, id, {id}, maxN);
    var s1, q := ShortWritten(s, id), s.jobs[id].home.seqNo;
    ShortAppended(s, id);
    var s' := FileRmJob(s1, q, id);
    ShortKeeps(s, id, maxN);
    ShortPersisted(s, id);
    DeletedIsGone(Recoverable(s), s.live[0].seqNo, s.jobs[id].rec);
    RmJobKeeps(s1, id, maxN);
    UnlinkedLeavesOthers(s, s', id);
    PutBack(s', id, maxN);
  }

  lemma UnlinkedLeavesOthers(s: Log, s': Log, id: u64)
    requires id in s.jobs && s.jobs[id].home.In? && id in s'.jobs
    requires forall k :: k != id ==> (k in s'.jobs <==> k in s.jobs) && (k in s.jobs ==> s'.jobs[k] == s.jobs[k])
    requires s'.jobs[id].home == Nowhere
    ensures Persisted(s') == Persisted(s) - {id}
  {
  }

  // ---------- Full records ----------

  // The id has not stood for another job before.
  predicate Known(s: Log, id: u64)
    requires id in s.jobs
  {
    id in s.book ==> s.book[id] == Deed(s.jobs[id].tube, s.jobs[id].body)
  }

  lemma FullAppended(s: Log, id: u64)
    requires id in s.jobs && s.live != [] && Known(s, id)
    ensures var s', j := WriteFull(s, id), s.jobs[id];
            var r := Full(j.tube, j.rec, j.body);
            && Appended(s, s', r) && s'.book == s.book[id := Deed(j.tube, j.body)]
            && s'.live[0].jobs == s.live[0].jobs + [id] && s'.live[0].refs == s.live[0].refs + 1
            && s'.jobs == s.jobs[id := j.(home := In(s.live[0].seqNo), used := j.used + RecSize(r), logged := j.rec)]
            && s'.alive == s.alive + RecSize(r)
  {
  }

  lemma FullLinked(s: Log, id: u64)
    requires id in s.jobs && s.live != [] && s.jobs[id].home == Nowhere && Linked(s) && Counted(s) && Known(s, id)
    ensures Linked(WriteFull(s, id)) && Counted(WriteFull(s, id))
  {
    var s' := WriteFull(s, id);
    var k0 := |s.past|;
    FullAppended(s, id);
    AppendedFiles(s, s', Full(s.jobs[id].tube, s.jobs[id].rec, s.jobs[id].body));
    hide WriteFull;
    forall i | 0 <= i < |Files(s')|
      ensures FileLinked(s', Files(s')[i])
    {
      assert FileLinked(s, Files(s)[i]);
      assert id !in Files(s)[i].jobs;
    }
    forall k | k in s'.jobs
      ensures JobLinked(s', k)
    {
      assert JobLinked(s, k);
      if k == id {
        assert Files(s')[k0].seqNo == s.live[0].seqNo && id in Files(s')[k0].jobs;
      } else if s.jobs[k].home.In? {
        var i :| 0 <= i < |Files(s)| && Files(s)[i].seqNo == s.jobs[k].home.seqNo && k in Files(s)[i].jobs;
        assert k in Files(s')[i].jobs;
      }
    }
    forall i | 0 <= i < |s'.live|
      ensures LiveFile(s'.live[i]) && (i > 0 ==> s'.live[i].jobs == [] && s'.live[i].recs == [])
    {
      assert LiveFile(s.live[i]);
      assert i > 0 ==> s'.live[1..][i - 1] == s.live[1..][i - 1];
    }
  }

  lemma FullPersisted(s: Log, id: u64)
    requires id in s.jobs && s.live != [] && s.jobs[id].home == Nowhere && s.jobs[id].used == 0 && Tallied(s)
    ensures var s', j := WriteFull(s, id), s.jobs[id];
            && Persisted(s') == Persisted(s)[id := Entry(j.tube, Recovered(j.rec), j.body, s.live[0].seqNo,
                FullSize(j.tube, j.body))]
            && id !in Persisted(s) && Tallied(s')
  {
    var s', j := WriteFull(s, id), s.jobs[id];
    var e := Entry(j.tube, Recovered(j.rec), j.body, s.live[0].seqNo, FullSize(j.tube, j.body));
    assert Persisted(s') == Persisted(s)[id := e];
    SumUsedSet(Persisted(s), id, e);
  }

  lemma FullFits(s: Log, id: u64, maxN: nat)
    requires id in s.jobs && s.live != [] && JobsFit(s, {id}, maxN)
    ensures JobsFit(WriteFull(s, id), {id}, maxN)
  {
    var s' := WriteFull(s, id);
    assert JobFits(s.book, id, s.jobs[id], id in {id}, maxN);
    forall k | k in s'.jobs
      ensures JobFits(s'.book, k, s'.jobs[k], k in {id}, maxN)
    {
      assert JobFits(s.book, k, s.jobs[k], k in {id}, maxN);
    }
  }

  lemma FullConsistent(s: Log, id: u64)
    requires id in s.jobs && s.live != [] && s.jobs[id].rec.id == id && LiveState(s.jobs[id].rec.state)
    requires s.jobs[id].home == Nowhere && s.jobs[id].used == 0 && s.jobs[id].rec.bodySize == |s.jobs[id].body|
    requires Known(s, id)
    requires Consistent(s, {id}) && Counted(s) && Tallied(s)
    ensures Consistent(WriteFull(s, id), {id}) && Agrees(WriteFull(s, id), id)
  {
    hide Counted, Tallied, Recoverable, Persisted, Tame, WriteFull, Files;
    var s', j := WriteFull(s, id), s.jobs[id];
    var r := Full(j.tube, j.rec, j.body);
    FullAppended(s, id);
    FullPersisted(s, id);
    AppendedReplay(s, s', r);
    var p, p' := Persisted(s), Persisted(s');
    ApplyElsewhere(Recoverable(s), p, p', s.live[0].seqNo, r);
  }

  /** Writing a full record of a job that is in no file, be it new or just unlinked from the
      head: a restart would recover it from the current file, exactly as it is now. */
  lemma FullKeeps(s: Log, id: u64, maxN: nat)
    requires id in s.jobs && s.jobs[id].home == Nowhere && Base(s, {id}, maxN) && LiveState(s.jobs[id].rec.state)
    ensures var s', j := WriteFull(s, id), s.jobs[id];
            && Base(s', {}, maxN)
            && Persisted(s') == Persisted(s)[id := Entry(j.tube, Recovered(j.rec), j.body, s.live[0].seqNo,
                FullSize(j.tube, j.body))]
            && id !in Persisted(s)
  {
    var s', j := WriteFull(s, id), s.jobs[id];
    var r := Full(j.tube, j.rec, j.body);
    assert JobFits(s.book, id, j, id in {id}, maxN);
    hide Linked, Counted, Written, Tallied, JobsFit, Recoverable, Consistent, WriteFull, HeadHeld, Agrees;
    FullAppended(s, id);
    FullLinked(s, id);
    FullPersisted(s, id);
    FullFits(s, id, maxN);
    FullConsistent(s, id);
    AppendedWritten(s, s', r);
    AppendedNumbered(s, s', r);
    AppendedHeld(s, s', r);
    PutBack(s', id, maxN);
  }

  // ---------- Records of jobs that are not there ----------

  // A record that changes no job.
  lemma IgnoredKeeps(t: Log, r: Rec, maxN: nat)
    requires Base(t, {}, maxN) && t.live != [] && r.Short? && r.job.id !in t.jobs && Registered(t.book, r)
    ensures var f := t.live[0];
            Base(t.(live := t.live[0 := f.(recs := f.recs + [r], resv := f.resv - RecSize(r))]), {}, maxN)
  {
    hide Numbered, Counted, Linked, Written, JobsFit, Consistent, Tallied, Recoverable, Persisted, HeadHeld, Registered;
    var f := t.live[0];
    var t' := t.(live := t.live[0 := f.(recs := f.recs + [r], resv := f.resv - RecSize(r))]);
    IgnoredConsistent(t, t', r);
    AppendedWritten(t, t', r);
    AppendedNumbered(t, t', r);
    AppendedHeld(t, t', r);
    IgnoredLinked(t, t', r);
    JobsFitSame(t, t', {}, maxN);
    SameTallied(t, t');
  }

  lemma IgnoredConsistent(t: Log, t': Log, r: Rec)
    requires Consistent(t, {}) && Counted(t) && Appended(t, t', r) && t'.jobs == t.jobs
    requires r.Short? && r.job.id !in t.jobs
    ensures Consistent(t', {})
  {
    ConsistentMeansEqual(t);
    assert r.job.id !in Persisted(t);
    hide Counted, Recoverable, Persisted, Tame, Files;
    AppendedReplay(t, t', r);
    SameJobsPersist(t, t');
  }

  lemma IgnoredLinked(t: Log, t': Log, r: Rec)
    requires Appended(t, t', r) && Linked(t) && Counted(t) && t'.jobs == t.jobs
    requires t'.live[0].jobs == t.live[0].jobs && t'.live[0].refs == t.live[0].refs
    ensures Linked(t') && Counted(t')
  {
    AppendedFiles(t, t', r);
    forall i | 0 <= i < |Files(t')|
      ensures FileLinked(t', Files(t')[i])
    {
      assert FileLinked(t, Files(t)[i]);
    }
    forall k | k in t'.jobs
      ensures JobLinked(t', k)
    {
      assert JobLinked(t, k);
      if t.jobs[k].home.In? {
        var i :| 0 <= i < |Files(t)| && Files(t)[i].seqNo == t.jobs[k].home.seqNo && k in Files(t)[i].jobs;
        assert k in Files(t')[i].jobs;
      }
    }
    forall i | 0 <= i < |t'.live|
      ensures LiveFile(t'.live[i]) && (i > 0 ==> t'.live[i].jobs == [] && t'.live[i].recs == [])
    {
      assert LiveFile(t.live[i]);
      assert i > 0 ==> t'.live[1..][i - 1] == t.live[1..][i - 1];
    }
  }

  // ---------- Changes in memory only ----------

  // At most the records of jobs differ, and those only in what a job may change in memory.
  ghost predicate OnlyRecsDiffer(s: Log, s': Log, skip: set<u64>) {
    && s' == s.(jobs := s'.jobs) && s'.jobs.Keys == s.jobs.Keys
    && forall id :: id in s.jobs ==> RecMayBecome(s.jobs[id], s'.jobs[id], id in skip)
  }

  predicate RecMayBecome(j: Job, j': Job, skipped: bool) {
    && j' == j.(rec := j'.rec)
    && (|| j'.rec == j.rec
        || (&& j'.rec.id == j.rec.id && j'.rec.bodySize == j.rec.bodySize
            && (LiveState(j'.rec.state) || skipped)))
  }

  // The records of jobs may change in memory without being written.
  lemma RecsKeep(s: Log, s': Log, skip: set<u64>, maxN: nat)
    requires Base(s, skip, maxN) && OnlyRecsDiffer(s, s', skip)
    ensures Base(s', skip, maxN) && Persisted(s') == Persisted(s)
  {
    hide Linked, JobsFit, Persisted, Numbered, Counted, Written, Recoverable, HeadHeld, Files, Consistent, RecMayBecome;
    RecsFit(s, s', skip, maxN);
    RecsLinked(s, s', skip);
    RecsPersisted(s, s', skip);
    SameFilesSameReplay(s, s');
    RecsSame(s, s', skip);
    SameTubesConsistent(s, s', skip);
  }

  lemma RecsSame(s: Log, s': Log, skip: set<u64>)
    requires OnlyRecsDiffer(s, s', skip)
    ensures forall k :: k in s.jobs ==>
        k in s'.jobs && s'.jobs[k].tube == s.jobs[k].tube && s'.jobs[k].body == s.jobs[k].body
  {
    forall k | k in s.jobs
      ensures k in s'.jobs && s'.jobs[k].tube == s.jobs[k].tube && s'.jobs[k].body == s.jobs[k].body
    {
      assert RecMayBecome(s.jobs[k], s'.jobs[k], k in skip);
    }
  }

  lemma TouchKeeps(s: Log, id: u64, rec: JobRec, skip: set<u64>, maxN: nat)
    requires id in s.jobs && Base(s, skip, maxN)
    requires rec.id == id && rec.bodySize == s.jobs[id].rec.bodySize && (LiveState(rec.state) || id in skip)
    ensures var s' := s.(jobs := s.jobs[id := s.jobs[id].(rec := rec)]);
            Base(s', skip, maxN) && Persisted(s') == Persisted(s)
  {
    assert JobFits(s.book, id, s.jobs[id], id in skip, maxN);
    hide Base;
    RecsKeep(s, s.(jobs := s.jobs[id := s.jobs[id].(rec := rec)]), skip, maxN);
  }

  lemma RecsPersisted(s: Log, s': Log, skip: set<u64>)
    requires OnlyRecsDiffer(s, s', skip)
    ensures Persisted(s') == Persisted(s)
  {
    forall id | id in s.jobs
      ensures s'.jobs[id].home == s.jobs[id].home
      ensures s.jobs[id].home.In? ==> EntryOf(s'.jobs[id]) == EntryOf(s.jobs[id])
    {
      assert RecMayBecome(s.jobs[id], s'.jobs[id], id in skip);
    }
  }

  lemma SameTubesConsistent(s: Log, s': Log, skip: set<u64>)
    requires Consistent(s, skip) && Files(s') == Files(s) && Persisted(s') == Persisted(s)
    requires forall k :: k in s.jobs ==>
        k in s'.jobs && s'.jobs[k].tube == s.jobs[k].tube && s'.jobs[k].body == s.jobs[k].body
    ensures Consistent(s', skip)
  {
    hide Persisted, Tame;
  }

  lemma SameFilesSameReplay(s: Log, s': Log)
    requires s'.past == s.past && s'.live == s.live && s'.next == s.next && s'.nfile == s.nfile
    requires s'.fileSize == s.fileSize && s'.book == s.book
    ensures Files(s') == Files(s) && Recoverable(s') == Recoverable(s)
    ensures (Numbered(s) ==> Numbered(s')) && (Counted(s) ==> Counted(s'))
    ensures (Written(s) ==> Written(s')) && (HeadHeld(s) ==> HeadHeld(s'))
  {
  }

  lemma RecsFit(s: Log, s': Log, skip: set<u64>, maxN: nat)
    requires JobsFit(s, skip, maxN) && OnlyRecsDiffer(s, s', skip)
    ensures JobsFit(s', skip, maxN)
  {
    forall k | k in s'.jobs
      ensures JobFits(s'.book, k, s'.jobs[k], k in skip, maxN)
    {
      assert JobFits(s.book, k, s.jobs[k], k in skip, maxN);
      assert RecMayBecome(s.jobs[k], s'.jobs[k], k in skip);
    }
  }

  lemma RecsLinked(s: Log, s': Log, skip: set<u64>)
    requires Linked(s) && OnlyRecsDiffer(s, s', skip)
    ensures Linked(s')
  {
    assert Files(s') == Files(s);
    forall k | k in s'.jobs
      ensures JobLinked(s', k)
    {
      assert JobLinked(s, k);
      assert RecMayBecome(s.jobs[k], s'.jobs[k], k in skip);
    }
    forall i | 0 <= i < |Files(s')|
      ensures FileLinked(s', Files(s')[i])
    {
      assert FileLinked(s, Files(s)[i]);
      forall id | id in Files(s)[i].jobs
        ensures id in s'.jobs && s'.jobs[id].home == In(Files(s)[i].seqNo)
      {
        assert RecMayBecome(s.jobs[id], s'.jobs[id], id in skip);
      }
    }
  }
}
