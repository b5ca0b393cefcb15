/** Start-up: the files found on disk are read record by record into an empty log, which
    links every job to the file of its latest full record, counts references and bytes, and
    drops head files that nothing refers to on the way; then a file is made for writing, and a
    delete record is reserved for every job. */
module Startup {
  import opened Records
  import opened Replay
  import opened WalState
  import opened Linking
  import opened Space
  import opened Upkeep
  import opened Writing
  import opened Commands
  import opened Runs
  import R = Restart

  // A file as found: its number, its length and the records in it.
  datatype Found = Found(seqNo: nat, size: nat, recs: seq<Rec>)

  // ---------- Reading ----------

  // The file is added to the list; while it is read it is referred to once.
  function Begin(s: Log, f: Found): Log {
    s.(live := [File(f.seqNo, 1, false, 0, 0, f.size, [], [])], nfile := s.nfile + 1)
  }

  // One more record of the file has been read.
  function Noted(s: Log, r: Rec): Log
    requires s.live != []
  {
    s.(live := s.live[0 := s.live[0].(recs := s.live[0].recs + [r])])
  }

  // The job counts l bytes more.
  function Charged(s: Log, id: u64, l: nat): Log
    requires id in s.jobs
  {
    s.(jobs := s.jobs[id := s.jobs[id].(used := s.jobs[id].used + l)], alive := s.alive + l)
  }

  function SetRead(s: Log, id: u64, tube: Bytes, body: Bytes, job: JobRec): Log {
    var rec := Recovered(job);
    s.(jobs := s.jobs[id := if id in s.jobs then s.jobs[id].(rec := rec, logged := rec, body := body)
                            else Job(tube, body, rec, rec, Nowhere, 0)])
  }

  function Unlink(s: Log, id: u64): (s': Log)
    requires id in s.jobs
    ensures s'.jobs.Keys == s.jobs.Keys
  {
    if s.jobs[id].home.In? then FileRmJob(s, s.jobs[id].home.seqNo, id) else s
  }

  /** Reads one record. A short record of a job not seen is ignored; a reservation is read back
      as ready; a delete record unlinks the job and frees it; a full record moves the job to
      the file being read. */
  function LoadRec(s: Log, r: Rec): (s': Log)
    requires s.live != []
  {
    var id, s0 := r.job.id, Noted(s, r);
    if id !in s.jobs && (r.Short? || r.job.state == INVALID) then s0
    else if r.job.state == INVALID then Forget(Unlink(s0, id), id)
    else match r
      case Short(job) => Charged(SetRead(s0, id, [], s0.jobs[id].body, job), id, Z)
      case Full(tube, job, body) =>
        var s1 := Unlink(SetRead(s0, id, tube, body, job), id);
        if s1.live == [] then s1 else Charged(FileAddJob(s1, id), id, RecSize(r))
  }

  // Everything is read; the file is referred to by its jobs alone.
  function End(s: Log): Log
    requires s.live != []
  {
    var f := s.live[0].(refs := s.live[0].refs - 1);
    var s' := s.(past := s.past + [f], live := []);
    if f.refs < 1 then Gc(s') else s'
  }

  // ---------- The file being read as a file being written ----------

  // Reading a record does to the log what writing it did. To see this, take the file that is
  // read for one that is open with the rest of its length free.
  ghost function Shadow(s: Log): Log
    requires s.live != []
  {
    var f := s.live[0];
    var size: nat := s.fileSize + (if f.size > 0 then f.size else 0) + WORD;
    s.(fileSize := size,
       live := s.live[0 := f.(open := true, free := size - WORD - RecsSize(f.recs), resv := 0, size := size)])
  }

  // Every job has been read from a file and is as it was read.
  ghost predicate AllHomed(s: Log) {
    forall id :: id in s.jobs ==> s.jobs[id].home.In? && AsRead(s.jobs[id])
  }

  predicate AsRead(j: Job) {
    j.rec == j.logged && j.rec.state != RESERVED
  }

  // In the middle of reading a file.
  ghost predicate Reading(s: Log, maxN: nat) {
    && |s.live| == 1 && !s.live[0].open && s.live[0].free == 0 && s.live[0].resv == 0
    && AllHomed(s) && Base(Shadow(s), {}, maxN)
  }

  // The record is one the server may have written, and fits the ones read before.
  ghost predicate Readable(s: Log, r: Rec, maxN: nat) {
    && WellFormed(r) && TameRec(Persisted(s), r) && Registered(BookWith(s.book, r), r)
    && (r.Full? ==> FullSize(r.tube, r.body) + Z <= maxN)
    && (r.Full? && r.job.id in s.book ==> s.book[r.job.id] == Deed(r.tube, r.body))
  }

  // A job is entered into the book when its full record is read.
  ghost function BookWith(book: map<u64, Deed>, r: Rec): map<u64, Deed> {
    if r.Full? then book[r.job.id := Deed(r.tube, r.body)] else book
  }

  lemma NotedSize(s: Log, r: Rec)
    requires s.live != []
    ensures RecsSize(s.live[0].recs + [r]) == RecsSize(s.live[0].recs) + RecSize(r)
  {
    assert (s.live[0].recs + [r])[..|s.live[0].recs|] == s.live[0].recs;
  }

  // ---------- What is read back is recovered ----------

  // The job as it is after its record has been read.
  ghost function Reread(t: Log, id: u64): Log
    requires id in t.jobs
  {
    var j := t.jobs[id];
    t.(jobs := t.jobs[id := j.(rec := Recovered(j.rec), logged := Recovered(j.logged))])
  }

  lemma RereadLinked(t: Log, id: u64)
    requires id in t.jobs && Linked(t)
    ensures Linked(Reread(t, id))
  {
    var t' := Reread(t, id);
    assert Files(t') == Files(t);
    forall k | k in t'.jobs
      ensures JobLinked(t', k)
    {
      assert JobLinked(t, k);
    }
    forall i | 0 <= i < |Files(t')|
      ensures FileLinked(t', Files(t')[i])
    {
      assert FileLinked(t, Files(t)[i]);
    }
  }

  lemma RereadFits(t: Log, id: u64, maxN: nat)
    requires id in t.jobs && JobsFit(t, {}, maxN)
    ensures JobsFit(Reread(t, id), {}, maxN)
  {
    var t' := Reread(t, id);
    forall k | k in t'.jobs
      ensures JobFits(t'.book, k, t'.jobs[k], k in {}, maxN)
    {
      assert JobFits(t.book, k, t.jobs[k], k in {}, maxN);
    }
  }

  lemma RereadPersisted(t: Log, id: u64)
    requires id in t.jobs
    ensures Persisted(Reread(t, id)) == Persisted(t)
  {
  }

  lemma RereadKeeps(t: Log, id: u64, maxN: nat)
    requires id in t.jobs && Base(t, {}, maxN)
    ensures Base(Reread(t, id), {}, maxN) && Persisted(Reread(t, id)) == Persisted(t)
  {
    hide Linked, JobsFit, Persisted, Numbered, Counted, Written, Recoverable, HeadHeld, Files, Consistent;
    var t' := Reread(t, id);
    RereadPersisted(t, id);
    RereadLinked(t, id);
    RereadFits(t, id, maxN);
    SameFilesSameReplay(t, t');
    SameTubesConsistent(t, t', {});
  }

  // ---------- The cases of reading a record ----------

  lemma SizeOf(t: Log, id: u64, maxN: nat)
    requires Base(t, {}, maxN) && id in t.jobs
    ensures t.jobs[id].rec.bodySize == |t.jobs[id].body| && t.live != []
  {
    assert JobFits(t.book, id, t.jobs[id], id in {}, maxN);
  }

  lemma ShortRead(t: Log, id: u64, job: JobRec, maxN: nat)
    requires Base(t, {}, maxN) && id in t.jobs && t.jobs[id].home.In? && LiveState(job.state)
    requires job.id == id && job.bodySize == |t.jobs[id].body|
    ensures t.live != [] && id in WithRec(t, id, job).jobs && id in ShortWritten(WithRec(t, id, job), id).jobs
    ensures var t1 := Reread(ShortWritten(WithRec(t, id, job), id), id);
            Base(t1, {}, maxN) && Persisted(t1) == ApplyRec(Persisted(t), t.live[0].seqNo, Short(job))
  {
    hide Base, Persisted, ShortWritten, Reread;
    SizeOf(t, id, maxN);
    IsPersisted(t, id);
    TouchKeeps(t, id, job, {}, maxN);
    var t0 := WithRec(t, id, job);
    UpdateKeeps(t0, id, maxN);
    var t1 := ShortWritten(t0, id);
    ShortAppended(t0, id);
    RereadKeeps(t1, id, maxN);
  }

  lemma FullRead(t: Log, id: u64, tube: Bytes, job: JobRec, body: Bytes, maxN: nat)
    requires Base(t, {}, maxN) && id !in t.jobs && job.id == id && WellFormed(Full(tube, job, body))
    requires FullSize(tube, body) + Z <= maxN && (id in t.book ==> t.book[id] == Deed(tube, body))
    ensures t.live != []
    ensures var t0 := WithJob(t, id, Job(tube, body, job, job, Nowhere, 0));
            && id in WriteFull(t0, id).jobs
            && var t1 := Reread(WriteFull(t0, id), id);
            Base(t1, {}, maxN) && Persisted(t1) == ApplyRec(Persisted(t), t.live[0].seqNo, Full(tube, job, body))
  {
    hide Base, Persisted, WriteFull, JobFits, WithJob, Recovered;
    var j := Job(tube, body, job, job, Nowhere, 0);
    ReadJobFits(t, id, tube, job, body, maxN);
    FreshBase(t, id, j, maxN);
    FreshPersisted(t, id, j);
    var t0 := WithJob(t, id, j);
    JobAdded(t, id, j);
    SetAside(t0, id, maxN);
    FullKeeps(t0, id, maxN);
    BaseKnows(t0, id, {}, maxN);
    FullAppended(t0, id);
    RereadKeeps(WriteFull(t0, id), id, maxN);
  }

  lemma JobAdded(t: Log, id: u64, j: Job)
    ensures WithJob(t, id, j) == t.(jobs := t.jobs[id := j])
  {
  }

  lemma ReadJobFits(t: Log, id: u64, tube: Bytes, job: JobRec, body: Bytes, maxN: nat)
    requires job.id == id && WellFormed(Full(tube, job, body)) && FullSize(tube, body) + Z <= maxN
    requires id in t.book ==> t.book[id] == Deed(tube, body)
    ensures JobFits(t.book, id, Job(tube, body, job, job, Nowhere, 0), false, maxN) && LiveState(job.state)
  {
  }

  // A job that is in no file, with another record.
  ghost function Aside(t: Log, id: u64, job: JobRec): Log
    requires id in t.jobs
  {
    t.(jobs := t.jobs[id := t.jobs[id].(rec := job, logged := job)])
  }

  lemma AsidePersisted(t: Log, id: u64, job: JobRec)
    requires id in t.jobs && t.jobs[id].home == Nowhere
    ensures Persisted(Aside(t, id, job)) == Persisted(t)
  {
  }

  lemma AsideKeeps(t: Log, id: u64, job: JobRec, maxN: nat)
    requires Base(t, {id}, maxN) && id in t.jobs && t.jobs[id].home == Nowhere
    requires job.id == id && job.bodySize == |t.jobs[id].body|
    ensures Base(Aside(t, id, job), {id}, maxN) && Persisted(Aside(t, id, job)) == Persisted(t)
  {
    hide Linked, JobsFit, Persisted, Numbered, Counted, Written, Recoverable, HeadHeld, Files, Consistent;
    var t' := Aside(t, id, job);
    AsidePersisted(t, id, job);
    AsideLinked(t, id, job);
    AsideFits(t, id, job, maxN);
    SameFilesSameReplay(t, t');
    SameTubesConsistent(t, t', {id});
  }

  lemma AsideLinked(t: Log, id: u64, job: JobRec)
    requires id in t.jobs && Linked(t)
    ensures Linked(Aside(t, id, job))
  {
    var t' := Aside(t, id, job);
    assert Files(t') == Files(t);
    forall k | k in t'.jobs
      ensures JobLinked(t', k)
    {
      assert JobLinked(t, k);
    }
    forall i | 0 <= i < |Files(t')|
      ensures FileLinked(t', Files(t')[i])
    {
      assert FileLinked(t, Files(t)[i]);
    }
  }

  lemma AsideFits(t: Log, id: u64, job: JobRec, maxN: nat)
    requires id in t.jobs && t.jobs[id].home == Nowhere && JobsFit(t, {id}, maxN) && job.id == id
        && job.bodySize == |t.jobs[id].body|
    ensures JobsFit(Aside(t, id, job), {id}, maxN)
  {
    var t' := Aside(t, id, job);
    assert JobFits(t.book, id, t.jobs[id], id in {id}, maxN);
    forall k | k in t'.jobs
      ensures JobFits(t'.book, k, t'.jobs[k], k in {id}, maxN)
    {
      assert JobFits(t.book, k, t.jobs[k], k in {id}, maxN);
    }
  }

  // A job that is read a second time in full moves to the file being read.
  ghost function Moved(t: Log, id: u64, job: JobRec): Log
    requires id in t.jobs && t.jobs[id].home.In?
  {
    var t1 := FileRmJob(t, t.jobs[id].home.seqNo, id);
    var t2 := Aside(t1, id, job);
    if t2.live == [] then t2 else Reread(WriteFull(t2, id), id)
  }

  lemma MoveRead(t: Log, id: u64, tube: Bytes, job: JobRec, body: Bytes, maxN: nat)
    requires Base(t, {}, maxN) && id in t.jobs && t.jobs[id].home.In? && LiveState(job.state)
    requires job.id == id && job.bodySize == |t.jobs[id].body| && tube == t.jobs[id].tube && body == t.jobs[id].body
    ensures t.live != []
    ensures var t1 := Moved(t, id, job);
            && Base(t1, {}, maxN) && t1.live != []
            && Persisted(t1) == ApplyRec(Persisted(t), t.live[0].seqNo, Full(tube, job, body))
  {
    hide Base, Persisted, WriteFull, FileRmJob;
    SizeOf(t, id, maxN);
    IsPersisted(t, id);
    SetAside(t, id, maxN);
    RmJobKeeps(t, id, maxN);
    var t1 := FileRmJob(t, t.jobs[id].home.seqNo, id);
    UnlinkedLeavesOthers(t, t1, id);
    AsideKeeps(t1, id, job, maxN);
    var t2 := Aside(t1, id, job);
    DroppedFront(t.live, t.jobs[id].home.seqNo, id);
    FullKeeps(t2, id, maxN);
    BaseKnows(t2, id, {id}, maxN);
    FullAppended(t2, id);
    RereadKeeps(WriteFull(t2, id), id, maxN);
  }

  lemma DroppedFront(fs: seq<File>, q: nat, id: u64)
    requires fs != []
    ensures |DropJob(fs, q, id)| == |fs| && DropJob(fs, q, id)[0].seqNo == fs[0].seqNo
  {
  }

  // A delete record of a job that has been read.
  ghost function Erased(t: Log, id: u64, job: JobRec): Log
    requires id in t.jobs && t.jobs[id].home.In? && t.live != []
  {
    Forget(FileRmJob(ShortWritten(WithRec(t, id, job), id), t.jobs[id].home.seqNo, id), id)
  }

  lemma DeleteRead(t: Log, id: u64, job: JobRec, maxN: nat)
    requires Base(t, {}, maxN) && id in t.jobs && t.jobs[id].home.In? && job.state == INVALID
    requires job.id == id && job.bodySize == |t.jobs[id].body|
    ensures t.live != []
    ensures Base(Erased(t, id, job), {}, maxN) && Persisted(Erased(t, id, job)) == Persisted(t) - {id}
  {
    hide Base, Persisted, ShortWritten, FileRmJob;
    SizeOf(t, id, maxN);
    SetAside(t, id, maxN);
    TouchKeeps(t, id, job, {id}, maxN);
    var t0 := WithRec(t, id, job);
    Writing.DeleteKeeps(t0, id, maxN);
    var t1 := FileRmJob(ShortWritten(t0, id), t.jobs[id].home.seqNo, id);
    ForgetBase(t1, id, maxN);
    ForgetPersisted(t1, id);
  }

  // ---------- Reading follows writing ----------

  lemma ShadowNoted(s: Log, r: Rec)
    requires |s.live| == 1
    ensures var t, f := Shadow(s), Shadow(s).live[0];
            OnlySpaceDiffers(t.(live := t.live[0 := f.(recs := f.recs + [r], resv := f.resv - RecSize(r))]),
                Shadow(Noted(s, r)))
  {
    hide RecSize, RecsSize;
    var f := Shadow(s).live[0];
    NotedSize(s, r);
    assert Shadow(Noted(s, r)).live == [f.(recs := f.recs + [r], free := f.free - RecSize(r))];
  }

  // A log whose only file at the end holds one more record, of a job it has.
  ghost function WithShort(s: Log, id: u64, r: Rec, j: Job): Log
    requires |s.live| == 1
  {
    s.(live := [s.live[0].(recs := s.live[0].recs + [r])], jobs := s.jobs[id := j], alive := s.alive + Z)
  }

  lemma LoadedShort(s: Log, id: u64, job: JobRec)
    requires |s.live| == 1 && id in s.jobs && job.id == id && job.state != INVALID
    ensures var rec, j := Recovered(job), s.jobs[id];
            LoadRec(s, Short(job)) == WithShort(s, id, Short(job), j.(rec := rec, logged := rec, used := j.used + Z))
  {
  }

  lemma WrittenShort(t: Log, id: u64, job: JobRec)
    requires |t.live| == 1 && id in t.jobs
    ensures var r, rec, j := Short(job), Recovered(job), t.jobs[id];
            var t1, w := Reread(ShortWritten(WithRec(t, id, job), id), id), WithShort(t, id, r, j.(rec := rec,
                logged := rec, used := j.used + Z));
            OnlySpaceDiffers(t1, w.(live := [w.live[0].(free := t.live[0].free - Z)]))
  {
  }

  lemma ShadowWithShort(s: Log, id: u64, job: JobRec, j: Job)
    requires |s.live| == 1
    ensures var t, w := Shadow(s), WithShort(Shadow(s), id, Short(job), j);
            Shadow(WithShort(s, id, Short(job), j)) == w.(live := [w.live[0].(free := t.live[0].free - Z)])
  {
    NotedSize(s, Short(job));
  }

  lemma ShadowShort(s: Log, id: u64, job: JobRec)
    requires |s.live| == 1 && id in s.jobs && job.id == id && job.state != INVALID
    ensures var t := Shadow(s);
            OnlySpaceDiffers(Reread(ShortWritten(WithRec(t, id, job), id), id), Shadow(LoadRec(s, Short(job))))
  {
    hide LoadRec, OnlySpaceDiffers, ShortWritten, Reread;
    var rec, j := Recovered(job), s.jobs[id];
    LoadedShort(s, id, job);
    WrittenShort(Shadow(s), id, job);
    ShadowWithShort(s, id, job, j.(rec := rec, logged := rec, used := j.used + Z));
  }

  // A log whose only file at the end holds one more record and one more job.
  ghost function WithFull(s: Log, id: u64, r: Rec, j: Job): Log
    requires |s.live| == 1
  {
    var f := s.live[0];
    s.(live := [f.(recs := f.recs + [r], jobs := f.jobs + [id], refs := f.refs + 1)],
       jobs := s.jobs[id := j], alive := s.alive + RecSize(r), book := s.book[id := Deed(j.tube, j.body)])
  }

  lemma LoadedFull(s: Log, id: u64, tube: Bytes, job: JobRec, body: Bytes)
    requires |s.live| == 1 && id !in s.jobs && job.id == id && job.state != INVALID
    ensures var r, rec := Full(tube, job, body), Recovered(job);
            LoadRec(s, r) == WithFull(s, id, r, Job(tube, body, rec, rec, In(s.live[0].seqNo), RecSize(r)))
  {
  }

  lemma WrittenFull(t: Log, id: u64, tube: Bytes, job: JobRec, body: Bytes)
    requires |t.live| == 1
    ensures var r, rec := Full(tube, job, body), Recovered(job);
            var t1 := Reread(WriteFull(WithJob(t, id, Job(tube, body, job, job, Nowhere, 0)), id), id);
            OnlySpaceDiffers(t1, WithFull(t, id, r, Job(tube, body, rec, rec, In(t.live[0].seqNo), RecSize(r)))
                      .(live := [WithFull(t, id, r, t1.jobs[id]).live[0].(free := t.live[0].free - RecSize(r))]))
  {
  }

  lemma ShadowWithFull(s: Log, id: u64, r: Rec, j: Job)
    requires |s.live| == 1
    ensures var t, f := Shadow(s), Shadow(s).live[0];
            Shadow(WithFull(s, id, r, j)) ==
            WithFull(t, id, r, j).(live := [WithFull(t, id, r, j).live[0].(free := f.free - RecSize(r))])
  {
    NotedSize(s, r);
  }

  lemma ShadowFull(s: Log, id: u64, tube: Bytes, job: JobRec, body: Bytes)
    requires |s.live| == 1 && id !in s.jobs && job.id == id && job.state != INVALID
    ensures var t := Shadow(s);
            var t0 := WithJob(t, id, Job(tube, body, job, job, Nowhere, 0));
            OnlySpaceDiffers(Reread(WriteFull(t0, id), id), Shadow(LoadRec(s, Full(tube, job, body))))
  {
    hide LoadRec, WriteFull, OnlySpaceDiffers, WithJob, Reread;
    var r, rec := Full(tube, job, body), Recovered(job);
    LoadedFull(s, id, tube, job, body);
    WrittenFull(Shadow(s), id, tube, job, body);
    ShadowWithFull(s, id, r, Job(tube, body, rec, rec, In(s.live[0].seqNo), RecSize(r)));
  }

  // Collection does not care whether the file being read is taken for an open one, nor for
  // what is noted in it and in the dictionary.
  ghost predicate SameToGc(s: Log, t: Log) {
    && t.past == s.past && |s.live| == |t.live| == 1 && s.live[0].refs == t.live[0].refs > 0
    && t.nfile == s.nfile
  }

  lemma {:induction false} GcFollows(s: Log, t: Log)
    requires SameToGc(s, t)
    ensures Gc(t) == t.(past := Gc(s).past, nfile := Gc(s).nfile)
    ensures Gc(s) == s.(past := Gc(s).past, nfile := Gc(s).nfile)
    decreases |s.past|
  {
    if s.past != [] && s.past[0].refs <= 0 {
      GcFollows(s.(past := s.past[1..], nfile := s.nfile - 1), t.(past := t.past[1..], nfile := t.nfile - 1));
    }
  }

  // Two logs that differ in nothing that unlinking job id looks at.
  ghost predicate SameToRm(s: Log, t: Log, q: nat, id: u64) {
    && t.past == s.past && t.nfile == s.nfile && |s.live| == |t.live| == 1
    && s.live[0].seqNo == t.live[0].seqNo && s.live[0].jobs == t.live[0].jobs && s.live[0].refs == t.live[0].refs
    && id in s.jobs && id in t.jobs && s.jobs[id].home == t.jobs[id].home == In(q)
  }

  lemma SameUnreferenced(s: Log, t: Log, q: nat)
    requires |Files(s)| == |Files(t)|
    requires forall i :: 0 <= i < |Files(s)| ==>
        Files(s)[i].seqNo == Files(t)[i].seqNo && Files(s)[i].refs == Files(t)[i].refs
    ensures Unreferenced(s, q) <==> Unreferenced(t, q)
  {
    if Unreferenced(s, q) {
      var i :| 0 <= i < |Files(s)| && Files(s)[i].seqNo == q && Files(s)[i].refs < 1;
      assert Files(t)[i] in Files(t);
    }
    if Unreferenced(t, q) {
      var i :| 0 <= i < |Files(t)| && Files(t)[i].seqNo == q && Files(t)[i].refs < 1;
      assert Files(s)[i] in Files(s);
    }
  }

  lemma UnlinkedFollows(s: Log, t: Log, q: nat, id: u64)
    requires SameToRm(s, t, q, id)
    ensures var u, v := Unlinked(s, q, id), Unlinked(t, q, id);
            && u.past == v.past && |u.live| == |v.live| == 1 && u.live == DropJob(s.live, q, id)
            && v.live == DropJob(t.live, q, id)
            && u.live[0].refs == v.live[0].refs && (Unreferenced(u, q) <==> Unreferenced(v, q))
            && u.nfile == v.nfile
  {
    var u, v := Unlinked(s, q, id), Unlinked(t, q, id);
    forall i | 0 <= i < |Files(u)|
      ensures Files(u)[i].seqNo == Files(v)[i].seqNo && Files(u)[i].refs == Files(v)[i].refs
    {
      if i >= |s.past| {
        assert Files(u)[i] == u.live[i - |s.past|] && Files(v)[i] == v.live[i - |s.past|];
      }
    }
    SameUnreferenced(u, v, q);
  }

  lemma RmFollows(s: Log, t: Log, q: nat, id: u64)
    requires SameToRm(s, t, q, id) && DropJob(t.live, q, id)[0].refs > 0
    ensures var a, b, j, k := FileRmJob(s, q, id), FileRmJob(t, q, id), s.jobs[id], t.jobs[id];
            && a == s.(past := b.past, nfile := b.nfile, live := DropJob(s.live, q, id),
                       jobs := s.jobs[id := j.(home := Nowhere, used := 0)], alive := s.alive - j.used)
            && b == t.(past := b.past, nfile := b.nfile, live := DropJob(t.live, q, id),
                       jobs := t.jobs[id := k.(home := Nowhere, used := 0)], alive := t.alive - k.used)
  {
    hide Gc, Unreferenced, DropJob;
    var u, v := Unlinked(s, q, id), Unlinked(t, q, id);
    UnlinkedFollows(s, t, q, id);
    RmIs(s, q, id);
    RmIs(t, q, id);
    if Unreferenced(u, q) {
      GcFollows(u, v);
      GcFollows(v, u);
    }
  }

  // The file read, after an unlinking, and the same taken for one being written.
  ghost predicate Twins(a: Log, b: Log, r: Rec) {
    && |a.live| == |b.live| == 1 && b.past == a.past && b.nfile == a.nfile && b.alive == a.alive
    && b.book == a.book && b.next == a.next
    && b.fileSize == a.fileSize + (if a.live[0].size > 0 then a.live[0].size else 0) + WORD
    && var f, g := a.live[0], b.live[0];
       && f.recs == g.recs + [r] && f.jobs == g.jobs && f.refs == g.refs && f.seqNo == g.seqNo
       && g.open && g.size == b.fileSize && g.free + g.resv == b.fileSize - WORD - RecsSize(g.recs)
  }

  lemma TwinsMoved(a: Log, b: Log, id: u64, r: Rec)
    requires Twins(a, b, r) && r.Full? && id in a.jobs && id in b.jobs && r.job.id == id
    requires var j, rec := b.jobs[id], Recovered(r.job);
             && j.home == Nowhere && j.used == 0 && j.tube == r.tube && j.body == r.body
             && a.jobs == b.jobs[id := j.(rec := rec, logged := rec)]
    ensures OnlySpaceDiffers(Reread(WriteFull(Aside(b, id, r.job), id), id),
        Shadow(Charged(FileAddJob(a, id), id, RecSize(r))))
  {
    NotedSizeOf(b.live[0].recs, r);
  }

  lemma NotedSizeOf(rs: seq<Rec>, r: Rec)
    ensures RecsSize(rs + [r]) == RecsSize(rs) + RecSize(r)
  {
    assert (rs + [r])[..|rs|] == rs;
  }

  lemma DroppedOne(f: File, q: nat, id: u64)
    ensures DropJob([f], q, id) == [DropFrom(f, q, id)]
  {
  }

  lemma ShadowMoved(s: Log, id: u64, tube: Bytes, job: JobRec, body: Bytes)
    requires |s.live| == 1 && id in s.jobs && s.jobs[id].home.In? && job.id == id && job.state != INVALID
    requires tube == s.jobs[id].tube && body == s.jobs[id].body
    requires DropJob(Shadow(s).live, s.jobs[id].home.seqNo, id)[0].refs > 0
    ensures var r := Full(tube, job, body);
            LoadRec(s, r).live != [] && OnlySpaceDiffers(Moved(Shadow(s), id, job), Shadow(LoadRec(s, r)))
  {
    hide FileRmJob, OnlySpaceDiffers, WriteFull, FileAddJob, DropJob;
    var r, q, t := Full(tube, job, body), s.jobs[id].home.seqNo, Shadow(s);
    var s1 := SetRead(Noted(s, r), id, tube, body, job);
    RmFollows(s1, t, q, id);
    DroppedOne(s1.live[0], q, id);
    DroppedOne(t.live[0], q, id);
    assert s1.live == [s1.live[0]] && t.live == [t.live[0]];
    var a, b := FileRmJob(s1, q, id), FileRmJob(t, q, id);
    assert Twins(a, b, r);
    TwinsMoved(a, b, id, r);
    KeptLive(a, id, RecSize(r));
    assert Unlink(s1, id) == a;
  }

  lemma KeptLive(a: Log, id: u64, l: nat)
    requires id in a.jobs && a.live != []
    ensures id in FileAddJob(a, id).jobs && Charged(FileAddJob(a, id), id, l).live != []
  {
  }

  // After the unlinking the file read and its twin differ in where space counts only.
  lemma TwinsErased(a: Log, b: Log, id: u64, size: nat)
    requires |a.live| == |b.live| == 1 && b.past == a.past && b.nfile == a.nfile && b.alive == a.alive
    requires b.book == a.book && b.next == a.next && b.fileSize == size && a.jobs - {id} == b.jobs - {id}
    requires size == a.fileSize + (if a.live[0].size > 0 then a.live[0].size else 0) + WORD
    requires var f, g := a.live[0], b.live[0];
             && f.recs == g.recs && f.jobs == g.jobs && f.refs == g.refs && f.seqNo == g.seqNo
             && g.open && g.size == size && g.free + g.resv == size - WORD - RecsSize(g.recs)
    ensures OnlySpaceDiffers(Forget(b, id), Shadow(Forget(a, id)))
  {
  }

  lemma ShadowErased(s: Log, id: u64, job: JobRec)
    requires |s.live| == 1 && id in s.jobs && s.jobs[id].home.In? && job.id == id && job.state == INVALID
    requires var t := Shadow(s);
             DropJob(ShortWritten(WithRec(t, id, job), id).live, s.jobs[id].home.seqNo, id)[0].refs > 0
    ensures LoadRec(s, Short(job)).live != []
        && OnlySpaceDiffers(Erased(Shadow(s), id, job), Shadow(LoadRec(s, Short(job))))
  {
    hide FileRmJob, DropJob, OnlySpaceDiffers;
    var r, q, t := Short(job), s.jobs[id].home.seqNo, Shadow(s);
    var s1, t1 := Noted(s, r), ShortWritten(WithRec(t, id, job), id);
    RmFollows(s1, t1, q, id);
    NotedSize(s, r);
    DroppedOne(s1.live[0], q, id);
    DroppedOne(t1.live[0], q, id);
    assert s1.live == [s1.live[0]] && t1.live == [t1.live[0]];
    var a, b := FileRmJob(s1, q, id), FileRmJob(t1, q, id);
    assert a.jobs - {id} == b.jobs - {id};
    TwinsErased(a, b, id, t.fileSize);
  }

  // ---------- One record ----------

  lemma ReadingMeans(s: Log, maxN: nat)
    requires Reading(s, maxN)
    ensures |s.live| == 1 && Base(Shadow(s), {}, maxN) && AllHomed(s) && Persisted(Shadow(s)) == Persisted(s)
    ensures Shadow(s).jobs == s.jobs && Shadow(s).book == s.book && Shadow(s).live[0].seqNo == s.live[0].seqNo
    ensures forall id :: id in s.jobs ==> s.jobs[id].rec.bodySize == |s.jobs[id].body|
    ensures forall id :: id in s.jobs ==> id in Persisted(s) && Persisted(s)[id] == EntryOf(s.jobs[id])
  {
    var t := Shadow(s);
    assert Persisted(t) == Persisted(s);
    forall id | id in s.jobs
      ensures s.jobs[id].rec.bodySize == |s.jobs[id].body|
    {
      SizeOf(t, id, maxN);
    }
  }

  // What reading a record does not touch.
  ghost predicate SameFile(s: Log, s': Log, r: Rec) {
    && |s.live| == |s'.live| == 1 && s'.fileSize == s.fileSize && s'.use == s.use && s'.next == s.next
    && s'.resv == s.resv && s'.answers == s.answers && s'.book == BookWith(s.book, r)
    && var f, f' := s.live[0], s'.live[0];
       && f'.seqNo == f.seqNo && f'.size == f.size && f'.recs == f.recs + [r]
       && f'.open == f.open && f'.free == f.free && f'.resv == f.resv
  }

  lemma SpaceEnds(t: Log, s': Log, maxN: nat)
    requires |s'.live| == 1 && Base(t, {}, maxN) && OnlySpaceDiffers(t, Shadow(s'))
    ensures Base(Shadow(s'), {}, maxN) && Persisted(s') == Persisted(t) && s'.jobs == t.jobs
  {
    SpaceKeepsBase(t, Shadow(s'), {}, maxN);
    hide Base;
    assert Persisted(s') == Persisted(t);
  }

  lemma IgnoredLoads(s: Log, r: Rec, maxN: nat)
    requires Reading(s, maxN) && Readable(s, r, maxN) && r.Short? && r.job.id !in s.jobs
    ensures Reading(LoadRec(s, r), maxN) && SameFile(s, LoadRec(s, r), r)
    ensures Persisted(LoadRec(s, r)) == ApplyRec(Persisted(s), s.live[0].seqNo, r)
  {
    hide Base, Persisted;
    ReadingMeans(s, maxN);
    var t, f := Shadow(s), Shadow(s).live[0];
    IgnoredKeeps(t, r, maxN);
    ShadowNoted(s, r);
    SpaceEnds(t.(live := t.live[0 := f.(recs := f.recs + [r], resv := f.resv - RecSize(r))]), Noted(s, r), maxN);
    NotSeen(s, r);
    SameJobsPersist(s, Noted(s, r));
  }

  lemma NotSeen(s: Log, r: Rec)
    requires r.Short? && r.job.id !in s.jobs
    ensures ApplyRec(Persisted(s), if s.live == [] then 0 else s.live[0].seqNo, r) == Persisted(s)
  {
  }

  lemma ShortLoads(s: Log, r: Rec, maxN: nat)
    requires Reading(s, maxN) && Readable(s, r, maxN) && r.Short? && r.job.id in s.jobs && r.job.state != INVALID
    ensures Reading(LoadRec(s, r), maxN) && SameFile(s, LoadRec(s, r), r)
    ensures Persisted(LoadRec(s, r)) == ApplyRec(Persisted(s), s.live[0].seqNo, r)
  {
    hide Base, Persisted, Reread, ShortWritten, OnlySpaceDiffers, LoadRec, Shadow, Recovered;
    ReadingMeans(s, maxN);
    ReadMeans(s, maxN);
    var id, t := r.job.id, Shadow(s);
    ShortRead(t, id, r.job, maxN);
    ShadowShort(s, id, r.job);
    LoadedShort(s, id, r.job);
    ShortIsAddedLast(s, r);
    SpaceEnds(Reread(ShortWritten(WithRec(t, id, r.job), id), id), LoadRec(s, r), maxN);
  }

  // What reading a short record leaves of the file and of the jobs.
  lemma ShortIsAddedLast(s: Log, r: Rec)
    requires |s.live| == 1 && !s.live[0].open && s.live[0].free == 0 && s.live[0].resv == 0 && AllHomed(s)
    requires r.Short? && r.job.id in s.jobs
    requires var rec, j := Recovered(r.job), s.jobs[r.job.id];
             LoadRec(s, r) == WithShort(s, r.job.id, r, j.(rec := rec, logged := rec, used := j.used + Z))
    ensures SameFile(s, LoadRec(s, r), r) && AllHomed(LoadRec(s, r))
    ensures var f := LoadRec(s, r).live[0]; !f.open && f.free == 0 && f.resv == 0
  {
    hide LoadRec;
  }

  lemma FullLoads(s: Log, r: Rec, maxN: nat)
    requires Reading(s, maxN) && Readable(s, r, maxN) && r.Full? && r.job.id !in s.jobs
    ensures Reading(LoadRec(s, r), maxN) && SameFile(s, LoadRec(s, r), r)
    ensures Persisted(LoadRec(s, r)) == ApplyRec(Persisted(s), s.live[0].seqNo, r)
  {
    hide Base, Persisted, Reread, WriteFull, OnlySpaceDiffers, LoadRec, WithJob, Shadow, Recovered;
    ReadingMeans(s, maxN);
    var id, t := r.job.id, Shadow(s);
    var j := Job(r.tube, r.body, r.job, r.job, Nowhere, 0);
    FullRead(t, id, r.tube, r.job, r.body, maxN);
    JobAdded(t, id, j);
    ShadowFull(s, id, r.tube, r.job, r.body);
    LoadedFull(s, id, r.tube, r.job, r.body);
    ReadMeans(s, maxN);
    FullIsAddedLast(s, r);
    SpaceEnds(Reread(WriteFull(WithJob(t, id, j), id), id), LoadRec(s, r), maxN);
  }

  lemma ReadMeans(s: Log, maxN: nat)
    requires Reading(s, maxN)
    ensures |s.live| == 1 && !s.live[0].open && s.live[0].free == 0 && s.live[0].resv == 0 && AllHomed(s)
  {
  }

  // What reading the full record of a job not seen leaves of the file and of the jobs.
  lemma FullIsAddedLast(s: Log, r: Rec)
    requires |s.live| == 1 && !s.live[0].open && s.live[0].free == 0 && s.live[0].resv == 0 && AllHomed(s) && r.Full?
    requires LoadRec(s, r) == WithFull(s, r.job.id, r,
        Job(r.tube, r.body, Recovered(r.job), Recovered(r.job), In(s.live[0].seqNo), RecSize(r)))
    ensures SameFile(s, LoadRec(s, r), r) && AllHomed(LoadRec(s, r))
    ensures var f := LoadRec(s, r).live[0]; !f.open && f.free == 0 && f.resv == 0
  {
    hide LoadRec, RecSize;
  }

  // The front file stays referred to when a job is unlinked.
  lemma FrontReferred(t: Log, id: u64, maxN: nat)
    requires Base(t, {id}, maxN) && id in t.jobs && t.jobs[id].home.In? && |t.live| == 1
    ensures |DropJob(t.live, t.jobs[id].home.seqNo, id)| == 1 && DropJob(t.live, t.jobs[id].home.seqNo, id)[0].refs > 0
  {
    hide Base, FileRmJob, DropJob;
    RmJobKeeps(t, id, maxN);
    OpenFilesReferenced(FileRmJob(t, t.jobs[id].home.seqNo, id), {id}, maxN);
    DroppedFront(t.live, t.jobs[id].home.seqNo, id);
  }

  lemma MovedSame(s: Log, r: Rec)
    requires |s.live| == 1 && r.Full? && r.job.id in s.jobs && s.jobs[r.job.id].home.In? && r.job.state != INVALID
    requires DropJob(Shadow(s).live, s.jobs[r.job.id].home.seqNo, r.job.id)[0].refs > 0
    requires AllHomed(s) && s.jobs[r.job.id].tube == r.tube
    ensures SameFile(s, LoadRec(s, r), r) && AllHomed(LoadRec(s, r))
  {
    hide FileRmJob, DropJob;
    var id, q := r.job.id, s.jobs[r.job.id].home.seqNo;
    var s1 := SetRead(Noted(s, r), id, r.tube, r.body, r.job);
    RmFollows(s1, Shadow(s), q, id);
    DroppedOne(s1.live[0], q, id);
    assert s1.live == [s1.live[0]];
    assert Unlink(s1, id) == FileRmJob(s1, q, id);
  }

  lemma MoveLoads(s: Log, r: Rec, maxN: nat)
    requires Reading(s, maxN) && Readable(s, r, maxN) && r.Full? && r.job.id in s.jobs
    ensures LoadRec(s, r).live != [] && Reading(LoadRec(s, r), maxN) && SameFile(s, LoadRec(s, r), r)
    ensures Persisted(LoadRec(s, r)) == ApplyRec(Persisted(s), s.live[0].seqNo, r)
  {
    hide Base, Persisted, OnlySpaceDiffers, LoadRec, Moved, DropJob;
    ReadingMeans(s, maxN);
    var id, t := r.job.id, Shadow(s);
    SetAside(t, id, maxN);
    FrontReferred(t, id, maxN);
    MoveRead(t, id, r.tube, r.job, r.body, maxN);
    ShadowMoved(s, id, r.tube, r.job, r.body);
    MovedSame(s, r);
    SpaceEnds(Moved(t, id, r.job), LoadRec(s, r), maxN);
  }

  lemma ErasedSame(s: Log, r: Rec)
    requires |s.live| == 1 && r.Short? && r.job.id in s.jobs && s.jobs[r.job.id].home.In? && r.job.state == INVALID
    requires var t := Shadow(s);
             var t1 := ShortWritten(WithRec(t, r.job.id, r.job), r.job.id);
             DropJob(t1.live, s.jobs[r.job.id].home.seqNo, r.job.id)[0].refs > 0
    requires AllHomed(s)
    ensures SameFile(s, LoadRec(s, r), r) && AllHomed(LoadRec(s, r))
  {
    hide FileRmJob, DropJob;
    var id, q := r.job.id, s.jobs[r.job.id].home.seqNo;
    var s1, t1 := Noted(s, r), ShortWritten(WithRec(Shadow(s), id, r.job), id);
    RmFollows(s1, t1, q, id);
    DroppedOne(s1.live[0], q, id);
    assert s1.live == [s1.live[0]];
  }

  lemma DeleteReferred(t: Log, id: u64, job: JobRec, maxN: nat)
    requires Base(t, {}, maxN) && id in t.jobs && t.jobs[id].home.In? && |t.live| == 1
    requires job.id == id && job.state == INVALID && job.bodySize == |t.jobs[id].body|
    ensures var t1 := ShortWritten(WithRec(t, id, job), id);
            |t1.live| == 1 && DropJob(t1.live, t.jobs[id].home.seqNo, id) != []
            && DropJob(t1.live, t.jobs[id].home.seqNo, id)[0].refs > 0
  {
    hide Base, ShortWritten, DropJob;
    SizeOf(t, id, maxN);
    SetAside(t, id, maxN);
    TouchKeeps(t, id, job, {id}, maxN);
    var t0 := WithRec(t, id, job);
    ShortKeeps(t0, id, maxN);
    ShortAppended(t0, id);
    FrontReferred(ShortWritten(t0, id), id, maxN);
  }

  lemma DeleteLoads(s: Log, r: Rec, maxN: nat)
    requires Reading(s, maxN) && Readable(s, r, maxN) && r.Short? && r.job.id in s.jobs && r.job.state == INVALID
    ensures LoadRec(s, r).live != [] && Reading(LoadRec(s, r), maxN) && SameFile(s, LoadRec(s, r), r)
    ensures Persisted(LoadRec(s, r)) == ApplyRec(Persisted(s), s.live[0].seqNo, r)
  {
    hide Base, Persisted, OnlySpaceDiffers, LoadRec, Erased, DropJob, ShortWritten;
    ReadingMeans(s, maxN);
    var id, t := r.job.id, Shadow(s);
    DeleteReferred(t, id, r.job, maxN);
    DeleteRead(t, id, r.job, maxN);
    ShadowErased(s, id, r.job);
    ErasedSame(s, r);
    SpaceEnds(Erased(t, id, r.job), LoadRec(s, r), maxN);
  }

  /** Reading a record does to the jobs exactly what replaying it says, and keeps every link,
      reference count and byte count right. */
  lemma LoadRecKeeps(s: Log, r: Rec, maxN: nat)
    requires Reading(s, maxN) && Readable(s, r, maxN)
    ensures s.live != [] && Reading(LoadRec(s, r), maxN) && SameFile(s, LoadRec(s, r), r)
    ensures Persisted(LoadRec(s, r)) == ApplyRec(Persisted(s), s.live[0].seqNo, r)
  {
    hide Reading, LoadRec, Persisted, ApplyRec, TameRec, SameFile, Base;
    ReadingMeans(s, maxN);
    if r.Full? {
      if r.job.id in s.jobs {
        MoveLoads(s, r, maxN);
      } else {
        FullLoads(s, r, maxN);
      }
    } else if r.job.id !in s.jobs {
      IgnoredLoads(s, r, maxN);
    } else if r.job.state == INVALID {
      DeleteLoads(s, r, maxN);
    } else {
      ShortLoads(s, r, maxN);
    }
  }

  // ---------- One file ----------

  function LoadAll(s: Log, rs: seq<Rec>): Log {
    if rs == [] then s
    else
      var s' := LoadAll(s, rs[..|rs| - 1]);
      if s'.live == [] then s' else LoadRec(s', rs[|rs| - 1])
  }

  // s' is s with records rs read.
  ghost predicate ReadSoFar(s: Log, s': Log, rs: seq<Rec>) {
    && |s.live| == |s'.live| == 1 && s'.fileSize == s.fileSize && s'.use == s.use && s'.next == s.next
    && s'.resv == s.resv && s'.answers == s.answers
    && var f, f' := s.live[0], s'.live[0];
       && f'.seqNo == f.seqNo && f'.size == f.size && f'.recs == f.recs + rs
       && f'.open == f.open && f'.free == f.free && f'.resv == f.resv
  }

  lemma ReadOneMore(s: Log, s1: Log, s2: Log, rs: seq<Rec>, r: Rec)
    requires ReadSoFar(s, s1, rs) && SameFile(s1, s2, r)
    ensures ReadSoFar(s, s2, rs + [r])
  {
  }

  // A record of a log that has the given book, no larger than maxN with its delete record.
  ghost predicate Recorded(book: map<u64, Deed>, r: Rec, maxN: nat) {
    Registered(book, r) && (r.Full? ==> FullSize(r.tube, r.body) + Z <= maxN)
  }

  lemma RecordedIsReadable(book: map<u64, Deed>, s: Log, r: Rec, maxN: nat)
    requires Extends(s.book, book) && Recorded(book, r, maxN) && TameRec(Persisted(s), r)
    ensures Readable(s, r, maxN) && Extends(BookWith(s.book, r), book)
  {
  }

  lemma {:induction false} LoadAllKeeps(book: map<u64, Deed>, s: Log, f: Found, rs: seq<Rec>, maxN: nat)
    requires Reading(s, maxN) && s.live[0].seqNo == f.seqNo && TameAll(Persisted(s), f.seqNo, rs)
    requires Extends(s.book, book) && forall r :: r in rs ==> Recorded(book, r, maxN)
    ensures var s' := LoadAll(s, rs);
            && Reading(s', maxN) && ReadSoFar(s, s', rs) && Persisted(s') == ApplyAll(Persisted(s), f.seqNo, rs)
            && Extends(s'.book, book)
    decreases |rs|
  {
    hide Reading, LoadRec, Persisted, ApplyRec, TameRec, SameFile, ReadSoFar, Base, Recorded, Extends, Readable;
    if rs == [] {
      ReadNothing(s, maxN);
    } else {
      var front, r := rs[..|rs| - 1], rs[|rs| - 1];
      LoadAllKeeps(book, s, f, front, maxN);
      var s1 := LoadAll(s, front);
      ReadSoFarMeans(s, s1, front);
      assert r in rs;
      RecordedIsReadable(book, s1, r, maxN);
      LoadRecKeeps(s1, r, maxN);
      SameFileBook(s1, LoadRec(s1, r), r);
      ReadOneMore(s, s1, LoadRec(s1, r), front, r);
      assert front + [r] == rs;
    }
  }

  lemma SameFileBook(s: Log, s': Log, r: Rec)
    requires SameFile(s, s', r)
    ensures s'.book == BookWith(s.book, r)
  {
  }

  lemma ReadNothing(s: Log, maxN: nat)
    requires Reading(s, maxN)
    ensures ReadSoFar(s, s, [])
  {
    assert s.live[0].recs + [] == s.live[0].recs;
  }

  lemma ReadSoFarMeans(s: Log, s': Log, rs: seq<Rec>)
    requires ReadSoFar(s, s', rs)
    ensures |s'.live| == 1 && s'.live[0].seqNo == s.live[0].seqNo
  {
  }

  // ---------- From file to file ----------

  // Between files: were a file made for writing now, the log would be in order.
  ghost predicate Between(s: Log, maxN: nat) {
    && s.live == [] && s.fileSize >= WORD && AllHomed(s) && Base(WithNewFile(s), {}, maxN)
    && s.resv == 0
  }

  // The same with another empty file at the end.
  lemma EmptyFrontLinked(t: Log, t': Log)
    requires |t.live| == |t'.live| == 1 && t'.past == t.past && t'.jobs == t.jobs && Linked(t)
    requires t.live[0].jobs == [] && t'.live[0].jobs == []
    ensures Linked(t')
  {
    forall i | 0 <= i < |Files(t')|
      ensures FileLinked(t', Files(t')[i])
    {
      assert FileLinked(t, Files(t)[i]);
    }
    forall k | k in t'.jobs
      ensures JobLinked(t', k)
    {
      assert JobLinked(t, k);
      if t.jobs[k].home.In? {
        var i :| 0 <= i < |Files(t)| && Files(t)[i].seqNo == t.jobs[k].home.seqNo && k in Files(t)[i].jobs;
        assert i < |t.past| && k in Files(t')[i].jobs && Files(t')[i] == Files(t)[i];
      }
    }
  }

  lemma EmptyFrontReplay(t: Log, t': Log)
    requires |t.live| == |t'.live| == 1 && t'.past == t.past && t.live[0].recs == [] && t'.live[0].recs == []
    ensures Recoverable(t') == Recoverable(t) && (Tame(SegmentsOf(Files(t))) ==> Tame(SegmentsOf(Files(t'))))
  {
    var segs, segs', n := SegmentsOf(Files(t)), SegmentsOf(Files(t')), |t.past|;
    ReplayEmptyTail(map[], segs, n);
    ReplayEmptyTail(map[], segs', n);
    assert segs[..n] == segs'[..n];
  }

  ghost predicate EmptyFront(t: Log) {
    |t.live| == 1 && var f := t.live[0];
    f.jobs == [] && f.recs == [] && f.open && f.refs == 1 && f.resv == 0 && WORD + f.free == t.fileSize &&
        f.size >= t.fileSize
  }

  lemma EmptyFrontCounted(t: Log, t': Log)
    requires EmptyFront(t) && EmptyFront(t') && t'.past == t.past && t'.nfile == t.nfile && t'.book == t.book
    requires Numbered(t) && Counted(t) && Written(t)
    requires (forall f :: f in t.past ==> f.seqNo < t'.live[0].seqNo) && t'.live[0].seqNo < t'.next
    ensures Numbered(t') && Counted(t') && Written(t')
  {
    forall i | 0 <= i < |Files(t')|
      ensures FileWritten(t'.book, t'.fileSize, Files(t')[i])
      ensures Files(t')[i].seqNo < t'.next
      ensures forall j :: 0 <= j < i ==> Files(t')[j].seqNo < Files(t')[i].seqNo
    {
      assert FileWritten(t.book, t.fileSize, Files(t)[i]);
      if i < |t.past| {
        assert Files(t')[i] == Files(t)[i] && Files(t)[i] in t.past;
        assert PastFile(t.past[i]);
        assert forall j :: 0 <= j < i ==> Files(t')[j] == Files(t)[j];
      } else {
        assert forall j :: 0 <= j < i ==> Files(t')[j] == t.past[j] && t.past[j] in t.past;
      }
    }
  }

  lemma EmptyFrontKeeps(t: Log, t': Log, maxN: nat)
    requires Base(t, {}, maxN) && EmptyFront(t) && EmptyFront(t')
    requires t'.past == t.past && t'.nfile == t.nfile && t'.book == t.book && t'.jobs == t.jobs && t'.alive == t.alive
    requires (forall f :: f in t.past ==> f.seqNo < t'.live[0].seqNo) && t'.live[0].seqNo < t'.next
    ensures Base(t', {}, maxN) && Persisted(t') == Persisted(t)
  {
    hide Linked, JobsFit, Numbered, Counted, Written, Recoverable, Files, Tame, JobFits;
    EmptyFrontLinked(t, t');
    EmptyFrontReplay(t, t');
    EmptyFrontCounted(t, t');
    assert Persisted(t') == Persisted(t);
    JobsFitSame(t, t', {}, maxN);
  }

  // ---------- Beginning and ending a file ----------

  lemma BeginKeeps(s: Log, f: Found, maxN: nat)
    requires Between(s, maxN) && f.seqNo < s.next && forall g :: g in s.past ==> g.seqNo < f.seqNo
    ensures Reading(Begin(s, f), maxN) && Persisted(Begin(s, f)) == Persisted(s)
  {
    var s1 := Begin(s, f);
    var t, t' := WithNewFile(s), Shadow(s1);
    assert EmptyFront(t) && EmptyFront(t');
    hide Base, Persisted;
    EmptyFrontKeeps(t, t', maxN);
    SameJobsPersist(s, s1);
  }

  // Ending a file, before collection; the next file is there already.
  ghost function Ended(s: Log): Log
    requires s.live != []
  {
    var f := s.live[0];
    Shadow(s).(past := s.past + [f.(refs := f.refs - 1)], live := [NewFile(Shadow(s))], next := s.next + 1,
        nfile := s.nfile + 1)
  }

  // A closed file whose length and free space are told otherwise.
  lemma ResizedKeeps(t: Log, t': Log, maxN: nat)
    requires Loose(t, {}, maxN) && t.past != [] && |t'.past| == |t.past|
    requires var n := |t.past| - 1;
             && t' == t.(past := t.past[n := t'.past[n]])
             && var f, f' := t.past[n], t'.past[n];
                f' == f.(free := 0, size := f'.size) && f'.size >= WORD + RecsSize(f.recs)
    ensures Loose(t', {}, maxN)
  {
    var n := |t.past| - 1;
    assert |Files(t')| == |Files(t)|;
    forall i | 0 <= i < |Files(t')|
      ensures Files(t')[i] == if i == n then Files(t)[i].(free := 0, size := t'.past[n].size) else Files(t)[i]
    {
    }
    assert SegmentsOf(Files(t')) == SegmentsOf(Files(t));
    assert Persisted(t') == Persisted(t);
    ResizedLinked(t, t');
    ResizedCounted(t, t', n);
    JobsFitSame(t, t', {}, maxN);
    hide Linked, JobsFit, Tame, Numbered, Counted, Written, Files, Persisted;
  }

  lemma ResizedLinked(t: Log, t': Log)
    requires Linked(t) && |Files(t')| == |Files(t)| && t'.jobs == t.jobs
    requires forall i :: 0 <= i < |Files(t)| ==>
        Files(t')[i].seqNo == Files(t)[i].seqNo && Files(t')[i].jobs == Files(t)[i].jobs
    ensures Linked(t')
  {
    forall i | 0 <= i < |Files(t')|
      ensures FileLinked(t', Files(t')[i])
    {
      assert FileLinked(t, Files(t)[i]);
    }
    forall k | k in t'.jobs
      ensures JobLinked(t', k)
    {
      assert JobLinked(t, k);
      if t.jobs[k].home.In? {
        var i :| 0 <= i < |Files(t)| && Files(t)[i].seqNo == t.jobs[k].home.seqNo && k in Files(t)[i].jobs;
        assert k in Files(t')[i].jobs;
      }
    }
  }

  lemma ResizedCounted(t: Log, t': Log, n: nat)
    requires Numbered(t) && Counted(t) && Written(t) && |Files(t')| == |Files(t)| && |t'.past| == |t.past|
        && n < |t.past|
    requires t'.live == t.live && t'.next == t.next && t'.nfile == t.nfile && t'.book == t.book
        && t'.fileSize == t.fileSize
    requires forall i :: 0 <= i < |Files(t)| ==>
               Files(t')[i] == if i == n then Files(t)[i].(free := 0, size := t'.past[n].size) else Files(t)[i]
    requires t'.past[n].size >= WORD + RecsSize(t.past[n].recs)
    ensures Numbered(t') && Counted(t') && Written(t')
  {
    forall i | 0 <= i < |t'.past|
      ensures PastFile(t'.past[i])
    {
      assert PastFile(t.past[i]) && Files(t')[i] == t'.past[i] && Files(t)[i] == t.past[i];
    }
    forall i | 0 <= i < |Files(t')|
      ensures FileWritten(t'.book, t'.fileSize, Files(t')[i])
    {
      assert FileWritten(t.book, t.fileSize, Files(t)[i]);
      assert i == n ==> PastFile(t.past[n]) && Files(t)[n] == t.past[n];
    }
    forall i, j | 0 <= i < j < |Files(t')|
      ensures Files(t')[i].seqNo < Files(t')[j].seqNo
    {
      assert Files(t)[i].seqNo < Files(t)[j].seqNo;
    }
  }

  lemma EndedLoose(s: Log, maxN: nat)
    requires Reading(s, maxN) && s.live[0].size >= WORD + RecsSize(s.live[0].recs)
    ensures Loose(Ended(s), {}, maxN)
  {
    hide Base, Loose, Persisted;
    var t := Shadow(s);
    NewFileKeepsBase(t, {}, maxN);
    var t1 := WithNewFile(t);
    FrontClosedKeeps(t1, {}, maxN);
    var t2 := WithFrontClosed(t1);
    assert t2.past[|s.past|] == Closed(t1, t1.live[0]);
    ResizedKeeps(t2, Ended(s), maxN);
  }

  // Collection does not need the file at the end that it does not reach.
  lemma {:induction false} GcAlone(s: Log, t: Log)
    requires s.live == [] && |t.live| == 1 && t.live[0].refs > 0 && t.past == s.past && t.nfile == s.nfile + 1
    ensures Gc(t) == t.(past := Gc(s).past, nfile := Gc(s).nfile + 1)
    ensures Gc(s) == s.(past := Gc(s).past, nfile := Gc(s).nfile)
    decreases |s.past|
  {
    if s.past != [] && s.past[0].refs <= 0 {
      GcAlone(s.(past := s.past[1..], nfile := s.nfile - 1), t.(past := t.past[1..], nfile := t.nfile - 1));
    }
  }

  lemma NothingToCollect(s: Log)
    requires s.live == [] && s.past != [] && s.past[0].refs > 0
    ensures Gc(s) == s
  {
  }

  // The collection at the end of a file is that of the log with the next file there.
  lemma EndCollects(s: Log, maxN: nat)
    requires Reading(s, maxN)
    ensures var e, g := End(s), Gc(Ended(s));
            && e == s.(past := g.past, live := [], nfile := g.nfile - 1)
            && g == Ended(s).(past := g.past, nfile := g.nfile)
  {
    var f := s.live[0].(refs := s.live[0].refs - 1);
    var s' := s.(past := s.past + [f], live := []);
    HeadOf(s, maxN);
    hide Base, Persisted;
    GcAlone(s', Ended(s));
    if f.refs >= 1 {
      NothingToCollect(s');
    }
  }

  lemma HeadOf(s: Log, maxN: nat)
    requires Reading(s, maxN)
    ensures s.past != [] ==> s.past[0].refs > 0
  {
  }

  lemma EndKeeps(s: Log, maxN: nat)
    requires Reading(s, maxN) && s.live[0].size >= WORD + RecsSize(s.live[0].recs) && s.fileSize >= WORD && s.resv == 0
    ensures Between(End(s), maxN) && Persisted(End(s)) == Persisted(s)
  {
    hide Base, Loose, Persisted, Gc;
    EndedLoose(s, maxN);
    GcKeeps(Ended(s), {}, maxN);
    EndCollects(s, maxN);
    var t, t' := Gc(Ended(s)), WithNewFile(End(s));
    assert EmptyFront(t) && EmptyFront(t');
    BaseNumbers(t, maxN);
    EmptyFrontKeeps(t, t', maxN);
    SameJobsPersist(s, End(s));
  }

  lemma BaseNumbers(t: Log, maxN: nat)
    requires Base(t, {}, maxN) && |t.live| == 1
    ensures (forall f :: f in t.past ==> f.seqNo < t.live[0].seqNo) && t.live[0].seqNo < t.next
  {
    forall f | f in t.past
      ensures f.seqNo < t.live[0].seqNo
    {
      var i :| 0 <= i < |t.past| && t.past[i] == f;
      assert Files(t)[i].seqNo < Files(t)[|t.past|].seqNo;
    }
    assert Files(t)[|t.past|] == t.live[0];
  }

  // ---------- All files ----------

  function LoadFile(s: Log, f: Found): Log {
    var s' := LoadAll(Begin(s, f), f.recs);
    if s'.live == [] then s' else End(s')
  }

  // The files are read oldest first.
  function Load(s: Log, fs: seq<Found>): Log {
    if fs == [] then s else LoadFile(Load(s, fs[..|fs| - 1]), fs[|fs| - 1])
  }

  function SegmentsFound(fs: seq<Found>): (segs: seq<Segment>)
    ensures |segs| == |fs|
    ensures forall i :: 0 <= i < |fs| ==> segs[i] == Segment(fs[i].seqNo, fs[i].recs)
  {
    seq(|fs|, i requires 0 <= i < |fs| => Segment(fs[i].seqNo, fs[i].recs))
  }

  ghost predicate NumbersFound(fs: seq<Found>, next: nat) {
    && (forall i, j :: 0 <= i < j < |fs| ==> fs[i].seqNo < fs[j].seqNo)
    && (forall i :: 0 <= i < |fs| ==> fs[i].seqNo < next)
  }

  ghost predicate WellFound(book: map<u64, Deed>, f: Found, maxN: nat) {
    f.size >= WORD + RecsSize(f.recs) && forall r :: r in f.recs ==> Recorded(book, r, maxN)
  }

  ghost predicate AllWellFound(book: map<u64, Deed>, fs: seq<Found>, maxN: nat) {
    forall i :: 0 <= i < |fs| ==> WellFound(book, fs[i], maxN)
  }

  // The same settings, only files up to number q.
  ghost predicate LoadedUpTo(s: Log, s': Log, q: nat) {
    && s'.fileSize == s.fileSize && s'.use == s.use && s'.next == s.next && s'.answers == s.answers
    && forall g :: g in s'.past ==> g.seqNo <= q
  }

  lemma {:induction false} GcDropsOnly(s: Log)
    requires s.live != [] && s.live[0].refs > 0
    ensures forall g :: g in Gc(s).past ==> g in s.past
    decreases |s.past|
  {
    if s.past != [] && s.past[0].refs <= 0 {
      GcDropsOnly(s.(past := s.past[1..], nfile := s.nfile - 1));
    }
  }

  lemma EndNumbers(s: Log, maxN: nat)
    requires Reading(s, maxN)
    ensures forall g :: g in End(s).past ==> g.seqNo <= s.live[0].seqNo
  {
    BaseNumbers(Shadow(s), maxN);
    EndCollects(s, maxN);
    GcDropsOnly(Ended(s));
  }

  lemma EndSame(s: Log, maxN: nat)
    requires Reading(s, maxN)
    ensures var e := End(s);
            e.fileSize == s.fileSize && e.book == s.book && e.use == s.use && e.next == s.next && e.answers == s.answers
  {
    EndCollects(s, maxN);
  }

  lemma LoadFileKeeps(book: map<u64, Deed>, s: Log, f: Found, maxN: nat)
    requires Between(s, maxN) && f.seqNo < s.next && forall g :: g in s.past ==> g.seqNo < f.seqNo
    requires WellFound(book, f, maxN) && TameAll(Persisted(s), f.seqNo, f.recs) && Extends(s.book, book)
    ensures var s' := LoadFile(s, f);
            && Between(s', maxN) && LoadedUpTo(s, s', f.seqNo) && Extends(s'.book, book)
            && Persisted(s') == ApplyAll(Persisted(s), f.seqNo, f.recs)
  {
    hide Between, Reading, LoadAll, End, Persisted, TameAll, ApplyAll, Recorded, Extends;
    var s0 := Begin(s, f);
    BetweenMeans(s, maxN);
    BeginKeeps(s, f, maxN);
    LoadAllKeeps(book, s0, f, f.recs, maxN);
    var s1 := LoadAll(s0, f.recs);
    assert s0.live[0].recs + f.recs == f.recs;
    EndKeeps(s1, maxN);
    EndNumbers(s1, maxN);
    EndSame(s1, maxN);
  }

  lemma BetweenMeans(s: Log, maxN: nat)
    requires Between(s, maxN)
    ensures s.fileSize >= WORD && s.resv == 0 && s.live == []
  {
  }

  /** Reading all files into an empty log rebuilds the jobs a replay of the records gives, with
      their files, reference counts and byte counts, and drops the head files not needed. */
  lemma {:induction false} LoadKeeps(book: map<u64, Deed>, s: Log, fs: seq<Found>, maxN: nat)
    requires Between(s, maxN) && s.past == [] && Persisted(s) == map[] && Extends(s.book, book)
    requires NumbersFound(fs, s.next) && AllWellFound(book, fs, maxN) && Tame(SegmentsFound(fs))
    ensures var s' := Load(s, fs);
            && Between(s', maxN) && Persisted(s') == Replay.Replay(SegmentsFound(fs)) && Extends(s'.book, book)
            && LoadedUpTo(s, s', if fs == [] then 0 else fs[|fs| - 1].seqNo)
    decreases |fs|
  {
    hide Between, LoadFile, Persisted, TameAll, ApplyAll, WellFound, Extends;
    if fs != [] {
      var n := |fs| - 1;
      var front, f := fs[..n], fs[n];
      var segs := SegmentsFound(fs);
      assert segs[..n] == SegmentsFound(front);
      LoadKeeps(book, s, front, maxN);
      LoadFileKeeps(book, Load(s, front), f, maxN);
    }
  }

  // ---------- Reserving for the jobs read ----------

  // Delete records are reserved for j jobs.
  ghost predicate Reserving(s: Log, j: nat, maxN: nat) {
    && s.use && Z <= maxN && maxN + Z <= Capacity(s)
    && Base(s, {}, maxN) && Spare(s, 0, maxN) && s.resv == Z * j
  }

  lemma ReserveOne(s: Log, j: nat, maxN: nat)
    requires Reserving(s, j, maxN)
    ensures Usable(s) && Capacity(s) >= 2 * Z - 1
    ensures var (s', z) := Reserve(s, Z);
            && (z == Z || z == 0) && (z == Z ==> Reserving(s', j + 1, maxN))
            && s'.jobs == s.jobs && s'.book == s.book && SameRoom(s, s')
  {
    hide Base, Reserve, Persisted, Sum, Recoverable, Crowded;
    ReserveKeeps(s, Z, maxN);
    ReserveKeepsBase(s, Z, {}, maxN);
    var (s', z) := Reserve(s, Z);
    if z == Z {
      AlignedAnyway(s'.live);
    }
  }

  lemma AlignedAnyway(live: seq<File>)
    requires Aligned(live, 0, Z)
    ensures Aligned(live, 0, 0)
  {
    forall i | 0 <= i < |live|
      ensures AlignedAt(live, i, 0, 0)
    {
      assert AlignedAt(live, i, 0, Z);
    }
  }

  // One delete record is reserved for each of k jobs; start-up gives up when that fails.
  ghost function ReserveEach(s: Log, j: nat, k: nat, maxN: nat): (Log, bool)
    requires Reserving(s, j, maxN)
    decreases k
  {
    if k == 0 then (s, true)
    else
      ReserveOne(s, j, maxN);
      var (s', z) := Reserve(s, Z);
      if z <= 0 then (s', false) else ReserveEach(s', j + 1, k - 1, maxN)
  }

  lemma {:induction false} ReserveEachKeeps(s: Log, j: nat, k: nat, maxN: nat)
    requires Reserving(s, j, maxN)
    ensures var (s', ok) := ReserveEach(s, j, k, maxN);
            s'.jobs == s.jobs && s'.book == s.book && SameRoom(s, s') && (ok ==> Reserving(s', j + k, maxN))
    decreases k
  {
    hide Reserving, Reserve, SameRoom;
    if k == 0 {
      SameRoomHere(s, j, maxN);
    } else {
      ReserveOne(s, j, maxN);
      var (s', z) := Reserve(s, Z);
      if z > 0 {
        ReserveEachKeeps(s', j + 1, k - 1, maxN);
        SameRoomTwice(s, s', ReserveEach(s', j + 1, k - 1, maxN).0);
      }
    }
  }

  lemma SameRoomHere(s: Log, j: nat, maxN: nat)
    requires Reserving(s, j, maxN)
    ensures SameRoom(s, s)
  {
  }

  // ---------- The jobs read go to their places ----------

  // A 64-bit number.
  function Wrapped(n: int): i64 {
    var m := n % 0x1_0000_0000_0000_0000;
    if m < 0x8000_0000_0000_0000 then m else m - 0x1_0000_0000_0000_0000
  }

  // What becomes in memory of the record of a job that has been read: a buried one is buried
  // again, and counted so; a delayed one is delayed for as long as it still has to wait, by the
  // two readings of the clock its turn takes, and ready when its time has come.
  function Replayed(rec: JobRec, clock: (i64, i64)): JobRec {
    if rec.state == BURIED then rec.(buryCt := (rec.buryCt + 1) % 0x1_0000_0000)
    else
      var delay := if rec.state == DELAYED && clock.0 < rec.deadlineAt then Wrapped(rec.deadlineAt - clock.0) else 0;
      if delay > 0 then rec.(deadlineAt := Wrapped(clock.1 + delay)) else rec.(state := READY)
  }

  /** What becomes of a record that has been read, told by its fields. A buried job stays buried and is
      counted as buried once more. A delayed job with time to wait stays delayed, until as long after
      the second reading of the clock as it was from the first one. Any other job is ready. Nothing
      else changes. */
  ghost predicate ComesBack(logged: JobRec, rec: JobRec, clock: (i64, i64)) {
    var wait, due := logged.deadlineAt - clock.0, logged.deadlineAt - clock.0 + clock.1;
    if logged.state == BURIED then
      rec == logged.(buryCt := if logged.buryCt == 0xffff_ffff then 0 else logged.buryCt + 1)
    else if logged.state == DELAYED && 0 < wait < 0x8000_0000_0000_0000 then
      && rec == logged.(deadlineAt := rec.deadlineAt)
      && (rec.deadlineAt - due) % 0x1_0000_0000_0000_0000 == 0
      && (-0x8000_0000_0000_0000 <= due < 0x8000_0000_0000_0000 ==> rec.deadlineAt == due)
    else rec == logged.(state := READY)
  }

  lemma ReplayedComesBack(rec: JobRec, clock: (i64, i64))
    ensures ComesBack(rec, Replayed(rec, clock), clock)
  {
    var wait := rec.deadlineAt - clock.0;
    if rec.state == DELAYED && wait > 0 {
      WrappedIs(wait);
      if wait < 0x8000_0000_0000_0000 {
        WrappedIs(clock.1 + wait);
      }
    }
  }

  lemma WrappedIs(n: int)
    requires -0x8000_0000_0000_0000 <= n < 0x1_8000_0000_0000_0000
    ensures (Wrapped(n) - n) % 0x1_0000_0000_0000_0000 == 0
    ensures n < 0x8000_0000_0000_0000 ==> Wrapped(n) == n
    ensures 0x8000_0000_0000_0000 <= n < 0x1_0000_0000_0000_0000 ==> Wrapped(n) < 0
  {
  }

  function AllReplayed(s: Log, clock: u64 -> (i64, i64)): Log {
    s.(jobs := map id | id in s.jobs :: s.jobs[id].(rec := Replayed(s.jobs[id].rec, clock(id))))
  }

  // Every job has been read from a file, and what was read has gone to its place.
  ghost predicate AllPlaced(s: Log, clock: u64 -> (i64, i64)) {
    forall id :: id in s.jobs ==>
      var j := s.jobs[id];
      && j.home.In? && j.logged.state != RESERVED && j.rec == Replayed(j.logged, clock(id))
      && ComesBack(j.logged, j.rec, clock(id))
  }

  lemma ReplayedIsSteady(s: Log, clock: u64 -> (i64, i64), maxN: nat)
    requires Steady(s, maxN) && AllHomed(s)
    ensures var s' := AllReplayed(s, clock);
            && Steady(s', maxN) && Persisted(s') == Persisted(s) && AllPlaced(s', clock)
            && SameRoom(s, s') && s'.book == s.book
  {
    hide Base, Persisted, Sum, Shape, OnlyRecsDiffer, AllReplayed, AllPlaced, AllHomed;
    var s' := AllReplayed(s, clock);
    ReplayedRecs(s, clock, maxN);
    ReplayedPlaced(s, clock);
    RecsKeep(s, s', {}, maxN);
    ReplayedOnly(s, clock);
    SameSpace(s, s', 0, maxN);
  }

  lemma ReplayedOnly(s: Log, clock: u64 -> (i64, i64))
    ensures AllReplayed(s, clock) == s.(jobs := AllReplayed(s, clock).jobs)
  {
  }

  lemma ReplayedPlaced(s: Log, clock: u64 -> (i64, i64))
    requires AllHomed(s)
    ensures AllPlaced(AllReplayed(s, clock), clock)
  {
    hide ComesBack, Replayed;
    forall id | id in s.jobs
      ensures ComesBack(s.jobs[id].rec, Replayed(s.jobs[id].rec, clock(id)), clock(id))
    {
      ReplayedComesBack(s.jobs[id].rec, clock(id));
    }
  }

  lemma ReplayedRecs(s: Log, clock: u64 -> (i64, i64), maxN: nat)
    requires Base(s, {}, maxN) && AllHomed(s)
    ensures OnlyRecsDiffer(s, AllReplayed(s, clock), {})
  {
    hide Base, Replayed, RecMayBecome;
    forall id | id in s.jobs
      ensures RecMayBecome(s.jobs[id], AllReplayed(s, clock).jobs[id], id in {})
    {
      JobIsLive(s, id, maxN);
      ReplayedMay(s.jobs[id], clock(id));
    }
  }

  lemma JobIsLive(s: Log, id: u64, maxN: nat)
    requires Base(s, {}, maxN) && id in s.jobs && s.jobs[id].home.In?
    ensures LiveState(s.jobs[id].rec.state)
  {
    assert JobFits(s.book, id, s.jobs[id], id in {}, maxN);
  }

  lemma ReplayedMay(j: Job, clock: (i64, i64))
    requires LiveState(j.rec.state)
    ensures RecMayBecome(j, j.(rec := Replayed(j.rec, clock)), false)
  {
  }

  // ---------- Starting ----------

  // Start-up up to the reservations: read the files found, make a file for writing.
  function Opened(fileSize: nat, answers: seq<bool>, next: nat, fs: seq<Found>): (Log, bool) {
    MakeNextFile(Load(EmptyLog(fileSize, answers).(next := next), fs))
  }

  lemma EmptyIsBetween(fileSize: nat, answers: seq<bool>, next: nat, maxN: nat)
    requires fileSize >= WORD
    ensures var s := EmptyLog(fileSize, answers).(next := next);
            Between(s, maxN) && Persisted(s) == map[]
  {
    hide Base, Persisted, EmptyLog;
    var s := EmptyLog(fileSize, answers).(next := next);
    EmptyMade(fileSize, answers, next, maxN);
    NoJobsNoneKept(s);
  }

  lemma NoJobsNoneKept(s: Log)
    requires s.jobs == map[]
    ensures Persisted(s) == map[]
  {
  }

  lemma EmptyMade(fileSize: nat, answers: seq<bool>, next: nat, maxN: nat)
    requires fileSize >= WORD
    ensures var s := EmptyLog(fileSize, answers).(next := next);
            && s.live == [] && s.jobs == map[] && s.fileSize == fileSize && s.resv == 0
            && Base(WithNewFile(s), {}, maxN)
  {
    hide Base;
    OneBlankFileIsBase(WithNewFile(EmptyLog(fileSize, answers).(next := next)), maxN);
  }

  // The files as found, with the book the log had when they were written, and the limits of the
  // start.
  ghost predicate Startable(book: map<u64, Deed>, fileSize: nat, next: nat, fs: seq<Found>, maxN: nat) {
    && Z <= maxN && maxN + Z <= fileSize - WORD
    && NumbersFound(fs, next) && AllWellFound(book, fs, maxN) && Tame(SegmentsFound(fs))
  }

  lemma OpenedKeeps(book: map<u64, Deed>, fileSize: nat, answers: seq<bool>, next: nat, fs: seq<Found>, maxN: nat)
    requires Startable(book, fileSize, next, fs, maxN)
    ensures var (s, ok) := Opened(fileSize, answers, next, fs);
            ok ==> && Reserving(s, 0, maxN) && Persisted(s) == Replay.Replay(SegmentsFound(fs)) && AllHomed(s)
                   && Extends(s.book, book) && SameRoom(EmptyLog(fileSize, answers), s)
  {
    hide Base, Persisted, Load, Tame, NumbersFound, AllWellFound;
    var s0 := EmptyLog(fileSize, answers).(next := next);
    EmptyIsBetween(fileSize, answers, next, maxN);
    LoadKeeps(book, s0, fs, maxN);
    var s1 := Load(s0, fs);
    var (s, ok) := MakeNextFile(s1);
    if ok {
      MadeIsReserving(s1, maxN);
    }
  }

  lemma MadeIsReserving(s: Log, maxN: nat)
    requires Between(s, maxN) && s.use && MakeNextFile(s).1
    requires Z <= maxN && maxN + Z <= s.fileSize - WORD
    ensures var s' := MakeNextFile(s).0;
            && Reserving(s', 0, maxN) && Persisted(s') == Persisted(s) && AllHomed(s') && s'.book == s.book
            && SameRoom(s, s')
  {
    hide Base, Persisted, Recoverable;
    var s', t := MakeNextFile(s).0, WithNewFile(s);
    AnswersDoNotMatter(t, s', {}, maxN);
    SameJobsPersist(s, s');
    assert s'.live[1..] == [] && Sum(s'.live) == s'.live[0].resv + Sum(s'.live[1..]);
    assert AlignedAt(s'.live, 0, 0, 0);
  }

  // The whole of start-up: the log, and whether the server starts. The source reserves for a job
  // and then sends it to its place, before it turns to the next; the two do not touch.
  ghost function Restarted(book: map<u64, Deed>, fileSize: nat, answers: seq<bool>, next: nat, fs: seq<Found>,
      clock: u64 -> (i64, i64), maxN: nat): (Log, bool)
    requires Startable(book, fileSize, next, fs, maxN)
  {
    hide Startable;
    OpenedKeeps(book, fileSize, answers, next, fs, maxN);
    var (s, ok) := Opened(fileSize, answers, next, fs);
    if !ok then (s, false)
    else
      var (s', ok') := ReserveEach(s, 0, |Persisted(s)|, maxN);
      if !ok' then (s', false) else (AllReplayed(s', clock), true)
  }

  /** Start-up, whatever records of a log it finds: if it gets the space it asks for, the log is
      in order as between commands, holds the jobs that a replay gives, and each job's record in
      memory is what the start makes of the record read. */
  lemma RestartedIsSteady(book: map<u64, Deed>, fileSize: nat, answers: seq<bool>, next: nat, fs: seq<Found>,
      clock: u64 -> (i64, i64), maxN: nat)
    requires Startable(book, fileSize, next, fs, maxN)
    ensures var (s, ok) := Restarted(book, fileSize, answers, next, fs, clock, maxN);
            ok ==> && Steady(s, maxN) && Persisted(s) == Replay.Replay(SegmentsFound(fs)) && AllPlaced(s, clock)
                   && Extends(s.book, book) && (UnhinderedFrom(fileSize, answers, maxN) ==> Unhindered(s, maxN))
  {
    hide Base, Persisted, Spare, Startable, Opened, ReserveEach, SameRoom, Unhindered, AllHomed, Extends, AllReplayed,
        AllPlaced;
    OpenedKeeps(book, fileSize, answers, next, fs, maxN);
    var (s, ok) := Opened(fileSize, answers, next, fs);
    if ok {
      ReserveEachKeeps(s, 0, |Persisted(s)|, maxN);
      var (s1, ok1) := ReserveEach(s, 0, |Persisted(s)|, maxN);
      SameJobsPersist(s, s1);
      SameJobsHomed(s, s1);
      if ok1 {
        ReplayedIsSteady(s1, clock, maxN);
        SameRoomTwice(EmptyLog(fileSize, answers), s, s1);
        SameRoomTwice(EmptyLog(fileSize, answers), s1, AllReplayed(s1, clock));
        RoomFromStart(fileSize, answers, AllReplayed(s1, clock), maxN);
      }
    }
  }

  lemma RoomFromStart(fileSize: nat, answers: seq<bool>, s: Log, maxN: nat)
    requires SameRoom(EmptyLog(fileSize, answers), s)
    ensures UnhinderedFrom(fileSize, answers, maxN) ==> Unhindered(s, maxN)
  {
  }

  lemma SameJobsHomed(s: Log, s': Log)
    requires AllHomed(s) && s'.jobs == s.jobs
    ensures AllHomed(s')
  {
  }

  // ---------- One life of the server after another ----------

  ghost predicate AllLong(s: Log) {
    forall i :: 0 <= i < |Files(s)| ==> Files(s)[i].size >= WORD + RecsSize(Files(s)[i].recs)
  }

  // The files of a log as the next start finds them.
  ghost function FoundIn(s: Log): (fs: seq<Found>)
    requires AllLong(s)
    ensures |fs| == |Files(s)|
    ensures forall i :: 0 <= i < |fs| ==> fs[i] == Found(Files(s)[i].seqNo, Files(s)[i].size, Files(s)[i].recs)
  {
    seq(|Files(s)|, i requires 0 <= i < |Files(s)| => Found(Files(s)[i].seqNo, Files(s)[i].size, Files(s)[i].recs))
  }

  lemma FilesAreFound(s: Log, maxN: nat)
    requires Steady(s, maxN)
    ensures AllLong(s)
    ensures forall i :: 0 <= i < |Files(s)| ==> forall r :: r in Files(s)[i].recs ==> Recorded(s.book, r, maxN)
  {
    hide Linked, Tame, Persisted, Consistent, JobFits, WellFormed;
    forall i | 0 <= i < |Files(s)|
      ensures Files(s)[i].size >= WORD + RecsSize(Files(s)[i].recs)
      ensures forall r :: r in Files(s)[i].recs ==> Recorded(s.book, r, maxN)
    {
      assert FileWritten(s.book, s.fileSize, Files(s)[i]);
      assert i >= |s.past| ==> Files(s)[i] == s.live[i - |s.past|];
      assert i < |s.past| ==> PastFile(s.past[i]) && Files(s)[i] == s.past[i];
    }
  }

  lemma SteadyIsFound(s: Log, fileSize: nat, maxN: nat)
    requires Steady(s, maxN) && maxN + Z <= fileSize - WORD
    ensures AllLong(s)
    ensures var fs := FoundIn(s);
            Startable(s.book, fileSize, s.next, fs, maxN) && Replay.Replay(SegmentsFound(fs)) == Persisted(s)
  {
    ConsistentMeansEqual(s);
    FilesAreFound(s, maxN);
    hide JobsFit, Linked, Tame, Replay.Replay, Persisted, Recorded, Counted, Written, Consistent, Spare;
    var fs := FoundIn(s);
    assert SegmentsFound(fs) == SegmentsOf(Files(s));
    assert Tame(SegmentsFound(fs)) by { BaseIsTame(s, maxN); }
  }

  lemma BaseIsTame(s: Log, maxN: nat)
    requires Base(s, {}, maxN)
    ensures Tame(SegmentsOf(Files(s)))
  {
  }

  // A life: the commands served, and how the server is started the next time, with its limits,
  // file size and clock.
  datatype Life = Life(cmds: seq<Command>, cfg: Config, fileSize: nat, answers: seq<bool>, clock: u64 -> (i64, i64))

  // Starts the server again on the files of a log between commands.
  ghost function StartAgain(s: Log, life: Life, maxN: nat): (r: (Log, bool))
    requires Steady(s, maxN) && maxN + Z <= life.fileSize - WORD
    ensures r.1 ==> Steady(r.0, maxN) && Extends(r.0.book, s.book)
    ensures r.1 && UnhinderedFrom(life.fileSize, life.answers, maxN) ==> Unhindered(r.0, maxN)
  {
    hide Steady, Startable, UnhinderedFrom, Unhindered, Restarted, Extends;
    SteadyIsFound(s, life.fileSize, maxN);
    RestartedIsSteady(s.book, life.fileSize, life.answers, s.next, FoundIn(s), life.clock, maxN);
    Restarted(s.book, life.fileSize, life.answers, s.next, FoundIn(s), life.clock, maxN)
  }

  // What the clients know holds after a restart, but that a reservation is gone, a buried job is
  // counted as buried once more, and a delayed one is delayed anew or ready.
  ghost function Forgiving(m: Ledger, clock: u64 -> (i64, i64)): Ledger {
    map id | id in m :: m[id].(now := Unknown, recs := ReadAgain(m[id].recs, clock(id)))
  }

  ghost function ReadAgain(recs: set<JobRec>, clock: (i64, i64)): set<JobRec> {
    (set rec | rec in recs :: Recovered(rec)) + (set rec | rec in recs :: Replayed(Recovered(rec), clock))
  }

  // The jobs after a start are those that were logged, each with its tube and body, and with what has
  // become of the record last written for it, in which a reservation counts as ready.
  ghost predicate StartsAs(s: Log, s': Log, clock: u64 -> (i64, i64)) {
    forall id :: (id in s'.jobs <==> id in s.jobs && s.jobs[id].home.In?)
              && (id in s'.jobs ==>
                    var was := s.jobs[id].logged;
                    && s'.jobs[id].tube == s.jobs[id].tube && s'.jobs[id].body == s.jobs[id].body
                    && ComesBack(if was.state == RESERVED then was.(state := READY) else was, s'.jobs[id].rec,
                                 clock(id)))
  }

  lemma StartsAgain(s: Log, s': Log, clock: u64 -> (i64, i64))
    requires Persisted(s') == Persisted(s) && AllPlaced(s', clock)
    ensures StartsAs(s, s', clock)
  {
    hide ComesBack, Replayed;
    forall id
      ensures id in s'.jobs <==> id in s.jobs && s.jobs[id].home.In?
      ensures id in s'.jobs ==>
                && s'.jobs[id].tube == s.jobs[id].tube && s'.jobs[id].body == s.jobs[id].body
                && s'.jobs[id].logged == Recovered(s.jobs[id].logged)
    {
      assert id in Persisted(s') <==> id in s'.jobs;
      assert id in Persisted(s) <==> id in s.jobs && s.jobs[id].home.In?;
      if id in s'.jobs {
        assert Persisted(s')[id] == EntryOf(s'.jobs[id]) && Persisted(s)[id] == EntryOf(s.jobs[id]);
      }
    }
  }

  /** A restart between two commands: when the server comes up the log is in order, holds every
      job the clients know and no other, each with its record as the start leaves it, and as much is
      reserved as those jobs need. */
  lemma StartAgainKeeps(s: Log, life: Life, m: Ledger, maxN: nat)
    requires Steady(s, maxN) && Tracks(s, m) && maxN + Z <= life.fileSize - WORD
    ensures var (s', ok) := StartAgain(s, life, maxN);
            ok ==> && Steady(s', maxN) && Tracks(s', Forgiving(m, life.clock)) && Persisted(s') == Persisted(s)
                   && StartsAs(s, s', life.clock)
  {
    hide Base, Persisted, Spare, Startable, Restarted, Tracks, Forgiving, AllPlaced, Extends, StartsAs;
    SteadyIsFound(s, life.fileSize, maxN);
    RestartedIsSteady(s.book, life.fileSize, life.answers, s.next, FoundIn(s), life.clock, maxN);
    var (s', ok) := StartAgain(s, life, maxN);
    if ok {
      TracksAgain(s, s', m, life.clock);
      StartsAgain(s, s', life.clock);
    }
  }

  lemma TracksAgain(s: Log, s': Log, m: Ledger, clock: u64 -> (i64, i64))
    requires Tracks(s, m) && Persisted(s') == Persisted(s) && AllPlaced(s', clock)
    ensures Tracks(s', Forgiving(m, clock))
  {
    var m' := Forgiving(m, clock);
    forall id
      ensures id in m' <==> IsLogged(s', id)
    {
      assert id in m <==> IsLogged(s, id);
      assert id in Persisted(s') <==> IsLogged(s', id);
      assert id in Persisted(s) <==> IsLogged(s, id);
    }
    forall id | id in m'
      ensures TracksJob(s'.jobs[id], m'[id])
    {
      assert TracksJob(s.jobs[id], m[id]);
      assert id in Persisted(s') && Persisted(s')[id] == EntryOf(s'.jobs[id]);
      assert Persisted(s)[id] == EntryOf(s.jobs[id]);
      var j, j' := s.jobs[id], s'.jobs[id];
      assert j'.logged == Recovered(j'.logged) == Recovered(j.logged);
    }
  }

  // The lives a server may have: in each it serves commands it accepts, and the next start has
  // limits that the jobs on disk are within, and gets the space it asks for.
  ghost predicate LivesOn(s: Log, lives: seq<Life>, maxN: nat)
    requires Safe(s, maxN)
    decreases |lives|
  {
    lives == [] ||
    (var life := lives[0];
     && Admissible(s, life.cmds, maxN) && maxN + Z <= life.fileSize - WORD
     && UnhinderedFrom(life.fileSize, life.answers, maxN)
     && var s1 := Run(s, life.cmds, maxN);
        && R.DiskWithin(life.cfg, SegmentsOf(Files(s1)))
        && var (s', ok) := StartAgain(s1, life, maxN);
           ok && LivesOn(s', lives[1..], maxN))
  }

  ghost function AfterLives(s: Log, lives: seq<Life>, maxN: nat): Log
    requires Safe(s, maxN) && LivesOn(s, lives, maxN)
    decreases |lives|
  {
    if lives == [] then s
    else AfterLives(StartAgain(Run(s, lives[0].cmds, maxN), lives[0], maxN).0, lives[1..], maxN)
  }

  ghost function LedgerAfter(s: Log, m: Ledger, lives: seq<Life>, maxN: nat): Ledger
    requires Safe(s, maxN) && LivesOn(s, lives, maxN)
    decreases |lives|
  {
    if lives == [] then m
    else
      var life := lives[0];
      LedgerAfter(StartAgain(Run(s, life.cmds, maxN), life, maxN).0,
                  Forgiving(ExpectAll(s, m, life.cmds, maxN), life.clock), lives[1..], maxN)
  }

  /** Any number of lives: serve commands, stop between two of them, start again with other
      limits, file sizes and answers of the file system. As long as the server comes up the log
      is in order, with one delete record reserved for every job, and holds exactly the jobs
      that were put and not deleted in any life before. */
  lemma {:induction false} EveryLife(s: Log, m: Ledger, lives: seq<Life>, maxN: nat)
    requires Safe(s, maxN) && Tracks(s, m) && LivesOn(s, lives, maxN)
    ensures Safe(AfterLives(s, lives, maxN), maxN) && DeletesProvided(AfterLives(s, lives, maxN))
    ensures Tracks(AfterLives(s, lives, maxN), LedgerAfter(s, m, lives, maxN))
    decreases |lives|
  {
    hide Steady, Unhindered, Tracks, Admissible, Run, ExpectAll, StartAgain, Forgiving, DeletesProvided, R.DiskWithin;
    if lives == [] {
      SteadyProvides(s, maxN);
    } else {
      var life := lives[0];
      RunKeeps(s, life.cmds, m, maxN);
      var s1, m1 := Run(s, life.cmds, maxN), ExpectAll(s, m, life.cmds, maxN);
      StartAgainKeeps(s1, life, m1, maxN);
      EveryLife(StartAgain(s1, life, maxN).0, Forgiving(m1, life.clock), lives[1..], maxN);
    }
  }

  /** Every start of every life finds on disk exactly what it is said to start from. */
  lemma EveryStartFinds(s: Log, life: Life, maxN: nat)
    requires Safe(s, maxN) && Admissible(s, life.cmds, maxN)
    requires R.DiskWithin(life.cfg, SegmentsOf(Files(Run(s, life.cmds, maxN))))
    requires maxN + Z <= life.fileSize - WORD
    ensures var s1 := Run(s, life.cmds, maxN);
            && R.AllLong(s1) && R.Found(life.cfg, s1).Done?
            && var (s', ok) := StartAgain(s1, life, maxN);
               ok ==> R.Found(life.cfg, s1).store == Persisted(s')
  {
    hide Base, Persisted, Tracks, StartAgain, R.Found, R.DiskWithin, LedgerOf, Run;
    var s1 := Run(s, life.cmds, maxN);
    R.RestartRecovers(life.cfg, s1, maxN);
    LedgerTracks(s1);
    StartAgainKeeps(s1, life, LedgerOf(s1), maxN);
  }
}
