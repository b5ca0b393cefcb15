/** The invariant that ties the files of the log to the jobs: numbering, reference counts,
    job lists, bytes on disk, and what a replay of the records would recover. */
module Linking {
  import opened Records
  import opened Replay
  import opened WalState

  function SegmentsOf(fs: seq<File>): (segs: seq<Segment>)
    ensures |segs| == |fs|
    ensures forall i :: 0 <= i < |fs| ==> segs[i] == Segment(fs[i].seqNo, fs[i].recs)
  {
    seq(|fs|, i requires 0 <= i < |fs| => Segment(fs[i].seqNo, fs[i].recs))
  }

  // What a restart would recover from the records now in the log.
  function Recoverable(s: Log): Store {
    Replay.Replay(SegmentsOf(Files(s)))
  }

  function EntryOf(j: Job): Entry
    requires j.home.In?
  {
    Entry(j.tube, Recovered(j.logged), j.body, j.home.seqNo, j.used)
  }

  // What a restart should recover: every job linked to a file, as it was last written.
  function Persisted(s: Log): Store {
    map id | id in s.jobs && s.jobs[id].home.In? :: EntryOf(s.jobs[id])
  }

  // ---------- Bytes in use ----------

  ghost function SumUsed(m: Store): nat {
    if m == map[] then 0
    else var id :| id in m; m[id].used + SumUsed(m - {id})
  }

  lemma {:induction false} SumUsedRemove(m: Store, id: u64)
    requires id in m
    ensures SumUsed(m) == m[id].used + SumUsed(m - {id})
  {
    var pick :| pick in m && SumUsed(m) == m[pick].used + SumUsed(m - {pick});
    if pick != id {
      SumUsedRemove(m - {pick}, id);
      SumUsedRemove(m - {id}, pick);
      assert m - {pick} - {id} == m - {id} - {pick};
    }
  }

  lemma SumUsedSet(m: Store, id: u64, e: Entry)
    ensures SumUsed(m[id := e]) == e.used + SumUsed(m - {id})
    ensures id !in m ==> m - {id} == m
  {
    SumUsedRemove(m[id := e], id);
    assert m[id := e] - {id} == m - {id};
  }

  // ---------- The invariant ----------

  ghost predicate Numbered(s: Log) {
    && s.live != [] && s.nfile == |Files(s)|
    && (forall i, j :: 0 <= i < j < |Files(s)| ==> Files(s)[i].seqNo < Files(s)[j].seqNo)
    && (forall i :: 0 <= i < |Files(s)| ==> Files(s)[i].seqNo < s.next)
  }

  /** Reference counts are exact: one for every job in the file's list and one more while
      the file is open for writing. Files before the current one are closed with nothing
      reserved; files after it hold nothing yet. */
  ghost predicate Counted(s: Log) {
    && (forall i :: 0 <= i < |s.past| ==> PastFile(s.past[i]))
    && (forall i :: 0 <= i < |s.live| ==> LiveFile(s.live[i]))
    && (forall i :: 0 < i < |s.live| ==> s.live[i].jobs == [] && s.live[i].recs == [])
  }

  predicate PastFile(f: File) {
    !f.open && f.resv == 0 && f.refs == |f.jobs|
  }

  predicate LiveFile(f: File) {
    f.open && f.refs == |f.jobs| + 1
  }

  // Collection has been done: the head file is needed.
  ghost predicate HeadHeld(s: Log) {
    s.past != [] ==> s.past[0].refs > 0
  }

  ghost predicate Distinct(ids: seq<u64>) {
    forall i, j :: 0 <= i < j < |ids| ==> ids[i] != ids[j]
  }

  ghost predicate FileLinked(s: Log, f: File) {
    Distinct(f.jobs) && forall id :: id in f.jobs ==> id in s.jobs && s.jobs[id].home == In(f.seqNo)
  }

  ghost predicate JobLinked(s: Log, id: u64)
    requires id in s.jobs
  {
    s.jobs[id].home.In? ==>
      exists i :: 0 <= i < |Files(s)| && Files(s)[i].seqNo == s.jobs[id].home.seqNo && id in Files(s)[i].jobs
  }

  // A job is in the list of a file exactly when that file is its home.
  ghost predicate Linked(s: Log) {
    && (forall i :: 0 <= i < |Files(s)| ==> FileLinked(s, Files(s)[i]))
    && (forall id :: id in s.jobs ==> JobLinked(s, id))
  }

  /** Bytes: what is written in an open file, what is free in it and what is reserved add up
      to the file size; a file closed with something free is as long as what is written. */
  ghost predicate FileWritten(book: map<u64, Deed>, fileSize: nat, f: File) {
    && (forall r :: r in f.recs ==> Registered(book, r))
    && (if f.open then WORD + RecsSize(f.recs) + f.free + f.resv == fileSize && f.size >= fileSize
        else f.size >= WORD + RecsSize(f.recs) && (f.free > 0 ==> f.size == WORD + RecsSize(f.recs)))
  }

  ghost predicate Written(s: Log) {
    forall i :: 0 <= i < |Files(s)| ==> FileWritten(s.book, s.fileSize, Files(s)[i])
  }

  // The jobs, apart from those in skip, are ones the server may hold. No record of a job
  // is larger than maxN, not even with its delete record.
  ghost predicate JobsFit(s: Log, skip: set<u64>, maxN: nat) {
    && (forall id :: id in s.jobs ==> JobFits(s.book, id, s.jobs[id], id in skip, maxN))
    && (forall id :: id in s.book ==> FullSize(s.book[id].tube, s.book[id].body) + Z <= maxN)
  }

  predicate JobFits(book: map<u64, Deed>, id: u64, j: Job, skipped: bool, maxN: nat) {
    && id > 0 && j.rec.id == id && WellNamed(j.tube) && j.rec.bodySize == |j.body|
    && FullSize(j.tube, j.body) + Z <= maxN
    && (id in book ==> book[id] == Deed(j.tube, j.body)) && (j.home.In? ==> id in book)
    && (j.home == Nowhere ==> j.used == 0)
    && (j.home.In? && !skipped ==> LiveState(j.rec.state))
  }

  /** A restart recovers exactly what it should, apart from the jobs in skip, which an
      operation is in the middle of moving. */
  ghost predicate Consistent(s: Log, skip: set<u64>) {
    && Tame(SegmentsOf(Files(s)))
    && Recoverable(s) - skip == Persisted(s) - skip
    && forall id :: id in skip && id in Recoverable(s) ==>
         id in s.jobs && Recoverable(s)[id].tube == s.jobs[id].tube && Recoverable(s)[id].body == s.jobs[id].body
  }

  ghost predicate Tallied(s: Log) {
    s.alive == SumUsed(Persisted(s))
  }

  ghost predicate Loose(s: Log, skip: set<u64>, maxN: nat) {
    && Numbered(s) && Counted(s) && Linked(s) && Written(s)
    && JobsFit(s, skip, maxN) && Consistent(s, skip) && Tallied(s)
  }

  ghost predicate Base(s: Log, skip: set<u64>, maxN: nat) {
    Loose(s, skip, maxN) && HeadHeld(s)
  }

  // ---------- What does not depend on the files ----------

  lemma SameJobsPersist(s: Log, s': Log)
    requires s'.jobs == s.jobs
    ensures Persisted(s') == Persisted(s)
  {
  }

  lemma JobsFitSame(s: Log, s': Log, skip: set<u64>, maxN: nat)
    requires JobsFit(s, skip, maxN) && s'.jobs == s.jobs && s'.book == s.book
    ensures JobsFit(s', skip, maxN)
  {
    hide JobFits;
  }

  lemma SameReplayConsistent(s: Log, s': Log, skip: set<u64>)
    requires Consistent(s, skip) && SegmentsOf(Files(s')) == SegmentsOf(Files(s)) && s'.jobs == s.jobs
    ensures Consistent(s', skip) && Recoverable(s') == Recoverable(s)
  {
    SameJobsPersist(s, s');
    hide Persisted, Tame;
  }

  lemma SameTallied(s: Log, s': Log)
    requires Tallied(s) && s'.jobs == s.jobs && s'.alive == s.alive
    ensures Tallied(s')
  {
    SameJobsPersist(s, s');
  }
}
