/** The log as a persistent map: reading a record changes the set of recovered
    jobs. Records are folded oldest first, file by file. */
module Replay {
  import opened Records

  // What start-up knows about one job: its file is the one holding its latest full
  // record, and used counts the bytes of that record and of the short ones after it.
  datatype Entry = Entry(tube: Bytes, rec: JobRec, body: Bytes, file: nat, used: nat)

  type Store = map<u64, Entry>

  datatype Segment = Segment(seqNo: nat, recs: seq<Rec>)

  function ApplyRec(m: Store, file: nat, r: Rec): Store {
    var id := r.job.id;
    if r.Short? && id !in m then m
    else if r.job.state == INVALID then m - {id}
    else match r
      case Short(job) => m[id := m[id].(rec := Recovered(job), used := m[id].used + Z)]
      case Full(tube, job, body) =>
        m[id := Entry(if id in m then m[id].tube else tube, Recovered(job), body, file, RecSize(r))]
  }

  function ApplyAll(m: Store, file: nat, rs: seq<Rec>): Store {
    if rs == [] then m else ApplyRec(ApplyAll(m, file, rs[..|rs| - 1]), file, rs[|rs| - 1])
  }

  function ReplayFrom(m: Store, segs: seq<Segment>): Store {
    if segs == [] then m
    else
      var last := segs[|segs| - 1];
      ApplyAll(ReplayFrom(m, segs[..|segs| - 1]), last.seqNo, last.recs)
  }

  function Replay(segs: seq<Segment>): Store {
    ReplayFrom(map[], segs)
  }

  // A record of a job that is still live says the same size as before; and a second full
  // record has the same tube and body: the server writes one only when it moves the job to
  // the current file.
  predicate TameRec(m: Store, r: Rec) {
    r.job.id in m ==>
      var e := m[r.job.id];
      r.job.bodySize == |e.body| && (r.Full? ==> e.tube == r.tube && e.body == r.body)
  }

  predicate TameAll(m: Store, file: nat, rs: seq<Rec>) {
    rs == [] || (TameAll(m, file, rs[..|rs| - 1]) &&
                 TameRec(ApplyAll(m, file, rs[..|rs| - 1]), rs[|rs| - 1]))
  }

  predicate TameFrom(m: Store, segs: seq<Segment>) {
    segs == [] || (TameFrom(m, segs[..|segs| - 1]) &&
                   var last := segs[|segs| - 1];
                   TameAll(ReplayFrom(m, segs[..|segs| - 1]), last.seqNo, last.recs))
  }

  predicate Tame(segs: seq<Segment>) {
    TameFrom(map[], segs)
  }

  ghost predicate Ascending(segs: seq<Segment>) {
    forall i, j :: 0 <= i < j < |segs| ==> segs[i].seqNo < segs[j].seqNo
  }

  // The jobs of m whose latest full record is in file lo or a later one.
  function Since(m: Store, lo: nat): Store {
    map id | id in m && m[id].file >= lo :: m[id]
  }

  // ---------- Appending ----------

  lemma {:induction false} ApplyAllCons(m: Store, file: nat, r: Rec, rs: seq<Rec>)
    ensures ApplyAll(m, file, [r] + rs) == ApplyAll(ApplyRec(m, file, r), file, rs)
  {
    if rs == [] {
      assert [r] + rs == [r];
      assert ApplyAll(m, file, [r][..0]) == m;
    } else {
      var n := |rs| - 1;
      assert ([r] + rs)[..n + 1] == [r] + rs[..n];
      ApplyAllCons(m, file, r, rs[..n]);
    }
  }

  // Empty segments at the end (files not yet written) change nothing.
  lemma {:induction false} ReplayEmptyTail(m: Store, segs: seq<Segment>, k: nat)
    requires k <= |segs|
    requires forall i :: k <= i < |segs| ==> segs[i].recs == []
    ensures ReplayFrom(m, segs) == ReplayFrom(m, segs[..k])
    ensures TameFrom(m, segs) <==> TameFrom(m, segs[..k])
  {
    if k == |segs| {
      assert segs[..k] == segs;
    } else {
      var front := segs[..|segs| - 1];
      ReplayEmptyTail(m, front, k);
      assert front[..k] == segs[..k];
    }
  }

  // Writing one record to file k, the files after it being still unwritten, adds
  // that record's effect to what a replay recovers.
  lemma ReplayAppend(segs: seq<Segment>, k: nat, r: Rec)
    requires k < |segs|
    requires forall i :: k < i < |segs| ==> segs[i].recs == []
    ensures var segs' := segs[k := Segment(segs[k].seqNo, segs[k].recs + [r])];
            && Replay(segs') == ApplyRec(Replay(segs), segs[k].seqNo, r)
            && (Tame(segs) && TameRec(Replay(segs), r) ==> Tame(segs'))
  {
    var s := segs[k];
    var segs' := segs[k := Segment(s.seqNo, s.recs + [r])];
    ReplayEmptyTail(map[], segs, k + 1);
    ReplayEmptyTail(map[], segs', k + 1);
    assert segs[..k + 1][..k] == segs[..k];
    assert segs'[..k + 1][..k] == segs[..k];
    assert (s.recs + [r])[..|s.recs|] == s.recs;
  }

  // ---------- Dropping old files ----------

  // The replay started with the older files (a) and the one started without them (b):
  // b holds exactly the jobs of a whose latest full record is not in an older file.
  ghost predicate Restricts(a: Store, b: Store, lo: nat) {
    b == Since(a, lo)
  }

  lemma RestrictsStep(a: Store, b: Store, lo: nat, file: nat, r: Rec)
    requires Restricts(a, b, lo) && lo <= file && TameRec(a, r)
    ensures Restricts(ApplyRec(a, file, r), ApplyRec(b, file, r), lo)
    ensures TameRec(b, r)
  {
  }

  lemma {:induction false} RestrictsAll(a: Store, b: Store, lo: nat, file: nat, rs: seq<Rec>)
    requires Restricts(a, b, lo) && lo <= file && TameAll(a, file, rs)
    ensures Restricts(ApplyAll(a, file, rs), ApplyAll(b, file, rs), lo)
    ensures TameAll(b, file, rs)
  {
    if rs != [] {
      var front := rs[..|rs| - 1];
      RestrictsAll(a, b, lo, file, front);
      RestrictsStep(ApplyAll(a, file, front), ApplyAll(b, file, front), lo, file, rs[|rs| - 1]);
    }
  }

  lemma {:induction false} RestrictsFrom(a: Store, b: Store, lo: nat, segs: seq<Segment>)
    requires Restricts(a, b, lo) && TameFrom(a, segs)
    requires forall s :: s in segs ==> lo <= s.seqNo
    ensures Restricts(ReplayFrom(a, segs), ReplayFrom(b, segs), lo)
    ensures TameFrom(b, segs)
  {
    if segs != [] {
      var front, last := segs[..|segs| - 1], segs[|segs| - 1];
      RestrictsFrom(a, b, lo, front);
      RestrictsAll(ReplayFrom(a, front), ReplayFrom(b, front), lo, last.seqNo, last.recs);
    }
  }

  lemma {:induction false} ReplaySplit(m: Store, segs: seq<Segment>, k: nat)
    requires k <= |segs|
    ensures ReplayFrom(m, segs) == ReplayFrom(ReplayFrom(m, segs[..k]), segs[k..])
    ensures TameFrom(m, segs) <==> TameFrom(m, segs[..k]) && TameFrom(ReplayFrom(m, segs[..k]), segs[k..])
    decreases |segs| - k
  {
    hide ApplyAll, TameAll;
    if k == |segs| {
      assert segs[..k] == segs;
    } else {
      var n := |segs| - 1;
      var front := segs[..n];
      ReplaySplit(m, front, k);
      assert front[..k] == segs[..k];
      assert segs[k..][..n - k] == front[k..];
      assert segs[k..][n - k] == segs[n];
    }
  }

  // Every recovered job names a file of the log.
  lemma {:induction false} FilesOfAll(m: Store, file: nat, rs: seq<Rec>)
    ensures forall id :: id in ApplyAll(m, file, rs) ==>
              || ApplyAll(m, file, rs)[id].file == file
              || (id in m && ApplyAll(m, file, rs)[id].file == m[id].file)
  {
    if rs != [] {
      FilesOfAll(m, file, rs[..|rs| - 1]);
    }
  }

  lemma {:induction false} FilesOfReplay(segs: seq<Segment>, hi: nat)
    requires forall s :: s in segs ==> s.seqNo < hi
    ensures forall id :: id in Replay(segs) ==> Replay(segs)[id].file < hi
  {
    if segs != [] {
      var front, last := segs[..|segs| - 1], segs[|segs| - 1];
      FilesOfReplay(front, hi);
      FilesOfAll(Replay(front), last.seqNo, last.recs);
      assert last in segs;
    }
  }

  /** Garbage collection, in general: after the first k files are dropped, a replay
      recovers exactly the jobs whose latest full record is in a file that is left, and
      recovers each of them unchanged. */
  lemma DropHead(segs: seq<Segment>, k: nat)
    requires k < |segs| && Ascending(segs) && Tame(segs)
    ensures Replay(segs[k..]) == Since(Replay(segs), segs[k].seqNo)
    ensures Tame(segs[k..])
  {
    var lo := segs[k].seqNo;
    ReplaySplit(map[], segs, k);
    FilesOfReplay(segs[..k], lo);
    RestrictsFrom(Replay(segs[..k]), map[], lo, segs[k..]);
  }

  /** Dropping head files loses nothing exactly when no live job's latest full record is
      in one of them. */
  lemma DropHeadIsSafeExactlyWhenUnreferenced(segs: seq<Segment>, k: nat)
    requires k < |segs| && Ascending(segs) && Tame(segs)
    ensures Replay(segs[k..]) == Replay(segs)
       <==> forall id :: id in Replay(segs) ==> Replay(segs)[id].file >= segs[k].seqNo
  {
    DropHead(segs, k);
    var m := Replay(segs);
    if Since(m, segs[k].seqNo) == m {
      forall id | id in m
        ensures m[id].file >= segs[k].seqNo
      {
        assert id in Since(m, segs[k].seqNo);
      }
    }
  }
}
