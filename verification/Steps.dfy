/** What the operations of the log do to one file of the file list at a time: the steps by
    which the objects in Wal.dfy follow the operations of WalState. */
module Steps {
  import opened Records
  import S = WalState

  // ---------- One file of the abstract log changed ----------

  ghost function SetFile(s: S.Log, i: nat, v: S.File): (s': S.Log)
    requires i < |S.Files(s)|
    ensures S.Files(s') == S.Files(s)[i := v] && |s'.past| == |s.past| && |s'.live| == |s.live|
    ensures SameScalars(s, s')
  {
    if i < |s.past| then s.(past := s.past[i := v]) else s.(live := s.live[i - |s.past| := v])
  }

  ghost function OneRefLess(s: S.Log, i: nat): (s': S.Log)
    requires i < |S.Files(s)|
    ensures |s'.past| == |s.past| && |s'.live| == |s.live|
  {
    SetFile(s, i, S.Files(s)[i].(refs := S.Files(s)[i].refs - 1))
  }

  ghost function DecRef(s: S.Log, i: nat): S.Log
    requires i < |S.Files(s)|
  {
    if S.Files(s)[i].refs - 1 < 1 then S.Gc(OneRefLess(s, i)) else OneRefLess(s, i)
  }

  ghost function CloseFile(s: S.Log, i: nat): S.Log
    requires i < |S.Files(s)|
  {
    var f := S.Files(s)[i];
    if !f.open then s
    else
      var c := S.Closed(s, f);
      var s' := SetFile(s, i, c);
      if c.refs < 1 then S.Gc(s') else s'
  }

  // What closing a file does before its count goes down.
  ghost function Shut(s: S.Log, f: S.File): S.File {
    f.(open := false, size := if f.free > 0 then s.fileSize - f.free else f.size)
  }

  lemma CloseInSteps(s: S.Log, i: nat)
    requires i < |S.Files(s)| && S.Files(s)[i].open
    ensures var s1 := SetFile(s, i, Shut(s, S.Files(s)[i]));
            DecRef(s1, i) == CloseFile(s, i) && OneRefLess(s1, i) == SetFile(s, i, S.Closed(s, S.Files(s)[i]))
  {
    hide S.Gc;
    var f := S.Files(s)[i];
    SetTwice(s, i, Shut(s, f), S.Closed(s, f));
  }

  // The next file is current, the one before it not yet closed.
  ghost function Advanced(s: S.Log): (s': S.Log)
    requires s.live != []
    ensures S.Files(s') == S.Files(s) && SameScalars(s, s')
  {
    s.(past := s.past + [s.live[0]], live := s.live[1..])
  }

  lemma UseNextInSteps(s: S.Log)
    requires |s.live| > 1
    ensures (CloseFile(Advanced(s), |s.past|), true) == S.UseNext(s)
    ensures Advanced(s).live == s.live[1..] && |Advanced(s).past| == |s.past| + 1
    ensures |s.past| < |S.Files(Advanced(s))| && S.Files(Advanced(s))[|s.past|] == s.live[0]
    ensures SetFile(Advanced(s), |s.past|, S.Closed(Advanced(s), s.live[0])).live == s.live[1..]
  {
    hide S.Gc;
    var f, s0 := s.live[0], Advanced(s);
    assert s0.past[|s.past| := S.Closed(s, f)] == s.past + [S.Closed(s, f)];
  }

  lemma HeadDropped(s: S.Log)
    requires S.Files(s) != [] && S.Files(s)[0].refs <= 0
    ensures S.Files(S.WithoutHead(s)) == S.Files(s)[1..] && S.Gc(S.WithoutHead(s)) == S.Gc(s)
    ensures var s' := S.WithoutHead(s);
            && s'.fileSize == s.fileSize && s'.use == s.use && s'.nfile == s.nfile - 1 && s'.next == s.next
            && s'.resv == s.resv && s'.alive == s.alive && s'.nrec == s.nrec && s'.nmig == s.nmig
            && s'.answers == s.answers && s'.jobs == s.jobs
    ensures |S.WithoutHead(s).live| <= |s.live|
  {
  }

  ghost predicate SameScalars(s: S.Log, s': S.Log) {
    && s'.fileSize == s.fileSize && s'.use == s.use && s'.nfile == s.nfile && s'.next == s.next
    && s'.resv == s.resv && s'.alive == s.alive && s'.nrec == s.nrec && s'.nmig == s.nmig
    && s'.answers == s.answers && s'.jobs == s.jobs
  }

  lemma SetSame(s: S.Log, i: nat)
    requires i < |S.Files(s)|
    ensures SetFile(s, i, S.Files(s)[i]) == s
    ensures !S.Files(s)[i].open ==> S.Closed(s, S.Files(s)[i]) == S.Files(s)[i] && CloseFile(s, i) == s
  {
  }

  lemma SetTwice(s: S.Log, i: nat, v: S.File, v': S.File)
    requires i < |S.Files(s)|
    ensures SetFile(SetFile(s, i, v), i, v') == SetFile(s, i, v')
  {
  }

  // ---------- Space shifted between free and reserved ----------

  ghost function Shifted(f: S.File, n: int): S.File {
    f.(free := f.free - n, resv := f.resv + n)
  }

  ghost function ShiftAt(s: S.Log, i: nat, n: int): (s': S.Log)
    requires i < |S.Files(s)|
    ensures S.Files(s') == S.Files(s)[i := Shifted(S.Files(s)[i], n)]
    ensures |s'.past| == |s.past| && |s'.live| == |s.live| && SameScalars(s, s')
  {
    SetFile(s, i, Shifted(S.Files(s)[i], n))
  }

  lemma GrantInSteps(s: S.Log, i: nat, n: int)
    requires i < |s.live|
    ensures S.Grant(s, i, n) == ShiftAt(s, |s.past| + i, n).(resv := s.resv + n)
  {
  }

  lemma MoveInSteps(s: S.Log, to: nat, from: nat, n: int)
    requires to < |s.live| && from < |s.live|
    ensures S.MoveResv(s, to, from, n) == ShiftAt(ShiftAt(s, |s.past| + from, -n), |s.past| + to, n)
  {
  }

  // ---------- One pass of the loops of balance and balanceRest ----------

  lemma PassInSteps(s: S.Log, n: nat, t: nat)
    requires S.Usable(s) && t < |s.live| && s.live[t].resv >= n && s.live[0].resv < n
    ensures var m := s.live[0].resv;
            var (s1, got) := S.NeedFree(s, m);
            && s1.live != []
            && (got != m ==> S.MakeRoom(s, n, t) == (s1, false))
            && (got == m ==>
                  var s2 := S.MoveResv(s1, S.Last(s1), 0, m);
                  && t > 0 && |s2.live| > 1 && |s2.past| == |s1.past| && S.UseNext(s2).1
                  && |S.UseNext(s2).0.live| == |s2.live| - 1
                  && Roomy(S.UseNext(s2).0, n, t - 1)
                  && S.MakeRoom(S.UseNext(s2).0, n, t - 1) == S.MakeRoom(s, n, t))
  {
    hide S.NeedFree, S.Quiet;
  }

  lemma RoomMade(s: S.Log, n: nat, t: nat)
    requires Roomy(s, n, t) && s.live[0].resv >= n
    ensures S.MakeRoom(s, n, t) == (s, true)
  {
  }

  ghost predicate Roomy(s: S.Log, n: nat, t: nat) {
    S.Usable(s) && t < |s.live| && s.live[t].resv >= n
  }

  ghost predicate CanGoOn(s: S.Log, i: nat) {
    S.Usable(s) && i <= |s.live| && (i < |s.live| ==> s.live[i].resv >= 0)
  }

  lemma SettleInSteps(s: S.Log, i: nat, n: nat)
    requires S.Usable(s) && i < |s.live| && s.live[i].resv >= n && S.Capacity(s) >= 2 * Z - 1
    ensures var (s', ok) := S.Settle(s, i, n);
            && S.BalanceRest(s, i, n) == (if ok then S.BalanceRest(s', i + 1, 0) else (s', false))
            && (ok ==> CanGoOn(s', i + 1) && S.Work(s', i + 1) < S.Work(s, i) && S.Capacity(s') == S.Capacity(s))
  {
    hide S.Settle, S.Work;
  }

  lemma SettleCases(s: S.Log, i: nat, n: nat)
    requires S.Usable(s) && i < |s.live| && s.live[i].resv >= n && S.Capacity(s) >= 2 * Z - 1
    ensures var t, r := S.Last(s), (s.live[i].resv - n) % Z;
            if r == 0 then S.Settle(s, i, n) == (s, true)
            else if s.live[t].resv >= Z - r && s.live[i].free >= Z - r then
              S.Settle(s, i, n) == (S.MoveResv(s, i, t, Z - r), true) && S.MoveResv(s, i, t, Z - r).past == s.past
            else
              var (s1, got) := S.NeedFree(s, r);
              && s1.live != [] && i < |s1.live|
              && S.Settle(s, i, n) == (if got == r then S.MoveResv(s1, S.Last(s1), i, r) else s1, got == r)
              && S.MoveResv(s1, S.Last(s1), i, r).past == s1.past
  {
    hide S.NeedFree, S.Quiet, S.Work;
  }

  lemma NothingToSettle(s: S.Log, n: nat)
    requires S.Usable(s) && S.Capacity(s) >= 2 * Z - 1
    ensures S.BalanceRest(s, |s.live|, n) == (s, true)
  {
  }

  lemma ReserveInSteps(s: S.Log, n: nat)
    requires s.use ==> S.Usable(s) && S.Capacity(s) >= 2 * Z - 1
    ensures !s.use ==> S.Reserve(s, n) == (s, 1)
    ensures s.use ==> s.live != []
    ensures s.use && s.live[0].free >= n ==> S.Reserve(s, n) == (S.Grant(s, 0, n), n)
    ensures s.use && s.live[0].free < n ==>
              var (s1, got) := S.NeedFree(s, n);
              && S.Usable(s1) && S.Capacity(s1) >= 2 * Z - 1
              && S.Reserve(s, n) == if got == n then S.ReserveInTail(s1, n) else (s1, 0)
  {
  }

  // ---------- Jobs and records ----------

  ghost function LinkFront(s: S.Log, id: u64): S.File
    requires s.live != []
  {
    s.live[0].(jobs := s.live[0].jobs + [id], refs := s.live[0].refs + 1)
  }

  lemma AddJobInSteps(s: S.Log, id: u64)
    requires id in s.jobs && s.live != []
    ensures |s.past| < |S.Files(s)| && S.Files(s)[|s.past|] == s.live[0]
    ensures var s' := S.FileAddJob(s, id);
            && S.Files(s') == S.Files(s)[|s.past| := LinkFront(s, id)] && SameScalarsButJobs(s, s')
            && s'.past == s.past && |s'.live| == |s.live|
            && s'.jobs == s.jobs[id := s.jobs[id].(home := S.In(s.live[0].seqNo))]
  {
  }

  ghost predicate SameScalarsButJobs(s: S.Log, s': S.Log) {
    && s'.fileSize == s.fileSize && s'.use == s.use && s'.nfile == s.nfile && s'.next == s.next
    && s'.resv == s.resv && s'.alive == s.alive && s'.nrec == s.nrec && s'.nmig == s.nmig
    && s'.answers == s.answers
  }

  lemma WriteRecInSteps(s: S.Log, id: u64, r: Rec)
    requires id in s.jobs && s.live != []
    ensures |s.past| < |S.Files(s)| && S.Files(s)[|s.past|] == s.live[0]
    ensures var s', l, f := S.WriteRec(s, id, r), RecSize(r), s.live[0];
            && S.Files(s') == S.Files(s)[|s.past| := f.(recs := f.recs + [r], resv := f.resv - l)]
            && SameScalarsButJobs(s.(resv := s.resv - l, alive := s.alive + l), s')
            && s'.past == s.past && |s'.live| == |s.live|
            && s'.jobs == s.jobs[id := s.jobs[id].(used := s.jobs[id].used + l, logged := s.jobs[id].rec)]
  {
  }

  // A job taken off the list of file i, whose reference count is yet to go down.
  ghost function UnlinkedAt(s: S.Log, i: nat, id: u64): (s': S.Log)
    requires i < |S.Files(s)| && id in s.jobs
    ensures S.Files(s') == S.Files(s)[i := S.Files(s)[i].(jobs := S.Without(S.Files(s)[i].jobs, id))]
    ensures |s'.past| == |s.past| && |s'.live| == |s.live|
    ensures SameScalarsButJobs(s.(alive := s.alive - s.jobs[id].used), s')
    ensures s'.jobs == s.jobs[id := s.jobs[id].(home := S.Nowhere, used := 0)]
  {
    var f, j := S.Files(s)[i], s.jobs[id];
    SetFile(s, i, f.(jobs := S.Without(f.jobs, id))).
      (alive := s.alive - j.used, jobs := s.jobs[id := j.(home := S.Nowhere, used := 0)])
  }

  lemma DropJobInSteps(fs: seq<S.File>, q: nat, id: u64, i: nat)
    requires i < |fs| && fs[i].seqNo == q
    requires forall k :: 0 <= k < |fs| && k != i ==> fs[k].seqNo != q
    ensures S.DropJob(fs, q, id) == fs[i := fs[i].(jobs := S.Without(fs[i].jobs, id), refs := fs[i].refs - 1)]
  {
  }

  lemma DropJobElsewhere(fs: seq<S.File>, q: nat, id: u64)
    requires forall k :: 0 <= k < |fs| ==> fs[k].seqNo != q
    ensures S.DropJob(fs, q, id) == fs
  {
  }

  ghost predicate OnlyOneNumbered(s: S.Log, i: nat)
    requires i < |S.Files(s)|
  {
    forall k :: 0 <= k < |S.Files(s)| && k != i ==> S.Files(s)[k].seqNo != S.Files(s)[i].seqNo
  }

  lemma DroppedFiles(s: S.Log, i: nat, id: u64)
    requires i < |S.Files(s)| && OnlyOneNumbered(s, i)
    ensures var q, f := S.Files(s)[i].seqNo, S.Files(s)[i];
            var f' := f.(jobs := S.Without(f.jobs, id), refs := f.refs - 1);
            && S.DropJob(s.past, q, id) == (if i < |s.past| then s.past[i := f'] else s.past)
            && S.DropJob(s.live, q, id) == (if i < |s.past| then s.live else s.live[i - |s.past| := f'])
  {
    hide S.DropJob, S.Without;
    var q, n := S.Files(s)[i].seqNo, |s.past|;
    assert forall k :: 0 <= k < n ==> S.Files(s)[k] == s.past[k];
    assert forall k :: 0 <= k < |s.live| ==> S.Files(s)[n + k] == s.live[k];
    if i < n {
      DropJobInSteps(s.past, q, id, i);
      DropJobElsewhere(s.live, q, id);
    } else {
      DropJobInSteps(s.live, q, id, i - n);
      DropJobElsewhere(s.past, q, id);
    }
  }

  lemma DroppedInSteps(s: S.Log, i: nat, id: u64)
    requires i < |S.Files(s)| && id in s.jobs && OnlyOneNumbered(s, i)
    ensures S.Unlinked(s, S.Files(s)[i].seqNo, id) == OneRefLess(UnlinkedAt(s, i, id), i)
  {
    hide S.DropJob, S.Without, OnlyOneNumbered;
    DroppedFiles(s, i, id);
  }

  lemma OnlyItUnreferenced(s: S.Log, i: nat)
    requires i < |S.Files(s)| && OnlyOneNumbered(s, i)
    ensures S.Unreferenced(s, S.Files(s)[i].seqNo) <==> S.Files(s)[i].refs < 1
  {
  }

  lemma RmJobInSteps(s: S.Log, i: nat, id: u64)
    requires i < |S.Files(s)| && id in s.jobs && OnlyOneNumbered(s, i)
    requires s.jobs[id].home == S.In(S.Files(s)[i].seqNo)
    ensures S.FileRmJob(s, S.Files(s)[i].seqNo, id) == DecRef(UnlinkedAt(s, i, id), i)
  {
    hide S.DropJob, S.Without, S.Gc, S.Unreferenced;
    var s1 := UnlinkedAt(s, i, id);
    DroppedInSteps(s, i, id);
    OnlyItUnreferenced(OneRefLess(s1, i), i);
  }

  lemma CloseCurrentInSteps(s: S.Log)
    requires s.live != []
    ensures |s.past| < |S.Files(s)| && S.CloseCurrent(s) == CloseFile(s, |s.past|)
  {
    hide S.Gc;
    SetSame(s, |s.past|);
  }

  ghost predicate HomeListed(s: S.Log, id: u64)
    requires id in s.jobs
  {
    s.jobs[id].home.In? ==> exists i :: 0 <= i < |S.Files(s)| && S.Files(s)[i].seqNo == s.jobs[id].home.seqNo
  }

  lemma WriteShortInSteps(s: S.Log, id: u64)
    requires id in s.jobs && s.live != []
    ensures var j, s' := s.jobs[id], S.WriteRec(s, id, Short(s.jobs[id].rec));
            && id in s'.jobs && s'.jobs[id].rec == j.rec && s'.jobs[id].home == j.home
            && S.WriteShort(s, id) ==
               (if j.rec.state == INVALID && j.home.In? then S.FileRmJob(s', j.home.seqNo, id) else s')
            && |S.Files(s')| == |S.Files(s)| && s'.past == s.past && |s'.live| == |s.live|
            && forall i :: 0 <= i < |S.Files(s)| ==> S.Files(s')[i].seqNo == S.Files(s)[i].seqNo
  {
    hide S.FileRmJob;
  }

  // There is a file for the next record.
  ghost predicate HasRoom(s: S.Log)
    requires s.live != []
  {
    s.live[0].resv > 0 || S.UseNext(s).1
  }

  lemma WalWriteInSteps(s: S.Log, id: u64)
    requires id in s.jobs && (s.use ==> S.Referenced(s))
    ensures !s.use ==> S.WalWrite(s, id) == (s, true)
    ensures s.use ==> s.live != []
    ensures s.use && HasRoom(s) ==>
              && S.ToWriteIn(s).live != [] && S.ToWriteIn(s).jobs == s.jobs
              && (s.live[0].resv > 0 || |S.ToWriteIn(s).live| == |s.live| - 1)
              && var s1 := S.ToWriteIn(s);
                 var s2 := if s1.jobs[id].home.In? then S.WriteShort(s1, id) else S.WriteFull(s1, id);
                 S.WalWrite(s, id) == (s2.(nrec := s2.nrec + 1), true)
    ensures s.use && !HasRoom(s) ==>
              var s2 := S.CloseCurrent(s);
              s.live[0].resv <= 0 && S.WalWrite(s, id) == (s2.(use := false, nrec := s2.nrec + 1), false)
  {
    hide S.WriteShort, S.WriteFull, S.CloseCurrent;
  }
}
