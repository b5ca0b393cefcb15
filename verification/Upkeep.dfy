/** The operations that only rearrange files and reserves keep the invariant, and leave
    every job and every record as it was. */
module Upkeep {
  import opened Records
  import opened Replay
  import opened WalState
  import opened Linking
  import opened Space

  // ---------- Moving reserves ----------

  predicate SameButSpace(f: File, f': File) {
    f' == f.(free := f'.free, resv := f'.resv) && f'.free + f'.resv == f.free + f.resv
  }

  ghost predicate OnlySpaceDiffers(s: Log, s': Log) {
    && s'.past == s.past && |s'.live| == |s.live| && s'.jobs == s.jobs && s'.fileSize == s.fileSize
    && s'.book == s.book && s'.alive == s.alive && s'.next == s.next && s'.nfile == s.nfile
    && forall i :: 0 <= i < |s.live| ==> SameButSpace(s.live[i], s'.live[i])
  }

  lemma FilesDiffer(s: Log, s': Log)
    requires OnlySpaceDiffers(s, s')
    ensures |Files(s')| == |Files(s)|
    ensures forall i :: 0 <= i < |Files(s)| ==> SameButSpace(Files(s)[i], Files(s')[i]) || Files(s')[i] == Files(s)[i]
    ensures SegmentsOf(Files(s')) == SegmentsOf(Files(s))
  {
    forall i | 0 <= i < |Files(s)|
      ensures SameButSpace(Files(s)[i], Files(s')[i]) || Files(s')[i] == Files(s)[i]
    {
      if i >= |s.past| {
        assert SameButSpace(s.live[i - |s.past|], s'.live[i - |s.past|]);
      }
    }
  }

  lemma SpaceCounted(s: Log, s': Log)
    requires OnlySpaceDiffers(s, s') && Counted(s)
    ensures Counted(s')
  {
    forall i | 0 <= i < |s'.live|
      ensures LiveFile(s'.live[i])
    {
      assert LiveFile(s.live[i]) && SameButSpace(s.live[i], s'.live[i]);
    }
    forall i | 0 < i < |s'.live|
      ensures s'.live[i].jobs == [] && s'.live[i].recs == []
    {
      assert SameButSpace(s.live[i], s'.live[i]);
    }
  }

  lemma SpaceLinked(s: Log, s': Log)
    requires OnlySpaceDiffers(s, s') && Linked(s)
    ensures Linked(s')
  {
    FilesDiffer(s, s');
    forall i | 0 <= i < |Files(s')|
      ensures FileLinked(s', Files(s')[i])
    {
      assert FileLinked(s, Files(s)[i]);
    }
    forall id | id in s'.jobs
      ensures JobLinked(s', id)
    {
      assert JobLinked(s, id);
      if s.jobs[id].home.In? {
        var i :| 0 <= i < |Files(s)| && Files(s)[i].seqNo == s.jobs[id].home.seqNo && id in Files(s)[i].jobs;
        assert id in Files(s')[i].jobs;
      }
    }
  }

  lemma SpaceWritten(s: Log, s': Log)
    requires OnlySpaceDiffers(s, s') && Written(s) && Counted(s)
    ensures Written(s')
  {
    FilesDiffer(s, s');
    forall i | 0 <= i < |Files(s')|
      ensures FileWritten(s'.book, s'.fileSize, Files(s')[i])
    {
      assert i >= |s.past| ==> LiveFile(s.live[i - |s.past|]);
      assert FileWritten(s.book, s.fileSize, Files(s)[i]);
    }
  }

  lemma SpaceNumbered(s: Log, s': Log)
    requires OnlySpaceDiffers(s, s') && Numbered(s)
    ensures Numbered(s')
  {
    FilesDiffer(s, s');
    forall i | 0 <= i < |Files(s')|
      ensures Files(s')[i].seqNo == Files(s)[i].seqNo
    {
    }
  }

  lemma SpaceKeepsBase(s: Log, s': Log, skip: set<u64>, maxN: nat)
    requires OnlySpaceDiffers(s, s') && Base(s, skip, maxN)
    ensures Base(s', skip, maxN) && Recoverable(s') == Recoverable(s)
  {
    hide Numbered, Counted, Linked, Written, JobsFit, Consistent, Tallied, Recoverable, SameButSpace;
    FilesDiffer(s, s');
    SpaceNumbered(s, s');
    SpaceCounted(s, s');
    SpaceLinked(s, s');
    SpaceWritten(s, s');
    JobsFitSame(s, s', skip, maxN);
    SameReplayConsistent(s, s', skip);
    SameTallied(s, s');
  }

  lemma MoveResvOnlySpace(s: Log, to: nat, from: nat, n: int)
    requires to < |s.live| && from < |s.live|
    ensures OnlySpaceDiffers(s, MoveResv(s, to, from, n))
  {
  }

  lemma GrantOnlySpace(s: Log, i: nat, n: int)
    requires i < |s.live|
    ensures OnlySpaceDiffers(s, Grant(s, i, n))
  {
  }

  // ---------- Adding a file ----------

  lemma NewFileIsEmpty(s: Log)
    requires s.live != []
    ensures var s' := WithNewFile(s);
            && Files(s') == Files(s) + [NewFile(s)]
            && Recoverable(s') == Recoverable(s)
            && (Tame(SegmentsOf(Files(s))) ==> Tame(SegmentsOf(Files(s'))))
  {
    var s' := WithNewFile(s);
    assert Files(s') == Files(s) + [NewFile(s)];
    var segs, segs' := SegmentsOf(Files(s)), SegmentsOf(Files(s'));
    ReplayEmptyTail(map[], segs', |segs|);
    assert segs'[..|segs|] == segs;
  }

  ghost function WithNewFile(s: Log): Log {
    s.(live := s.live + [NewFile(s)], next := s.next + 1, nfile := s.nfile + 1)
  }

  lemma NewFileLinked(s: Log)
    requires Linked(s)
    ensures Linked(WithNewFile(s))
  {
    var s' := WithNewFile(s);
    assert Files(s') == Files(s) + [NewFile(s)];
    forall i | 0 <= i < |Files(s')|
      ensures FileLinked(s', Files(s')[i])
    {
      assert i < |Files(s)| ==> FileLinked(s, Files(s)[i]);
    }
    forall id | id in s'.jobs
      ensures JobLinked(s', id)
    {
      assert JobLinked(s, id);
      if s.jobs[id].home.In? {
        var i :| 0 <= i < |Files(s)| && Files(s)[i].seqNo == s.jobs[id].home.seqNo && id in Files(s)[i].jobs;
        assert Files(s')[i] == Files(s)[i];
      }
    }
  }

  lemma NewFileWritten(s: Log)
    requires Written(s) && s.fileSize >= WORD
    ensures Written(WithNewFile(s))
  {
    var s' := WithNewFile(s);
    assert Files(s') == Files(s) + [NewFile(s)];
    forall i | 0 <= i < |Files(s')|
      ensures FileWritten(s'.book, s'.fileSize, Files(s')[i])
    {
      assert i < |Files(s)| ==> FileWritten(s.book, s.fileSize, Files(s)[i]);
    }
  }

  lemma NewFileNumbered(s: Log)
    requires Numbered(s) && Counted(s)
    ensures Numbered(WithNewFile(s)) && Counted(WithNewFile(s))
  {
    assert Files(WithNewFile(s)) == Files(s) + [NewFile(s)];
  }

  lemma NewFileKeepsBase(s: Log, skip: set<u64>, maxN: nat)
    requires Base(s, skip, maxN) && s.fileSize >= WORD
    ensures Base(WithNewFile(s), skip, maxN) && Recoverable(WithNewFile(s)) == Recoverable(s)
  {
    NewFileIsEmpty(s);
    NewFileNumbered(s);
    NewFileLinked(s);
    NewFileWritten(s);
    hide Numbered, Counted, Linked, Written, Recoverable;
    assert Persisted(WithNewFile(s)) == Persisted(s);
  }

  lemma NeedFreeKeepsBase(s: Log, n: int, skip: set<u64>, maxN: nat)
    requires s.live != [] && Base(s, skip, maxN) && s.fileSize >= WORD
    ensures Base(NeedFree(s, n).0, skip, maxN) && Recoverable(NeedFree(s, n).0) == Recoverable(s)
  {
    var r := NeedFree(s, n).0;
    NeedFreeCases(s, n);
    hide NeedFree, WithNewFile, Recoverable;
    if r == s.(answers := r.answers) {
      AnswersDoNotMatter(s, r, skip, maxN);
    } else {
      NewFileKeepsBase(s, skip, maxN);
      AnswersDoNotMatter(WithNewFile(s), r, skip, maxN);
    }
  }

  lemma NeedFreeCases(s: Log, n: int)
    requires s.live != []
    ensures var r := NeedFree(s, n).0;
            r == s.(answers := r.answers) || r == WithNewFile(s).(answers := r.answers)
  {
  }

  lemma AnswersDoNotMatter(s: Log, s': Log, skip: set<u64>, maxN: nat)
    requires s' == s.(answers := s'.answers) && Base(s, skip, maxN)
    ensures Base(s', skip, maxN) && Recoverable(s') == Recoverable(s)
  {
    assert forall i :: 0 <= i < |s.live| ==> SameButSpace(s.live[i], s'.live[i]);
    SpaceKeepsBase(s, s', skip, maxN);
  }

  // ---------- Dropping head files ----------

  lemma WithoutHeadLinked(s: Log)
    requires s.past != [] && Linked(s) && s.past[0].jobs == []
    ensures Linked(WithoutHead(s))
  {
    var s' := WithoutHead(s);
    assert Files(s') == Files(s)[1..];
    forall i | 0 <= i < |Files(s')|
      ensures FileLinked(s', Files(s')[i])
    {
      assert FileLinked(s, Files(s)[i + 1]);
    }
    forall id | id in s'.jobs
      ensures JobLinked(s', id)
    {
      assert JobLinked(s, id);
      if s.jobs[id].home.In? {
        var i :| 0 <= i < |Files(s)| && Files(s)[i].seqNo == s.jobs[id].home.seqNo && id in Files(s)[i].jobs;
        assert i > 0 && Files(s')[i - 1] == Files(s)[i];
      }
    }
  }

  // No job's home is the head file, so no persisted job is older than the next file.
  lemma HomesAreLater(s: Log)
    requires s.past != [] && Numbered(s) && Linked(s) && s.past[0].jobs == []
    ensures Persisted(s) == Since(Persisted(s), Files(s)[1].seqNo)
  {
    forall id | id in Persisted(s)
      ensures Persisted(s)[id].file >= Files(s)[1].seqNo
    {
      assert JobLinked(s, id);
      var i :| 0 <= i < |Files(s)| && Files(s)[i].seqNo == s.jobs[id].home.seqNo && id in Files(s)[i].jobs;
      assert i >= 1;
    }
  }

  lemma SinceAgrees(found: Store, wanted: Store, skip: set<u64>, lo: nat)
    requires found - skip == wanted - skip && wanted == Since(wanted, lo)
    ensures Since(found, lo) - skip == wanted - skip
  {
    forall id | id in wanted - skip
      ensures id in Since(found, lo) - skip && (Since(found, lo) - skip)[id] == (wanted - skip)[id]
    {
      assert id in found - skip && (found - skip)[id] == (wanted - skip)[id];
      assert id in Since(wanted, lo);
    }
    forall id | id in Since(found, lo) - skip
      ensures id in wanted - skip
    {
      assert id in found - skip;
    }
  }

  lemma SegmentsAscend(s: Log)
    requires Numbered(s)
    ensures Ascending(SegmentsOf(Files(s)))
  {
    var fs := Files(s);
    forall i, j | 0 <= i < j < |fs|
      ensures SegmentsOf(fs)[i].seqNo < SegmentsOf(fs)[j].seqNo
    {
      assert fs[i].seqNo < fs[j].seqNo;
    }
  }

  lemma ReplayWithoutHead(s: Log)
    requires s.past != [] && Numbered(s) && Tame(SegmentsOf(Files(s)))
    ensures Recoverable(WithoutHead(s)) == Since(Recoverable(s), Files(s)[1].seqNo)
    ensures Tame(SegmentsOf(Files(WithoutHead(s))))
  {
    var segs := SegmentsOf(Files(s));
    assert Files(WithoutHead(s)) == Files(s)[1..];
    assert SegmentsOf(Files(WithoutHead(s))) == segs[1..];
    SegmentsAscend(s);
    hide Numbered, Tame, Ascending, Since;
    DropHead(segs, 1);
  }

  lemma WithoutHeadConsistent(s: Log, skip: set<u64>)
    requires s.past != [] && Numbered(s) && Linked(s) && s.past[0].jobs == [] && Consistent(s, skip)
    ensures Consistent(WithoutHead(s), skip)
    ensures Recoverable(WithoutHead(s)).Keys <= Recoverable(s).Keys
  {
    ReplayWithoutHead(s);
    HomesAreLater(s);
    assert Persisted(WithoutHead(s)) == Persisted(s);
    hide Numbered, Linked, Persisted, Tame, Recoverable;
    SinceAgrees(Recoverable(s), Persisted(s), skip, Files(s)[1].seqNo);
  }

  lemma WithoutHeadKeeps(s: Log, skip: set<u64>, maxN: nat)
    requires s.past != [] && Loose(s, skip, maxN) && s.past[0].refs <= 0
    ensures Loose(WithoutHead(s), skip, maxN)
    ensures Recoverable(WithoutHead(s)).Keys <= Recoverable(s).Keys
  {
    var s' := WithoutHead(s);
    assert PastFile(s.past[0]);
    assert s.past[0].jobs == [];
    WithoutHeadLinked(s);
    WithoutHeadConsistent(s, skip);
    WithoutHeadNumbered(s);
    WithoutHeadWritten(s);
    hide Numbered, Counted, Linked, Written, Consistent, Recoverable;
    assert Persisted(s') == Persisted(s);
  }

  lemma WithoutHeadNumbered(s: Log)
    requires s.past != [] && Numbered(s) && Counted(s)
    ensures Numbered(WithoutHead(s)) && Counted(WithoutHead(s))
  {
    var s' := WithoutHead(s);
    assert Files(s') == Files(s)[1..];
  }

  lemma WithoutHeadWritten(s: Log)
    requires s.past != [] && Written(s)
    ensures Written(WithoutHead(s))
  {
    var s' := WithoutHead(s);
    assert Files(s') == Files(s)[1..];
    forall i | 0 <= i < |Files(s')|
      ensures FileWritten(s'.book, s'.fileSize, Files(s')[i])
    {
      assert FileWritten(s.book, s.fileSize, Files(s)[i + 1]);
    }
  }

  /** Garbage collection never touches the current file or a later one, and it loses no job:
      what a restart would recover still agrees with what it should. */
  lemma {:induction false} GcKeeps(s: Log, skip: set<u64>, maxN: nat)
    requires Loose(s, skip, maxN)
    ensures Base(Gc(s), skip, maxN) && Gc(s).live == s.live
    ensures Recoverable(Gc(s)).Keys <= Recoverable(s).Keys
    decreases |s.past|
  {
    assert LiveFile(s.live[0]);
    if s.past != [] && s.past[0].refs <= 0 {
      WithoutHeadKeeps(s, skip, maxN);
      hide Loose, Recoverable;
      GcKeeps(WithoutHead(s), skip, maxN);
    }
  }

  // ---------- Going on to the next file ----------

  ghost function WithFrontClosed(s: Log): Log
    requires s.live != []
  {
    s.(past := s.past + [Closed(s, s.live[0])], live := s.live[1..])
  }

  // The files are the same ones, in the same order, with the same lists and records.
  lemma FrontClosedFiles(s: Log)
    requires s.live != []
    ensures var s' := WithFrontClosed(s);
            && |Files(s')| == |Files(s)|
            && (forall i :: 0 <= i < |Files(s)| ==>
                  && Files(s')[i].seqNo == Files(s)[i].seqNo && Files(s')[i].jobs == Files(s)[i].jobs
                  && Files(s')[i].recs == Files(s)[i].recs && (i != |s.past| ==> Files(s')[i] == Files(s)[i]))
            && Files(s')[|s.past|] == Closed(s, s.live[0])
            && SegmentsOf(Files(s')) == SegmentsOf(Files(s))
  {
  }

  lemma FrontClosedLinked(s: Log)
    requires s.live != [] && Linked(s)
    ensures Linked(WithFrontClosed(s))
  {
    var s' := WithFrontClosed(s);
    FrontClosedFiles(s);
    hide WithFrontClosed;
    assert s'.jobs == s.jobs by { FrontClosedJobs(s); }
    forall i | 0 <= i < |Files(s')|
      ensures FileLinked(s', Files(s')[i])
    {
      assert FileLinked(s, Files(s)[i]);
    }
    forall id | id in s'.jobs
      ensures JobLinked(s', id)
    {
      assert JobLinked(s, id);
      if s.jobs[id].home.In? {
        var i :| 0 <= i < |Files(s)| && Files(s)[i].seqNo == s.jobs[id].home.seqNo && id in Files(s)[i].jobs;
        assert id in Files(s')[i].jobs;
      }
    }
  }

  lemma FrontClosedJobs(s: Log)
    requires s.live != []
    ensures WithFrontClosed(s).jobs == s.jobs
  {
  }

  lemma FrontClosedWritten(s: Log)
    requires s.live != [] && Written(s) && s.live[0].resv == 0 && s.live[0].free >= 0
    ensures Written(WithFrontClosed(s))
  {
    var s' := WithFrontClosed(s);
    FrontClosedFiles(s);
    assert Files(s)[|s.past|] == s.live[0];
    forall i | 0 <= i < |Files(s')|
      ensures FileWritten(s'.book, s'.fileSize, Files(s')[i])
    {
      assert FileWritten(s.book, s.fileSize, Files(s)[i]);
    }
  }

  lemma FrontClosedCounted(s: Log)
    requires |s.live| > 1 && Numbered(s) && Counted(s) && s.live[0].resv == 0
    ensures Numbered(WithFrontClosed(s)) && Counted(WithFrontClosed(s))
  {
    var s' := WithFrontClosed(s);
    FrontClosedFiles(s);
    assert LiveFile(s.live[0]);
    forall i | 0 <= i < |s'.live|
      ensures LiveFile(s'.live[i])
    {
      assert LiveFile(s.live[i + 1]);
    }
    forall i | 0 <= i < |s'.past|
      ensures PastFile(s'.past[i])
    {
      assert i < |s.past| ==> PastFile(s.past[i]);
    }
  }

  lemma FrontClosedKeeps(s: Log, skip: set<u64>, maxN: nat)
    requires |s.live| > 1 && Base(s, skip, maxN) && s.live[0].resv == 0 && s.live[0].free >= 0
    ensures Loose(WithFrontClosed(s), skip, maxN)
    ensures Recoverable(WithFrontClosed(s)) == Recoverable(s)
  {
    FrontClosedFiles(s);
    FrontClosedLinked(s);
    FrontClosedWritten(s);
    FrontClosedCounted(s);
    hide Numbered, Counted, Linked, Written;
    assert Persisted(WithFrontClosed(s)) == Persisted(s);
  }

  /** Closing the current file and going on to the next keeps the invariant. A file is closed
      only with nothing reserved in it, so cutting it cuts no promised space. */
  lemma UseNextKeepsBase(s: Log, skip: set<u64>, maxN: nat)
    requires |s.live| > 1 && Base(s, skip, maxN) && s.live[0].resv == 0 && s.live[0].free >= 0
    ensures var (s', ok) := UseNext(s);
            && ok && Base(s', skip, maxN) && s'.live == s.live[1..]
            && Recoverable(s').Keys <= Recoverable(s).Keys
  {
    FrontClosedKeeps(s, skip, maxN);
    var s0 := WithFrontClosed(s);
    assert LiveFile(s.live[0]);
    GcKeeps(s0, skip, maxN);
    hide Loose, Recoverable;
    if Closed(s, s.live[0]).refs >= 1 {
      assert s0.past[0].refs > 0 by { assert s.past != [] ==> s.past[0].refs > 0; }
    }
  }

  // ---------- Reserving ----------

  // Base holds after an operation, and nothing new became recoverable.
  ghost predicate Kept(s: Log, s': Log, skip: set<u64>, maxN: nat) {
    Base(s', skip, maxN) && Recoverable(s').Keys <= Recoverable(s).Keys
  }

  lemma KeptMove(s: Log, to: nat, from: nat, n: int, skip: set<u64>, maxN: nat)
    requires to < |s.live| && from < |s.live| && Base(s, skip, maxN)
    ensures Kept(s, MoveResv(s, to, from, n), skip, maxN)
  {
    MoveResvOnlySpace(s, to, from, n);
    SpaceKeepsBase(s, MoveResv(s, to, from, n), skip, maxN);
  }

  lemma KeptGrant(s: Log, i: nat, n: int, skip: set<u64>, maxN: nat)
    requires i < |s.live| && Base(s, skip, maxN)
    ensures Kept(s, Grant(s, i, n), skip, maxN)
  {
    GrantOnlySpace(s, i, n);
    SpaceKeepsBase(s, Grant(s, i, n), skip, maxN);
  }

  lemma MovedOut(s: Log)
    requires |s.live| > 1 && Lined(s)
    ensures var s' := MoveResv(s, Last(s), 0, s.live[0].resv);
            s'.live[0].resv == 0 && s'.live[0].free >= 0
  {
  }

  lemma KeptPass(s: Log, skip: set<u64>, maxN: nat)
    requires Lined(s) && |s.live| > 1 && s.live[0].resv <= Capacity(s)
    requires Base(s, skip, maxN) && s.fileSize >= WORD
    ensures Kept(s, Pass(s).0, skip, maxN)
  {
    var m := s.live[0].resv;
    var (s1, got) := NeedFree(s, m);
    NeedFreeKeepsBase(s, m, skip, maxN);
    NeedFreeKeepsLined(s, m);
    var s2 := MoveResv(s1, Last(s1), 0, m);
    KeptMove(s1, Last(s1), 0, m, skip, maxN);
    MovedOut(s1);
    hide Base, Lined, NeedFree, MoveResv, UseNext, Recoverable;
    UseNextKeepsBase(s2, skip, maxN);
  }

  lemma LinedIsUsable(s: Log)
    requires Lined(s)
    ensures Usable(s)
  {
  }

  lemma {:induction false} KeptMakeRoom(s: Log, n: nat, t: nat, skip: set<u64>, maxN: nat)
    requires Lined(s) && t < |s.live| && s.live[t].resv >= n && n <= Capacity(s)
    requires Base(s, skip, maxN) && s.fileSize >= WORD
    ensures Kept(s, MakeRoom(s, n, t).0, skip, maxN)
    decreases t
  {
    hide Base, Lined, Recoverable, Pass, NeedFree;
    LinedIsUsable(s);
    if s.live[0].resv < n {
      PassKeepsLined(s);
      KeptPass(s, skip, maxN);
      var (s', ok) := Pass(s);
      if ok {
        KeptMakeRoom(s', n, t - 1, skip, maxN);
      }
    }
  }

  lemma KeptSettle(s: Log, i: nat, n: nat, skip: set<u64>, maxN: nat)
    requires Usable(s) && i < |s.live| && s.live[i].resv >= n && Capacity(s) >= 2 * Z - 1
    requires Base(s, skip, maxN)
    ensures Kept(s, Settle(s, i, n).0, skip, maxN)
  {
    var r := Excess(s.live[i].resv, n);
    var t := Last(s);
    assert s.fileSize >= WORD;
    hide Base, MoveResv, NeedFree, Recoverable, Excess, Usable, Quiet, Capacity;
    if r == 0 {
    } else if s.live[t].resv >= Z - r && s.live[i].free >= Z - r {
      KeptMove(s, i, t, Z - r, skip, maxN);
    } else {
      NeedFreeKeepsBase(s, r, skip, maxN);
      var (s1, got) := NeedFree(s, r);
      if got == r {
        KeptMove(s1, Last(s1), i, r, skip, maxN);
      }
    }
  }

  lemma {:induction false} KeptBalanceRest(s: Log, i: nat, n: nat, skip: set<u64>, maxN: nat)
    requires Usable(s) && i <= |s.live| && (i < |s.live| ==> s.live[i].resv >= n)
    requires Capacity(s) >= 2 * Z - 1 && Base(s, skip, maxN)
    ensures Kept(s, BalanceRest(s, i, n).0, skip, maxN)
    decreases Work(s, i)
  {
    hide Base, Settle, Recoverable;
    if i < |s.live| {
      KeptSettle(s, i, n, skip, maxN);
      var (s', ok) := Settle(s, i, n);
      if ok {
        KeptBalanceRest(s', i + 1, 0, skip, maxN);
      }
    }
  }

  lemma KeptBalance(s: Log, n: nat, t: nat, skip: set<u64>, maxN: nat)
    requires Lined(s) && t < |s.live| && s.live[t].resv >= n && n <= Capacity(s)
    requires Base(s, skip, maxN) && s.fileSize >= WORD && Capacity(s) >= 2 * Z - 1
    ensures Kept(s, Balance(s, n, t).0, skip, maxN)
  {
    assert Usable(s);
    hide Base, MakeRoom, Recoverable, Lined;
    KeptMakeRoom(s, n, t, skip, maxN);
    var (s', ok) := MakeRoom(s, n, t);
    if ok {
      KeptBalanceRest(s', 0, n, skip, maxN);
    }
  }

  lemma KeptReserveInTail(s: Log, n: nat, skip: set<u64>, maxN: nat)
    requires Lined(s) && Base(s, skip, maxN) && s.live[Last(s)].free >= n
    requires n <= Capacity(s) && Capacity(s) >= 2 * Z - 1
    ensures Kept(s, ReserveInTail(s, n).0, skip, maxN)
  {
    hide Base, Lined, Usable, Grant, Balance, Recoverable, Capacity;
    var t := Last(s);
    GrantTailFacts(s, n);
    var s1 := Grant(s, t, n);
    KeptGrant(s, t, n, skip, maxN);
    KeptBalance(s1, n, t, skip, maxN);
    var (s2, ok) := Balance(s1, n, t);
    if !ok {
      KeptGrant(s2, Last(s2), -(n as int), skip, maxN);
    }
  }

  lemma GrantTailFacts(s: Log, n: nat)
    requires Lined(s) && s.live[Last(s)].free >= n && Capacity(s) >= 2 * Z - 1
    ensures var s1 := Grant(s, Last(s), n);
            && Lined(s1) && Usable(s1) && s1.live[Last(s)].resv >= n
            && Capacity(s1) == Capacity(s) && s1.fileSize >= WORD
  {
    GrantTailKeepsLined(s, n);
  }

  /** Whether a reservation succeeds or fails, it keeps the invariant: exact reference
      counts, bytes written plus free plus reserved equal to the file size in every open
      file, and the same jobs recoverable. */
  lemma ReserveKeepsBase(s: Log, n: nat, skip: set<u64>, maxN: nat)
    requires s.use && Lined(s) && Base(s, skip, maxN)
    requires n <= Capacity(s) && Capacity(s) >= 2 * Z - 1
    ensures Kept(s, Reserve(s, n).0, skip, maxN)
  {
    assert s.fileSize >= WORD;
    if s.live[0].free >= n {
      KeptGrant(s, 0, n, skip, maxN);
    } else {
      NeedFreeKeepsLined(s, n);
      NeedFreeKeepsBase(s, n, skip, maxN);
      var (s1, got) := NeedFree(s, n);
      assert Capacity(s1) == Capacity(s);
      hide Base, Recoverable, NeedFree, ReserveInTail, Lined;
      if got == n {
        KeptReserveInTail(s1, n, skip, maxN);
      }
    }
  }

  lemma ReserveKeepsJobs(s: Log, n: nat)
    requires s.use ==> Usable(s) && Capacity(s) >= 2 * Z - 1
    ensures Persisted(Reserve(s, n).0) == Persisted(s)
  {
  }
}
