/** What compaction does: it moves the oldest jobs out of the oldest files, so that these go, until
    the log is no more than three times as large as what is in use or promised, by the count made
    when it starts, or until only the current file and the one before it are left. */
module Compaction {
  import opened Records
  import opened Replay
  import opened WalState
  import opened Linking
  import opened Space
  import opened Upkeep
  import opened Writing
  import opened Commands
  import opened Runs

  // ---------- Where jobs and files are ----------

  // No file has a number below h.
  ghost predicate From(s: Log, h: nat) {
    forall i :: 0 <= i < |Files(s)| ==> Files(s)[i].seqNo >= h
  }

  // The job has its latest full record in a file with a number from h on.
  ghost predicate HomedFrom(s: Log, id: u64, h: nat) {
    id in s.jobs && s.jobs[id].home.In? && s.jobs[id].home.seqNo >= h
  }

  ghost predicate AllFrom(s: Log, h: nat) {
    forall id :: id in s.jobs && s.jobs[id].home.In? ==> s.jobs[id].home.seqNo >= h
  }

  // No job has its latest full record before the head.
  lemma JobsFromHead(s: Log, maxN: nat)
    requires Base(s, {}, maxN) && s.past != []
    ensures AllFrom(s, s.past[0].seqNo)
    ensures |s.past[0].jobs| == 1 ==>
              forall id :: id in s.jobs && s.jobs[id].home.In? && id != s.past[0].jobs[0] ==>
                s.jobs[id].home.seqNo > s.past[0].seqNo
  {
    forall id | id in s.jobs && s.jobs[id].home.In?
      ensures s.jobs[id].home.seqNo >= s.past[0].seqNo
      ensures |s.past[0].jobs| == 1 && id != s.past[0].jobs[0] ==> s.jobs[id].home.seqNo > s.past[0].seqNo
    {
      assert JobLinked(s, id);
      var i :| 0 <= i < |Files(s)| && Files(s)[i].seqNo == s.jobs[id].home.seqNo && id in Files(s)[i].jobs;
      assert Files(s)[0] == s.past[0];
    }
  }

  // And the head holds one, so that the files begin where the jobs do.
  lemma FilesFromJobs(s: Log, h: nat, maxN: nat)
    requires Base(s, {}, maxN) && AllFrom(s, h) && s.past != []
    ensures From(s, h) && s.past[0].seqNo >= h
  {
    HeadHoldsAJob(s, maxN);
    assert Files(s)[0] == s.past[0];
  }

  // ---------- One move ----------

  // The oldest job of the head is written anew into the current file, which is a later one, and
  // no other job moves.
  ghost predicate MovedOldest(s: Log, s': Log) {
    && s.past != [] && s.past[0].jobs != [] && s'.live != []
    && var id, h := s.past[0].jobs[0], s.past[0].seqNo;
       && s'.nmig == s.nmig + 1 && s'.live[0].seqNo > h
       && id in s'.jobs && s'.jobs[id].home == In(s'.live[0].seqNo)
       && forall k :: k in s'.jobs && k != id ==> k in s.jobs && s'.jobs[k].home == s.jobs[k].home
  }

  lemma RelocateMoves(s: Log, id: u64, n: nat, maxN: nat)
    requires id in s.jobs && s.jobs[id].home.In? && s.use && Ready(s, n, maxN) && LiveState(s.jobs[id].rec.state)
    requires n == FullSize(s.jobs[id].tube, s.jobs[id].body) && n > 0
    requires s.past != [] && s.jobs[id].home == In(s.past[0].seqNo)
    ensures Referenced(FileRmJob(s, s.past[0].seqNo, id))
    ensures var s' := Relocate(s, id);
            && s'.nmig == s.nmig + 1 && s'.live != [] && s'.live[0].seqNo > s.past[0].seqNo
            && id in s'.jobs && s'.jobs[id].home == In(s'.live[0].seqNo)
            && forall k :: k in s'.jobs && k != id ==> k in s.jobs && s'.jobs[k].home == s.jobs[k].home
  {
    hide Base, Persisted, FileRmJob, Spare, Ready, WriteFull, WalWrite, Referenced, Granting, DropJob;
    ReadyMeans(s, n, maxN);
    HeadBeforeCurrent(s, maxN);
    BaseKnows(s, id, {}, maxN);
    MoveUnlinks(s, id, n, maxN);
    SetAside(s, id, maxN);
    RmJobKeeps(s, id, maxN);
    var q := s.past[0].seqNo;
    var s1 := FileRmJob(s, q, id);
    RmJobQuiet(s, q, id);
    DroppedNumbers(s, q, id);
    var s2 := s1.(nmig := s1.nmig + 1);
    SpareIsHeld(s1, n, maxN);
    OpenFilesReferenced(s1, {id}, maxN);
    SameReferenced(s1, s2);
    WritesFull(s2, id);
    FullHome(s2, id);
  }

  lemma SameReferenced(s: Log, s': Log)
    requires Referenced(s) && s'.live == s.live
    ensures Referenced(s')
  {
  }

  lemma HeadBeforeCurrent(s: Log, maxN: nat)
    requires Base(s, {}, maxN) && s.past != []
    ensures s.live != [] && s.past[0].seqNo < s.live[0].seqNo
  {
    assert Files(s)[0] == s.past[0] && Files(s)[|s.past|] == s.live[0];
  }

  lemma DroppedNumbers(s: Log, q: nat, id: u64)
    requires s.live != []
    ensures DropJob(s.live, q, id) != [] && DropJob(s.live, q, id)[0].seqNo == s.live[0].seqNo
  {
  }

  lemma FullHome(s: Log, id: u64)
    requires id in s.jobs && s.live != []
    ensures var s' := WriteFull(s, id);
            && s'.nmig == s.nmig && s'.live != [] && s'.live[0].seqNo == s.live[0].seqNo
            && id in s'.jobs && s'.jobs[id].home == In(s.live[0].seqNo)
            && forall k :: k in s'.jobs && k != id ==> k in s.jobs && s'.jobs[k] == s.jobs[k]
  {
  }

  /** With more than one file before the current one, a step of compaction moves the oldest job of
      the head, if the file system refuses nothing. */
  lemma MoveOneMoves(s: Log, maxN: nat)
    requires Safe(s, maxN) && Granting(s) && |s.past| >= 2
    ensures Movable(s) && MovedOldest(s, MoveOne(s)) && Granting(MoveOne(s))
  {
    hide Base, Ready, Reserve, Relocate, FileRmJob, Referenced, Usable, Capacity, Steady, Unhindered, Granting,
        MovedOldest;
    MoveOneKeeps(s, maxN);
    SafeIsSteady(s, maxN);
    SteadyMeans(s, maxN);
    HeadHoldsAJob(s, maxN);
    var id := s.past[0].jobs[0];
    var n := RoomFor(s.jobs[id]);
    ReserveReady(s, n, maxN);
    GrantedReserves(s, n);
    HeadStillHeld(s, maxN);
    var s1 := Reserve(s, n).0;
    RelocateMoves(s1, id, n, maxN);
    RelocateKeeps(s1, id, n, maxN);
    OldestIs(s, s1, Relocate(s1, id));
  }

  lemma OldestIs(s: Log, s1: Log, s': Log)
    requires s.past != [] && s.past[0].jobs != [] && s1.past != [] && s1.past[0] == s.past[0] && s1.jobs == s.jobs
    requires s1.nmig == s.nmig && s'.nmig == s1.nmig + 1 && s'.live != [] && s'.live[0].seqNo > s1.past[0].seqNo
    requires var id := s.past[0].jobs[0]; id in s'.jobs && s'.jobs[id].home == In(s'.live[0].seqNo)
    requires forall k :: k in s'.jobs && k != s.past[0].jobs[0] ==> k in s1.jobs && s'.jobs[k].home == s1.jobs[k].home
    ensures MovedOldest(s, s')
  {
  }

  // ---------- Many moves ----------

  // Nothing before h: no job, no file, and the current file is not.
  ghost predicate Cleared(s: Log, h: nat) {
    AllFrom(s, h) && From(s, h)
  }

  lemma MovedStays(s: Log, s': Log, h: nat, maxN: nat)
    requires Base(s, {}, maxN) && Base(s', {}, maxN) && MovedOldest(s, s') && AllFrom(s, h)
    ensures AllFrom(s', h) && (s'.jobs.Keys == s.jobs.Keys ==> LaterStay(s, s', h + 1))
  {
    FilesFromJobs(s, h, maxN);
    hide Base;
    var oldest := s.past[0].jobs[0];
    forall id | id in s'.jobs && s'.jobs[id].home.In?
      ensures s'.jobs[id].home.seqNo >= h
    {
      assert id != oldest ==> s'.jobs[id].home == s.jobs[id].home;
    }
  }

  // Jobs with their latest full record from h on keep it there.
  ghost predicate LaterStay(s: Log, s': Log, h: nat) {
    forall id :: HomedFrom(s, id, h) ==> HomedFrom(s', id, h)
  }

  lemma MovedClears(s: Log, s': Log, h: nat, maxN: nat)
    requires Base(s, {}, maxN) && Base(s', {}, maxN) && MovedOldest(s, s') && AllFrom(s', h) && s'.live[0].seqNo >= h
    ensures Cleared(s', h)
  {
    if s'.past != [] {
      FilesFromJobs(s', h, maxN);
    } else {
      assert forall i :: 0 <= i < |Files(s')| ==> Files(s')[i].seqNo >= s'.live[0].seqNo by { FilesAscend(s', maxN); }
    }
  }

  lemma FilesAscend(s: Log, maxN: nat)
    requires Base(s, {}, maxN) && s.past == []
    ensures s.live != [] && forall i :: 0 <= i < |Files(s)| ==> Files(s)[i].seqNo >= s.live[0].seqNo
  {
    assert Files(s)[0] == s.live[0];
  }

  // What a number of steps comes to.
  ghost predicate Compacted(s: Log, s': Log, steps: int, h: nat) {
    && s.nmig <= s'.nmig && s'.nmig - s.nmig <= (if steps < 0 then 0 else steps)
    && (s'.nmig - s.nmig < steps ==> |s'.past| < 2) && s'.jobs.Keys == s.jobs.Keys
    && AllFrom(s', h) && LaterStay(s, s', h + 1)
    && (Cleared(s, h + 1) ==> Cleared(s', h + 1))
  }

  lemma OneStep(s: Log, h: nat, maxN: nat)
    requires Safe(s, maxN) && Granting(s) && AllFrom(s, h)
    ensures Movable(s) && Safe(MoveOne(s), maxN) && Granting(MoveOne(s)) && Compacted(s, MoveOne(s), 1, h)
    ensures |s.past| < 2 ==> MoveOne(s) == s
  {
    hide Steady, Unhindered, Granting, MovedOldest, Cleared, Refreshed, Base;
    MoveOneKeeps(s, maxN);
    if |s.past| >= 2 {
      MoveOneMoves(s, maxN);
      var s' := MoveOne(s);
      SteadyBase(s, maxN);
      SteadyBase(s', maxN);
      RefreshedKeys(s, s');
      MovedStays(s, s', h, maxN);
      MovedOn(s, s', maxN);
      if Cleared(s, h + 1) {
        ClearedStays(s, s', h + 1, maxN);
      }
    }
  }

  lemma SteadyBase(s: Log, maxN: nat)
    requires Safe(s, maxN)
    ensures Base(s, {}, maxN)
  {
    hide Base;
  }

  lemma RefreshedKeys(s: Log, s': Log)
    requires Refreshed(s, s')
    ensures s'.jobs.Keys == s.jobs.Keys
  {
  }

  lemma MovedOn(s: Log, s': Log, maxN: nat)
    requires Base(s, {}, maxN) && MovedOldest(s, s')
    ensures s'.nmig == s.nmig + 1
  {
  }

  lemma ClearedStays(s: Log, s': Log, h: nat, maxN: nat)
    requires Base(s, {}, maxN) && Base(s', {}, maxN) && MovedOldest(s, s') && Cleared(s, h)
    ensures Cleared(s', h)
  {
    FilesFromJobs(s, h, maxN);
    MovedStays(s, s', h, maxN);
    MovedClears(s, s', h, maxN);
  }

  lemma {:induction false} StepsCompact(s: Log, r: int, h: nat, maxN: nat)
    requires Safe(s, maxN) && Granting(s) && AllFrom(s, h)
    ensures Compacted(s, CompactTimes(s, r, maxN), r - 1, h) && Safe(CompactTimes(s, r, maxN), maxN)
    decreases r
  {
    hide Safe, Granting, MoveOne, Movable, Cleared, HomedFrom, MovedOldest, Base;
    if |s.past| < 2 {
      NothingToMove(s, r, maxN);
    } else if r >= 2 {
      OneStep(s, h, maxN);
      MoveOneMoves(s, maxN);
      SteadyBase(s, maxN);
      MovedOn(s, MoveOne(s), maxN);
      StepsCompact(MoveOne(s), r - 1, h, maxN);
    }
  }

  // ---------- What maintenance does ----------

  lemma RatioIs(n: int, d: int)
    requires d > 0 && n >= d
    ensures var r := TruncDiv(n - d, d);
            r >= 0 && (r + 1) * d <= n < (r + 2) * d
  {
    assert n - d == (n - d) / d * d + (n - d) % d;
  }

  lemma Multiplies(a: int, b: int, d: int)
    requires a <= b && d >= 0
    ensures a * d <= b * d
  {
  }

  // The bytes of all files, and the bytes in use or promised.
  function Bytes(s: Log): int {
    s.nfile * s.fileSize
  }

  function Needed(s: Log): int {
    s.alive + s.resv
  }

  /** What is done after a record has been written, when no request for a file is refused. If the
      files before the current one are more than one, and all files together are three times as
      large as what is needed or more, the oldest job of the head goes to a later file, and a head
      that held no other job is gone; so moves go on as many times as the size is more than twice
      what is needed, by the count made at first, or until no more than one file is left before
      the current one. Else no job moves. */
  lemma MaintenanceMoves(s: Log, id: u64, maxN: nat)
    requires Writable(s, id, maxN) && WalWrite(s, id).1 && Granting(WalWrite(s, id).0)
    ensures var s1, s' := WalWrite(s, id).0, WriteAndMaintain(s, id, maxN).0;
            Maintained(s1, s')
  {
    hide WalWrite, Safe, Referenced, Granting, CompactTimes, Maintained;
    Maintains(WalWrite(s, id).0, maxN);
  }

  // Told of the log before and after.
  ghost predicate Maintained(s: Log, s': Log) {
    var moves, n, d := s'.nmig - s.nmig, Bytes(s), Needed(s);
    && moves >= 0
    && (|s.past| < 2 || n < 3 * d || d <= 0 ==> s' == s)
    && (|s.past| >= 2 && n >= 3 * d > 0 ==>
          && moves > 0 && (moves + 2) * d <= n && (n < (moves + 3) * d || |s'.past| < 2)
          && s.past[0].jobs != [] && HomedFrom(s', s.past[0].jobs[0], s.past[0].seqNo + 1)
          && (|s.past[0].jobs| == 1 ==> From(s', s.past[0].seqNo + 1)))
  }

  lemma Maintains(s: Log, maxN: nat)
    requires Safe(s, maxN) && Granting(s)
    ensures Maintained(s, WalMain(s, maxN))
  {
    hide Safe, Granting, MoveOne, Movable, HomedFrom, From, MovedOldest, CompactTimes;
    var n, d := Bytes(s), Needed(s);
    if |s.past| < 2 {
      NothingToMove(s, Ratio(s), maxN);
    } else if n < 3 * d || d <= 0 {
      TooFewBytes(s, maxN);
    } else {
      RatioIs(n, d);
      FirstMoves(s, Ratio(s), maxN);
      var moves := WalMain(s, maxN).nmig - s.nmig;
      Multiplies(moves + 2, Ratio(s) + 1, d);
      if moves >= Ratio(s) - 1 {
        Multiplies(Ratio(s) + 2, moves + 3, d);
      }
    }
  }

  lemma TooFewBytes(s: Log, maxN: nat)
    requires Safe(s, maxN) && (Bytes(s) < 3 * Needed(s) || Needed(s) <= 0)
    ensures WalMain(s, maxN) == s
  {
    hide Safe;
    var n, d := Bytes(s), Needed(s);
    if d > 0 {
      assert TruncDiv(n - d, d) < 2;
    }
  }

  // The first of several moves, and what the others leave of it.
  lemma FirstMoves(s: Log, r: int, maxN: nat)
    requires Safe(s, maxN) && Granting(s) && |s.past| >= 2 && r >= 2
    ensures var s' := CompactTimes(s, r, maxN);
            && 0 < s'.nmig - s.nmig <= r - 1 && (s'.nmig - s.nmig < r - 1 ==> |s'.past| < 2)
            && s.past[0].jobs != [] && HomedFrom(s', s.past[0].jobs[0], s.past[0].seqNo + 1)
            && (|s.past[0].jobs| == 1 ==> From(s', s.past[0].seqNo + 1))
  {
    hide Safe, Granting, Movable, Base, Cleared, MoveOne;
    MoveOneKeeps(s, maxN);
    MoveOneMoves(s, maxN);
    SteadyBase(s, maxN);
    JobsFromHead(s, maxN);
    var h, s1 := s.past[0].seqNo, MoveOne(s);
    SteadyBase(s1, maxN);
    MovedStays(s, s1, h, maxN);
    OldestHomed(s, s1);
    if |s.past[0].jobs| == 1 {
      OnlyOneLeft(s, s1, maxN);
    }
    StepsCompact(s1, r - 1, h, maxN);
    ClearedMeans(CompactTimes(s1, r - 1, maxN), h + 1);
  }

  lemma OldestHomed(s: Log, s': Log)
    requires MovedOldest(s, s')
    ensures HomedFrom(s', s.past[0].jobs[0], s.past[0].seqNo + 1) && s'.nmig == s.nmig + 1
  {
  }

  lemma OnlyOneLeft(s: Log, s': Log, maxN: nat)
    requires Base(s, {}, maxN) && Base(s', {}, maxN) && MovedOldest(s, s') && |s.past[0].jobs| == 1
    ensures Cleared(s', s.past[0].seqNo + 1)
  {
    hide Base, Cleared, From;
    JobsFromHead(s, maxN);
    var h, oldest := s.past[0].seqNo + 1, s.past[0].jobs[0];
    forall id | id in s'.jobs && s'.jobs[id].home.In?
      ensures s'.jobs[id].home.seqNo >= h
    {
      assert id != oldest ==> id in s.jobs && s'.jobs[id].home == s.jobs[id].home;
    }
    MovedClears(s, s', s.past[0].seqNo + 1, maxN);
  }

  lemma ClearedMeans(s: Log, h: nat)
    ensures Cleared(s, h) ==> From(s, h)
  {
  }
}
