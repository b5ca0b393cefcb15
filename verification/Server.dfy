/** The commands of the server, carried out on the objects of the log, with the maintenance
    that follows every write. Each does what Runs says of it, so that whatever the commands
    and whatever the file system refuses, the bytes on disk give back the jobs. */
module Server {
  import opened Records
  import Replay
  import Codec
  import S = WalState
  import Steps
  import W = Wal
  import L = Linking
  import Writing
  import C = Commands
  import R = Runs
  import Restart

  // The log between commands.
  ghost predicate InOrder(w: W.Wal, maxN: nat)
    reads w, w.files
  {
    w.Rep() && w.CurrentKnown() && C.Safe(w.st, maxN)
  }

  // ---------- Compaction ----------

  // Writing in full leaves the current file current.
  lemma FullStays(s: S.Log, id: u64)
    requires id in s.jobs && s.use && S.Referenced(s) && s.live[0].resv > 0 && s.jobs[id].home == S.Nowhere
    ensures S.ToWriteIn(s) == s && Steps.HomeListed(s, id) && |S.WalWrite(s, id).0.live| == |s.live|
        && S.WalWrite(s, id).1
  {
    C.WritesFull(s, id);
  }

  // The log after a job of the head file has been unlinked, counted and not yet rewritten.
  ghost function TakenUp(s: S.Log, id: u64): S.Log
    requires id in s.jobs && s.past != []
  {
    var s' := S.FileRmJob(s, s.past[0].seqNo, id);
    s'.(nmig := s'.nmig + 1)
  }

  // Before the job is rewritten, space for it is at hand.
  ghost predicate CanRewrite(s: S.Log, id: u64) {
    id in s.jobs && s.use && S.Referenced(s) && s.live[0].resv > 0 && s.jobs[id].home == S.Nowhere
  }

  lemma TakenUpCanBeRewritten(s: S.Log, id: u64, n: nat, maxN: nat)
    requires id in s.jobs && s.jobs[id].home.In? && s.use && C.Ready(s, n, maxN)
    requires n == FullSize(s.jobs[id].tube, s.jobs[id].body)
    requires s.past != [] && s.jobs[id].home == S.In(s.past[0].seqNo)
    ensures CanRewrite(TakenUp(s, id), id) && s.live != [] && |TakenUp(s, id).live| == |s.live|
    ensures C.Relocate.requires(s, id) && C.Relocate(s, id) == S.WalWrite(TakenUp(s, id), id).0
  {
    hide L.Base, S.FileRmJob, S.WalWrite, L.Persisted;
    C.ReadyMeans(s, n, maxN);
    C.MoveUnlinks(s, id, n, maxN);
    Writing.SetAside(s, id, maxN);
    Writing.RmJobKeeps(s, id, maxN);
    C.SpareIsHeld(S.FileRmJob(s, s.past[0].seqNo, id), n, maxN);
  }

  // What moveOne finds, when there is a file to empty.
  ghost predicate Emptying(s: S.Log, id: u64) {
    && s.past != [] && s.past[0].jobs != [] && id == s.past[0].jobs[0]
    && id in s.jobs && s.jobs[id].rec.bodySize >= 0
    && S.Usable(s) && S.Capacity(s) >= 2 * Z - 1 && s.use
  }

  // The rest of moveOne, after the reservation.
  ghost predicate MoveGoesOn(s: S.Log, s1: S.Log, z: int, id: u64)
    requires s.past != []
  {
    && C.Movable(s) && (z <= 0 ==> C.MoveOne(s) == s1)
    && (z > 0 ==>
          && id in s1.jobs && s1.past != [] && s1.past[0] == s.past[0] && s1.live != []
          && CanRewrite(TakenUp(s1, id), id) && |TakenUp(s1, id).live| == |s1.live|
          && C.MoveOne(s) == S.WalWrite(TakenUp(s1, id), id).0)
  }

  lemma MoveOneFinds(s: S.Log, maxN: nat)
    requires C.Safe(s, maxN) && s.past != []
    ensures s.past[0].jobs != [] && Emptying(s, s.past[0].jobs[0])
    ensures var id := s.past[0].jobs[0];
            && s.jobs[id].home == S.In(s.past[0].seqNo)
            && S.RoomFor(s.jobs[id]) == FullSize(s.jobs[id].tube, s.jobs[id].body)
            && S.RoomFor(s.jobs[id]) + Z <= maxN && s.past[0].refs > 0
  {
    hide L.Base, C.Safe, C.Steady, S.Usable, S.Capacity;
    C.SafeIsSteady(s, maxN);
    C.SteadyMeans(s, maxN);
    C.HeadHoldsAJob(s, maxN);
    C.HeadStillHeld(s, maxN);
  }

  lemma ReservedMoveGoesOn(s: S.Log, id: u64, maxN: nat)
    requires C.Safe(s, maxN) && |s.past| >= 2 && s.past[0].jobs != [] && Emptying(s, id)
    requires s.jobs[id].home == S.In(s.past[0].seqNo) && s.past[0].refs > 0
    requires S.RoomFor(s.jobs[id]) == FullSize(s.jobs[id].tube, s.jobs[id].body) && S.RoomFor(s.jobs[id]) + Z <= maxN
    ensures var (s1, z) := S.Reserve(s, S.RoomFor(s.jobs[id]));
            MoveGoesOn(s, s1, z, id)
  {
    hide L.Base, C.Ready, S.Reserve, C.Relocate, S.FileRmJob, S.Referenced, S.Usable, S.Capacity, C.Safe, C.Steady,
        C.Unhindered, TakenUp,
        CanRewrite, S.WalWrite, L.Persisted;
    C.SafeIsSteady(s, maxN);
    C.MoveOneKeeps(s, maxN);
    var n := S.RoomFor(s.jobs[id]);
    C.ReserveReady(s, n, maxN);
    var (s1, z) := S.Reserve(s, n);
    if z > 0 {
      TakenUpCanBeRewritten(s1, id, n, maxN);
    }
  }

  lemma MoveOneCases(s: S.Log, maxN: nat)
    requires C.Safe(s, maxN)
    ensures C.Movable(s) && C.Safe(C.MoveOne(s), maxN)
    ensures |s.past| < 2 ==> C.MoveOne(s) == s
    ensures |s.past| >= 2 ==>
              && s.past[0].jobs != [] && Emptying(s, s.past[0].jobs[0])
              && var (s1, z) := S.Reserve(s, S.RoomFor(s.jobs[s.past[0].jobs[0]]));
                 MoveGoesOn(s, s1, z, s.past[0].jobs[0])
  {
    hide C.Safe, C.Movable, MoveGoesOn, S.Reserve, S.RoomFor;
    C.MoveOneKeeps(s, maxN);
    if |s.past| >= 2 {
      MoveOneFinds(s, maxN);
      ReservedMoveGoesOn(s, s.past[0].jobs[0], maxN);
    }
  }

  lemma Unpack(w: W.Wal, maxN: nat)
    requires InOrder(w, maxN)
    ensures w.Rep() && w.CurrentKnown() && C.Safe(w.st, maxN)
    ensures w.use && w.st.use && w.st.live != []
  {
    w.UseMatches();
  }

  lemma TakenUpMeans(s: S.Log, id: u64)
    requires id in s.jobs && s.past != [] && CanRewrite(TakenUp(s, id), id)
    ensures var s', s1 := S.FileRmJob(s, s.past[0].seqNo, id), TakenUp(s, id);
            && s1 == s'.(nmig := s'.nmig + 1) && |s1.live| == |s'.live| && id in s1.jobs && s1.use
            && S.Referenced(s1) && s1.live != [] && s1.live[0].resv > 0 && s1.jobs[id].home == S.Nowhere
  {
    hide S.FileRmJob;
  }

  // Unlinks a job from the head file and writes it into the current one.
  method Rewrite(w: W.Wal, id: u64)
    requires w.Rep() && w.CurrentKnown() && id in w.st.jobs && w.st.past != []
    requires CanRewrite(TakenUp(w.st, id), id) && |TakenUp(w.st, id).live| == |w.st.live|
    modifies w, w.files
    ensures w.Rep() && w.CurrentKnown() && w.st == S.WalWrite(TakenUp(old(w.st), id), id).0
    ensures forall k :: 0 <= k < |w.files| ==> w.files[k] in old(w.files)
  {
    hide *;
    TakenUpMeans(w.st, id);
    w.HeadAndCurrent();
    w.FileRmJob(w.head, id, 0);
    w.CountMove();
    FullStays(w.st, id);
    var _ := w.WalWrite(id);
  }

  lemma EmptyingMeans(s: S.Log, id: u64)
    requires Emptying(s, id)
    ensures s.past != [] && s.past[0].jobs != [] && id == s.past[0].jobs[0]
    ensures id in s.jobs && s.jobs[id].rec.bodySize >= 0 && S.RoomFor(s.jobs[id]) >= 0
    ensures S.Usable(s) && S.Capacity(s) >= 2 * Z - 1 && s.use
  {
    hide S.Usable, S.Capacity;
  }

  lemma MoveGoesOnMeans(s: S.Log, s1: S.Log, z: int, id: u64)
    requires s.past != [] && MoveGoesOn(s, s1, z, id)
    ensures C.Movable(s) && (z <= 0 ==> C.MoveOne(s) == s1)
    ensures z > 0 ==>
              && id in s1.jobs && s1.past != [] && CanRewrite(TakenUp(s1, id), id)
              && |TakenUp(s1, id).live| == |s1.live| && C.MoveOne(s) == S.WalWrite(TakenUp(s1, id), id).0
  {
    hide CanRewrite, TakenUp, C.MoveOne, C.Movable, S.WalWrite;
  }

  /** Moves the oldest job of the head file into the current file. */
  method MoveOne(w: W.Wal, ghost maxN: nat)
    requires InOrder(w, maxN)
    modifies w, w.files
    ensures InOrder(w, maxN) && C.Movable(old(w.st)) && w.st == C.MoveOne(old(w.st))
    ensures forall k :: 0 <= k < |w.files| ==> w.files[k] in old(w.files) || fresh(w.files[k])
  {
    hide *;
    Unpack(w, maxN);
    MoveOneCases(w.st, maxN);
    w.HeadAndCurrent();
    ghost var s := w.st;
    if w.head == w.cur || w.head.next == w.cur {
      Pack(w, maxN);
      return;
    }
    if w.head.jobs == [] {
      assert false;
    }
    var id := w.head.jobs[0];
    EmptyingMeans(s, id);
    var z := w.WalResvMigrate(id);
    MoveGoesOnMeans(s, w.st, z, id);
    if z > 0 {
      Rewrite(w, id);
    }
    Pack(w, maxN);
  }

  lemma Pack(w: W.Wal, maxN: nat)
    requires w.Rep() && w.CurrentKnown() && C.Safe(w.st, maxN)
    ensures InOrder(w, maxN)
  {
  }

  function Ratio(w: W.Wal): int
    reads w
  {
    var d := w.alive + w.resv;
    var n := w.nFile * w.fileSize - d;
    if d <= 0 then 0 else C.TruncDiv(n, d)
  }

  lemma RatioMatches(w: W.Wal)
    requires w.Rep()
    ensures Ratio(w) == C.Ratio(w.st)
  {
  }

  method WalCompact(w: W.Wal, ghost maxN: nat)
    requires InOrder(w, maxN)
    modifies w, w.files
    ensures InOrder(w, maxN) && w.st == C.WalMain(old(w.st), maxN)
    ensures forall k :: 0 <= k < |w.files| ==> w.files[k] in old(w.files) || fresh(w.files[k])
  {
    hide C.Safe, C.MoveOne, C.Ratio, Ratio;
    RatioMatches(w);
    var r := Ratio(w);
    while r >= 2
      invariant InOrder(w, maxN)
      invariant C.CompactTimes(w.st, r, maxN) == C.WalMain(old(w.st), maxN)
      invariant forall k :: 0 <= k < |w.files| ==> w.files[k] in old(w.files) || fresh(w.files[k])
      decreases r
    {
      MoveOne(w, maxN);
      r := r - 1;
    }
  }

  method WalMain(w: W.Wal, ghost maxN: nat)
    requires InOrder(w, maxN)
    modifies w, w.files
    ensures InOrder(w, maxN) && w.st == C.WalMain(old(w.st), maxN)
    ensures forall k :: 0 <= k < |w.files| ==> w.files[k] in old(w.files) || fresh(w.files[k])
  {
    Unpack(w, maxN);
    if w.use {
      WalCompact(w, maxN);
    }
  }

  // ---------- Putting a job ----------

  // Space for a job's record has been asked for and z bytes were had: the rest leads to r.
  ghost predicate GoesOn(s: S.Log, z: int, id: u64, r: (S.Log, bool), maxN: nat) {
    && (z <= 0 ==> r == (s, false))
    && (z > 0 ==> CanFinish(s, id, r, maxN))
  }

  // Writing the job's record and then maintaining the log leads to r.
  ghost predicate CanFinish(s: S.Log, id: u64, r: (S.Log, bool), maxN: nat) {
    && id in s.jobs && s.use && S.Referenced(s)
    && var (s', ok) := S.WalWrite(s, id);
       ok && C.Safe(s', maxN) && r == (C.WalMain(s', maxN), true)
  }

  ghost function NewJob(cmd: R.Command): S.Job
    requires cmd.Put?
  {
    S.Job(cmd.tube, cmd.body, cmd.rec, cmd.rec, S.Nowhere, 0)
  }

  lemma WritableFinishes(s: S.Log, id: u64, maxN: nat)
    requires R.Writable(s, id, maxN) && S.WalWrite(s, id).1
    ensures CanFinish(s, id, R.WriteAndMaintain(s, id, maxN), maxN)
  {
    hide C.Safe, C.WalMain, S.WalWrite, S.Referenced;
  }

  lemma PutStarts(s: S.Log, cmd: R.Command, m: R.Ledger, maxN: nat)
    requires cmd.Put? && C.Safe(s, maxN) && R.Tracks(s, m) && R.Valid(s, cmd, maxN)
    ensures var s0, j := R.WithJob(s, cmd.id, NewJob(cmd)), NewJob(cmd);
            && C.Safe(s0, maxN) && cmd.id in s0.jobs && s0.jobs[cmd.id] == j && R.Tracks(s0, m)
            && S.RoomFor(j) == FullSize(cmd.tube, cmd.body) && S.RoomFor(j) + Z <= maxN && j.rec.bodySize >= 0
            && LiveState(j.rec.state)
  {
    hide C.Safe, R.Tracks;
    R.PutIsReady(s, cmd.id, NewJob(cmd), m, maxN);
  }

  lemma PutReserves(s: S.Log, id: u64, n: nat, m: R.Ledger, maxN: nat)
    requires C.Safe(s, maxN) && R.Tracks(s, m)
    requires id in s.jobs && s.jobs[id].home == S.Nowhere && LiveState(s.jobs[id].rec.state)
    requires n == FullSize(s.jobs[id].tube, s.jobs[id].body) + Z <= maxN
    ensures R.Reservable(s, n, id, maxN)
    ensures var (s1, z) := S.Reserve(s, n);
            GoesOn(s1, z, id, R.ReserveAndWrite(s, n, id, maxN), maxN) && (z > 0 ==> CanRewrite(s1, id))
  {
    hide L.Base, C.Ready, S.Reserve, S.Referenced, S.Usable, S.Capacity, C.Safe, C.Steady, C.Unhindered, R.Tracks,
        S.WalWrite, L.Persisted,
        R.WriteAndMaintain, R.Writable, CanFinish;
    C.SafeIsSteady(s, maxN);
    C.SteadyMeans(s, maxN);
    R.PutExecutes(s, id, n, m, maxN);
    C.ReserveReady(s, n, maxN);
    var (s1, z) := S.Reserve(s, n);
    if z > 0 {
      C.ReadyMeans(s1, n, maxN);
      FullStays(s1, id);
      WritableFinishes(s1, id, maxN);
    }
  }

  ghost function Added(s: S.Log, cmd: R.Command): S.Log
    requires cmd.Put?
  {
    R.WithJob(s, cmd.id, NewJob(cmd))
  }

  lemma AddedMeans(s: S.Log, cmd: R.Command)
    requires cmd.Put?
    ensures Added(s, cmd) == s.(jobs := s.jobs[cmd.id := NewJob(cmd)])
  {
    hide NewJob;
  }

  lemma ExecutePut(s: S.Log, cmd: R.Command, maxN: nat)
    requires cmd.Put?
    requires R.Reservable(Added(s, cmd), FullSize(cmd.tube, cmd.body) + Z, cmd.id, maxN)
    ensures R.Executable(s, cmd, maxN)
    ensures R.Execute(s, cmd, maxN) == R.ReserveAndWrite(Added(s, cmd), FullSize(cmd.tube, cmd.body) + Z, cmd.id, maxN)
  {
    hide R.Reservable, R.ReserveAndWrite, R.WithJob, FullSize;
  }

  lemma SteadyCanReserve(s: S.Log, maxN: nat)
    requires C.Safe(s, maxN)
    ensures CanReserve(s)
  {
  }

  lemma PutCases(s: S.Log, cmd: R.Command, m: R.Ledger, maxN: nat)
    requires cmd.Put? && C.Safe(s, maxN) && R.Tracks(s, m) && R.Valid(s, cmd, maxN)
    ensures R.Executable(s, cmd, maxN)
    ensures var j := NewJob(cmd);
            var s0 := s.(jobs := s.jobs[cmd.id := j]);
            && C.Safe(s0, maxN) && j.rec.bodySize >= 0 && S.RoomFor(j) + Z >= 0 && CanReserve(s0)
            && var (s1, z) := S.Reserve(s0, S.RoomFor(j) + Z);
               GoesOn(s1, z, cmd.id, R.Execute(s, cmd, maxN), maxN) && (z > 0 ==> CanRewrite(s1, cmd.id))
  {
    hide C.Safe, R.Tracks, S.Reserve, CanRewrite, GoesOn, R.Reservable, R.ReserveAndWrite, R.Valid, S.RoomFor,
        S.Usable, S.Capacity, R.Executable, R.Execute, R.WithJob;
    PutStarts(s, cmd, m, maxN);
    var s0, j := R.WithJob(s, cmd.id, NewJob(cmd)), NewJob(cmd);
    AddedMeans(s, cmd);
    SteadyCanReserve(s0, maxN);
    PutReserves(s0, cmd.id, FullSize(cmd.tube, cmd.body) + Z, m, maxN);
    ExecutePut(s, cmd, maxN);
  }

  ghost predicate CanReserve(s: S.Log) {
    S.Usable(s) && S.Capacity(s) >= 2 * Z - 1
  }

  // Writes the record of a job, then maintains the log.
  method Finish(w: W.Wal, id: u64, ghost r: (S.Log, bool), ghost maxN: nat) returns (ok: bool)
    requires w.Rep() && w.CurrentKnown() && CanFinish(w.st, id, r, maxN)
    requires w.st.live != [] && id in S.ToWriteIn(w.st).jobs && Steps.HomeListed(S.ToWriteIn(w.st), id)
    requires |S.WalWrite(w.st, id).0.live| == |S.ToWriteIn(w.st).live|
    modifies w, w.files
    ensures InOrder(w, maxN) && (w.st, ok) == r
    ensures forall k :: 0 <= k < |w.files| ==> w.files[k] in old(w.files) || fresh(w.files[k])
  {
    hide *;
    CanFinishMeans(w.st, id, r, maxN);
    ok := w.WalWrite(id);
    Pack(w, maxN);
    if ok {
      WalMain(w, maxN);
    }
  }

  lemma CanFinishMeans(s: S.Log, id: u64, r: (S.Log, bool), maxN: nat)
    requires CanFinish(s, id, r, maxN)
    ensures id in s.jobs && s.use && S.Referenced(s) && s.live != []
    ensures var (s', ok) := S.WalWrite(s, id);
            ok && C.Safe(s', maxN) && r == (C.WalMain(s', maxN), true)
  {
    hide S.WalWrite, C.Safe, C.WalMain;
  }

  method FinishPut(w: W.Wal, id: u64, ghost r: (S.Log, bool), ghost maxN: nat) returns (ok: bool)
    requires w.Rep() && w.CurrentKnown() && CanRewrite(w.st, id) && CanFinish(w.st, id, r, maxN)
    modifies w, w.files
    ensures InOrder(w, maxN) && (w.st, ok) == r
    ensures forall k :: 0 <= k < |w.files| ==> w.files[k] in old(w.files) || fresh(w.files[k])
  {
    hide S.WalWrite, C.Safe, S.Referenced, CanFinish;
    FullStays(w.st, id);
    ok := Finish(w, id, r, maxN);
  }

  /** A put: the job is added to the dictionary, space for it reserved, its record written. */
  method Put(w: W.Wal, id: u64, tube: Bytes, body: Bytes, rec: JobRec, ghost m: R.Ledger,
      ghost maxN: nat) returns (ok: bool)
    requires InOrder(w, maxN) && R.Tracks(w.st, m) && R.Valid(w.st, R.Put(id, tube, body, rec), maxN)
    modifies w, w.files
    ensures R.Executable(old(w.st), R.Put(id, tube, body, rec), maxN)
    ensures w.Rep() && w.CurrentKnown() && (w.st, ok) == R.Execute(old(w.st), R.Put(id, tube, body, rec), maxN)
    ensures forall k :: 0 <= k < |w.files| ==> w.files[k] in old(w.files) || fresh(w.files[k])
  {
    hide *;
    ghost var cmd, v := R.Put(id, tube, body, rec), S.Job(tube, body, rec, rec, S.Nowhere, 0);
    NewJobIs(cmd, v);
    Unpack(w, maxN);
    PutCases(w.st, cmd, m, maxN);
    w.SetJob(id, W.Job(tube, body, rec, null, 0), v);
    ghost var s0 := w.st;
    assert id in s0.jobs && s0.jobs[id] == v;
    CanReserveMeans(s0);
    var z := w.WalResvPut(id);
    GoesOnMeans(w.st, z, id, R.Execute(old(w.st), cmd, maxN), maxN);
    if z <= 0 {
      return false;
    }
    ok := FinishPut(w, id, R.Execute(old(w.st), cmd, maxN), maxN);
    Unpack(w, maxN);
  }

  lemma NewJobIs(cmd: R.Command, v: S.Job)
    requires cmd.Put? && v == S.Job(cmd.tube, cmd.body, cmd.rec, cmd.rec, S.Nowhere, 0)
    ensures v == NewJob(cmd) && W.JobMatches(W.Job(cmd.tube, cmd.body, cmd.rec, null, 0), v)
  {
  }

  lemma CanReserveMeans(s: S.Log)
    requires CanReserve(s)
    ensures S.Usable(s) && S.Capacity(s) >= 2 * Z - 1
  {
  }

  lemma GoesOnMeans(s: S.Log, z: int, id: u64, r: (S.Log, bool), maxN: nat)
    requires GoesOn(s, z, id, r, maxN)
    ensures z <= 0 ==> r == (s, false)
    ensures z > 0 ==> CanFinish(s, id, r, maxN)
  {
  }

  // ---------- Updating a job ----------

  // The record of a job that a file holds can be written in the current file.
  ghost predicate CanRecord(s: S.Log, id: u64) {
    && id in s.jobs && s.use && S.Referenced(s) && s.live[0].resv > 0 && s.jobs[id].home.In?
    && s.jobs[id].rec.state != INVALID && Steps.HomeListed(s, id)
  }

  lemma ShortStays(s: S.Log, id: u64)
    requires CanRecord(s, id)
    ensures s.live != [] && S.ToWriteIn(s) == s && |S.WalWrite(s, id).0.live| == |s.live| && S.WalWrite(s, id).1
  {
    C.WritesShort(s, id);
  }

  lemma BaseListsHomes(s: S.Log, id: u64, skip: set<u64>, maxN: nat)
    requires L.Base(s, skip, maxN) && id in s.jobs
    ensures Steps.HomeListed(s, id)
  {
    assert L.JobLinked(s, id);
  }

  method FinishUpdate(w: W.Wal, id: u64, ghost r: (S.Log, bool), ghost maxN: nat) returns (ok: bool)
    requires w.Rep() && w.CurrentKnown() && CanRecord(w.st, id) && CanFinish(w.st, id, r, maxN)
    modifies w, w.files
    ensures InOrder(w, maxN) && (w.st, ok) == r
    ensures forall k :: 0 <= k < |w.files| ==> w.files[k] in old(w.files) || fresh(w.files[k])
  {
    hide S.WalWrite, C.Safe, S.Referenced, CanFinish;
    ShortStays(w.st, id);
    ok := Finish(w, id, r, maxN);
  }

  lemma RecordedIsReady(s: S.Log, id: u64, rec: JobRec, maxN: nat)
    requires C.Ready(s, Z, maxN) && R.NewRecord(s, id, rec) && s.use
    ensures CanRecord(R.WithRec(s, id, rec), id) && S.WalWrite(R.WithRec(s, id, rec), id).1
  {
    hide L.Base, C.Ready, S.Referenced, L.Persisted, Steps.HomeListed, S.WalWrite, C.Spare;
    var s2 := R.WithRec(s, id, rec);
    R.RecIsReady(s, id, rec, Z, maxN);
    C.ReadyMeans(s2, Z, maxN);
    BaseListsHomes(s2, id, {}, maxN);
    ShortStays(s2, id);
  }

  lemma UpdateReserves(s: S.Log, id: u64, rec: JobRec, m: R.Ledger, maxN: nat)
    requires C.Safe(s, maxN) && R.Tracks(s, m) && R.NewRecord(s, id, rec) && id in m
    ensures R.Updatable(s, id, rec, maxN)
    ensures var (s1, z) := S.Reserve(s, Z);
            && (z <= 0 ==> R.ReserveAndUpdate(s, id, rec, maxN) == (s1, false))
            && (z > 0 ==> id in s1.jobs && CanRecord(R.WithRec(s1, id, rec), id)
                          && CanFinish(R.WithRec(s1, id, rec), id, R.ReserveAndUpdate(s, id, rec, maxN), maxN))
  {
    hide L.Base, C.Ready, S.Reserve, S.Referenced, S.Usable, S.Capacity, C.Safe, C.Steady, C.Unhindered, R.Tracks,
        S.WalWrite, L.Persisted,
        R.WriteAndMaintain, R.Writable, CanFinish, CanRecord, R.NewRecord, R.WithRec;
    C.SafeIsSteady(s, maxN);
    C.SteadyMeans(s, maxN);
    R.UpdateExecutes(s, id, rec, m, maxN);
    C.ReserveReady(s, Z, maxN);
    var (s1, z) := S.Reserve(s, Z);
    R.NewRecordStays(s, s1, id, rec);
    if z > 0 {
      RecordedIsReady(s1, id, rec, maxN);
      WritableFinishes(R.WithRec(s1, id, rec), id, maxN);
    }
  }

  // The rest of an update, z bytes having been had.
  ghost predicate UpdateGoesOn(s: S.Log, z: int, id: u64, rec: JobRec, r: (S.Log, bool), maxN: nat) {
    && id in s.jobs && (z <= 0 ==> r == (s, false))
    && (z > 0 ==>
          var s' := s.(jobs := s.jobs[id := s.jobs[id].(rec := rec)]);
          CanRecord(s', id) && CanFinish(s', id, r, maxN))
  }

  lemma ExecuteUpdate(s: S.Log, id: u64, rec: JobRec, maxN: nat)
    requires R.Updatable(s, id, rec, maxN)
    ensures R.Executable(s, R.Update(id, rec), maxN)
    ensures R.Execute(s, R.Update(id, rec), maxN) == R.ReserveAndUpdate(s, id, rec, maxN)
  {
    hide R.Updatable, R.ReserveAndUpdate;
  }

  lemma WithRecMeans(s: S.Log, id: u64, rec: JobRec)
    requires id in s.jobs
    ensures R.WithRec(s, id, rec) == s.(jobs := s.jobs[id := s.jobs[id].(rec := rec)])
  {
  }

  lemma UpdateCases(s: S.Log, id: u64, rec: JobRec, m: R.Ledger, maxN: nat)
    requires C.Safe(s, maxN) && R.Tracks(s, m) && R.Valid(s, R.Update(id, rec), maxN)
    ensures R.Executable(s, R.Update(id, rec), maxN) && CanReserve(s)
    ensures var (s1, z) := S.Reserve(s, Z);
            UpdateGoesOn(s1, z, id, rec, R.Execute(s, R.Update(id, rec), maxN), maxN)
  {
    hide C.Safe, R.Tracks, S.Reserve, CanRecord, CanFinish, R.Updatable, R.ReserveAndUpdate, R.Executable, R.Execute,
        R.WithRec, S.Usable, S.Capacity;
    R.ValidIsLogged(s, id, m);
    SteadyCanReserve(s, maxN);
    UpdateReserves(s, id, rec, m, maxN);
    ExecuteUpdate(s, id, rec, maxN);
    CanReserveMeans(s);
    var s1 := S.Reserve(s, Z).0;
    assert s1.jobs == s.jobs;
    WithRecMeans(s1, id, rec);
  }

  lemma UpdateGoesOnMeans(s: S.Log, z: int, id: u64, rec: JobRec, r: (S.Log, bool), maxN: nat)
    requires UpdateGoesOn(s, z, id, rec, r, maxN)
    ensures id in s.jobs && (z <= 0 ==> r == (s, false))
    ensures z > 0 ==>
              var s' := s.(jobs := s.jobs[id := s.jobs[id].(rec := rec)]);
              CanRecord(s', id) && CanFinish(s', id, r, maxN)
  {
  }

  lemma SameHome(j: W.Job, v: S.Job, rec: JobRec)
    requires W.JobMatches(j, v)
    ensures W.JobMatches(j.(rec := rec), v.(rec := rec))
  {
  }

  /** A bury or a kick: space is reserved first, and the job is not changed without it. */
  method Update(w: W.Wal, id: u64, rec: JobRec, ghost m: R.Ledger, ghost maxN: nat) returns (ok: bool)
    requires InOrder(w, maxN) && R.Tracks(w.st, m) && R.Valid(w.st, R.Update(id, rec), maxN)
    modifies w, w.files
    ensures R.Executable(old(w.st), R.Update(id, rec), maxN)
    ensures w.Rep() && w.CurrentKnown() && (w.st, ok) == R.Execute(old(w.st), R.Update(id, rec), maxN)
    ensures forall k :: 0 <= k < |w.files| ==> w.files[k] in old(w.files) || fresh(w.files[k])
  {
    hide *;
    Unpack(w, maxN);
    UpdateCases(w.st, id, rec, m, maxN);
    CanReserveMeans(w.st);
    var z := w.WalResvUpdate();
    ghost var r := R.Execute(old(w.st), R.Update(id, rec), maxN);
    UpdateGoesOnMeans(w.st, z, id, rec, r, maxN);
    if z <= 0 {
      return false;
    }
    w.JobAt(id);
    SameHome(w.allJobs[id], w.st.jobs[id], rec);
    w.SetJob(id, w.allJobs[id].(rec := rec), w.st.jobs[id].(rec := rec));
    ok := FinishUpdate(w, id, r, maxN);
    Unpack(w, maxN);
  }

  lemma ExecuteTouch(s: S.Log, id: u64, rec: JobRec, maxN: nat)
    requires id in s.jobs
    ensures R.Executable(s, R.Touch(id, rec), maxN)
    ensures R.Execute(s, R.Touch(id, rec), maxN) == (s.(jobs := s.jobs[id := s.jobs[id].(rec := rec)]), true)
  {
  }

  lemma TouchedIsThere(s: S.Log, id: u64, rec: JobRec, maxN: nat)
    requires R.Valid(s, R.Touch(id, rec), maxN)
    ensures id in s.jobs
  {
  }

  // A change of the record in memory alone: the job is reserved, touched or promoted.
  method Touch(w: W.Wal, id: u64, rec: JobRec, ghost maxN: nat) returns (ok: bool)
    requires InOrder(w, maxN) && R.Valid(w.st, R.Touch(id, rec), maxN)
    modifies w, w.files
    ensures R.Executable(old(w.st), R.Touch(id, rec), maxN)
    ensures w.Rep() && w.CurrentKnown() && (w.st, ok) == R.Execute(old(w.st), R.Touch(id, rec), maxN)
    ensures w.files == old(w.files)
  {
    hide *;
    Unpack(w, maxN);
    TouchedIsThere(w.st, id, rec, maxN);
    ExecuteTouch(w.st, id, rec, maxN);
    w.JobAt(id);
    SameHome(w.allJobs[id], w.st.jobs[id], rec);
    w.SetJob(id, w.allJobs[id].(rec := rec), w.st.jobs[id].(rec := rec));
    ok := true;
  }

  // ---------- Deleting a job ----------

  // The delete record of a job can be written, in the current file or the next.
  ghost predicate CanErase(s: S.Log, id: u64) {
    && id in s.jobs && s.use && S.Referenced(s)
    && id in S.ToWriteIn(s).jobs && Steps.HomeListed(S.ToWriteIn(s), id)
    && S.WalWrite(s, id).1 && |S.WalWrite(s, id).0.live| == |S.ToWriteIn(s).live|
  }

  lemma DeleteLeavesLive(s: S.Log, id: u64, maxN: nat)
    requires id in s.jobs && s.jobs[id].home.In? && s.jobs[id].rec.state == INVALID && L.Base(s, {id}, maxN)
    ensures s.live != [] && |S.FileRmJob(Writing.ShortWritten(s, id), s.jobs[id].home.seqNo, id).live| == |s.live|
  {
    hide L.Base, S.FileRmJob, L.Persisted;
    C.OpenFilesReferenced(s, {id}, maxN);
    Writing.DeleteKeeps(s, id, maxN);
  }

  lemma DeleteStays(s: S.Log, id: u64, maxN: nat)
    requires id in s.jobs && s.jobs[id].home.In? && s.jobs[id].rec.state == INVALID && s.use
    requires L.Base(s, {id}, maxN) && C.Spare(s, 0, maxN) && s.resv >= Z && Z <= maxN && maxN + Z <= S.Capacity(s)
    ensures CanErase(s, id)
  {
    hide L.Base, S.FileRmJob, L.Persisted, Writing.ShortWritten, C.Spare, S.WalWrite, S.ToWriteIn, S.Referenced,
        S.UseNext, Steps.HomeListed;
    C.OpenFilesReferenced(s, {id}, maxN);
    C.DeleteFits(s, id, maxN);
    var s0 := S.ToWriteIn(s);
    C.SpareIsHeld(s0, 0, maxN);
    C.WritesDelete(s, id);
    BaseListsHomes(s0, id, {id}, maxN);
    DeleteLeavesLive(s0, id, maxN);
  }

  lemma MarkedCanBeErased(s: S.Log, id: u64, maxN: nat)
    requires C.Safe(s, maxN) && R.IsLogged(s, id)
    ensures CanErase(R.Marked(s, id), id)
  {
    hide L.Base, L.Persisted, C.Spare, CanErase, S.Capacity, S.Referenced;
    C.SafeIsSteady(s, maxN);
    R.MarkedIsReady(s, id, maxN);
    var s1 := R.Marked(s, id);
    C.IsPersisted(s1, id);
    C.CountMinusOne(L.Persisted(s1), id);
    DeleteStays(s1, id, maxN);
  }

  ghost predicate DeleteGoesOn(s: S.Log, id: u64, r: (S.Log, bool), r': (S.Log, bool), maxN: nat) {
    && id in s.jobs
    && r' == (r.0.(jobs := r.0.jobs - {id}), r.1)
    && var s' := s.(jobs := s.jobs[id := s.jobs[id].(rec := s.jobs[id].rec.(state := INVALID))]);
       CanErase(s', id) && CanFinish(s', id, r, maxN)
  }

  ghost function Erased(s: S.Log, id: u64, maxN: nat): (S.Log, bool)
    requires id in s.jobs && R.Writable(R.Marked(s, id), id, maxN)
  {
    R.WriteAndMaintain(R.Marked(s, id), id, maxN)
  }

  lemma ExecuteDelete(s: S.Log, id: u64, maxN: nat)
    requires id in s.jobs && R.Writable(R.Marked(s, id), id, maxN)
    ensures R.Executable(s, R.Delete(id), maxN)
    ensures R.Execute(s, R.Delete(id), maxN) == (var r := Erased(s, id, maxN); (r.0.(jobs := r.0.jobs - {id}), r.1))
  {
    hide R.Writable, R.WriteAndMaintain, R.Marked;
  }

  lemma MarkedMeans(s: S.Log, id: u64)
    requires id in s.jobs
    ensures R.Marked(s, id) == s.(jobs := s.jobs[id := s.jobs[id].(rec := s.jobs[id].rec.(state := INVALID))])
  {
  }

  lemma DeleteCases(s: S.Log, id: u64, m: R.Ledger, maxN: nat) returns (r: (S.Log, bool))
    requires C.Safe(s, maxN) && R.Tracks(s, m) && R.Valid(s, R.Delete(id), maxN)
    ensures R.Executable(s, R.Delete(id), maxN)
    ensures DeleteGoesOn(s, id, r, R.Execute(s, R.Delete(id), maxN), maxN)
  {
    hide C.Safe, R.Tracks, S.WalWrite, CanErase, CanFinish, R.Executable, R.Execute, R.Marked, R.Writable,
        R.WriteAndMaintain;
    R.DeleteExecutes(s, id, m, maxN);
    ExecuteDelete(s, id, maxN);
    MarkedMeans(s, id);
    MarkedCanBeErased(s, id, maxN);
    CanEraseMeans(R.Marked(s, id), id);
    WritableFinishes(R.Marked(s, id), id, maxN);
    r := Erased(s, id, maxN);
  }

  lemma CanEraseMeans(s: S.Log, id: u64)
    requires CanErase(s, id)
    ensures id in s.jobs && s.use && S.Referenced(s) && s.live != []
    ensures id in S.ToWriteIn(s).jobs && Steps.HomeListed(S.ToWriteIn(s), id)
    ensures S.WalWrite(s, id).1 && |S.WalWrite(s, id).0.live| == |S.ToWriteIn(s).live|
  {
    hide S.WalWrite, S.ToWriteIn;
  }

  lemma DeleteGoesOnMeans(s: S.Log, id: u64, r: (S.Log, bool), r': (S.Log, bool), maxN: nat)
    requires DeleteGoesOn(s, id, r, r', maxN)
    ensures id in s.jobs && r' == (r.0.(jobs := r.0.jobs - {id}), r.1)
    ensures var s' := s.(jobs := s.jobs[id := s.jobs[id].(rec := s.jobs[id].rec.(state := INVALID))]);
            CanErase(s', id) && CanFinish(s', id, r, maxN)
  {
  }

  /** A delete: the record is marked invalid and written, which unlinks the job, and the
      dictionary forgets it. */
  method Delete(w: W.Wal, id: u64, ghost m: R.Ledger, ghost maxN: nat) returns (ok: bool)
    requires InOrder(w, maxN) && R.Tracks(w.st, m) && R.Valid(w.st, R.Delete(id), maxN)
    modifies w, w.files
    ensures R.Executable(old(w.st), R.Delete(id), maxN)
    ensures w.Rep() && w.CurrentKnown() && (w.st, ok) == R.Execute(old(w.st), R.Delete(id), maxN)
    ensures forall k :: 0 <= k < |w.files| ==> w.files[k] in old(w.files) || fresh(w.files[k])
  {
    hide *;
    Unpack(w, maxN);
    ghost var r := DeleteCases(w.st, id, m, maxN);
    DeleteGoesOnMeans(w.st, id, r, R.Execute(w.st, R.Delete(id), maxN), maxN);
    w.JobAt(id);
    var rec := w.allJobs[id].rec.(state := INVALID);
    SameHome(w.allJobs[id], w.st.jobs[id], rec);
    w.SetJob(id, w.allJobs[id].(rec := rec), w.st.jobs[id].(rec := rec));
    CanEraseMeans(w.st, id);
    ok := Finish(w, id, r, maxN);
    Unpack(w, maxN);
    w.JobFree(id);
  }

  // ---------- Serving ----------

  /** One command. The log is in order again afterwards and holds what the client is told. */
  method Execute(w: W.Wal, cmd: R.Command, ghost m: R.Ledger, ghost maxN: nat) returns (ok: bool)
    requires InOrder(w, maxN) && R.Tracks(w.st, m) && R.Valid(w.st, cmd, maxN)
    modifies w, w.files
    ensures R.Executable(old(w.st), cmd, maxN) && (w.st, ok) == R.Execute(old(w.st), cmd, maxN)
    ensures InOrder(w, maxN) && R.Tracks(w.st, R.Expect(m, cmd, ok))
    ensures forall k :: 0 <= k < |w.files| ==> w.files[k] in old(w.files) || fresh(w.files[k])
  {
    hide *;
    Unpack(w, maxN);
    R.CommandExecutes(w.st, cmd, m, maxN);
    match cmd {
      case Put(id, tube, body, rec) => ok := Put(w, id, tube, body, rec, m, maxN);
      case Update(id, rec) => ok := Update(w, id, rec, m, maxN);
      case Touch(id, rec) => ok := Touch(w, id, rec, maxN);
      case Delete(id) => ok := Delete(w, id, m, maxN);
    }
    Pack(w, maxN);
  }

  // The file system holds at least what has been written to each file.
  ghost predicate OnDisk(w: W.Wal)
    reads w, w.files
  {
    forall i :: 0 <= i < |w.files| ==> w.files[i].size >= |w.files[i].data|
  }

  // The files as a restart finds them: what was written, and zero bytes up to their size.
  ghost function Disk(w: W.Wal): seq<Restart.Image>
    requires OnDisk(w)
    reads w, w.files
  {
    seq(|w.files|, i requires 0 <= i < |w.files| && w.files[i].size >= |w.files[i].data| reads w, w.files =>
      Restart.Image(w.files[i].seqNo, w.files[i].data + Codec.Zeros(w.files[i].size - |w.files[i].data|)))
  }

  lemma FileOnDisk(f: W.File, v: S.File)
    requires W.FileMatches(f, v) && Restart.LongEnough(v)
    ensures f.size >= |f.data|
    ensures Restart.ImageOf(v) == Restart.Image(f.seqNo, f.data + Codec.Zeros(f.size - |f.data|))
  {
  }

  lemma DiskIsImages(w: W.Wal)
    requires w.Rep() && forall f :: f in S.Files(w.st) ==> Restart.LongEnough(f)
    ensures OnDisk(w) && Disk(w) == Restart.Images(S.Files(w.st))
  {
    hide W.FileMatches, Restart.LongEnough, Restart.ImageOf, W.NumbersApart, W.JobsMatch, W.HomesKnown, W.Chained;
    var vs := S.Files(w.st);
    forall i | 0 <= i < |w.files|
      ensures w.files[i].size >= |w.files[i].data|
      ensures Restart.LongEnough(vs[i]) && Restart.ImageOf(vs[i]) ==
              Restart.Image(w.files[i].seqNo, w.files[i].data + Codec.Zeros(w.files[i].size - |w.files[i].data|))
    {
      assert vs[i] in vs;
      FileOnDisk(w.files[i], vs[i]);
    }
  }

  // A start with these limits that reads the disk gets back exactly the jobs of m.
  ghost predicate Confirmed(w: W.Wal, cfg: Config, m: R.Ledger)
    reads w, w.files
  {
    OnDisk(w) && Restart.GivesBack(Restart.ReadLog(cfg, Disk(w)), m)
  }

  /** Between commands the bytes on disk give back exactly the jobs the clients know. */
  lemma DiskHoldsTheJobs(w: W.Wal, cfg: Config, m: R.Ledger, maxN: nat)
    requires InOrder(w, maxN) && R.Tracks(w.st, m) && Restart.DiskWithin(cfg, L.SegmentsOf(S.Files(w.st)))
    ensures Confirmed(w, cfg, m)
  {
    hide C.Steady, C.Unhindered, R.Tracks, Restart.ReadLog, Restart.Images, Restart.LongEnough, L.Persisted, OnDisk,
        Disk, Restart.DiskWithin;
    Unpack(w, maxN);
    Restart.RestartRecovers(cfg, w.st, maxN);
    Restart.TrackedReadsBack(w.st, m);
    DiskIsImages(w);
  }

  lemma RunStep(s: S.Log, m: R.Ledger, cmds: seq<R.Command>, i: nat, maxN: nat)
    requires i < |cmds| && C.Safe(s, maxN) && R.Admissible(s, cmds[i..], maxN)
    ensures R.Valid(s, cmds[i], maxN) && R.Executable(s, cmds[i], maxN)
    ensures var (s', ok) := R.Execute(s, cmds[i], maxN);
            && C.Safe(s', maxN) && R.Admissible(s', cmds[i + 1..], maxN)
            && R.Run(s, cmds[i..], maxN) == R.Run(s', cmds[i + 1..], maxN)
            && R.ExpectAll(s, m, cmds[i..], maxN) == R.ExpectAll(s', R.Expect(m, cmds[i], ok), cmds[i + 1..], maxN)
  {
    hide R.Valid, R.Executable, R.Execute, R.Expect, C.Safe;
    assert cmds[i..][0] == cmds[i] && cmds[i..][1..] == cmds[i + 1..];
    R.CommandIsSafe(s, cmds[i], maxN);
  }

  lemma RunEnds(s: S.Log, m: R.Ledger, cmds: seq<R.Command>, maxN: nat)
    requires C.Safe(s, maxN)
    ensures R.Admissible(s, cmds[|cmds|..], maxN)
    ensures R.Run(s, cmds[|cmds|..], maxN) == s && R.ExpectAll(s, m, cmds[|cmds|..], maxN) == m
  {
    hide C.Safe;
    assert cmds[|cmds|..] == [];
  }

  lemma AllOf(cmds: seq<R.Command>)
    ensures cmds[0..] == cmds
  {
  }

  lemma DiskAfterRun(w: W.Wal, s: S.Log, cmds: seq<R.Command>, m: R.Ledger, maxN: nat)
    requires InOrder(w, maxN) && R.Tracks(w.st, m)
    requires C.Safe(s, maxN) && R.Admissible(s, cmds, maxN) && w.st == R.Run(s, cmds, maxN)
    ensures forall cfg: Config :: Restart.AllWithin(cfg, s.book) && Restart.PutsWithin(cfg, s, cmds, maxN) ==>
        Confirmed(w, cfg, m)
  {
    hide InOrder, C.Safe, R.Tracks, R.Admissible, R.Run, Restart.AllWithin, Restart.PutsWithin, Confirmed;
    Unpack(w, maxN);
    C.SafeIsSteady(w.st, maxN);
    forall cfg: Config | Restart.AllWithin(cfg, s.book) && Restart.PutsWithin(cfg, s, cmds, maxN)
      ensures Confirmed(w, cfg, m)
    {
      Restart.RunStaysWithin(cfg, s, cmds, maxN);
      Restart.WithinOnDisk(cfg, w.st, maxN);
      DiskHoldsTheJobs(w, cfg, m, maxN);
    }
  }

  lemma InOrderIsSafe(w: W.Wal, maxN: nat)
    requires InOrder(w, maxN)
    ensures C.Safe(w.st, maxN)
  {
  }

  /** A run: any commands, one after the other, with whatever answers the file system gives (in
      files that are not ample, when it refuses nothing). A start whose limits all jobs written
      are within then reads from the disk exactly the jobs whose put was confirmed and whose
      delete was not asked for. */
  method Serve(w: W.Wal, cmds: seq<R.Command>, ghost m: R.Ledger, ghost maxN: nat) returns (oks: seq<bool>)
    requires InOrder(w, maxN) && R.Tracks(w.st, m) && R.Admissible(w.st, cmds, maxN)
    modifies w, w.files
    ensures InOrder(w, maxN) && |oks| == |cmds|
    ensures C.Safe(old(w.st), maxN) && w.st == R.Run(old(w.st), cmds, maxN)
    ensures forall cfg: Config
              | Restart.AllWithin(cfg, old(w.st).book) && Restart.PutsWithin(cfg, old(w.st), cmds, maxN) ::
              Confirmed(w, cfg, R.ExpectAll(old(w.st), m, cmds, maxN))
  {
    hide *;
    InOrderIsSafe(w, maxN);
    AllOf(cmds);
    oks := [];
    var i := 0;
    ghost var known := m;
    while i < |cmds|
      invariant 0 <= i <= |cmds| && |oks| == i
      invariant InOrder(w, maxN) && C.Safe(w.st, maxN) && R.Tracks(w.st, known) && R.Admissible(w.st, cmds[i..], maxN)
      invariant R.Run(w.st, cmds[i..], maxN) == R.Run(old(w.st), cmds, maxN)
      invariant R.ExpectAll(w.st, known, cmds[i..], maxN) == R.ExpectAll(old(w.st), m, cmds, maxN)
      invariant forall k :: 0 <= k < |w.files| ==> w.files[k] in old(w.files) || fresh(w.files[k])
    {
      RunStep(w.st, known, cmds, i, maxN);
      var ok := Execute(w, cmds[i], known, maxN);
      known := R.Expect(known, cmds[i], ok);
      oks := oks + [ok];
      i := i + 1;
    }
    RunEnds(w.st, known, cmds, maxN);
    DiskAfterRun(w, old(w.st), cmds, known, maxN);
  }

  /** The first start: when the file system grants the first file the log is in order. */
  method Start(fileSize: nat, answers: seq<bool>, ghost maxN: nat) returns (w: W.Wal, ok: bool)
    requires Z <= maxN && maxN + Z <= fileSize - WORD
    ensures ok == R.FirstGranted(answers)
    ensures ok ==> w.Rep() && w.CurrentKnown() && C.Steady(w.st, maxN)
    ensures ok ==> w.st == R.NewLog(fileSize, answers) && R.Tracks(w.st, map[])
    ensures ok && R.UnhinderedFrom(fileSize, answers, maxN) ==> InOrder(w, maxN)
  {
    hide C.Steady, C.Unhindered, R.Tracks;
    w := new W.Wal(fileSize, answers);
    ok := w.WalInit();
    if ok {
      R.NewLogIsSteady(fileSize, answers, maxN);
    }
  }
}
