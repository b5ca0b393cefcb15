/** Runs from a new log that bring the files to a state of one's choice: a first job is updated so
    often that compaction has nothing to do, more jobs are put, and further updates move what is
    reserved from file to file. */
module Reaching {
  import opened Records
  import opened Replay
  import opened WalState
  import opened Linking
  import opened Space
  import opened Upkeep
  import opened Writing
  import opened Commands
  import opened Runs
  import opened Turns
  import opened Layouts

  // What the least job asks for: a tube with a name of one letter, and an empty line for a body.
  const SMALLEST: nat := WORD + 1 + REC_SIZE + 2 + Z

  // ---------- Compaction with nothing to do ----------

  // The head is the current file or the one before it, or enough bytes are in use.
  ghost predicate Calm(s: Log) {
    |s.past| < 2 || s.nfile * s.fileSize < 3 * (s.alive + s.resv)
  }

  lemma CalmStays(s: Log, maxN: nat)
    requires Safe(s, maxN) && Calm(s)
    ensures WalMain(s, maxN) == s
  {
    hide Safe, CompactTimes;
    if |s.past| < 2 {
      NothingToMove(s, Ratio(s), maxN);
    } else {
      SmallRatio(s.nfile * s.fileSize, s.alive + s.resv);
      CompactsNot(s, Ratio(s), maxN);
    }
  }

  lemma SmallRatio(n: int, d: int)
    requires n < 3 * d
    ensures d <= 0 || TruncDiv(n - d, d) < 2
  {
  }

  lemma CompactsNot(s: Log, r: int, maxN: nat)
    requires Safe(s, maxN) && r < 2
    ensures CompactTimes(s, r, maxN) == s
  {
  }

  // ---------- Updating a job ----------

  function Spend(rs: seq<Room>, n: int): seq<Room>
    requires rs != []
  {
    rs[0 := Room(rs[0].free, rs[0].resv - n)]
  }

  lemma SpentRooms(s: Log, s': Log, l: nat)
    requires Spent(s, s', l)
    ensures Rooms(s'.live) == Spend(Rooms(s.live), l)
  {
  }

  // A run so far: k jobs are logged, the first among them, and no id beyond top is in use.
  ghost predicate Going(s: Log, maxN: nat, k: nat, top: u64) {
    && Steady(s, maxN) && |Persisted(s)| == k && (if k > 0 then IsLogged(s, 1) else top == 0)
    && (forall id :: id in s.jobs ==> id <= top) && (forall id :: id in s.book ==> id <= top)
  }

  ghost function UpdateTurn(s: Log): Turn
    requires 1 in s.jobs
  {
    Turn(Update(1, s.jobs[1].rec), [])
  }

  lemma FirstIsLive(s: Log, maxN: nat)
    requires Steady(s, maxN) && IsLogged(s, 1)
    ensures NewRecord(s, 1, s.jobs[1].rec) && Persisted(s) != map[]
  {
    assert JobFits(s.book, 1, s.jobs[1], 1 in {}, maxN);
    assert 1 in Persisted(s);
  }

  lemma SteadyIsOrderly(s: Log, maxN: nat)
    requires Steady(s, maxN) && Persisted(s) != map[]
    ensures Orderly(s)
  {
    SteadyProvides(s, maxN);
    SteadyMeans(s, maxN);
  }

  // What an update does before the log is maintained.
  ghost predicate Updates(s: Log, s': Log) {
    && s.live != [] && s'.fileSize == s.fileSize && s'.alive == s.alive + Z && s'.book == s.book
    && Rooms(s'.live) == Spend(WithRecord(Rooms(s.live), Capacity(s)), Z)
    && |s'.past| <= |s.past| + (if s.live[0].free < Z && s.live[0].resv == 0 then 1 else 0)
    && s'.jobs.Keys == s.jobs.Keys && IsLogged(s', 1) && Persisted(s').Keys == Persisted(s).Keys
  }

  lemma Updating(s: Log, maxN: nat) returns (s': Log)
    requires Steady(s, maxN) && IsLogged(s, 1) && s.answers == []
    ensures Executable(s, Update(1, s.jobs[1].rec), maxN)
    ensures Safe(s', maxN) && Updates(s, s')
    ensures Calm(s') ==> Execute(s, Update(1, s.jobs[1].rec), maxN) == (s', true)
  {
    hide Steady, Reserve, WalWrite, ShortWritten, Safe, Capacity, Usable, Calm, WalMain, Updates, Referenced,
        Unhindered;
    FirstIsLive(s, maxN);
    NewRecordMeans(s);
    SafeWhenGranting(s, maxN);
    CommandIsSafe(s, Update(1, s.jobs[1].rec), maxN);
    RecordIsReserved(s, maxN);
    var s1 := WithRec(Reserve(s, Z).0, 1, s.jobs[1].rec);
    WritesShort(s1, 1);
    s' := ShortWritten(s1, 1);
    s' := s'.(nrec := s'.nrec + 1);
    UpdatedFields(s, Reserve(s, Z).0);
    if Calm(s') {
      CalmStays(s', maxN);
    }
  }

  lemma UpdatedFields(s: Log, s1: Log)
    requires s.live != [] && s1.live != [] && Referenced(s1) && IsLogged(s, 1) && s1.jobs == s.jobs
    requires s1.fileSize == s.fileSize && s1.alive == s.alive && s1.book == s.book
    requires Rooms(s1.live) == WithRecord(Rooms(s.live), Capacity(s))
    requires |s1.past| <= |s.past| + (if s.live[0].free < Z && s.live[0].resv == 0 then 1 else 0)
    ensures var s2 := ShortWritten(WithRec(s1, 1, s.jobs[1].rec), 1);
            Updates(s, s2.(nrec := s2.nrec + 1))
  {
    hide ShortWritten;
    var s2 := WithRec(s1, 1, s.jobs[1].rec);
    ShortSpends(s2, 1);
    SpentRooms(s2, ShortWritten(s2, 1), Z);
    ShortAppended(s2, 1);
    ShortKeepsPast(s2);
  }

  lemma NewRecordMeans(s: Log)
    requires IsLogged(s, 1) && NewRecord(s, 1, s.jobs[1].rec)
    ensures s.jobs[1].home.In? && s.jobs[1].rec.state != INVALID
  {
  }

  lemma SafeWhenGranting(s: Log, maxN: nat)
    requires Steady(s, maxN) && s.answers == []
    ensures Safe(s, maxN) && Granting(s)
  {
  }

  lemma RecordIsReserved(s: Log, maxN: nat)
    requires Steady(s, maxN) && IsLogged(s, 1) && s.answers == []
    ensures s.use && Usable(s) && Capacity(s) >= 2 * Z - 1
    ensures var (s', z) := Reserve(s, Z);
            && z == Z && s'.use && Referenced(s') && s'.live[0].resv > 0 && s'.answers == []
            && Rooms(s'.live) == WithRecord(Rooms(s.live), Capacity(s)) && s'.jobs == s.jobs
            && |s'.past| <= |s.past| + if s.live[0].free < Z && s.live[0].resv == 0 then 1 else 0
  {
    hide Steady, Reserve, Orderly;
    FirstIsLive(s, maxN);
    SteadyIsOrderly(s, maxN);
    SteadyMeans(s, maxN);
    ReserveReady(s, Z, maxN);
    OrderlyMeans(s);
    RecordReserved(s);
    ReadyMeans(Reserve(s, Z).0, Z, maxN);
  }

  lemma OrderlyMeans(s: Log)
    requires Orderly(s)
    ensures s.use && Usable(s) && Capacity(s) >= 2 * Z
  {
  }

  lemma UpdateDone(s: Log, maxN: nat, k: nat, top: u64) returns (s': Log)
    requires Going(s, maxN, k, top) && k > 0
    ensures Going(s', maxN, k, top) && Updates(s, s')
    ensures Calm(s') ==> Allowed(s, UpdateTurn(s), maxN) && Next(s, UpdateTurn(s), maxN) == s'
  {
    hide Steady, Safe, Calm, Execute, Executable, Persisted, Valid, Updates;
    FacingSteady(s, [], maxN);
    s' := Updating(Facing(s, []), maxN);
    FacingUpdates(s, s');
    SameKeys(Persisted(s), Persisted(s'));
    SafeIsSteady(s', maxN);
    UpdateIsValid(s, maxN);
  }

  lemma FacingUpdates(s: Log, s': Log)
    requires Updates(Facing(s, []), s')
    ensures Updates(s, s') && s'.book == s.book && s'.jobs.Keys == s.jobs.Keys && IsLogged(s', 1)
    ensures Persisted(s').Keys == Persisted(s).Keys
  {
  }

  lemma UpdateIsValid(s: Log, maxN: nat)
    requires Steady(s, maxN) && IsLogged(s, 1)
    ensures Valid(s, Update(1, s.jobs[1].rec), maxN)
  {
    hide Steady;
    FirstIsLive(s, maxN);
  }

  lemma ShortKeepsPast(s: Log)
    requires 1 in s.jobs && s.live != []
    ensures ShortWritten(s, 1).past == s.past && ShortWritten(s, 1).fileSize == s.fileSize
    ensures ShortWritten(s, 1).book == s.book
  {
  }

  lemma SameKeys(m: Store, m': Store)
    requires m'.Keys == m.Keys
    ensures |m'| == |m|
  {
    assert |m'.Keys| == |m.Keys|;
  }

  // ---------- Putting a job ----------

  function Zeroes(n: nat): (b: Bytes)
    ensures |b| == n
  {
    seq(n, i => 0)
  }

  // A put that asks for n bytes, in a tube with a name of one letter.
  function PutOf(id: u64, n: nat): Command
    requires SMALLEST <= n < 0x8000_0000_0000_0000
  {
    Put(id, [65], Zeroes(n - SMALLEST + 2), RecOf(id, n))
  }

  function RecOf(id: u64, n: nat): JobRec
    requires SMALLEST <= n < 0x8000_0000_0000_0000
  {
    JobRec(id, 0, 0, 1, n - SMALLEST + 2, 0, 0, 0, 0, 0, 0, 0, READY)
  }

  function JobOf(id: u64, n: nat): Job
    requires SMALLEST <= n < 0x8000_0000_0000_0000
  {
    Job([65], Zeroes(n - SMALLEST + 2), RecOf(id, n), RecOf(id, n), Nowhere, 0)
  }

  // The log as it is when the put reserves.
  ghost function Asking(s: Log, id: u64, n: nat, answers: seq<bool>): Log
    requires SMALLEST <= n < 0x8000_0000_0000_0000
  {
    WithJob(Facing(s, answers), id, JobOf(id, n))
  }

  predicate Fitting(n: nat, maxN: nat) {
    SMALLEST <= n <= maxN && n < 0x8000_0000_0000_0000
  }

  lemma AskingIs(s: Log, id: u64, n: nat, answers: seq<bool>, maxN: nat)
    requires Steady(s, maxN) && Fitting(n, maxN) && id > 0 && id !in s.jobs && id !in s.book
    ensures Valid(s, PutOf(id, n), maxN) && Real(PutOf(id, n))
    ensures var s0 := Asking(s, id, n, answers);
            && Steady(s0, maxN) && Persisted(s0) == Persisted(s) && s0.answers == answers
            && s0.live == s.live && s0.past == s.past && s0.fileSize == s.fileSize && s0.alive == s.alive
            && s0.book == s.book && s0.use == s.use && s0.resv == s.resv
            && s0.jobs == s.jobs[id := JobOf(id, n)] && FullSize([65], Zeroes(n - SMALLEST + 2)) + Z == n
  {
    hide Steady, Persisted;
    FacingSteady(s, answers, maxN);
    FreshIsSteady(Facing(s, answers), id, JobOf(id, n), maxN);
    SameJobsPersist(s, Facing(s, answers));
  }

  lemma PutTurn(s: Log, id: u64, n: nat, answers: seq<bool>, maxN: nat)
    requires Fitting(n, maxN) && Valid(s, PutOf(id, n), maxN) && Real(PutOf(id, n))
    requires FullSize([65], Zeroes(n - SMALLEST + 2)) + Z == n && Reservable(Asking(s, id, n, answers), n, id, maxN)
    ensures var turn := Turn(PutOf(id, n), answers);
            && Allowed(s, turn, maxN)
            && Next(s, turn, maxN) == ReserveAndWrite(Asking(s, id, n, answers), n, id, maxN).0
  {
    hide Reservable, ReserveAndWrite, Valid, FullSize;
  }

  // A put that is refused leaves the log as its reservation has left it.
  lemma PutRefused(s: Log, id: u64, n: nat, answers: seq<bool>, maxN: nat)
    requires Steady(s, maxN) && Fitting(n, maxN) && id > 0 && id !in s.jobs && id !in s.book
    requires Reserve.requires(Asking(s, id, n, answers), n) && Reserve(Asking(s, id, n, answers), n).1 == 0
    ensures var turn := Turn(PutOf(id, n), answers);
            Allowed(s, turn, maxN) && Next(s, turn, maxN) == Reserve(Asking(s, id, n, answers), n).0
  {
    hide Steady, Reserve, Usable, Capacity, Reservable, ReserveAndWrite, Valid, Allowed, Next, FullSize;
    AskingIs(s, id, n, answers, maxN);
    SteadyMeans(Asking(s, id, n, answers), maxN);
    RefusedAtOnce(Asking(s, id, n, answers), id, n, maxN);
    PutTurn(s, id, n, answers, maxN);
  }

  lemma RefusedAtOnce(s: Log, id: u64, n: nat, maxN: nat)
    requires s.use && Usable(s) && Capacity(s) >= 2 * Z - 1 && Reserve(s, n).1 == 0
    ensures Reservable(s, n, id, maxN) && ReserveAndWrite(s, n, id, maxN) == (Reserve(s, n).0, false)
  {
    hide Reserve, Writable, WriteAndMaintain;
  }

  // The log after the put has been written and before it is maintained.
  ghost function AfterPut(s: Log, id: u64): Log
    requires id in s.jobs && s.live != []
  {
    var s' := WriteFull(s, id);
    s'.(nrec := s'.nrec + 1)
  }

  // What a put of n bytes does, after reserving as s1 says, before the log is maintained.
  ghost predicate Puts(s: Log, s1: Log, s': Log, n: nat) {
    && s1.live != [] && s'.fileSize == s.fileSize && s'.alive == s.alive + n - Z
    && Rooms(s'.live) == Spend(Rooms(s1.live), n - Z) && s'.past == s1.past
  }

  lemma PutDone(s: Log, n: nat, maxN: nat, k: nat, top: u64) returns (s1: Log, s': Log)
    requires Going(s, maxN, k, top) && Fitting(n, maxN) && top + 1 < 0x8000_0000_0000_0000
    ensures Reserve.requires(Asking(s, top + 1, n, []), n) && s1 == Reserve(Asking(s, top + 1, n, []), n).0
    ensures Going(s', maxN, k + 1, top + 1) && Puts(s, s1, s', n)
    ensures var turn := Turn(PutOf(top + 1, n), []);
            Calm(s') ==> Allowed(s, turn, maxN) && Next(s, turn, maxN) == s'
  {
    hide Steady, Reserve, Usable, Capacity, WriteFull, Safe, Calm, Persisted, WalWrite, WalMain, Referenced, Reservable,
        ReserveAndWrite, Valid, Granting, IsLogged, Allowed, Next, Puts, AfterPut, FullSize,
        Going, Asking;
    GoingMeans(s, maxN, k, top);
    var id := top + 1;
    AskingIs(s, id, n, [], maxN);
    var s0 := Asking(s, id, n, []);
    SteadyMeans(s0, maxN);
    SafeWhenGranting(s0, maxN);
    PutWritten(s0, id, n, maxN);
    s1 := Reserve(s0, n).0;
    s' := AfterPut(s1, id);
    PutFields(s, s0, s1, id, n, maxN);
    SafeIsSteady(s', maxN);
    GoingMore(s, s', maxN, k, top);
    if Calm(s') {
      PutMaintained(s0, id, n, maxN);
      PutTurn(s, id, n, [], maxN);
    }
  }

  lemma GoingMeans(s: Log, maxN: nat, k: nat, top: u64)
    requires Going(s, maxN, k, top)
    ensures Steady(s, maxN) && forall id :: id > top ==> id !in s.jobs && id !in s.book
  {
  }

  lemma GoingMore(s: Log, s': Log, maxN: nat, k: nat, top: u64)
    requires Going(s, maxN, k, top) && Steady(s', maxN) && |Persisted(s')| == |Persisted(s)| + 1
    requires top + 1 < 0x8000_0000_0000_0000
    requires forall id :: id in s'.jobs ==> id in s.jobs || id == top + 1
    requires forall id :: id in s'.book ==> id in s.book || id == top + 1
    requires (IsLogged(s, 1) ==> IsLogged(s', 1)) && IsLogged(s', top + 1)
    ensures Going(s', maxN, k + 1, top + 1)
  {
    hide *;
    GoingParts(s, maxN, k, top);
    GoingWhole(s', maxN, k + 1, top + 1);
  }

  lemma GoingParts(s: Log, maxN: nat, k: nat, top: u64)
    requires Going(s, maxN, k, top)
    ensures |Persisted(s)| == k && if k > 0 then IsLogged(s, 1) else top == 0
    ensures (forall id :: id in s.jobs ==> id <= top) && (forall id :: id in s.book ==> id <= top)
  {
  }

  lemma GoingWhole(s: Log, maxN: nat, k: nat, top: u64)
    requires Steady(s, maxN) && |Persisted(s)| == k && (if k > 0 then IsLogged(s, 1) else top == 0)
    requires (forall id :: id in s.jobs ==> id <= top) && (forall id :: id in s.book ==> id <= top)
    ensures Going(s, maxN, k, top)
  {
  }

  lemma PutFields(s: Log, s0: Log, s1: Log, id: u64, n: nat, maxN: nat)
    requires Fitting(n, maxN) && s1.live != [] && Referenced(s1) && id in s1.jobs && id !in s.jobs
    requires s1.jobs == s.jobs[id := JobOf(id, n)] && s1.fileSize == s.fileSize && s1.alive == s.alive
    requires s1.book == s.book
    ensures var s' := AfterPut(s1, id);
            && Puts(s, s1, s', n)
            && (forall k :: k in s'.jobs ==> k in s.jobs || k == id)
            && (forall k :: k in s'.book ==> k in s.book || k == id)
            && |Persisted(s')| == |Persisted(s)| + 1 && (IsLogged(s, 1) ==> IsLogged(s', 1)) && IsLogged(s', id)
  {
    hide WriteFull, Persisted;
    FullSpends(s1, id);
    SpentRooms(s1, WriteFull(s1, id), n - Z);
    FullAlso(s1, id);
    PersistedMore(s, AfterPut(s1, id), id);
  }

  lemma PutMaintained(s: Log, id: u64, n: nat, maxN: nat)
    requires s.use && Usable(s) && Capacity(s) >= 2 * Z - 1 && n > 0
    requires var (s1, z) := Reserve(s, n);
             && z == n && id in s1.jobs && s1.use && Referenced(s1) && s1.live != []
             && WalWrite(s1, id) == (AfterPut(s1, id), true) && Safe(AfterPut(s1, id), maxN) && Calm(AfterPut(s1, id))
    ensures Reservable(s, n, id, maxN)
    ensures ReserveAndWrite(s, n, id, maxN) == (AfterPut(Reserve(s, n).0, id), true)
  {
    hide Reserve, WalWrite, Safe, Calm, AfterPut, WalMain, Referenced;
    CalmStays(AfterPut(Reserve(s, n).0, id), maxN);
  }

  lemma FullAlso(s: Log, id: u64)
    requires id in s.jobs && s.live != []
    ensures var s', j := WriteFull(s, id), s.jobs[id];
            && s'.past == s.past && s'.fileSize == s.fileSize && s'.alive == s.alive + FullSize(j.tube, j.body)
            && s'.book == s.book[id := Deed(j.tube, j.body)] && s'.jobs.Keys == s.jobs.Keys
            && (forall k :: k in s.jobs && k != id ==> s'.jobs[k] == s.jobs[k]) && IsLogged(s', id)
  {
  }

  lemma PersistedMore(s: Log, s': Log, id: u64)
    requires id !in s.jobs && s'.jobs.Keys == s.jobs.Keys + {id} && IsLogged(s', id)
    requires forall k :: k in s.jobs ==> s'.jobs[k] == s.jobs[k]
    ensures |Persisted(s')| == |Persisted(s)| + 1
  {
    assert Persisted(s').Keys == Persisted(s).Keys + {id};
    assert |Persisted(s').Keys| == |Persisted(s).Keys| + 1;
  }

  lemma PutWritten(s: Log, id: u64, n: nat, maxN: nat)
    requires Safe(s, maxN) && Granting(s) && Fitting(n, maxN) && id in s.jobs && s.jobs[id] == JobOf(id, n)
    requires Reserve.requires(s, n) && Z <= n && s.use
    ensures var (s1, z) := Reserve(s, n);
            && z == n && Referenced(s1) && id in s1.jobs && s1.live != [] && Safe(AfterPut(s1, id), maxN)
            && WalWrite(s1, id) == (AfterPut(s1, id), true)
  {
    hide Base, Ready, Reserve, Referenced, Usable, Capacity, Steady, Spare, WalWrite, Persisted, WriteFull, SameRoom,
        Unhindered;
    SafeIsSteady(s, maxN);
    SteadyMeans(s, maxN);
    GrantedReserves(s, n);
    ReserveReady(s, n, maxN);
    var s1 := Reserve(s, n).0;
    ReadyIsSteady(s, s1, n, maxN);
    SameRoomUnhindered(s, s1, maxN);
    ReadyMeans(s1, n, maxN);
    SetAside(s1, id, maxN);
    FullWrites(s1, id, n, maxN);
    HeldReserve(s1, n, maxN);
    WritesFull(s1, id);
    SameRoomTwice(s, s1, WalWrite(s1, id).0);
    ReadyIsSteady(s, WalWrite(s1, id).0, 0, maxN);
    SameRoomUnhindered(s1, WalWrite(s1, id).0, maxN);
  }

  lemma HeldReserve(s: Log, n: nat, maxN: nat)
    requires Ready(s, n, maxN) && n > 0
    ensures s.live != [] && s.live[0].resv > 0
  {
    ReadyMeans(s, n, maxN);
  }
}
