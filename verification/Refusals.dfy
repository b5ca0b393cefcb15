/** When a refused reservation does no harm. The source takes back what it had reserved from what
    is then the tail of the log. That is the file it had reserved it in, unless the loop of
    balance ran more than once. These proofs find the file sizes for which this can happen in a
    server's log, and give for each of them a run from a new log in which it does. */
module Refusals {
  import opened Records
  import opened Replay
  import opened WalState
  import opened Linking
  import opened Space
  import opened Upkeep
  import opened Commands
  import opened Runs
  import opened Turns
  import opened Layouts
  import opened Reaching
  import opened Filling
  import opened Arranging

  /** Every run from a new log, whatever the file system answers on the way, leaves the log as it
      must be between commands. */
  ghost predicate AlwaysSteady(fileSize: nat, maxN: nat) {
    forall turns :: Lawful(NewLog(fileSize, []), turns, maxN) ==> Steady(After(NewLog(fileSize, []), turns, maxN), maxN)
  }

  /** In every log reached, the loop of balance runs at most once for every request. */
  ghost predicate AlwaysOnePass(fileSize: nat, maxN: nat) {
    forall turns, answers, n: nat :: Lawful(NewLog(fileSize, []), turns, maxN) && Z <= n <= maxN ==>
        !HasOneMore(Facing(After(NewLog(fileSize, []), turns, maxN), answers), n)
  }

  // ---------- Files large enough, or no jobs ----------

  lemma AmpleOnePass(s: Log, n: nat, maxN: nat)
    requires Steady(s, maxN) && Ample(Capacity(s), maxN) && Z <= n <= maxN
    ensures !HasOneMore(s, n)
  {
    SteadyMeans(s, maxN);
    hide Base, Persisted, Sum;
    if s.live[0].free < n && NeedFree(s, n).1 == n {
      TailIsMultiple(s);
      NeedFreeKeepsShape(s, n, maxN);
      NeedFreeKeepsAligned(s, n);
      GrantIsPending(NeedFree(s, n).0, n, maxN);
      var s1 := GrantedInTail(s, n);
      AmpleOnePasses(s1, n, maxN);
      if s1.live[0].resv < n && |s1.live| > 1 {
        PassReserves(s1);
      }
    }
  }

  // With requests that small no job can be put, and so nothing can be done.
  lemma NothingToDo(fileSize: nat, maxN: nat, turns: seq<Turn>)
    requires maxN < SMALLEST && Lawful(NewLog(fileSize, []), turns, maxN)
    ensures turns == []
  {
    hide Executable;
  }

  lemma LargeKeeps(fileSize: nat, maxN: nat)
    requires Z <= maxN && maxN + Z <= fileSize - WORD && (Ample(fileSize - WORD, maxN) || maxN < SMALLEST)
    ensures AlwaysSteady(fileSize, maxN) && AlwaysOnePass(fileSize, maxN)
  {
    var s := NewLog(fileSize, []);
    NewLogIsSteady(fileSize, [], maxN);
    hide Steady, Lawful, After, HasOneMore, Ample;
    forall turns | Lawful(s, turns, maxN)
      ensures Steady(After(s, turns, maxN), maxN)
      ensures forall answers, n: nat :: Z <= n <= maxN ==> !HasOneMore(Facing(After(s, turns, maxN), answers), n)
    {
      LargeRun(fileSize, maxN, turns);
    }
  }

  lemma LargeRun(fileSize: nat, maxN: nat, turns: seq<Turn>)
    requires Z <= maxN && maxN + Z <= fileSize - WORD && (Ample(fileSize - WORD, maxN) || maxN < SMALLEST)
    requires Lawful(NewLog(fileSize, []), turns, maxN) && Steady(NewLog(fileSize, []), maxN)
    ensures var s' := After(NewLog(fileSize, []), turns, maxN);
            Steady(s', maxN) && forall answers, n: nat :: Z <= n <= maxN ==> !HasOneMore(Facing(s', answers), n)
  {
    hide Steady, Ample;
    var s := NewLog(fileSize, []);
    if Ample(fileSize - WORD, maxN) {
      TurnsKeep(s, turns, maxN);
      var s' := After(s, turns, maxN);
      forall answers, n: nat | Z <= n <= maxN
        ensures !HasOneMore(Facing(s', answers), n)
      {
        FacingSteady(s', answers, maxN);
        AmpleOnePass(Facing(s', answers), n, maxN);
      }
    } else {
      NothingToDo(fileSize, maxN, turns);
    }
  }

  // ---------- Where runs begin ----------

  // k jobs, with ballast of u files.
  lemma Loaded(fileSize: nat, maxN: nat, k: nat, u: nat) returns (turns: seq<Turn>, s: Log)
    requires Fits(fileSize, maxN) && 0 < k < 0x7fff_0000_0000_0000 && u >= 2 * k + 8
    ensures Leads(NewLog(fileSize, []), turns, s, maxN) && Afloat(s, maxN, k, k, u) && s.fileSize == fileSize
  {
    hide *;
    FitsMeans(fileSize, maxN);
    var s0, first := NewLog(fileSize, []), Turn(PutOf(1, SMALLEST), []);
    var s1 := FirstPut(fileSize, maxN);
    LeadsAtOnce(s0, first, maxN);
    var a := RollsFar(s1, maxN, 1, k * (u * fileSize));
    var s2 := After(s1, a, maxN);
    RollingIsGoing(s2, maxN, 1);
    var b := PutMany(s2, maxN, 1, 1, k, u);
    var s3 := After(s2, b, maxN);
    GoingAfloat(s3, maxN, k, k, u);
    turns, s := [first] + a + b, s3;
    ThreeSteps(s0, [first], s1, a, s2, b, s3, maxN);
  }

  lemma FitsMeans(fileSize: nat, maxN: nat)
    requires Fits(fileSize, maxN)
    ensures SMALLEST <= maxN && maxN + Z <= fileSize - WORD < 0x8000_0000_0000_0000 && Fitting(SMALLEST, maxN)
    ensures 2 * Z <= fileSize - WORD && fileSize < 0x8000_0000_0000_0000 && SMALLEST == 165
  {
  }

  // And with their delete records in the simplest order.
  lemma Begin(fileSize: nat, maxN: nat, k: nat, u: nat) returns (turns: seq<Turn>, s: Log)
    requires Fits(fileSize, maxN) && Whole(fileSize - WORD) < Z * k <= 2 * Whole(fileSize - WORD) && u >= 2 * k + 8
    ensures Leads(NewLog(fileSize, []), turns, s, maxN)
    ensures Afloat(s, maxN, k, k, u) && s.fileSize == fileSize && Rooms(s.live) == Fresh(fileSize - WORD, Z * k)
  {
    hide Afloat, Leads, Whole, Fresh, NewLog;
    WholeBounds(fileSize - WORD);
    var a, s1 := Loaded(fileSize, maxN, k, u);
    var b, s2 := ToFresh(s1, maxN, k, k, u);
    turns, s := a + b, s2;
    LeadsOn(NewLog(fileSize, []), a, s1, b, s2, maxN);
  }

  lemma RollingIsGoing(s: Log, maxN: nat, top: u64)
    requires Rolling(s, maxN, top)
    ensures Going(s, maxN, 1, top) && s.live != []
  {
  }

  lemma GoingAfloat(s: Log, maxN: nat, k: nat, top: u64, u: nat)
    requires Going(s, maxN, k, top) && k > 0 && s.live != [] && u >= k + 2 && Ballast(s) >= u * s.fileSize
    ensures Afloat(s, maxN, k, top, u)
  {
  }

  lemma ThreeSteps(s0: Log, f: seq<Turn>, s1: Log, a: seq<Turn>, s2: Log, b: seq<Turn>, s3: Log, maxN: nat)
    requires Leads(s0, f, s1, maxN) && Lawful(s1, a, maxN) && After(s1, a, maxN) == s2
    requires Lawful(s2, b, maxN) && After(s2, b, maxN) == s3
    ensures Leads(s0, f + a + b, s3, maxN)
  {
    hide Lawful, After;
    LeadsOn(s0, f, s1, a, s2, maxN);
    LeadsOn(s0, f + a, s2, b, s3, maxN);
  }

  // A file holds a request and a delete record, and a job can be put. Sizes are 64-bit numbers.
  predicate Fits(fileSize: nat, maxN: nat) {
    SMALLEST <= maxN && maxN + Z <= fileSize - WORD && fileSize < 0x8000_0000_0000_0000
  }

  // ---------- Puts in a run ----------

  lemma AfloatParts(s: Log, maxN: nat, k: nat, top: u64, b: nat)
    requires Afloat(s, maxN, k, top, b)
    ensures Going(s, maxN, k, top) && k > 0 && s.live != [] && b >= k + 2 && Ballast(s) >= b * s.fileSize
    ensures Steady(s, maxN) && Lined(s) && AllMultiples(s.live) && s.use && Capacity(s) >= maxN + Z
    ensures forall id :: id > top ==> id !in s.jobs && id !in s.book
  {
    hide Steady;
    SteadyLined(s, maxN);
    SteadyTotal(s, maxN);
  }

  // The log as the put finds it has the same files.
  lemma AskingLined(s: Log, maxN: nat, k: nat, top: u64, b: nat, n: nat, answers: seq<bool>)
    requires Afloat(s, maxN, k, top, b) && Fitting(n, maxN) && top + 1 < 0x8000_0000_0000_0000
    ensures var s0 := Asking(s, top + 1, n, answers);
            && Steady(s0, maxN) && Persisted(s0) == Persisted(s) && s0.answers == answers
            && s0.live == s.live && s0.past == s.past && s0.fileSize == s.fileSize && s0.alive == s.alive
            && s0.book == s.book && s0.use && s0.jobs == s.jobs[top + 1 := JobOf(top + 1, n)]
            && Lined(s0) && Capacity(s0) == Capacity(s) && s0.resv == s.resv
    ensures top + 1 !in s.jobs && top + 1 !in s.book
  {
    hide Afloat, Steady, Asking, Persisted;
    AfloatParts(s, maxN, k, top, b);
    AskingIs(s, top + 1, n, answers, maxN);
    SteadyLined(Asking(s, top + 1, n, answers), maxN);
    SameSize(s, Asking(s, top + 1, n, answers));
  }

  // The same files, for the put and for a request alone.
  lemma SameFiles(s: Log, maxN: nat, k: nat, top: u64, b: nat, n: nat, answers: seq<bool>)
    requires Afloat(s, maxN, k, top, b) && Fitting(n, maxN) && top + 1 < 0x8000_0000_0000_0000
    ensures forall s0 :: s0 == Asking(s, top + 1, n, answers) || s0 == Facing(s, answers) ==>
              && Lined(s0) && s0.use && Rooms(s0.live) == Rooms(s.live) && s0.answers == answers
              && Capacity(s0) == Capacity(s)
  {
    hide Afloat, Asking, Lined, Rooms, Capacity;
    AskingLined(s, maxN, k, top, b, n, answers);
    FacingLined(s, maxN, k, top, b, answers);
  }

  // A put that is refused and undone, and leaves an empty file behind.
  lemma PutUndone(s: Log, maxN: nat, k: nat, top: u64, b: nat, rs: seq<Room>, n: nat)
      returns (turns: seq<Turn>, s': Log)
    requires Afloat(s, maxN, k, top, b) && Fitting(n, maxN) && top + 1 < 0x8000_0000_0000_0000
    requires Rooms(s.live) == rs && rs != [] && rs[0].free < n && rs[|rs| - 1].free < n
    requires Capacity(s) - n < rs[0].resv < n && Capacity(s) >= 2 * Z
    ensures Leads(s, turns, s', maxN) && Afloat(s', maxN, k, top + 1, b) && s'.fileSize == s.fileSize
    ensures Rooms(s'.live) == rs + [Blank(Capacity(s), 0)]
  {
    hide Afloat, Leads, Steady, Asking, Persisted, Reserve, Lined, Allowed, Next, Capacity, Usable;
    var answers := [true, false];
    AfloatParts(s, maxN, k, top, b);
    AskingLined(s, maxN, k, top, b, n, answers);
    var s0 := Asking(s, top + 1, n, answers);
    Read(s0, rs);
    RefusedAfterOne(s0, n);
    s' := Reserve(s0, n).0;
    UndoneIsSteady(s0, n, maxN);
    ReserveKeepsJobs(s0, n);
    PutRefused(s, top + 1, n, answers, maxN);
    turns := [Turn(PutOf(top + 1, n), answers)];
    LeadsAtOnce(s, turns[0], maxN);
    StaysAfloat(s, s', maxN, k, top, b, n);
  }

  lemma UndoneIsSteady(s: Log, n: nat, maxN: nat)
    requires Steady(s, maxN) && Z <= n <= maxN && s.live != [] && s.live[Last(s)].free < n
    requires Reserve.requires(s, n)
    requires var (s', z) := Reserve(s, n);
             z == 0 && Lined(s') && Rooms(s'.live) == Rooms(s.live) + [Blank(Capacity(s), 0)]
    ensures Steady(Reserve(s, n).0, maxN)
  {
    hide Steady, Reserve, Base, Persisted, Shape, Lined, Aligned;
    SteadyMeans(s, maxN);
    SpareShape(s, maxN);
    OneMoreFile(s, Reserve(s, n).0, n, maxN);
    RefusedIsReady(s, n, maxN);
  }

  lemma SpareShape(s: Log, maxN: nat)
    requires Spare(s, 0, maxN)
    ensures Shape(s, maxN) && Aligned(s.live, 0, 0)
  {
  }

  lemma OneMoreFile(s: Log, s': Log, n: nat, maxN: nat)
    requires Shape(s, maxN) && Aligned(s.live, 0, 0) && s.live[Last(s)].free < n <= maxN
    requires Lined(s') && Rooms(s'.live) == Rooms(s.live) + [Blank(Capacity(s), 0)]
    ensures Shape(s', maxN) && Aligned(s'.live, 0, 0)
  {
    hide Lined, Usable;
    var rs := Rooms(s'.live);
    forall i | 0 <= i < |s'.live|
      ensures AlignedAt(s'.live, i, 0, 0) && (0 < i < Last(s') ==> Crowded(s'.live[i], maxN))
    {
      assert rs[i] == RoomOf(s'.live[i]);
      if i < |s.live| {
        assert AlignedAt(s.live, i, 0, 0) && rs[i] == Rooms(s.live)[i] == RoomOf(s.live[i]);
        assert 0 < i < Last(s) ==> Crowded(s.live[i], maxN);
      }
    }
  }

  lemma StaysAfloat(s: Log, s': Log, maxN: nat, k: nat, top: u64, b: nat, n: nat)
    requires Afloat(s, maxN, k, top, b) && Steady(s', maxN) && Persisted(s') == Persisted(s) && n >= SMALLEST
    requires n < 0x8000_0000_0000_0000 && top + 1 < 0x8000_0000_0000_0000
    requires s'.jobs == s.jobs[top + 1 := JobOf(top + 1, n)] && s'.book == s.book && s'.alive == s.alive
    requires s'.fileSize == s.fileSize && s'.past == s.past && s'.live != [] && s.live != []
    requires Rooms(s'.live) == Rooms(s.live) + [Blank(Capacity(s), 0)]
    ensures Afloat(s', maxN, k, top + 1, b)
  {
    hide Steady, Persisted;
    assert Rooms(s'.live)[0] == RoomOf(s'.live[0]) && Rooms(s.live)[0] == RoomOf(s.live[0]);
    assert IsLogged(s, 1) && top >= 1;
    GoingWhole(s', maxN, k, top + 1);
  }

  // A put that is granted, as s1 says.
  lemma PutGranted(s: Log, maxN: nat, k: nat, top: u64, b: nat, n: nat) returns (turns: seq<Turn>, s1: Log, s': Log)
    requires Afloat(s, maxN, k, top, b) && Fitting(n, maxN) && top + 1 < 0x8000_0000_0000_0000 && b >= 3 * k + 20
    ensures Reserve.requires(Asking(s, top + 1, n, []), n) && s1 == Reserve(Asking(s, top + 1, n, []), n).0
    ensures Leads(s, turns, s', maxN) && Afloat(s', maxN, k + 1, top + 1, b - (k + 5)) && s'.fileSize == s.fileSize
    ensures s1.live != [] && Rooms(s'.live) == Spend(Rooms(s1.live), n - Z)
  {
    hide Afloat, Leads, Steady, Asking, Reserve, Allowed, Next, Going, Ballast, Puts;
    AfloatParts(s, maxN, k, top, b);
    MoreTimes(2 * k + 8, b, s.fileSize);
    s1, s' := PutMore(s, n, maxN, k, top);
    PutsRooms(s, s1, s', n);
    Distributes(b - (k + 5), k + 5, s.fileSize);
    GoingAfloat(s', maxN, k + 1, top + 1, b - (k + 5));
    turns := [Turn(PutOf(top + 1, n), [])];
    LeadsAtOnce(s, turns[0], maxN);
  }

  lemma PutsRooms(s: Log, s1: Log, s': Log, n: nat)
    requires Puts(s, s1, s', n)
    ensures s1.live != [] && Rooms(s'.live) == Spend(Rooms(s1.live), n - Z) && s'.fileSize == s.fileSize
  {
  }

  // ---------- Harm ----------

  // A reserve that is no multiple of the delete record, or less than nothing.
  predicate Spoilt(s: Log) {
    exists i :: 0 <= i < |s.live| && (s.live[i].resv < 0 || s.live[i].resv % Z != 0)
  }

  lemma SpoiltIsNotSteady(s: Log, maxN: nat)
    requires Spoilt(s)
    ensures !Steady(s, maxN)
  {
    if Steady(s, maxN) {
      SteadyProvides(s, maxN);
    }
  }

  /** A run that comes to a put whose refusal spoils a reserve. */
  lemma Harmful(fileSize: nat, maxN: nat, turns: seq<Turn>, s: Log, k: nat, top: u64, b: nat, n: nat,
      answers: seq<bool>)
    requires Leads(NewLog(fileSize, []), turns, s, maxN) && Afloat(s, maxN, k, top, b)
    requires Fitting(n, maxN) && top + 1 < 0x8000_0000_0000_0000
    requires Reserve.requires(Asking(s, top + 1, n, answers), n)
    requires var (s', z) := Reserve(Asking(s, top + 1, n, answers), n); z == 0 && Spoilt(s')
    requires HasOneMore(Facing(s, answers), n)
    ensures !AlwaysSteady(fileSize, maxN) && !AlwaysOnePass(fileSize, maxN)
  {
    hide Afloat, Steady, Asking, Reserve, Allowed, Next, Spoilt, HasOneMore, Lawful, After;
    AfloatParts(s, maxN, k, top, b);
    PutRefused(s, top + 1, n, answers, maxN);
    var turn := Turn(PutOf(top + 1, n), answers);
    LeadsAtOnce(s, turn, maxN);
    LeadsOn(NewLog(fileSize, []), turns, s, [turn], Next(s, turn, maxN), maxN);
    SpoiltIsNotSteady(Next(s, turn, maxN), maxN);
    assert Lawful(NewLog(fileSize, []), turns + [turn], maxN);
  }

  // A run to two files with x reserved in the first and the rest of k delete records behind it.
  lemma ToTwo(fileSize: nat, maxN: nat, k: nat, u: nat, x: nat) returns (turns: seq<Turn>, s: Log)
    requires Fits(fileSize, maxN) && u >= 2 * k + 8 && x % Z == 0
    requires var q := Whole(fileSize - WORD); q < Z * k <= 2 * q - Z && x <= q - Z && Z * k - x <= q
    ensures Leads(NewLog(fileSize, []), turns, s, maxN) && Afloat(s, maxN, k, k, u) && s.fileSize == fileSize
    ensures var c := fileSize - WORD;
            Rooms(s.live) == [Room(c - Whole(c), x), Blank(c, Z * k - x)]
  {
    hide Afloat, Leads, Whole, Capacity, Fresh, NewLog;
    var c := fileSize - WORD;
    var q := Whole(c);
    WholeBounds(c);
    var m := (q - Z - x) / Z;
    Exactly(q - Z - x);
    var a, s1 := Begin(fileSize, maxN, k, u);
    var rs := [Room(c - q, q - Z), Blank(c, Z * k - q + Z)];
    FreshOfTwo(c, Z * k);
    var b, s2 := Shift(s1, maxN, k, k, u, rs, m);
    turns, s := a + b, s2;
    LeadsOn(NewLog(fileSize, []), a, s1, b, s2, maxN);
    assert Spend(WithMore(rs, m * Z), m * Z) == [Room(c - q, x), Blank(c, Z * k - x)];
  }

  // Files that do not hold twice w: two with w reserved in each, and a put that is refused.
  lemma SmallestFiles(fileSize: nat, maxN: nat)
    requires Fits(fileSize, maxN) && fileSize - WORD < 2 * Below(maxN)
    ensures !AlwaysSteady(fileSize, maxN) && !AlwaysOnePass(fileSize, maxN)
  {
    hide AlwaysSteady, AlwaysOnePass, Whole, Below, Afloat, Leads;
    var c, w := fileSize - WORD, Below(maxN);
    BelowBounds(maxN);
    WholeBounds(c);
    var k := 2 * w / Z;
    Exactly(2 * w);
    MultiplesApart(w, Whole(c), c);
    var turns, s := ToTwo(fileSize, maxN, k, 2 * k + 8, w);
    TwoHarm(fileSize, maxN, turns, s, k, k, 2 * k + 8, c - Whole(c), w);
  }

  // Multiples of the delete record that differ are apart by one.
  lemma MultiplesApart(w: int, q: int, c: int)
    requires w % Z == 0 && q % Z == 0 && w + Z < c < q + Z && q <= c < 2 * w
    ensures w + Z <= q <= 2 * w - Z
  {
  }

  lemma TwoHarm(fileSize: nat, maxN: nat, turns: seq<Turn>, s: Log, k: nat, top: u64, b: nat, f: nat, w: nat)
    requires Leads(NewLog(fileSize, []), turns, s, maxN) && Afloat(s, maxN, k, top, b) && s.fileSize == fileSize
    requires var c := fileSize - WORD;
             Rooms(s.live) == [Room(f, w), Blank(c, w)] && f < maxN && w < maxN <= c < 2 * w && 2 * Z <= c
    requires Fitting(maxN, maxN) && top + 1 < 0x8000_0000_0000_0000
    ensures !AlwaysSteady(fileSize, maxN) && !AlwaysOnePass(fileSize, maxN)
  {
    hide Afloat, Leads, Asking, Reserve, Spoilt, HasOneMore, AlwaysSteady, AlwaysOnePass, Capacity, Lined, Usable;
    var answers := [true, true, false];
    SizeIs(s, fileSize);
    SameFiles(s, maxN, k, top, b, maxN, answers);
    TwoRefused(Asking(s, top + 1, maxN, answers), maxN, f, w);
    TwoRefused(Facing(s, answers), maxN, f, w);
    SpoiltAt(Reserve(Asking(s, top + 1, maxN, answers), maxN).0, 2);
    Harmful(fileSize, maxN, turns, s, k, top, b, maxN, answers);
  }

  // The largest request that is no multiple of the delete record.
  function Odd(maxN: nat): (n: nat)
    requires maxN > 0
  {
    if maxN % Z == 0 then maxN - 1 else maxN
  }

  lemma OddBounds(maxN: nat)
    requires maxN >= SMALLEST
    ensures var n, w := Odd(maxN), Below(maxN);
            && SMALLEST <= n <= maxN && w < n < w + Z && n % Z == n - w
            && (n < maxN ==> n == maxN - 1 && maxN == w + Z && w >= 2 * Z)
  {
  }

  // Larger files, when they do not hold w and a request that is no multiple: three with w.
  lemma LargerFiles(fileSize: nat, maxN: nat)
    requires Fits(fileSize, maxN) && 2 * Below(maxN) <= fileSize - WORD < Odd(maxN) + Below(maxN)
    ensures !AlwaysSteady(fileSize, maxN) && !AlwaysOnePass(fileSize, maxN)
  {
    hide AlwaysSteady, AlwaysOnePass, Whole, Below, Odd;
    var c, w, n := fileSize - WORD, Below(maxN), Odd(maxN);
    BelowBounds(maxN);
    OddBounds(maxN);
    MoreMultiples(w);
    ThriceLess(w);
    WholeIs(c, 2 * w);
    Exactly(3 * w - Z);
    LargerWith(fileSize, maxN, (3 * w - Z) / Z, w, n);
  }

  lemma LargerWith(fileSize: nat, maxN: nat, k: nat, w: nat, n: nat)
    requires Fits(fileSize, maxN) && Fitting(n, maxN) && Z * k == 3 * w - Z && Whole(fileSize - WORD) == 2 * w
    requires var c := fileSize - WORD;
             && w % Z == 0 && 2 * Z <= w < n < w + Z && n % Z == n - w && 2 * w <= c < n + w
    ensures !AlwaysSteady(fileSize, maxN) && !AlwaysOnePass(fileSize, maxN)
  {
    hide AlwaysSteady, AlwaysOnePass, Whole, Afloat, Leads, NewLog, Capacity;
    var u := 5 * k + 60;
    var a, s1 := ToTwo(fileSize, maxN, k, u, w);
    SizeIs(s1, fileSize);
    var b, s2 := EmptyAhead(s1, maxN, k, k, u, n, w);
    SizeIs(s2, fileSize);
    var d, s3 := ThreeFiles(s2, maxN, k, k + 1, u, n, w);
    LeadsOn(NewLog(fileSize, []), a, s1, b, s2, maxN);
    LeadsOn(NewLog(fileSize, []), a + b, s2, d, s3, maxN);
    ThreeHarm(fileSize, maxN, a + b + d, s3, k + 1, k + 2, u - (k + 5), w, n);
  }

  // The current file's w go, behind a put that is refused, into a file of their own.
  lemma EmptyAhead(s: Log, maxN: nat, k: nat, top: u64, b: nat, n: nat, w: nat) returns (turns: seq<Turn>, s': Log)
    requires Afloat(s, maxN, k, top, b) && Fitting(n, maxN) && top + 1 < 0x8000_0000_0000_0000
    requires var c := Capacity(s);
             && Rooms(s.live) == [Room(c - 2 * w, w), Blank(c, 2 * w - Z)]
             && w % Z == 0 && 2 * Z <= w < n < w + Z && 2 * w <= c < n + w
    ensures Leads(s, turns, s', maxN) && Afloat(s', maxN, k, top + 1, b) && s'.fileSize == s.fileSize
    ensures var c := Capacity(s);
            Rooms(s'.live) == [Room(c - 2 * w, 0), Blank(c, 2 * w - Z), Blank(c, w)]
  {
    hide Afloat, Leads, Capacity;
    var c := Capacity(s);
    var rs := [Room(c - 2 * w, w), Blank(c, 2 * w - Z)];
    var d, s1 := PutUndone(s, maxN, k, top, b, rs, n);
    Exactly(w);
    var rs1 := [Room(c - 2 * w, w), Blank(c, 2 * w - Z), Blank(c, 0)];
    assert Rooms(s1.live) == rs1;
    var e, s2 := Shift(s1, maxN, k, top + 1, b, rs1, w / Z);
    assert Spend(WithMore(rs1, w), w) == [Room(c - 2 * w, 0), Blank(c, 2 * w - Z), Blank(c, w)];
    turns, s' := d + e, s2;
    LeadsOn(s, d, s1, e, s2, maxN);
  }

  lemma ThreeFiles(s: Log, maxN: nat, k: nat, top: u64, b: nat, n: nat, w: nat) returns (turns: seq<Turn>, s': Log)
    requires Afloat(s, maxN, k, top, b) && Fitting(n, maxN) && top + 1 < 0x8000_0000_0000_0000 && b >= 3 * k + 20
    requires var c := Capacity(s);
             && Rooms(s.live) == [Room(c - 2 * w, 0), Blank(c, 2 * w - Z), Blank(c, w)]
             && w % Z == 0 && 2 * Z <= w < n < w + Z && n % Z == n - w && 2 * w <= c < n + w
    ensures Leads(s, turns, s', maxN) && Afloat(s', maxN, k + 1, top + 1, b - (k + 5)) && s'.fileSize == s.fileSize
    ensures var c := Capacity(s);
            Rooms(s'.live) == [Room(c - 2 * w - (n - w) + Z, w), Blank(c, w), Blank(c, w)]
  {
    hide Afloat, Leads, Asking, Reserve, Capacity, Lined, Usable, Rooms, Spend;
    SameFiles(s, maxN, k, top, b, n, []);
    ThreeReserved(Asking(s, top + 1, n, []), n, w);
    var s1;
    turns, s1, s' := PutGranted(s, maxN, k, top, b, n);
  }

  lemma ThreeReserved(s: Log, n: nat, w: nat)
    requires Lined(s) && s.use && s.answers == []
    requires var c := Capacity(s);
             && Rooms(s.live) == [Room(c - 2 * w, 0), Blank(c, 2 * w - Z), Blank(c, w)]
             && w % Z == 0 && 2 * Z <= w < n < w + Z && n % Z == n - w && 2 * w <= c < n + w
    ensures Reserve.requires(s, n) && Rooms(Reserve(s, n).0.live) != []
    ensures var c := Capacity(s);
            Spend(Rooms(Reserve(s, n).0.live), n - Z) ==
              [Room(c - 2 * w - (n - w) + Z, w), Blank(c, w), Blank(c, w)]
  {
    hide Reserve, Lined, Capacity, Usable;
    var c := Capacity(s);
    TwiceLess(w);
    GrantedTaking(s, n, c - 2 * w, 2 * w - Z, w, n - w);
    SpendsThree(c, n, w);
  }

  lemma TwiceLess(w: int)
    requires w % Z == 0
    ensures (2 * w - Z) % Z == 0
  {
  }

  lemma ThriceLess(w: int)
    requires w % Z == 0
    ensures (3 * w - Z) % Z == 0
  {
  }

  lemma SpendsThree(c: int, n: int, w: int)
    ensures Spend([Blank(c, 2 * w - Z + (n - w)), Blank(c, w), Blank(c, n - (n - w))], n - Z) ==
              [Room(c - 2 * w - (n - w) + Z, w), Blank(c, w), Blank(c, w)]
  {
  }

  lemma ThreeHarm(fileSize: nat, maxN: nat, turns: seq<Turn>, s: Log, k: nat, top: u64, b: nat, w: nat, n: nat)
    requires Leads(NewLog(fileSize, []), turns, s, maxN) && Afloat(s, maxN, k, top, b) && s.fileSize == fileSize
    requires var c := fileSize - WORD;
             && Rooms(s.live) == [Room(c - 2 * w - (n - w) + Z, w), Blank(c, w), Blank(c, w)]
             && 2 * Z <= w < n < w + Z && 2 * w <= c < n + w && w % Z == 0 && n % Z != 0
    requires Fitting(n, maxN) && top + 1 < 0x8000_0000_0000_0000
    ensures !AlwaysSteady(fileSize, maxN) && !AlwaysOnePass(fileSize, maxN)
  {
    hide Afloat, Leads, Asking, Reserve, Spoilt, HasOneMore, AlwaysSteady, AlwaysOnePass, Capacity, Lined, Usable,
        Rooms;
    var answers := [true, true, false];
    SizeIs(s, fileSize);
    SameFiles(s, maxN, k, top, b, n, answers);
    ThreeSpoil(Asking(s, top + 1, n, answers), n, w);
    ThreeSpoil(Facing(s, answers), n, w);
    Harmful(fileSize, maxN, turns, s, k, top, b, n, answers);
  }

  lemma ThreeSpoil(s: Log, n: nat, w: nat)
    requires Lined(s) && s.use && s.answers == [true, true, false]
    requires var c := Capacity(s);
             && Rooms(s.live) == [Room(c - 2 * w - (n - w) + Z, w), Blank(c, w), Blank(c, w)]
             && 2 * Z <= w < n < w + Z && 2 * w <= c < n + w && w % Z == 0 && n % Z != 0
    ensures HasOneMore(s, n) && Reserve.requires(s, n) && Reserve(s, n).1 == 0 && Spoilt(Reserve(s, n).0)
  {
    hide Reserve, Spoilt, HasOneMore, Lined, Usable;
    ThreeRefused(s, n, Capacity(s) - 2 * w - (n - w) + Z, w);
    NotMultiple(2 * w, n);
    SpoiltAt(Reserve(s, n).0, 2);
  }

  // The largest of them, when requests go up to a multiple n of the delete record: five files, of
  // which two that follow each other hold w.
  lemma LargestFiles(fileSize: nat, maxN: nat)
    requires Fits(fileSize, maxN) && Odd(maxN) < maxN && fileSize - WORD == Odd(maxN) + Below(maxN)
    ensures !AlwaysSteady(fileSize, maxN) && !AlwaysOnePass(fileSize, maxN)
  {
    hide AlwaysSteady, AlwaysOnePass, Whole, Below, Odd;
    var c, w := fileSize - WORD, Below(maxN);
    BelowBounds(maxN);
    OddBounds(maxN);
    MoreMultiples(w);
    MoreMultiples(2 * w);
    WholeIs(c, 2 * w);
    Exactly(4 * w);
    LargestWith(fileSize, maxN, 4 * w / Z, w);
  }

  lemma LargestWith(fileSize: nat, maxN: nat, k: nat, w: nat)
    requires Fits(fileSize, maxN) && Z * k == 4 * w && Whole(fileSize - WORD) == 2 * w && k > 0
    requires w % Z == 0 && 2 * Z <= w && maxN == w + Z && fileSize - WORD == 2 * w + Z - 1
    ensures !AlwaysSteady(fileSize, maxN) && !AlwaysOnePass(fileSize, maxN)
  {
    hide AlwaysSteady, AlwaysOnePass, Whole, Afloat, Leads, NewLog, Capacity;
    var u := 9 * k + 90;
    var a, s1 := ToThree(fileSize, maxN, k, u, w);
    SizeIs(s1, fileSize);
    var b, s2 := FourFiles(s1, maxN, k, k, u, w);
    SizeIs(s2, fileSize);
    var d, s3 := FiveFiles(s2, maxN, k + 1, k + 1, u - (k + 5), w);
    SizeIs(s3, fileSize);
    var e, s4 := FiveAgain(s3, maxN, k + 1, k + 2, u - (k + 5), w);
    LeadsOn(NewLog(fileSize, []), a, s1, b, s2, maxN);
    LeadsOn(NewLog(fileSize, []), a + b, s2, d, s3, maxN);
    LeadsOn(NewLog(fileSize, []), a + b + d, s3, e, s4, maxN);
    FiveHarm(fileSize, maxN, a + b + d + e, s4, k + 2, k + 3, u - (k + 5) - (k + 6), w);
  }

  lemma ToThree(fileSize: nat, maxN: nat, k: nat, u: nat, w: nat) returns (turns: seq<Turn>, s: Log)
    requires Fits(fileSize, maxN) && u >= 2 * k + 8 && Z * k == 4 * w && Whole(fileSize - WORD) == 2 * w
    requires w % Z == 0 && 2 * Z <= w && fileSize - WORD == 2 * w + Z - 1
    ensures Leads(NewLog(fileSize, []), turns, s, maxN) && Afloat(s, maxN, k, k, u) && s.fileSize == fileSize
    ensures var c := fileSize - WORD;
            Rooms(s.live) == [Room(Z - 1, w), Blank(c, 2 * w), Blank(c, w)]
  {
    hide Afloat, Leads, Whole, Capacity, NewLog;
    var c := fileSize - WORD;
    Exactly(w - Z);
    var a, s1 := Begin(fileSize, maxN, k, u);
    var rs := [Room(Z - 1, 2 * w - Z), Blank(c, 2 * w), Blank(c, Z)];
    assert Fresh(c, 4 * w) == rs;
    var b, s2 := Shift(s1, maxN, k, k, u, rs, (w - Z) / Z);
    turns, s := a + b, s2;
    LeadsOn(NewLog(fileSize, []), a, s1, b, s2, maxN);
    assert Spend(WithMore(rs, w - Z), w - Z) == [Room(Z - 1, w), Blank(c, 2 * w), Blank(c, w)];
  }

  // A put of n bytes, n being the next multiple after w.
  lemma FourFiles(s: Log, maxN: nat, k: nat, top: u64, b: nat, w: nat) returns (turns: seq<Turn>, s': Log)
    requires Afloat(s, maxN, k, top, b) && top + 1 < 0x8000_0000_0000_0000 && b >= 3 * k + 20 && Fitting(maxN, maxN)
    requires var c := Capacity(s);
             && Rooms(s.live) == [Room(Z - 1, w), Blank(c, 2 * w), Blank(c, w)]
             && w % Z == 0 && 2 * Z <= w && maxN == w + Z && c == 2 * w + Z - 1
    ensures Leads(s, turns, s', maxN) && Afloat(s', maxN, k + 1, top + 1, b - (k + 5)) && s'.fileSize == s.fileSize
    ensures var c := Capacity(s);
            Rooms(s'.live) == [Room(Z - 1, w), Blank(c, w), Blank(c, w + Z), Blank(c, w)]
  {
    hide Afloat, Leads, Asking, Reserve, Capacity, Lined, Usable, Rooms, Spend;
    SameFiles(s, maxN, k, top, b, maxN, []);
    FourReserved(Asking(s, top + 1, maxN, []), w);
    var s1;
    turns, s1, s' := PutGranted(s, maxN, k, top, b, maxN);
  }

  lemma FourReserved(s: Log, w: nat)
    requires Lined(s) && s.use && s.answers == []
    requires var c := Capacity(s);
             && Rooms(s.live) == [Room(Z - 1, w), Blank(c, 2 * w), Blank(c, w)]
             && w % Z == 0 && 2 * Z <= w && c == 2 * w + Z - 1
    ensures Reserve.requires(s, w + Z) && Rooms(Reserve(s, w + Z).0.live) != []
    ensures var c := Capacity(s);
            Spend(Rooms(Reserve(s, w + Z).0.live), w) == [Room(Z - 1, w), Blank(c, w), Blank(c, w + Z), Blank(c, w)]
  {
    hide Reserve, Lined, Capacity, Usable;
    var c, n := Capacity(s), w + Z;
    MoreMultiples(w);
    GrantedTwice(s, n, Z - 1, 2 * w, w);
    assert Spend([Blank(c, 2 * w), Blank(c, w), Blank(c, n), Blank(c, w)], w) ==
        [Room(Z - 1, w), Blank(c, w), Blank(c, n), Blank(c, w)];
  }

  lemma MoreMultiples(w: int)
    requires w % Z == 0
    ensures (2 * w) % Z == 0 && (w + Z) % Z == 0
  {
  }

  // Another, that is refused; the current file's w go into the file it leaves.
  lemma FiveFiles(s: Log, maxN: nat, k: nat, top: u64, b: nat, w: nat) returns (turns: seq<Turn>, s': Log)
    requires Afloat(s, maxN, k, top, b) && top + 1 < 0x8000_0000_0000_0000 && Fitting(maxN, maxN)
    requires var c := Capacity(s);
             && Rooms(s.live) == [Room(Z - 1, w), Blank(c, w), Blank(c, w + Z), Blank(c, w)]
             && w % Z == 0 && 2 * Z <= w && maxN == w + Z && c == 2 * w + Z - 1
    ensures Leads(s, turns, s', maxN) && Afloat(s', maxN, k, top + 1, b) && s'.fileSize == s.fileSize
    ensures var c := Capacity(s);
            Rooms(s'.live) == [Room(Z - 1, 0), Blank(c, w), Blank(c, w + Z), Blank(c, w), Blank(c, w)]
  {
    hide Afloat, Leads, Capacity;
    var c := Capacity(s);
    var rs := [Room(Z - 1, w), Blank(c, w), Blank(c, w + Z), Blank(c, w)];
    var d, s1 := PutUndone(s, maxN, k, top, b, rs, maxN);
    Exactly(w);
    var rs1 := [Room(Z - 1, w), Blank(c, w), Blank(c, w + Z), Blank(c, w), Blank(c, 0)];
    assert Rooms(s1.live) == rs1;
    var e, s2 := Shift(s1, maxN, k, top + 1, b, rs1, w / Z);
    assert Spend(WithMore(rs1, w), w) == [Room(Z - 1, 0), Blank(c, w), Blank(c, w + Z), Blank(c, w), Blank(c, w)];
    turns, s' := d + e, s2;
    LeadsOn(s, d, s1, e, s2, maxN);
  }

  // And another that is granted.
  lemma FiveAgain(s: Log, maxN: nat, k: nat, top: u64, b: nat, w: nat) returns (turns: seq<Turn>, s': Log)
    requires Afloat(s, maxN, k, top, b) && top + 1 < 0x8000_0000_0000_0000 && b >= 3 * k + 20 && Fitting(maxN, maxN)
    requires var c := Capacity(s);
             && Rooms(s.live) == [Room(Z - 1, 0), Blank(c, w), Blank(c, w + Z), Blank(c, w), Blank(c, w)]
             && w % Z == 0 && 2 * Z <= w && maxN == w + Z && c == 2 * w + Z - 1
    ensures Leads(s, turns, s', maxN) && Afloat(s', maxN, k + 1, top + 1, b - (k + 5)) && s'.fileSize == s.fileSize
    ensures var c := Capacity(s);
            Rooms(s'.live) == [Room(w - 1, Z), Blank(c, w), Blank(c, w), Blank(c, w + Z), Blank(c, w)]
  {
    hide Afloat, Leads, Asking, Reserve, Capacity, Lined, Usable, Rooms, Spend;
    SameFiles(s, maxN, k, top, b, maxN, []);
    FiveReserved(Asking(s, top + 1, maxN, []), w);
    var s1;
    turns, s1, s' := PutGranted(s, maxN, k, top, b, maxN);
  }

  lemma FiveReserved(s: Log, w: nat)
    requires Lined(s) && s.use && s.answers == []
    requires var c := Capacity(s);
             && Rooms(s.live) == [Room(Z - 1, 0), Blank(c, w), Blank(c, w + Z), Blank(c, w), Blank(c, w)]
             && w % Z == 0 && 2 * Z <= w && c == 2 * w + Z - 1
    ensures Reserve.requires(s, w + Z) && Rooms(Reserve(s, w + Z).0.live) != []
    ensures var c := Capacity(s);
            Spend(Rooms(Reserve(s, w + Z).0.live), w) ==
              [Room(w - 1, Z), Blank(c, w), Blank(c, w), Blank(c, w + Z), Blank(c, w)]
  {
    hide Reserve, Lined, Capacity, Usable;
    var c, n := Capacity(s), w + Z;
    MoreMultiples(w);
    GrantedThird(s, n, Z - 1, w);
    assert Spend([Blank(c, n), Blank(c, w), Blank(c, w), Blank(c, n), Blank(c, w)], w) ==
        [Room(w - 1, Z), Blank(c, w), Blank(c, w), Blank(c, n), Blank(c, w)];
  }

  lemma FiveHarm(fileSize: nat, maxN: nat, turns: seq<Turn>, s: Log, k: nat, top: u64, b: nat, w: nat)
    requires Leads(NewLog(fileSize, []), turns, s, maxN) && Afloat(s, maxN, k, top, b) && s.fileSize == fileSize
    requires var c := fileSize - WORD;
             && Rooms(s.live) == [Room(w - 1, Z), Blank(c, w), Blank(c, w), Blank(c, w + Z), Blank(c, w)]
             && w % Z == 0 && 2 * Z <= w && maxN == w + Z && c == 2 * w + Z - 1
    requires Fitting(w + Z - 1, maxN) && top + 1 < 0x8000_0000_0000_0000
    ensures !AlwaysSteady(fileSize, maxN) && !AlwaysOnePass(fileSize, maxN)
  {
    hide Afloat, Leads, Asking, Reserve, Spoilt, HasOneMore, AlwaysSteady, AlwaysOnePass, Capacity, Lined, Usable,
        Rooms;
    var answers, n := [true, false], w + Z - 1;
    SizeIs(s, fileSize);
    SameFiles(s, maxN, k, top, b, n, answers);
    FiveSpoil(Asking(s, top + 1, n, answers), w);
    FiveSpoil(Facing(s, answers), w);
    Harmful(fileSize, maxN, turns, s, k, top, b, n, answers);
  }

  lemma FiveSpoil(s: Log, w: nat)
    requires Lined(s) && s.use && s.answers == [true, false]
    requires var c := Capacity(s);
             && Rooms(s.live) == [Room(w - 1, Z), Blank(c, w), Blank(c, w), Blank(c, w + Z), Blank(c, w)]
             && w % Z == 0 && 2 * Z <= w && c == 2 * w + Z - 1
    ensures var n := w + Z - 1;
            HasOneMore(s, n) && Reserve.requires(s, n) && Reserve(s, n).1 == 0 && Spoilt(Reserve(s, n).0)
  {
    hide Reserve, Spoilt, HasOneMore, Lined, Usable;
    FiveRefused(s, w + Z - 1, w - 1, w, w + Z);
    SpoiltAt(Reserve(s, w + Z - 1).0, 3);
  }

  lemma NotMultiple(w: int, n: int)
    requires w % Z == 0 && n % Z != 0
    ensures (w - n) % Z != 0
  {
  }

  lemma BelowBounds(n: nat)
    requires n >= SMALLEST
    ensures Below(n) % Z == 0 && 2 * Z <= Below(n) < n <= Below(n) + Z
  {
  }

  // A multiple is as many times the delete record as it says.
  lemma Exactly(n: int)
    requires n >= 0 && n % Z == 0
    ensures n / Z * Z == n == Z * (n / Z) && n / Z >= 0
  {
  }

  lemma SizeIs(s: Log, fileSize: nat)
    requires s.fileSize == fileSize
    ensures Capacity(s) == fileSize - WORD
  {
  }

  lemma FreshOfTwo(capacity: int, t: int)
    requires t <= 2 * Whole(capacity) - Z
    ensures var q := Whole(capacity);
            Fresh(capacity, t) == [Room(capacity - q, q - Z), Blank(capacity, t - q + Z)]
  {
  }

  lemma SpoiltAt(s: Log, i: nat)
    requires i < |s.live| && (s.live[i].resv < 0 || s.live[i].resv % Z != 0)
    ensures Spoilt(s)
  {
  }

  lemma FacingLined(s: Log, maxN: nat, k: nat, top: u64, b: nat, answers: seq<bool>)
    requires Afloat(s, maxN, k, top, b)
    ensures var s0 := Facing(s, answers);
            Lined(s0) && s0.use && s0.live == s.live && s0.answers == answers && Capacity(s0) == Capacity(s)
  {
    hide Afloat, Steady;
    AfloatParts(s, maxN, k, top, b);
    FacingSteady(s, answers, maxN);
    SteadyLined(Facing(s, answers), maxN);
  }

  // ---------- Exactly when ----------

  lemma SmallIsHarmed(fileSize: nat, maxN: nat)
    requires Fits(fileSize, maxN) && !Ample(fileSize - WORD, maxN)
    ensures !AlwaysSteady(fileSize, maxN) && !AlwaysOnePass(fileSize, maxN)
  {
    hide AlwaysSteady, AlwaysOnePass, Below, Odd;
    BelowBounds(maxN);
    OddBounds(maxN);
    var c, w, n := fileSize - WORD, Below(maxN), Odd(maxN);
    if c < 2 * w {
      SmallestFiles(fileSize, maxN);
    } else if c < n + w {
      LargerFiles(fileSize, maxN);
    } else {
      LargestFiles(fileSize, maxN);
    }
  }

  /** Every run from a new log leaves the log in order between commands, whatever requests for
      files are refused, exactly when files are ample or too small for any job. The loop of
      balance runs at most once in every log reached, as its comment says, exactly then. */
  lemma RefusalsAreCleanExactlyWhenAmple(fileSize: nat, maxN: nat)
    requires Z <= maxN && maxN + Z <= fileSize - WORD && fileSize < 0x8000_0000_0000_0000
    ensures AlwaysSteady(fileSize, maxN) <==> Ample(fileSize - WORD, maxN) || maxN < SMALLEST
    ensures AlwaysOnePass(fileSize, maxN) <==> Ample(fileSize - WORD, maxN) || maxN < SMALLEST
  {
    hide AlwaysSteady, AlwaysOnePass, Ample;
    if Ample(fileSize - WORD, maxN) || maxN < SMALLEST {
      LargeKeeps(fileSize, maxN);
    } else {
      SmallIsHarmed(fileSize, maxN);
    }
  }
}
