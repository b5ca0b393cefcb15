/** How far a run can go without compaction: every file but the current one is full of records of
    jobs in the log, so that what is not in use stays small beside what is. */
module Filling {
  import opened Records
  import opened Replay
  import opened WalState
  import opened Linking
  import opened Space
  import opened Upkeep
  import opened Writing
  import opened Commands
  import opened Runs
  import opened Turns
  import opened Layouts
  import opened Reaching

  // What is written in the current file.
  function InCurrent(s: Log): int
    requires s.live != []
  {
    Capacity(s) - s.live[0].free - s.live[0].resv
  }

  // How much more is in use in the files before the current one than compaction asks for.
  function Ballast(s: Log): int
    requires s.live != []
  {
    3 * (s.alive - InCurrent(s)) - |s.past| * s.fileSize
  }

  lemma SteadyLined(s: Log, maxN: nat)
    requires Steady(s, maxN)
    ensures Lined(s) && s.nfile == |s.past| + |s.live| && s.resv == Z * |Persisted(s)| && InCurrent(s) >= 0
    ensures Capacity(s) >= maxN + Z && s.use
  {
  }

  lemma CalmWith(s: Log, maxN: nat)
    requires Steady(s, maxN) && s.live != [] && s.resv > 0 && Ballast(s) >= |s.live| * s.fileSize
    ensures Calm(s)
  {
    SteadyLined(s, maxN);
    CalmIs(s);
  }

  lemma CalmIs(s: Log)
    requires s.nfile == |s.past| + |s.live| && s.live != [] && s.resv > 0 && InCurrent(s) >= 0
    requires Ballast(s) >= |s.live| * s.fileSize
    ensures Calm(s)
  {
    Distributes(|s.past|, |s.live|, s.fileSize);
  }

  lemma Distributes(a: int, b: int, c: int)
    ensures (a + b) * c == a * c + b * c
  {
  }

  lemma {:induction false} ManyHoldMuch(live: seq<File>)
    requires forall i :: 0 <= i < |live| ==> live[i].resv >= 0
    requires forall i :: 0 <= i < |live| - 1 ==> live[i].resv >= Z
    ensures Sum(live) >= Z * (|live| - 1)
  {
    if live != [] {
      ManyHoldMuch(live[1..]);
    }
  }

  // There are no more files from the current one on than jobs, and two.
  lemma FewFiles(s: Log, maxN: nat)
    requires Steady(s, maxN)
    ensures 0 < |s.live| <= |Persisted(s)| + 2
  {
    SteadyProvides(s, maxN);
    SteadyLined(s, maxN);
    hide Steady, Persisted;
    if |s.live| > 1 {
      assert forall i :: 0 <= i < |s.live[1..]| ==> s.live[1..][i] == s.live[i + 1];
      ManyHoldMuch(s.live[1..]);
      assert Sum(s.live) == s.live[0].resv + Sum(s.live[1..]);
    }
  }

  // ---------- An update ----------

  // The update leaves the current file.
  predicate Leaves(s: Log) {
    s.live != [] && s.live[0].free < Z && s.live[0].resv == 0
  }

  lemma UpdateAdds(s: Log, s': Log)
    requires Orderly(s) && Lined(s') && Updates(s, s')
    ensures Ballast(s') >= Ballast(s) + if Leaves(s) then 3 * (Capacity(s) - Z) - s.fileSize else 0
  {
    hide Orderly, Lined;
    FirstRoom(s, s');
    if |s'.past| > |s.past| {
      assert |s'.past| == |s.past| + 1;
      Distributes(|s.past|, 1, s.fileSize);
    } else {
      MoreTimes(|s'.past|, |s.past|, s.fileSize);
      if Leaves(s) && |s'.past| < |s.past| + 1 {
        MoreTimes(|s'.past|, |s.past| + 1, s.fileSize);
        Distributes(|s.past|, 1, s.fileSize);
      }
    }
  }

  lemma MoreTimes(a: nat, b: nat, c: nat)
    requires a <= b
    ensures a * c <= b * c
  {
    Distributes(a, b - a, c);
  }

  lemma FirstRoom(s: Log, s': Log)
    requires Orderly(s) && Lined(s') && Updates(s, s')
    ensures s.live != [] && s'.live != []
    ensures InCurrent(s') == if Leaves(s) then Z else InCurrent(s) + Z
    ensures Leaves(s) ==> InCurrent(s) > Capacity(s) - Z
  {
    var rs := Rooms(s.live);
    assert Rooms(s'.live)[0] == RoomOf(s'.live[0]);
    assert rs[0] == RoomOf(s.live[0]);
    if s.live[0].free < Z {
      var rs1 := if rs[|rs| - 1].free >= Z then rs else rs + [Blank(Capacity(s), 0)];
      if |s.live| > 1 {
        assert rs[1] == RoomOf(s.live[1]);
      }
      assert rs1[0] == rs[0] && |rs1| > 1;
      if s.live[0].resv == 0 {
        assert WithMore(rs1, Z)[1..][0] == WithMore(rs1, Z)[1];
      }
    }
  }

  // ---------- One job, updated again and again ----------

  // The delete record of the only job stands in the current file, or in the next when the current
  // one is full.
  predicate Alone(s: Log) {
    || (|s.live| == 1 && s.live[0].resv == Z)
    || (|s.live| == 2 && Leaves(s) && s.live[1].resv == Z && s.live[1].free == Capacity(s) - Z)
  }

  // What a file adds to the ballast.
  function Gain(s: Log): int {
    3 * (Capacity(s) - Z) - s.fileSize
  }

  ghost predicate Rolling(s: Log, maxN: nat, top: u64) {
    Going(s, maxN, 1, top) && Alone(s) && s.live != [] && Ballast(s) >= |s.past| * Gain(s) && maxN >= SMALLEST
  }

  lemma AloneGoesOn(s: Log, s': Log)
    requires Orderly(s) && Alone(s) && Updates(s, s') && s.live[0].free >= 0 && Capacity(s) >= 3 * Z
    ensures Alone(s')
    ensures |s.live| == 1 && s.live[0].free >= Z ==> |s'.live| == 1 && s'.live[0].free == s.live[0].free - Z
    ensures |s.live| == 1 && s.live[0].free < Z ==> |s'.live| == 2
  {
    assert forall i :: 0 <= i < |s.live| ==> RoomOf(s.live[i]) == Rooms(s.live)[i];
    assert forall i :: 0 <= i < |s'.live| ==> RoomOf(s'.live[i]) == Rooms(s'.live)[i];
  }

  lemma AloneIsCalm(s: Log)
    requires Alone(s) && s.nfile == |s.past| + |s.live| && s.resv == Z && InCurrent(s) >= 0
    requires Ballast(s) >= |s.past| * Gain(s) && Capacity(s) >= 3 * Z
    ensures Calm(s)
  {
    if |s.past| >= 2 {
      MoreTimes(2, |s.past|, Gain(s));
      Distributes(|s.past|, |s.live|, s.fileSize);
    }
  }

  // One more update.
  lemma RollsOn(s: Log, maxN: nat, top: u64) returns (s': Log)
    requires Rolling(s, maxN, top)
    ensures Allowed(s, UpdateTurn(s), maxN) && s' == Next(s, UpdateTurn(s), maxN)
    ensures Rolling(s', maxN, top) && Orderly(s) && Updates(s, s') && s.live[0].free >= 0 && Capacity(s) >= 3 * Z
    ensures Ballast(s') >= Ballast(s) + if Leaves(s) then Gain(s) else 0
  {
    hide Steady, Allowed, Next, Updates, Orderly, Calm;
    FirstIsLive(s, maxN);
    SteadyIsOrderly(s, maxN);
    SteadyLined(s, maxN);
    s' := UpdateDone(s, maxN, 1, top);
    SteadyLined(s', maxN);
    LinedFree(s);
    UpdateAdds(s, s');
    AloneGoesOn(s, s');
    GainStays(s, s');
    AloneIsCalm(s');
  }

  lemma LinedFree(s: Log)
    requires Lined(s)
    ensures s.live != [] && s.live[0].free >= 0
  {
  }

  lemma GainStays(s: Log, s': Log)
    requires Updates(s, s') && s.live != [] && s'.live != [] && Capacity(s) >= 3 * Z
    requires Ballast(s) >= |s.past| * Gain(s)
    requires Ballast(s') >= Ballast(s) + if Leaves(s) then Gain(s) else 0
    ensures Gain(s') == Gain(s) > 0 && Capacity(s') == Capacity(s) && Ballast(s') >= |s'.past| * Gain(s')
  {
    if Leaves(s) {
      MoreTimes(|s'.past|, |s.past| + 1, Gain(s));
      Distributes(|s.past|, 1, Gain(s));
    } else {
      MoreTimes(|s'.past|, |s.past|, Gain(s));
    }
  }

  function Rounds(s: Log): nat {
    if |s.live| == 1 && s.live[0].free >= 0 then 1 + s.live[0].free else 0
  }

  /** The ballast grows without bound. */
  lemma {:induction false} RollsFar(s: Log, maxN: nat, top: u64, b: int) returns (turns: seq<Turn>)
    requires Rolling(s, maxN, top)
    ensures Lawful(s, turns, maxN)
    ensures var s' := After(s, turns, maxN);
            Rolling(s', maxN, top) && Ballast(s') >= b && s'.fileSize == s.fileSize
    decreases if Ballast(s) < b then b - Ballast(s) else 0, Rounds(s)
  {
    hide Rolling, Allowed, Next, Updates, Orderly, Ballast, Gain, Leaves;
    RollingMeans(s, maxN, top);
    turns := [];
    if Ballast(s) < b {
      var turn := UpdateTurn(s);
      var s' := RollsOn(s, maxN, top);
      RollingMeans(s', maxN, top);
      UpdatesSize(s, s');
      FewerRounds(s, s');
      var more := RollsFar(s', maxN, top, b);
      turns := [turn] + more;
      OneTurn(s, turn, maxN);
      OneAfterAnother(s, [turn], more, maxN);
    }
  }

  lemma RollingMeans(s: Log, maxN: nat, top: u64)
    requires Rolling(s, maxN, top)
    ensures s.live != [] && 1 in s.jobs && Alone(s)
  {
  }

  lemma UpdatesSize(s: Log, s': Log)
    requires Updates(s, s')
    ensures s'.fileSize == s.fileSize
  {
  }

  lemma FewerRounds(s: Log, s': Log)
    requires Orderly(s) && Alone(s) && Updates(s, s') && s.live[0].free >= 0 && Capacity(s) >= 3 * Z
    requires s'.live != [] && Ballast(s') >= Ballast(s) + if Leaves(s) then Gain(s) else 0
    ensures Ballast(s') >= Ballast(s) && (Ballast(s') > Ballast(s) || Rounds(s') < Rounds(s))
  {
    AloneGoesOn(s, s');
  }

  // ---------- The first put ----------

  lemma FirstPut(fileSize: nat, maxN: nat) returns (s': Log)
    requires SMALLEST <= maxN && maxN + Z <= fileSize - WORD < 0x8000_0000_0000_0000
    ensures var s, turn := NewLog(fileSize, []), Turn(PutOf(1, SMALLEST), []);
            && Allowed(s, turn, maxN) && s' == Next(s, turn, maxN)
            && Rolling(s', maxN, 1) && s'.fileSize == fileSize
  {
    hide Steady, Allowed, Next, Calm, Going, Rolling, NewLog, Puts, Reserve, Asking;
    var s := NewLog(fileSize, []);
    NewIsGoing(fileSize, maxN);
    var s1, s2 := PutDone(s, SMALLEST, maxN, 0, 0);
    s' := s2;
    ReservedAtOnce(fileSize);
    FirstIsAlone(fileSize, s1, s', maxN);
  }

  lemma NewIsGoing(fileSize: nat, maxN: nat)
    requires Z <= maxN && maxN + Z <= fileSize - WORD
    ensures Going(NewLog(fileSize, []), maxN, 0, 0)
  {
    NewLogIsSteady(fileSize, [], maxN);
    NewLogIsBase(fileSize, [], maxN);
    hide Steady, Persisted;
  }

  lemma ReservedAtOnce(fileSize: nat)
    requires fileSize - WORD >= SMALLEST
    ensures var s0 := Asking(NewLog(fileSize, []), 1, SMALLEST, []);
            Reserve.requires(s0, SMALLEST) ==>
              var s1 := Reserve(s0, SMALLEST).0;
              && s1.past == [] && |s1.live| == 1 && s1.live[0].resv == SMALLEST
              && s1.live[0].free == fileSize - WORD - SMALLEST
  {
  }

  lemma FirstIsAlone(fileSize: nat, s1: Log, s': Log, maxN: nat)
    requires fileSize - WORD >= SMALLEST && s1.past == [] && |s1.live| == 1 && s1.live[0].resv == SMALLEST
    requires s1.live[0].free == fileSize - WORD - SMALLEST && Puts(NewLog(fileSize, []), s1, s', SMALLEST)
    requires Going(s', maxN, 1, 1) && SMALLEST <= maxN
    ensures Rolling(s', maxN, 1) && Calm(s') && s'.fileSize == fileSize
  {
    hide Going;
    assert Rooms(s'.live)[0] == RoomOf(s'.live[0]) && Rooms(s1.live)[0] == RoomOf(s1.live[0]);
  }
}
