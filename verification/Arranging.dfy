/** How updates move what is reserved from file to file. The files a run leaves from the current one
    on are emptied of it one by one, and the tail is filled, so that in the end every file but the
    last holds as many delete records as it can. */
module Arranging {
  import opened Records
  import opened Replay
  import opened WalState
  import opened Linking
  import opened Space
  import opened Upkeep
  import opened Writing
  import opened Commands
  import opened Runs
  import opened Turns
  import opened Layouts
  import opened Reaching
  import opened Filling

  // A run that has ballast enough to go on by updates without compaction.
  ghost predicate Afloat(s: Log, maxN: nat, k: nat, top: u64, b: nat) {
    Going(s, maxN, k, top) && k > 0 && s.live != [] && b >= k + 2 && Ballast(s) >= b * s.fileSize
  }

  // ---------- Putting more jobs ----------

  lemma PassShortens(s: Log)
    requires Usable(s)
    ensures |Pass(s).0.past| <= |s.past| + 1
  {
    var m := s.live[0].resv;
    var s1 := NeedFree(s, m).0;
    if NeedFree(s, m).1 == m {
      var s2 := MoveResv(s1, Last(s1), 0, m);
      GcShortens(s2.(past := s2.past + [Closed(s2, s2.live[0])], live := s2.live[1..]));
    }
  }

  lemma {:induction false} LoopShortens(s: Log, n: int, t: nat)
    requires Usable(s) && t < |s.live| && s.live[t].resv >= n
    ensures |MakeRoom(s, n, t).0.past| <= |s.past| + t
    decreases t
  {
    hide Pass;
    if s.live[0].resv < n {
      PassShortens(s);
      if Pass(s).1 {
        LoopShortens(Pass(s).0, n, t - 1);
      }
    }
  }

  lemma {:induction false} WalkKeepsPast(s: Log, i: nat, n: nat)
    requires Usable(s) && i <= |s.live| && (i < |s.live| ==> s.live[i].resv >= n) && Capacity(s) >= 2 * Z - 1
    ensures BalanceRest(s, i, n).0.past == s.past
    decreases Work(s, i)
  {
    if i < |s.live| {
      assert Settle(s, i, n).0.past == s.past;
      if Settle(s, i, n).1 {
        WalkKeepsPast(Settle(s, i, n).0, i + 1, 0);
      }
    }
  }

  // A reservation leaves no more files behind than there were from the current one on.
  lemma ReserveShortens(s: Log, n: nat)
    requires s.use && Usable(s) && Capacity(s) >= 2 * Z - 1
    ensures |Reserve(s, n).0.past| <= |s.past| + |s.live|
  {
    if s.live[0].free < n && NeedFree(s, n).1 == n {
      hide MakeRoom, BalanceRest;
      var s1 := NeedFree(s, n).0;
      var s2 := Grant(s1, Last(s1), n);
      LoopShortens(s2, n, Last(s1));
      var (s3, ok) := MakeRoom(s2, n, Last(s1));
      if ok {
        WalkKeepsPast(s3, 0, n);
      }
    }
  }

  // What a put costs of the ballast.
  lemma PutTakes(s: Log, s1: Log, s': Log, n: nat, k: nat)
    requires s.live != [] && s'.live != [] && Puts(s, s1, s', n) && Z <= n
    requires |s1.past| <= |s.past| + |s.live| && |s.live| <= k + 2 && s.fileSize >= WORD
    requires InCurrent(s) >= 0 && InCurrent(s') <= Capacity(s')
    ensures Ballast(s') >= Ballast(s) - (k + 5) * s.fileSize
  {
    MoreTimes(|s1.past|, |s.past| + k + 2, s.fileSize);
    Distributes(|s.past|, k + 2, s.fileSize);
    Distributes(k + 2, 3, s.fileSize);
  }

  lemma LinedWritten(s: Log)
    requires Lined(s)
    ensures InCurrent(s) <= Capacity(s)
  {
  }

  // One more job.
  lemma PutMore(s: Log, n: nat, maxN: nat, k: nat, top: u64) returns (s1: Log, s': Log)
    requires Going(s, maxN, k, top) && k > 0 && Fitting(n, maxN) && top + 1 < 0x8000_0000_0000_0000
    requires s.live != [] && Ballast(s) >= (2 * k + 8) * s.fileSize
    ensures Reserve.requires(Asking(s, top + 1, n, []), n) && s1 == Reserve(Asking(s, top + 1, n, []), n).0
    ensures var turn := Turn(PutOf(top + 1, n), []);
            Allowed(s, turn, maxN) && Next(s, turn, maxN) == s'
    ensures Going(s', maxN, k + 1, top + 1) && Puts(s, s1, s', n)
    ensures s'.live != [] && Ballast(s') >= Ballast(s) - (k + 5) * s.fileSize
  {
    hide Steady, Reserve, Allowed, Next, Calm, Asking, Lined, Puts, Going, Ballast;
    GoingMeans(s, maxN, k, top);
    GoingParts(s, maxN, k, top);
    s1, s' := PutDone(s, n, maxN, k, top);
    GoingMeans(s', maxN, k + 1, top + 1);
    GoingParts(s', maxN, k + 1, top + 1);
    SteadyLined(s, maxN);
    SteadyLined(s', maxN);
    FewFiles(s, maxN);
    FewFiles(s', maxN);
    LinedWritten(s');
    AskingIs(s, top + 1, n, [], maxN);
    AskingUsable(s, top + 1, n, maxN);
    ReserveShortens(Asking(s, top + 1, n, []), n);
    PutTakes(s, s1, s', n, k);
    PutsSize(s, s1, s', n);
    Distributes(k + 5, k + 3, s.fileSize);
    MoreTimes(|s'.live|, k + 3, s.fileSize);
    CalmWith(s', maxN);
  }

  lemma PutsSize(s: Log, s1: Log, s': Log, n: nat)
    requires Puts(s, s1, s', n)
    ensures s'.fileSize == s.fileSize
  {
  }

  lemma AskingUsable(s: Log, id: u64, n: nat, maxN: nat)
    requires Fitting(n, maxN) && Steady(Asking(s, id, n, []), maxN)
    ensures var s0 := Asking(s, id, n, []);
            s0.use && Usable(s0) && Capacity(s0) >= 2 * Z - 1
  {
    hide Steady, Asking;
    SteadyMeans(Asking(s, id, n, []), maxN);
  }

  /** More jobs, as many as one likes, with ballast of u files for each of them and for what comes
      after. */
  lemma {:induction false} PutMany(s: Log, maxN: nat, k: nat, top: u64, last: nat, u: nat) returns (turns: seq<Turn>)
    requires Going(s, maxN, k, top) && 0 < k <= last && Fitting(SMALLEST, maxN) && u >= 2 * last + 8
    requires top as nat + (last - k) < 0x8000_0000_0000_0000
    requires s.live != [] && Ballast(s) >= (last - k + 1) * (u * s.fileSize)
    ensures Lawful(s, turns, maxN)
    ensures var s' := After(s, turns, maxN);
            && Going(s', maxN, last, top + (last - k)) && s'.fileSize == s.fileSize
            && s'.live != [] && Ballast(s') >= u * s.fileSize
    decreases last - k
  {
    hide Going, Allowed, Next, Puts, Ballast, Reserve, Asking;
    turns := [];
    Distributes(last - k, 1, u * s.fileSize);
    if k < last {
      MoreTimes(0, last - k, u * s.fileSize);
      MoreTimes(2 * k + 8, u, s.fileSize);
      MoreTimes(k + 5, u, s.fileSize);
      var s1, s' := PutMore(s, SMALLEST, maxN, k, top);
      PutsSize(s, s1, s', SMALLEST);
      var turn := Turn(PutOf(top + 1, SMALLEST), []);
      var more := PutMany(s', maxN, k + 1, top + 1, last, u);
      turns := [turn] + more;
      OneTurn(s, turn, maxN);
      OneAfterAnother(s, [turn], more, maxN);
    }
  }

  // ---------- Updates, one after another ----------

  ghost predicate Leads(s: Log, turns: seq<Turn>, s': Log, maxN: nat) {
    Lawful(s, turns, maxN) && After(s, turns, maxN) == s'
  }

  lemma LeadsOn(s: Log, a: seq<Turn>, s1: Log, b: seq<Turn>, s2: Log, maxN: nat)
    requires Leads(s, a, s1, maxN) && Leads(s1, b, s2, maxN)
    ensures Leads(s, a + b, s2, maxN)
  {
    hide Lawful, After;
    OneAfterAnother(s, a, b, maxN);
  }

  lemma LeadsNowhere(s: Log, maxN: nat)
    ensures Leads(s, [], s, maxN)
  {
  }

  lemma LeadsAtOnce(s: Log, turn: Turn, maxN: nat)
    requires Allowed(s, turn, maxN)
    ensures Leads(s, [turn], Next(s, turn, maxN), maxN)
  {
    OneTurn(s, turn, maxN);
  }

  // One update, with what it starts from and what it comes to.
  lemma UpdateMore(s: Log, maxN: nat, k: nat, top: u64, b: nat) returns (turns: seq<Turn>, s': Log)
    requires Afloat(s, maxN, k, top, b)
    ensures Leads(s, turns, s', maxN) && Afloat(s', maxN, k, top, b) && s'.fileSize == s.fileSize
    ensures Updated(s, s')
  {
    hide Steady, Allowed, Next, Updates, Orderly, Calm, Ballast, Lined, Leads;
    AfloatMeans(s, maxN, k, top, b);
    FirstIsLive(s, maxN);
    SteadyIsOrderly(s, maxN);
    s' := UpdateDone(s, maxN, k, top);
    SteadyLined(s, maxN);
    SteadyLined(s', maxN);
    FewFiles(s', maxN);
    UpdateAdds(s, s');
    UpdatesSize(s, s');
    Enough(s, maxN);
    MoreTimes(|s'.live|, b, s.fileSize);
    CalmWith(s', maxN);
    turns := [UpdateTurn(s)];
    LeadsAtOnce(s, UpdateTurn(s), maxN);
    UpdatedIs(s, s');
  }

  // The update, seen in the rooms of files that are in line.
  ghost predicate Updated(s: Log, s': Log) {
    && Lined(s) && Lined(s') && AllMultiples(s.live) && Capacity(s') == Capacity(s)
    && Rooms(s'.live) == Spend(WithRecord(Rooms(s.live), Capacity(s)), Z)
  }

  lemma UpdatedIs(s: Log, s': Log)
    requires Orderly(s) && Updates(s, s') && Lined(s) && Lined(s')
    ensures Updated(s, s')
  {
  }

  lemma AfloatMeans(s: Log, maxN: nat, k: nat, top: u64, b: nat)
    requires Afloat(s, maxN, k, top, b)
    ensures Steady(s, maxN) && IsLogged(s, 1) && |Persisted(s)| == k > 0 && s.live != []
  {
  }

  // A file is large enough for another to make up for what is left over in it.
  lemma Enough(s: Log, maxN: nat)
    requires Steady(s, maxN)
    ensures 3 * (Capacity(s) - Z) - s.fileSize >= 0
  {
  }

  // ---------- From the current file to the tail ----------

  // The reserve of the current file, which has no room left, is moved to the tail, m records of it.
  lemma {:induction false} Shift(s: Log, maxN: nat, k: nat, top: u64, b: nat, rs: seq<Room>, m: nat)
      returns (turns: seq<Turn>, s': Log)
    requires Afloat(s, maxN, k, top, b) && Rooms(s.live) == rs && |rs| > 1
    requires rs[0].free < Z && rs[0].resv >= m * Z && rs[|rs| - 1].free >= m * Z
    ensures Leads(s, turns, s', maxN) && Afloat(s', maxN, k, top, b) && s'.fileSize == s.fileSize
    ensures Rooms(s'.live) == Spend(WithMore(rs, m * Z), m * Z)
    decreases m
  {
    hide Afloat, Leads;
    if m == 0 {
      turns, s' := [], s;
      LeadsNowhere(s, maxN);
    } else {
      var a, s1 := UpdateMore(s, maxN, k, top, b);
      var rs1 := Spend(WithMore(rs, Z), Z);
      assert WithRecord(rs, Capacity(s)) == WithMore(rs, Z);
      var c, s2 := Shift(s1, maxN, k, top, b, rs1, m - 1);
      turns, s' := a + c, s2;
      LeadsOn(s, a, s1, c, s2, maxN);
      assert Spend(WithMore(rs1, (m - 1) * Z), (m - 1) * Z) == Spend(WithMore(rs, m * Z), m * Z);
    }
  }

  // ---------- From file to file ----------

  // Every file from j on but the tail is full of delete records.
  predicate PackedFrom(rs: seq<Room>, j: nat) {
    forall i :: j <= i < |rs| - 1 ==> rs[i].free < Z
  }

  function Left(rs: seq<Room>): int
    requires rs != []
  {
    rs[0].free + rs[0].resv
  }

  predicate AtEdge(rs: seq<Room>) {
    rs != [] && rs[0].free < Z && rs[0].resv == 0
  }

  lemma UpdatedNearer(s: Log, s': Log, j: nat)
    requires Updated(s, s') && j > 0 && PackedFrom(Rooms(s.live), j) && !AtEdge(Rooms(s.live))
    ensures PackedFrom(Rooms(s'.live), j) && 0 <= Left(Rooms(s'.live)) < Left(Rooms(s.live))
  {
    LinedRooms(s);
    LinedRooms(s');
  }

  lemma LinedRooms(s: Log)
    requires Lined(s)
    ensures var rs := Rooms(s.live);
            && rs != [] && rs[0].free >= 0 && rs[0].resv >= 0
            && (AllMultiples(s.live) && rs[0].resv > 0 ==> rs[0].resv >= Z)
  {
    assert Rooms(s.live)[0] == RoomOf(s.live[0]);
  }

  // The current file is used up.
  lemma {:induction false} ToTheEdge(s: Log, maxN: nat, k: nat, top: u64, b: nat, j: nat)
      returns (turns: seq<Turn>, s': Log)
    requires Afloat(s, maxN, k, top, b) && j > 0 && PackedFrom(Rooms(s.live), j)
    ensures Leads(s, turns, s', maxN) && Afloat(s', maxN, k, top, b) && s'.fileSize == s.fileSize
    ensures PackedFrom(Rooms(s'.live), j) && AtEdge(Rooms(s'.live))
    decreases if s.live != [] then Left(Rooms(s.live)) else 0
  {
    hide Afloat, Leads, PackedFrom, Updated;
    if AtEdge(Rooms(s.live)) {
      turns, s' := [], s;
      LeadsNowhere(s, maxN);
    } else {
      var a, s1 := UpdateMore(s, maxN, k, top, b);
      UpdatedNearer(s, s1, j);
      UpdatedLive(s, s1);
      var c, s2 := ToTheEdge(s1, maxN, k, top, b, j);
      turns, s' := a + c, s2;
      LeadsOn(s, a, s1, c, s2, maxN);
    }
  }

  lemma UpdatedLive(s: Log, s': Log)
    requires Updated(s, s')
    ensures s.live != [] && s'.live != []
  {
  }

  lemma UpdatedFurther(s: Log, s': Log, j: nat)
    requires Updated(s, s') && PackedFrom(Rooms(s.live), j + 1) && AtEdge(Rooms(s.live))
    ensures PackedFrom(Rooms(s'.live), if j > 0 then j else 1)
  {
  }

  // One file after the other is used up, until those that were not full are gone.
  lemma {:induction false} PackAll(s: Log, maxN: nat, k: nat, top: u64, b: nat, j: nat)
      returns (turns: seq<Turn>, s': Log)
    requires Afloat(s, maxN, k, top, b) && j > 0 && PackedFrom(Rooms(s.live), j)
    ensures Leads(s, turns, s', maxN) && Afloat(s', maxN, k, top, b) && s'.fileSize == s.fileSize
    ensures PackedFrom(Rooms(s'.live), 1) && AtEdge(Rooms(s'.live))
    decreases j
  {
    hide Afloat, Leads, PackedFrom, Updated, AtEdge;
    var a, s1 := ToTheEdge(s, maxN, k, top, b, j);
    if j == 1 {
      turns, s' := a, s1;
    } else {
      var c, s2 := UpdateMore(s1, maxN, k, top, b);
      UpdatedFurther(s1, s2, j - 1);
      var d, s3 := PackAll(s2, maxN, k, top, b, j - 1);
      LeadsOn(s, a, s1, c, s2, maxN);
      LeadsOn(s, a + c, s2, d, s3, maxN);
      turns, s' := a + c + d, s3;
    }
  }

  // ---------- The files in their simplest order ----------

  // As many delete records as a file holds.
  function Whole(capacity: int): int {
    capacity / Z * Z
  }

  // A full file has just become the current one; the rest of t reserved bytes is behind it.
  function Fresh(capacity: int, t: int): seq<Room> {
    var q := Whole(capacity);
    [Room(capacity - q, q - Z)] +
    if t <= 2 * q - Z then [Blank(capacity, t - q + Z)] else [Blank(capacity, q), Blank(capacity, Z)]
  }

  lemma WholeIs(capacity: int, resv: int)
    requires capacity >= 0 && resv % Z == 0 && 0 <= capacity - resv < Z
    ensures resv == Whole(capacity)
  {
  }

  lemma WholeBounds(capacity: int)
    requires capacity >= Z
    ensures Z <= Whole(capacity) <= capacity < Whole(capacity) + Z && Whole(capacity) % Z == 0
  {
  }

  lemma MultipleFits(capacity: int, resv: int)
    requires capacity >= 0 && resv % Z == 0 && resv <= capacity
    ensures resv <= Whole(capacity)
  {
  }

  function Total(rs: seq<Room>): int {
    if rs == [] then 0 else rs[0].resv + Total(rs[1..])
  }

  lemma {:induction false} TotalIsSum(live: seq<File>)
    ensures Total(Rooms(live)) == Sum(live)
  {
    if live != [] {
      TotalIsSum(live[1..]);
      assert Rooms(live)[1..] == Rooms(live[1..]);
    }
  }

  lemma {:induction false} TotalNotNegative(rs: seq<Room>)
    requires forall i :: 0 <= i < |rs| ==> rs[i].resv >= 0
    ensures Total(rs) >= 0
  {
    if rs != [] {
      TotalNotNegative(rs[1..]);
    }
  }

  lemma TotalOfTwo(rs: seq<Room>)
    requires |rs| == 2
    ensures Total(rs) == rs[0].resv + rs[1].resv
  {
    assert Total(rs[1..]) == rs[1].resv + Total(rs[1..][1..]);
  }

  lemma TotalOfMore(rs: seq<Room>)
    requires |rs| >= 3 && forall i :: 0 <= i < |rs| ==> rs[i].resv >= 0
    ensures Total(rs) >= rs[0].resv + rs[1].resv + rs[2].resv
    ensures |rs| == 3 ==> Total(rs) == rs[0].resv + rs[1].resv + rs[2].resv
  {
    var t := rs[1..][1..][1..];
    assert Total(rs[1..]) == rs[1].resv + Total(rs[1..][1..]);
    assert Total(rs[1..][1..]) == rs[2].resv + Total(t);
    assert forall i :: 0 <= i < |t| ==> t[i] == rs[i + 3];
    TotalNotNegative(t);
  }

  lemma TotalOfMany(rs: seq<Room>)
    requires |rs| >= 4 && forall i :: 0 <= i < |rs| ==> rs[i].resv >= 0
    ensures Total(rs) >= rs[0].resv + rs[1].resv + rs[2].resv + rs[3].resv
  {
    TotalOfMore(rs[1..]);
  }

  // All files but the last are full, the current one but for the record just written.
  ghost predicate AllFull(rs: seq<Room>, capacity: int) {
    var q, t := Whole(capacity), |rs| - 1;
    && t >= 1 && rs[0] == Room(capacity - q, q - Z) && (forall i :: 0 < i < t ==> rs[i] == Blank(capacity, q))
    && rs[t].free + rs[t].resv == capacity && Z <= rs[t].resv <= q
  }

  lemma FreshWhenFull(rs: seq<Room>, capacity: int, t: int)
    requires capacity >= 2 * Z && AllFull(rs, capacity) && Total(rs) == t
    requires t <= 2 * Whole(capacity)
    ensures rs == Fresh(capacity, t)
  {
    var q := Whole(capacity);
    WholeBounds(capacity);
    if |rs| == 2 {
      TotalOfTwo(rs);
      assert rs == [rs[0], rs[1]];
    } else {
      TotalOfMore(rs);
      if |rs| > 3 {
        TotalOfMany(rs);
      }
      assert rs == [rs[0], rs[1], rs[2]];
    }
  }

  lemma LeavingFull(s: Log, s': Log)
    requires Updated(s, s') && AllMultiples(s'.live) && PackedFrom(Rooms(s.live), 1) && AtEdge(Rooms(s.live))
    requires Capacity(s) >= 2 * Z && Total(Rooms(s.live)) > Whole(Capacity(s))
    ensures AllFull(Rooms(s'.live), Capacity(s))
  {
    var c, rs, rs' := Capacity(s), Rooms(s.live), Rooms(s'.live);
    assert forall i :: 0 <= i < |rs| ==> rs[i] == RoomOf(s.live[i]);
    assert forall i :: 0 <= i < |rs'| ==> rs'[i] == RoomOf(s'.live[i]);
    TwoAreTooFew(s);
    WholeBounds(c);
    forall i | 0 < i < |rs| && rs[i].free < Z
      ensures rs[i] == Blank(c, Whole(c))
    {
      WholeIs(c, rs[i].resv);
    }
    MultipleFits(c, rs'[|rs'| - 1].resv);
    LeftRooms(rs, rs', c);
  }

  lemma TwoAreTooFew(s: Log)
    requires Lined(s) && AllMultiples(s.live) && AtEdge(Rooms(s.live)) && Capacity(s) >= 2 * Z
    requires Total(Rooms(s.live)) > Whole(Capacity(s))
    ensures |s.live| >= 3
  {
    var c, rs := Capacity(s), Rooms(s.live);
    assert forall i :: 0 <= i < |rs| ==> rs[i] == RoomOf(s.live[i]);
    WholeBounds(c);
    if |rs| == 2 {
      TotalOfTwo(rs);
      MultipleFits(c, rs[1].resv);
    }
  }

  lemma LeftRooms(rs: seq<Room>, rs': seq<Room>, c: int)
    requires |rs| >= 3 && AtEdge(rs) && PackedFrom(rs, 1) && c >= 2 * Z
    requires rs' == Spend(WithRecord(rs, c), Z)
    requires forall i :: 0 < i < |rs| && rs[i].free < Z ==> rs[i] == Blank(c, Whole(c))
    requires rs[|rs| - 1].free + rs[|rs| - 1].resv == c && rs[|rs| - 1].resv >= 0
    requires rs'[|rs'| - 1].resv <= Whole(c)
    ensures AllFull(rs', c)
  {
    var rs1 := if rs[|rs| - 1].free >= Z then rs else rs + [Blank(c, 0)];
    var rs2 := WithMore(rs1, Z);
    assert rs' == Spend(rs2[1..], Z);
    assert rs[1].free < Z && rs[1] == Blank(c, Whole(c));
    forall i | 0 < i < |rs'| - 1
      ensures rs'[i] == Blank(c, Whole(c))
    {
      assert rs'[i] == rs2[i + 1] == rs1[i + 1] == rs[i + 1];
    }
  }

  /** However the files stand, updates bring them to their simplest order, if more is reserved than a
      file holds and no more than two do. */
  lemma ToFresh(s: Log, maxN: nat, k: nat, top: u64, b: nat) returns (turns: seq<Turn>, s': Log)
    requires Afloat(s, maxN, k, top, b) && Whole(Capacity(s)) < Z * k <= 2 * Whole(Capacity(s))
    ensures Leads(s, turns, s', maxN) && Afloat(s', maxN, k, top, b) && s'.fileSize == s.fileSize
    ensures Rooms(s'.live) == Fresh(Capacity(s), Z * k)
  {
    hide *;
    AfloatMeans(s, maxN, k, top, b);
    PackedSomewhere(s);
    var a, s1 := PackAll(s, maxN, k, top, b, |s.live|);
    var c, s2 := UpdateMore(s1, maxN, k, top, b);
    SameSize(s, s1);
    LeavesFresh(s1, s2, maxN, k, top, b);
    turns, s' := a + c, s2;
    LeadsOn(s, a, s1, c, s2, maxN);
  }

  lemma SameSize(s: Log, s': Log)
    requires s'.fileSize == s.fileSize
    ensures Capacity(s') == Capacity(s)
  {
  }

  lemma LeavesFresh(s: Log, s': Log, maxN: nat, k: nat, top: u64, b: nat)
    requires Afloat(s, maxN, k, top, b) && Afloat(s', maxN, k, top, b) && Updated(s, s')
    requires PackedFrom(Rooms(s.live), 1) && AtEdge(Rooms(s.live))
    requires Whole(Capacity(s)) < Z * k <= 2 * Whole(Capacity(s))
    ensures Rooms(s'.live) == Fresh(Capacity(s), Z * k)
  {
    hide *;
    AfloatMeans(s, maxN, k, top, b);
    AfloatMeans(s', maxN, k, top, b);
    SteadyTotal(s, maxN);
    SteadyTotal(s', maxN);
    LeavingFull(s, s');
    FreshWhenFull(Rooms(s'.live), Capacity(s), Z * k);
  }

  lemma PackedSomewhere(s: Log)
    ensures PackedFrom(Rooms(s.live), |s.live|)
  {
  }

  lemma SteadyTotal(s: Log, maxN: nat)
    requires Steady(s, maxN)
    ensures Total(Rooms(s.live)) == Z * |Persisted(s)| && AllMultiples(s.live) && Capacity(s) >= 2 * Z
  {
    TotalIsSum(s.live);
    SteadyProvides(s, maxN);
  }
}
