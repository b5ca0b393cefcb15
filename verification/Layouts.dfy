/** What reserving does to the free and the reserved bytes of the files from the current one on,
    in the cases that the runs of Reaching.dfy go through. */
module Layouts {
  import opened Records
  import opened WalState
  import opened Space

  // The bytes of a file that are not written yet.
  datatype Room = Room(free: int, resv: int)

  function RoomOf(f: File): Room {
    Room(f.free, f.resv)
  }

  function Rooms(live: seq<File>): (rs: seq<Room>)
    ensures |rs| == |live| && forall i :: 0 <= i < |live| ==> rs[i] == RoomOf(live[i])
  {
    seq(|live|, i requires 0 <= i < |live| => RoomOf(live[i]))
  }

  // A file with nothing written in it.
  function Blank(capacity: int, resv: int): Room {
    Room(capacity - resv, resv)
  }

  // Nothing but space differs, and no more than k files have been closed.
  ghost predicate Moved(s: Log, s': Log, k: nat) {
    && Quiet(s, s') && |s'.past| <= |s.past| + k && Usable(s')
  }

  // ---------- The steps of the loop ----------

  lemma GrantedFile(s: Log, n: int)
    requires Lined(s) && s.live[Last(s)].free < n && (s.answers == [] || s.answers[0])
    ensures var (s', got) := NeedFree(s, n);
            && got == n && Lined(s') && s'.past == s.past && Moved(s, s', 0)
            && Rooms(s'.live) == Rooms(s.live) + [Blank(Capacity(s), 0)]
            && s'.answers == if s.answers == [] then [] else s.answers[1..]
  {
  }

  lemma RefusedFile(s: Log, n: int)
    requires s.live != [] && s.live[Last(s)].free < n && n != 0 && s.answers != [] && !s.answers[0]
    ensures var (s', got) := NeedFree(s, n);
            got == 0 && s'.live == s.live && s'.past == s.past
  {
  }

  lemma GoneOn(s: Log)
    requires Lined(s) && |s.live| > 1
    ensures var s' := UseNext(s).0;
            && Lined(s') && Moved(s, s', 1) && Rooms(s'.live) == Rooms(s.live)[1..] && s'.answers == s.answers
  {
    GcShortens(s.(past := s.past + [Closed(s, s.live[0])], live := s.live[1..]));
  }

  lemma {:induction false} GcShortens(s: Log)
    ensures |Gc(s).past| <= |s.past|
    decreases |s.past| + |s.live|
  {
    if s.past != [] {
      if s.past[0].refs <= 0 {
        GcShortens(s.(past := s.past[1..], nfile := s.nfile - 1));
      }
    } else if s.live != [] && s.live[0].refs <= 0 {
      GcShortens(s.(live := s.live[1..], nfile := s.nfile - 1));
    }
  }

  lemma MovedOver(s: Log, m: nat)
    requires Lined(s) && |s.live| > 1 && m == s.live[0].resv && s.live[Last(s)].free >= m
    ensures var s' := MoveResv(s, Last(s), 0, m);
            var rs, t := Rooms(s.live), Last(s);
            && Lined(s') && Moved(s, s', 0) && s'.answers == s.answers
            && Rooms(s'.live) == rs[0 := Room(rs[0].free + m, 0)][t := Room(rs[t].free - m, rs[t].resv + m)]
  {
  }

  lemma PassIs(s: Log, m: nat)
    requires Usable(s) && m == s.live[0].resv && NeedFree(s, m).1 == m
    ensures var s1 := NeedFree(s, m).0;
            Pass(s) == (UseNext(MoveResv(s1, Last(s1), 0, m)).0, true)
  {
  }

  // All of the current file's reserve finds room in the tail.
  lemma PassInto(s: Log)
    requires Lined(s) && |s.live| > 1 && s.live[Last(s)].free >= s.live[0].resv
    ensures var (s', ok) := Pass(s);
            var rs, t, m := Rooms(s.live), Last(s), s.live[0].resv;
            && ok && Lined(s') && Moved(s, s', 1) && s'.answers == s.answers && Capacity(s') == Capacity(s)
            && Rooms(s'.live) == rs[1..t] + [Room(rs[t].free - m, rs[t].resv + m)]
  {
    var m := s.live[0].resv;
    MovedOver(s, m);
    GoneOn(MoveResv(s, Last(s), 0, m));
  }

  // A file is added for it.
  lemma PassAdding(s: Log)
    requires Lined(s) && |s.live| > 1 && s.live[Last(s)].free < s.live[0].resv <= Capacity(s)
    requires s.answers == [] || s.answers[0]
    ensures var (s', ok) := Pass(s);
            && ok && Lined(s') && Moved(s, s', 1) && Capacity(s') == Capacity(s)
            && Rooms(s'.live) == Rooms(s.live)[1..] + [Blank(Capacity(s), s.live[0].resv)]
            && s'.answers == if s.answers == [] then [] else s.answers[1..]
  {
    var m := s.live[0].resv;
    GrantedFile(s, m);
    var s1 := NeedFree(s, m).0;
    PassIs(s, m);
    assert s1.live[0] == s.live[0];
    hide NeedFree, UseNext, MoveResv, Pass, Usable;
    MovedOver(s1, m);
    GoneOn(MoveResv(s1, Last(s1), 0, m));
  }

  lemma PassRefused(s: Log)
    requires Lined(s) && s.live[Last(s)].free < s.live[0].resv && s.answers != [] && !s.answers[0]
    ensures var (s', ok) := Pass(s);
            !ok && s'.live == s.live && s'.past == s.past && Capacity(s') == Capacity(s)
  {
    RefusedFile(s, s.live[0].resv);
  }

  // ---------- The walk, when there is nothing to settle ----------

  ghost predicate NothingOver(live: seq<File>, i: nat, n: int)
    requires i <= |live|
  {
    && (i < |live| ==> live[i].resv >= n && (live[i].resv - n) % Z == 0)
    && forall j :: i < j < |live| ==> live[j].resv % Z == 0
  }

  lemma {:induction false} NothingToSettle(s: Log, i: nat, n: nat)
    requires Usable(s) && i <= |s.live| && Capacity(s) >= 2 * Z - 1 && NothingOver(s.live, i, n)
    ensures BalanceRest(s, i, n) == (s, true)
    decreases Work(s, i)
  {
    if i < |s.live| {
      assert Settle(s, i, n) == (s, true);
      NothingToSettle(s, i + 1, 0);
    }
  }

  ghost predicate AllMultiples(live: seq<File>) {
    forall i :: 0 <= i < |live| ==> live[i].resv % Z == 0
  }

  // ---------- A record is reserved ----------

  // Where a short record is reserved: in the current file, or else in the tail, or in a file
  // added there; a current file with nothing reserved is left then.
  function WithRecord(rs: seq<Room>, capacity: int): seq<Room>
    requires rs != []
  {
    if rs[0].free >= Z then rs[0 := Room(rs[0].free - Z, rs[0].resv + Z)]
    else
      var rs1 := if rs[|rs| - 1].free >= Z then rs else rs + [Blank(capacity, 0)];
      var rs2 := WithMore(rs1, Z);
      if rs[0].resv == 0 then rs2[1..] else rs2
  }

  // n more bytes are reserved in the tail.
  function WithMore(rs: seq<Room>, n: int): seq<Room>
    requires rs != []
  {
    var t := |rs| - 1;
    rs[t := Room(rs[t].free - n, rs[t].resv + n)]
  }

  lemma GrantedTail(s: Log, n: nat)
    requires Lined(s) && s.live[Last(s)].free >= n
    ensures var s' := Grant(s, Last(s), n);
            && Lined(s') && Rooms(s'.live) == WithMore(Rooms(s.live), n) && s'.answers == s.answers && s'.past == s.past
            && Capacity(s') == Capacity(s)
  {
    GrantTailKeepsLined(s, n);
  }

  // Ready for a reservation of a record by the whole file system.
  ghost predicate Orderly(s: Log) {
    && Lined(s) && AllMultiples(s.live) && s.use && Capacity(s) >= 2 * Z
    && (s.live[0].resv == 0 ==> |s.live| > 1 && s.live[1].resv >= Z)
  }

  lemma RecordReserved(s: Log)
    requires Orderly(s) && s.answers == []
    ensures var (s', z) := Reserve(s, Z);
            && z == Z && Rooms(s'.live) == WithRecord(Rooms(s.live), Capacity(s)) && s'.answers == []
            && |s'.past| <= |s.past| + if s.live[0].free < Z && s.live[0].resv == 0 then 1 else 0
  {
    if s.live[0].free < Z {
      var s1 := NeedFree(s, Z).0;
      if s.live[Last(s)].free < Z {
        GrantedFile(s, Z);
      }
      OrderlyTail(s, s1);
      hide NeedFree, ReserveInTail, Orderly, Quiet, Even;
      if s.live[0].resv == 0 {
        TailAfterPass(s1, Z);
      } else {
        TailAtOnce(s1, Z);
      }
    }
  }

  lemma OrderlyTail(s: Log, s1: Log)
    requires Orderly(s) && s1.live != []
    requires s.live[0].free < Z && s1 == NeedFree(s, Z).0 && NeedFree(s, Z).1 == Z
    requires Rooms(s1.live) ==
             Rooms(s.live) + if s.live[Last(s)].free >= Z then [] else [Blank(Capacity(s), 0)]
    ensures |s1.live| > 1 && s1.live[Last(s1)].free >= Z && s1.live[0] == s.live[0]
    ensures s.live[0].resv >= 0 && (s.live[0].resv == 0 || s.live[0].resv >= Z)
    ensures Even(if s.live[0].resv == 0 then WithMore(Rooms(s1.live), Z)[1..] else WithMore(Rooms(s1.live), Z), Z)
  {
    var rs := WithMore(Rooms(s1.live), Z);
    forall i | 0 <= i < |rs|
      ensures rs[i].resv % Z == 0 && (i == 1 && s.live[0].resv == 0 ==> rs[i].resv >= Z)
    {
      assert RoomOf(s1.live[i]) == Rooms(s1.live)[i];
      assert i < |s.live| ==> RoomOf(s1.live[i]) == Rooms(s1.live)[i] && s.live[i].resv % Z == 0;
    }
  }

  // ---------- Balancing ----------

  // The first file holds the request, and there is nothing to settle.
  predicate Even(rs: seq<Room>, n: int) {
    && rs != [] && rs[0].resv >= n && (rs[0].resv - n) % Z == 0
    && forall i :: 0 < i < |rs| ==> rs[i].resv % Z == 0
  }

  lemma EvenBalances(s: Log, n: nat)
    requires Usable(s) && Capacity(s) >= 2 * Z - 1 && Even(Rooms(s.live), n)
    ensures BalanceRest(s, 0, n) == (s, true)
  {
    assert forall i :: 0 <= i < |s.live| ==> RoomOf(s.live[i]) == Rooms(s.live)[i];
    NothingToSettle(s, 0, n);
  }

  lemma BalancedAtOnce(s: Log, n: nat)
    requires Usable(s) && Capacity(s) >= 2 * Z - 1 && Even(Rooms(s.live), n) && s.live[Last(s)].resv >= n
    ensures Balance(s, n, Last(s)) == (s, true)
  {
    EvenBalances(s, n);
    assert RoomOf(s.live[0]) == Rooms(s.live)[0];
  }

  lemma BalancedAfterPass(s: Log, n: nat)
    requires Usable(s) && Capacity(s) >= 2 * Z - 1 && s.live[0].resv < n <= s.live[Last(s)].resv
    requires var (s', ok) := Pass(s);
             ok && Usable(s') && Capacity(s') == Capacity(s) && Even(Rooms(s'.live), n)
    ensures Balance(s, n, Last(s)) == (Pass(s).0, true)
  {
    hide Pass;
    var s' := Pass(s).0;
    EvenBalances(s', n);
    assert RoomOf(s'.live[0]) == Rooms(s'.live)[0];
    assert MakeRoom(s, n, Last(s)) == (s', true);
  }

  lemma ReservedBy(s: Log, n: nat, s': Log)
    requires Usable(s) && Capacity(s) >= 2 * Z - 1 && Usable(Grant(s, Last(s), n))
    requires Grant(s, Last(s), n).live[Last(s)].resv >= n
    requires Balance(Grant(s, Last(s), n), n, Last(s)) == (s', true)
    ensures ReserveInTail(s, n) == (s', n)
  {
  }

  // The current file holds the request already.
  lemma TailAtOnce(s: Log, n: nat)
    requires Lined(s) && s.live[Last(s)].free >= n && Capacity(s) >= 2 * Z && Even(WithMore(Rooms(s.live), n), n)
    ensures var (s', z) := ReserveInTail(s, n);
            && z == n && Rooms(s'.live) == WithMore(Rooms(s.live), n) && s'.answers == s.answers && s'.past == s.past
  {
    GrantedTail(s, n);
    var s1 := Grant(s, Last(s), n);
    TailHolds(s, n);
    hide Grant, Balance, Lined, Quiet, Even;
    BalancedAtOnce(s1, n);
    ReservedBy(s, n, s1);
  }

  lemma TailHolds(s: Log, n: nat)
    requires Lined(s) && s.live[Last(s)].free >= n
    ensures var s1 := Grant(s, Last(s), n);
            Usable(s) && Usable(s1) && Last(s1) == Last(s) && s1.live[Last(s)].resv >= n && s1.live[Last(s)].free >= 0
    ensures |s.live| > 1 ==> RoomOf(Grant(s, Last(s), n).live[0]) == RoomOf(s.live[0])
  {
  }

  // Nothing is reserved in the current file, and the next one holds the request.
  lemma TailAfterPass(s: Log, n: nat)
    requires Lined(s) && |s.live| > 1 && s.live[Last(s)].free >= n > 0 && Capacity(s) >= 2 * Z
    requires s.live[0].resv == 0 && Even(WithMore(Rooms(s.live), n)[1..], n)
    ensures var (s', z) := ReserveInTail(s, n);
            && z == n && Rooms(s'.live) == WithMore(Rooms(s.live), n)[1..] && s'.answers == s.answers
            && |s'.past| <= |s.past| + 1
  {
    GrantedTail(s, n);
    var s1 := Grant(s, Last(s), n);
    TailHolds(s, n);
    PassInto(s1);
    NothingMoves(Rooms(s1.live));
    hide Grant, Pass, Balance, Lined, Quiet, Even;
    BalancedAfterPass(s1, n);
    ReservedBy(s, n, Pass(s1).0);
  }

  // Moving nothing changes nothing.
  lemma NothingMoves(rs: seq<Room>)
    requires |rs| > 1
    ensures var t := |rs| - 1;
            rs[1..t] + [Room(rs[t].free - 0, rs[t].resv + 0)] == rs[1..]
  {
  }

  // ---------- Requests that go through the loop ----------

  // The current file cannot hold the request; a file is added for it.
  lemma BegunAdding(s: Log, n: nat)
    requires Lined(s) && s.use && s.live[0].free < n <= Capacity(s) && s.live[Last(s)].free < n
    requires Capacity(s) >= 2 * Z && (s.answers == [] || s.answers[0])
    ensures var s1 := GrantedInTail(s, n);
            && Begun(s, n) && Lined(s1) && Rooms(s1.live) == Rooms(s.live) + [Blank(Capacity(s), n)]
            && s1.answers == (if s.answers == [] then [] else s.answers[1..])
  {
    GrantedFile(s, n);
    var s1 := NeedFree(s, n).0;
    hide NeedFree;
    GrantedTail(s1, n);
    TailHolds(s1, n);
    var rs, r := Rooms(s.live), Blank(Capacity(s), 0);
    assert WithMore(rs + [r], n) == rs + [Blank(Capacity(s), n)];
  }

  // The tail holds it.
  lemma BegunInto(s: Log, n: nat)
    requires Lined(s) && s.use && s.live[0].free < n <= s.live[Last(s)].free && Capacity(s) >= 2 * Z
    ensures var s1 := GrantedInTail(s, n);
            Begun(s, n) && Lined(s1) && Rooms(s1.live) == WithMore(Rooms(s.live), n) && s1.answers == s.answers
  {
    GrantedTail(s, n);
    TailHolds(s, n);
  }

  // The request stands in the tail, and the files are to be balanced.
  ghost predicate Begun(s: Log, n: nat) {
    && s.use && Usable(s) && Capacity(s) >= 2 * Z - 1 && s.live[0].free < n && NeedFree(s, n).1 == n
    && var s1 := GrantedInTail(s, n);
       && Usable(s1) && Capacity(s1) == Capacity(s) && s1.live[Last(s1)].resv >= n && s1.past == s.past
       && Usable(NeedFree(s, n).0) && Last(NeedFree(s, n).0) == Last(s1) && Capacity(NeedFree(s, n).0) == Capacity(s)
  }

  lemma ReserveEnds(s: Log, n: nat)
    requires Begun(s, n)
    ensures var s1 := GrantedInTail(s, n);
            var (s', ok) := Balance(s1, n, Last(s1));
            Reserve(s, n) == if ok then (s', n) else (Grant(s', Last(s'), -(n as int)), 0)
  {
  }

  // The loop goes on after a pass.
  lemma OneMorePass(s: Log, n: nat, t: nat)
    requires Usable(s) && t < |s.live| && s.live[t].resv >= n && s.live[0].resv < n && Pass(s).1
    ensures t > 0 && |s.live| > 1
    ensures var s' := Pass(s).0;
            && Usable(s') && t - 1 < |s'.live| && s'.live[t - 1].resv >= n
            && MakeRoom(s, n, t) == MakeRoom(s', n, t - 1)
  {
    hide Pass;
  }

  lemma LoopRefused(s: Log, n: nat, t: nat)
    requires Usable(s) && t < |s.live| && s.live[t].resv >= n && s.live[0].resv < n && !Pass(s).1
    ensures MakeRoom(s, n, t) == (Pass(s).0, false)
  {
    hide Pass;
  }

  lemma LoopEnds(s: Log, n: nat, t: nat)
    requires Usable(s) && t < |s.live| && s.live[t].resv >= n && s.live[0].resv >= n
    ensures MakeRoom(s, n, t) == (s, true)
  {
  }

  // In terms of rooms: the loop from rs on, with the request in file t.
  ghost predicate Looping(s: Log, rs: seq<Room>, n: nat, t: nat) {
    Lined(s) && Rooms(s.live) == rs && t < |rs| && rs[t].resv >= n && rs[0].resv < n
  }

  ghost predicate OnePass(s: Log, s': Log, n: nat, t: nat) {
    && Usable(s) && t < |s.live| && s.live[t].resv >= n
    && t > 0 && Usable(s') && t - 1 < |s'.live| && s'.live[t - 1].resv >= n
    && Pass(s) == (s', true) && MakeRoom(s, n, t) == MakeRoom(s', n, t - 1)
    && Lined(s') && Capacity(s') == Capacity(s) && |s'.past| <= |s.past| + 1
  }

  lemma StepInto(s: Log, rs: seq<Room>, n: nat, t: nat)
    requires Looping(s, rs, n, t) && rs[|rs| - 1].free >= rs[0].resv && |rs| > 1
    ensures rs[0].resv >= 0
    ensures var s', u, m := Pass(s).0, |rs| - 1, rs[0].resv;
            && OnePass(s, s', n, t) && s'.answers == s.answers
            && Rooms(s'.live) == rs[1..u] + [Room(rs[u].free - m, rs[u].resv + m)]
  {
    Read(s, rs);
    PassInto(s);
    OneMorePass(s, n, t);
  }

  lemma StepAdding(s: Log, rs: seq<Room>, n: nat, t: nat)
    requires Looping(s, rs, n, t) && rs[|rs| - 1].free < rs[0].resv <= Capacity(s) && |rs| > 1
    requires s.answers == [] || s.answers[0]
    ensures var s' := Pass(s).0;
            && OnePass(s, s', n, t) && Rooms(s'.live) == rs[1..] + [Blank(Capacity(s), rs[0].resv)]
            && s'.answers == if s.answers == [] then [] else s.answers[1..]
  {
    Read(s, rs);
    PassAdding(s);
    OneMorePass(s, n, t);
  }

  lemma StepRefused(s: Log, rs: seq<Room>, n: nat, t: nat)
    requires Looping(s, rs, n, t) && rs[|rs| - 1].free < rs[0].resv && s.answers != [] && !s.answers[0]
    ensures Usable(s) && t < |s.live| && s.live[t].resv >= n
    ensures var (s', ok) := MakeRoom(s, n, t);
            !ok && s'.live == s.live && s'.past == s.past
  {
    Read(s, rs);
    PassRefused(s);
    LoopRefused(s, n, t);
  }

  // What is taken back from the tail.
  lemma TakenBack(s: Log, n: nat)
    requires s.live != []
    ensures Rooms(Grant(s, Last(s), -(n as int)).live) == WithMore(Rooms(s.live), -(n as int))
  {
  }

  lemma StaysLined(s: Log, s': Log, n: nat)
    requires Lined(s) && s'.live == s.live && Capacity(s') == Capacity(s) && |s.live| > 1
    requires s.live[Last(s)].resv == n
    ensures Lined(Grant(s', Last(s'), -(n as int)))
  {
  }

  /** A request is refused after a file has been added for it, the current file's reserve fitting
      into no file: an empty file is left. */
  lemma RefusedAfterOne(s: Log, n: nat)
    requires Lined(s) && s.use && s.live[0].free < n <= Capacity(s) && s.live[Last(s)].free < n
    requires Capacity(s) - n < s.live[0].resv < n && Capacity(s) >= 2 * Z && s.answers == [true, false]
    ensures var (s', z) := Reserve(s, n);
            && z == 0 && Rooms(s'.live) == Rooms(s.live) + [Blank(Capacity(s), 0)] && s'.past == s.past
            && Lined(s')
  {
    BegunAdding(s, n);
    var s1 := GrantedInTail(s, n);
    var rs, t := Rooms(s.live), Last(s1);
    assert Rooms(s1.live)[t] == Blank(Capacity(s), n) && Rooms(s1.live)[0] == rs[0];
    ReserveEnds(s, n);
    PassRefused(s1);
    hide Pass, GrantedInTail, NeedFree, Reserve, Usable, Quiet;
    LoopRefused(s1, n, t);
    var s2 := Pass(s1).0;
    assert Balance(s1, n, t) == (s2, false);
    TakenBack(s2, n);
    StaysLined(s1, s2, n);
    assert WithMore(rs + [Blank(Capacity(s), n)], -(n as int)) == rs + [Blank(Capacity(s), 0)];
  }

  // ---------- The requests of the runs in Reaching.dfy ----------

  lemma Read(s: Log, rs: seq<Room>)
    requires Lined(s) && Rooms(s.live) == rs
    ensures |s.live| == |rs| > 0 && Usable(s) && Last(s) == |rs| - 1
    ensures forall i :: 0 <= i < |rs| ==> RoomOf(s.live[i]) == rs[i]
  {
  }

  // A first pass has been made, and the file that is current then does not hold the request.
  ghost predicate HasOneMore(s: Log, n: nat) {
    && s.live != [] && s.live[0].free < n && NeedFree(s, n).1 == n && Usable(GrantedInTail(s, n))
    && var s1 := GrantedInTail(s, n);
       && s1.live[0].resv < n && Pass(s1).1 && Pass(s1).0.live != [] && Pass(s1).0.live[0].resv < n
  }

  lemma OneMoreIs(s: Log, n: nat)
    requires Begun(s, n) && GrantedInTail(s, n).live[0].resv < n
    requires Pass(GrantedInTail(s, n)).1
    requires Pass(GrantedInTail(s, n)).0.live != [] && Pass(GrantedInTail(s, n)).0.live[0].resv < n
    ensures HasOneMore(s, n)
  {
  }

  // How a request ends that the loop is refused a file for, or that it need not settle.
  lemma EndsRefused(s: Log, n: nat)
    requires Begun(s, n)
    requires var s1 := GrantedInTail(s, n); !MakeRoom(s1, n, Last(s1)).1
    ensures var s1 := GrantedInTail(s, n);
            var s2 := MakeRoom(s1, n, Last(s1)).0;
            && Reserve(s, n) == (Grant(s2, Last(s2), -(n as int)), 0)
            && |Reserve(s, n).0.live| == |s2.live|
            && Reserve(s, n).0.live[Last(s2)].resv == s2.live[Last(s2)].resv - n
  {
    hide MakeRoom, NeedFree, Quiet;
    ReserveEnds(s, n);
  }

  lemma EndsGranted(s: Log, n: nat, s2: Log, s': Log)
    requires Begun(s, n)
    requires var s1 := GrantedInTail(s, n); MakeRoom(s1, n, Last(s1)) == (s2, true)
    requires Usable(s2) && s2.live[0].resv >= n && Capacity(s2) == Capacity(s) && BalanceRest(s2, 0, n) == (s', true)
    ensures Reserve(s, n) == (s', n)
  {
    hide MakeRoom, NeedFree, Quiet, BalanceRest;
    ReserveEnds(s, n);
  }

  lemma BegunMeans(s: Log, n: nat)
    requires Begun(s, n)
    ensures var s1 := GrantedInTail(s, n);
            && Usable(s1) && s1.live != [] && s1.live[Last(s1)].resv >= n && Capacity(s1) == Capacity(s)
            && s1.past == s.past && (s.use ==> Usable(s) && Capacity(s) >= 2 * Z - 1)
  {
  }

  // Two files with w reserved in each, when no file holds twice w.
  lemma TwoRefused(s: Log, n: nat, f: nat, w: nat)
    requires Lined(s) && s.use && Rooms(s.live) == [Room(f, w), Blank(Capacity(s), w)]
    requires f < n && w < n <= Capacity(s) < 2 * w && s.answers == [true, true, false] && 2 * Z <= Capacity(s)
    ensures Reserve.requires(s, n) && HasOneMore(s, n)
    ensures var (s', z) := Reserve(s, n);
            z == 0 && |s'.live| == 3 && s'.live[2].resv == w - n
  {
    hide GrantedInTail, NeedFree, Reserve, Usable, Lined, Begun, Capacity, Pass, MakeRoom, BalanceRest, HasOneMore,
        Balance, Grant;
    var c := Capacity(s);
    var r := Blank(c, w);
    Read(s, [Room(f, w), r]);
    BegunAdding(s, n);
    BegunMeans(s, n);
    var s1 := GrantedInTail(s, n);
    var rs1, rs2 := [Room(f, w), r, Blank(c, n)], [r, Blank(c, n), r];
    assert Rooms(s1.live) == rs1;
    Read(s1, rs1);
    StepAdding(s1, rs1, n, 2);
    var s2 := Pass(s1).0;
    assert Rooms(s2.live) == rs2 && s2.answers == [false];
    Read(s2, rs2);
    OneMoreIs(s, n);
    StepRefused(s2, rs2, n, 1);
    EndsRefused(s, n);
  }

  // Three files, when no file holds three times w.
  lemma ThreeRefused(s: Log, n: nat, f: nat, w: nat)
    requires Lined(s) && s.use && Rooms(s.live) == [Room(f, w), Blank(Capacity(s), w), Blank(Capacity(s), w)]
    requires f < n && w < n && 2 * w <= Capacity(s) < n + w && Capacity(s) < 3 * w && n <= Capacity(s)
    requires s.answers == [true, true, false] && 2 * Z <= Capacity(s)
    ensures Reserve.requires(s, n) && HasOneMore(s, n)
    ensures var (s', z) := Reserve(s, n);
            z == 0 && |s'.live| == 3 && s'.live[2].resv == 2 * w - n
  {
    hide GrantedInTail, NeedFree, Reserve, Usable, Lined, Begun, Capacity, Pass, MakeRoom, BalanceRest, HasOneMore,
        Balance, Grant;
    var c := Capacity(s);
    var r := Blank(c, w);
    Read(s, [Room(f, w), r, r]);
    BegunAdding(s, n);
    BegunMeans(s, n);
    var s1 := GrantedInTail(s, n);
    var rs1, rs2, rs3 := [Room(f, w), r, r, Blank(c, n)], [r, r, Blank(c, n), r], [r, Blank(c, n), Blank(c, 2 * w)];
    assert Rooms(s1.live) == rs1;
    Read(s1, rs1);
    StepAdding(s1, rs1, n, 3);
    var s2 := Pass(s1).0;
    assert Rooms(s2.live) == rs2 && s2.answers == [false];
    Read(s2, rs2);
    OneMoreIs(s, n);
    StepInto(s2, rs2, n, 2);
    var s3 := Pass(s2).0;
    assert Rooms(s3.live) == rs3;
    Read(s3, rs3);
    StepRefused(s3, rs3, n, 1);
    EndsRefused(s, n);
  }

  // Five files, the second and the third with w, when the tail is full with the request in it.
  lemma FiveRefused(s: Log, n: nat, f: nat, w: nat, x: nat)
    requires Lined(s) && s.use && x >= n
    requires var c := Capacity(s);
             Rooms(s.live) == [Room(f, Z), Blank(c, w), Blank(c, w), Blank(c, x), Blank(c, w)]
    requires f < n && Z < n && w < n && Capacity(s) == n + w && Capacity(s) < 2 * w + Z && 2 * Z <= w
    requires s.answers == [true, false]
    ensures Reserve.requires(s, n) && HasOneMore(s, n)
    ensures var (s', z) := Reserve(s, n);
            z == 0 && |s'.live| == 4 && s'.live[3].resv == Z + w - n
  {
    hide GrantedInTail, NeedFree, Reserve, Usable, Lined, Begun, Capacity, Pass, MakeRoom, BalanceRest, HasOneMore,
        Balance, Grant;
    var c := Capacity(s);
    var r, e := Blank(c, w), Blank(c, x);
    var rs := [Room(f, Z), r, r, e, r];
    Read(s, rs);
    BegunInto(s, n);
    BegunMeans(s, n);
    var s1, t := GrantedInTail(s, n), Blank(c, w + n);
    var rs1, rs2, rs3 := [Room(f, Z), r, r, e, t], [r, r, e, t, Blank(c, Z)], [r, e, t, Blank(c, Z + w)];
    assert Rooms(s1.live) == rs1;
    Read(s1, rs1);
    StepAdding(s1, rs1, n, 4);
    var s2 := Pass(s1).0;
    assert Rooms(s2.live) == rs2 && s2.answers == [false];
    Read(s2, rs2);
    OneMoreIs(s, n);
    StepInto(s2, rs2, n, 3);
    var s3 := Pass(s2).0;
    assert Rooms(s3.live) == rs3;
    Read(s3, rs3);
    StepRefused(s3, rs3, n, 2);
    EndsRefused(s, n);
  }

  // ---------- Requests that are granted ----------

  // The current file takes from the tail what it lacks for the request, and all is settled.
  lemma FirstTakes(s: Log, n: nat, c: nat)
    requires Lined(s) && |s.live| > 1 && Capacity(s) >= 2 * Z && s.live[0].resv >= n
    requires Excess(s.live[0].resv, n) != 0 && c == Z - Excess(s.live[0].resv, n)
    requires s.live[0].free >= c && s.live[Last(s)].resv >= c && (s.live[Last(s)].resv - c) % Z == 0
    requires forall i :: 0 < i < Last(s) ==> s.live[i].resv % Z == 0
    ensures var rs, t := Rooms(s.live), Last(s);
            var (s', ok) := BalanceRest(s, 0, n);
            && ok && s'.answers == s.answers && s'.past == s.past
            && Rooms(s'.live) ==
                 rs[0 := Room(rs[0].free - c, rs[0].resv + c)][t := Room(rs[t].free + c, rs[t].resv - c)]
  {
    var s' := MoveResv(s, 0, Last(s), c);
    assert Settle(s, 0, n) == (s', true);
    NothingToSettle(s', 1, 0);
  }

  // Nothing is reserved in the current file; the next one takes c from a file that is added.
  lemma GrantedTaking(s: Log, n: nat, f: nat, h: nat, w: nat, c: nat)
    requires Lined(s) && s.use && Rooms(s.live) == [Room(f, 0), Blank(Capacity(s), h), Blank(Capacity(s), w)]
    requires f < n && 2 * Z <= n <= h <= Capacity(s) && Capacity(s) - w < n && s.answers == []
    requires h % Z == 0 && w % Z == 0 && c == n % Z > 0 && Capacity(s) - h >= c
    ensures Reserve.requires(s, n)
    ensures var (s', z) := Reserve(s, n);
            var p := Capacity(s);
            && z == n && |s'.past| <= |s.past| + 1
            && Rooms(s'.live) == [Blank(p, h + c), Blank(p, w), Blank(p, n - c)]
  {
    hide GrantedInTail, NeedFree, Reserve, Usable, Lined, Begun, Capacity, Pass, MakeRoom, BalanceRest, HasOneMore,
        Balance, Grant;
    var p := Capacity(s);
    var rs := [Room(f, 0), Blank(p, h), Blank(p, w)];
    Read(s, rs);
    BegunAdding(s, n);
    BegunMeans(s, n);
    var s1 := GrantedInTail(s, n);
    assert Rooms(s1.live) == rs + [Blank(p, n)];
    Read(s1, rs + [Blank(p, n)]);
    assert (h - n) % Z == Z - c by { Remainders(h, n); }
    StepInto(s1, rs + [Blank(p, n)], n, 3);
    var s2, rs2 := Pass(s1).0, [Blank(p, h), Blank(p, w), Blank(p, n)];
    assert Rooms(s2.live) == rs2;
    Read(s2, rs2);
    LoopEnds(s2, n, 2);
    ExcessIs(h, n);
    FirstTakes(s2, n, c);
    EndsGranted(s, n, s2, BalanceRest(s2, 0, n).0);
  }

  lemma ExcessIs(resv: int, n: int)
    ensures Excess(resv, n) == (resv - n) % Z
  {
  }

  lemma Remainders(h: nat, n: nat)
    requires h % Z == 0 && n % Z > 0
    ensures (h - n) % Z == Z - n % Z
  {
  }

  // The current file's w go into a second file that is added; the next one holds the request.
  lemma GrantedTwice(s: Log, n: nat, f: nat, h: nat, w: nat)
    requires Lined(s) && s.use && Rooms(s.live) == [Room(f, w), Blank(Capacity(s), h), Blank(Capacity(s), w)]
    requires f < n && 2 * Z <= n <= h <= Capacity(s) && w < n && Capacity(s) - n < w && Capacity(s) - w < n
    requires s.answers == [] && h % Z == 0 && w % Z == 0 && n % Z == 0
    ensures Reserve.requires(s, n)
    ensures var (s', z) := Reserve(s, n);
            var p := Capacity(s);
            && z == n && |s'.past| <= |s.past| + 1
            && Rooms(s'.live) == [Blank(p, h), Blank(p, w), Blank(p, n), Blank(p, w)]
  {
    hide GrantedInTail, NeedFree, Reserve, Usable, Lined, Begun, Capacity, Pass, MakeRoom, BalanceRest, HasOneMore,
        Balance, Grant;
    var p := Capacity(s);
    var rs := [Room(f, w), Blank(p, h), Blank(p, w)];
    Read(s, rs);
    BegunAdding(s, n);
    BegunMeans(s, n);
    var s1 := GrantedInTail(s, n);
    assert Rooms(s1.live) == rs + [Blank(p, n)];
    Read(s1, rs + [Blank(p, n)]);
    StepAdding(s1, rs + [Blank(p, n)], n, 3);
    var s2, rs2 := Pass(s1).0, [Blank(p, h), Blank(p, w), Blank(p, n), Blank(p, w)];
    assert Rooms(s2.live) == rs2;
    Read(s2, rs2);
    LoopEnds(s2, n, 2);
    EvenBalances(s2, n);
    EndsGranted(s, n, s2, s2);
  }

  // Nothing is reserved in the current file, and too little in the next one.
  lemma GrantedThird(s: Log, n: nat, f: nat, w: nat)
    requires Lined(s) && s.use && n % Z == 0 && w % Z == 0
    requires var p := Capacity(s);
             Rooms(s.live) == [Room(f, 0), Blank(p, w), Blank(p, n), Blank(p, w), Blank(p, w)]
    requires f < n && 2 * Z <= n <= Capacity(s) && 0 < w < n && Capacity(s) - n < w && Capacity(s) - w < n
    requires s.answers == []
    ensures Reserve.requires(s, n)
    ensures var (s', z) := Reserve(s, n);
            var p := Capacity(s);
            && z == n && |s'.past| <= |s.past| + 2
            && Rooms(s'.live) == [Blank(p, n), Blank(p, w), Blank(p, w), Blank(p, n), Blank(p, w)]
  {
    hide GrantedInTail, NeedFree, Reserve, Usable, Lined, Begun, Capacity, Pass, MakeRoom, BalanceRest, HasOneMore,
        Balance, Grant;
    var p := Capacity(s);
    var rs, r := [Room(f, 0), Blank(p, w), Blank(p, n), Blank(p, w), Blank(p, w)], Blank(p, n);
    Read(s, rs);
    BegunAdding(s, n);
    BegunMeans(s, n);
    var s1 := GrantedInTail(s, n);
    assert Rooms(s1.live) == rs + [r];
    Read(s1, rs + [r]);
    StepInto(s1, rs + [r], n, 5);
    var s2, rs2 := Pass(s1).0, [Blank(p, w), r, Blank(p, w), Blank(p, w), r];
    assert Rooms(s2.live) == rs2;
    Read(s2, rs2);
    StepAdding(s2, rs2, n, 4);
    var s3, rs3 := Pass(s2).0, [r, Blank(p, w), Blank(p, w), r, Blank(p, w)];
    assert Rooms(s3.live) == rs3;
    Read(s3, rs3);
    LoopEnds(s3, n, 3);
    EvenBalances(s3, n);
    EndsGranted(s, n, s3, s3);
  }
}
