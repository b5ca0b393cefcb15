/** Space reservation. The server reserves the bytes of a record, and of the delete record
    that will end the job, before it writes anything; these proofs show that the files
    always hold the reserved bytes where the writes will need them. */
module Space {
  import opened Records
  import opened WalState

  function Sum(live: seq<File>): int {
    if live == [] then 0 else live[0].resv + Sum(live[1..])
  }

  // Where the reserve of file i must be a multiple of Z, apart from an extra n in file t.
  ghost predicate AlignedAt(live: seq<File>, i: int, t: int, n: int)
    requires 0 <= i < |live|
  {
    (live[i].resv - if i == t then n else 0) % Z == 0
  }

  // All reserves are multiples of Z, apart from an extra n in file t. Between commands the
  // extra is 0; after a reservation of n it is in the current file (t == 0).
  ghost predicate Aligned(live: seq<File>, t: int, n: int) {
    forall i :: 0 <= i < |live| ==> AlignedAt(live, i, t, n)
  }

  // What is free in a file once its reserve is rounded down to a multiple of Z.
  function Rest(f: File): int {
    f.free + f.resv % Z
  }

  // No request is larger, and no two remainders together.
  function Bound(maxN: nat): nat {
    if maxN < 2 * Z then 2 * Z else maxN
  }

  // A file between the current one and the tail became full enough, when it was the tail,
  // that some request did not fit in it, and will stay so when its reserve is settled.
  ghost predicate Crowded(f: File, maxN: nat) {
    Rest(f) < Bound(maxN)
  }

  // No count is negative, and nothing is written after the current file.
  ghost predicate Lined(s: Log) {
    && Usable(s)
    && (forall i :: 0 <= i < |s.live| ==> s.live[i].free >= 0)
    && s.live[0].free + s.live[0].resv <= Capacity(s)
    && (forall i :: 0 < i < |s.live| ==> s.live[i].free + s.live[i].resv == Capacity(s))
  }

  /** The shape of the files from the current one on, for requests of at most maxN bytes:
      they are in line, and every file strictly between the current one and the tail is
      crowded. */
  ghost predicate Shape(s: Log, maxN: nat) {
    Lined(s) && forall i :: 0 < i < Last(s) ==> Crowded(s.live[i], maxN)
  }

  // ---------- Sums ----------

  lemma {:induction false} SumUpdate(live: seq<File>, i: nat, f: File)
    requires i < |live|
    ensures Sum(live[i := f]) == Sum(live) - live[i].resv + f.resv
  {
    if i == 0 {
      assert live[0 := f][1..] == live[1..];
    } else {
      SumUpdate(live[1..], i - 1, f);
      assert live[i := f][1..] == live[1..][i - 1 := f];
    }
  }

  lemma {:induction false} SumAppend(live: seq<File>, f: File)
    ensures Sum(live + [f]) == Sum(live) + f.resv
  {
    if live != [] {
      SumAppend(live[1..], f);
      assert (live + [f])[1..] == live[1..] + [f];
    }
  }

  lemma MoveKeepsSum(s: Log, to: nat, from: nat, n: int)
    requires to < |s.live| && from < |s.live|
    ensures Sum(MoveResv(s, to, from, n).live) == Sum(s.live)
  {
    var f := s.live[from];
    var f' := f.(free := f.free + n, resv := f.resv - n);
    var live := s.live[from := f'];
    SumUpdate(s.live, from, f');
    SumUpdate(live, to, live[to].(free := live[to].free - n, resv := live[to].resv + n));
  }

  lemma NeedFreeKeepsSum(s: Log, n: int)
    requires s.live != []
    ensures Sum(NeedFree(s, n).0.live) == Sum(s.live)
  {
    SumAppend(s.live, NewFile(s));
  }

  lemma GrantAddsToSum(s: Log, i: nat, n: int)
    requires i < |s.live|
    ensures Sum(Grant(s, i, n).live) == Sum(s.live) + n
  {
    var f := s.live[i];
    SumUpdate(s.live, i, f.(free := f.free - n, resv := f.resv + n));
  }

  // ---------- One primitive step ----------

  lemma NeedFreeKeepsLined(s: Log, n: int)
    requires Lined(s) && n <= Capacity(s)
    ensures var (s', got) := NeedFree(s, n);
            Lined(s') && (got == n && n > 0 ==> s'.live[Last(s')].free >= n)
  {
  }

  // A request that the tail cannot hold leaves room for it behind the old tail, which is
  // crowded then.
  lemma NeedFreeKeepsShape(s: Log, n: int, maxN: nat)
    requires Shape(s, maxN) && n <= Capacity(s) && n + s.live[Last(s)].resv % Z <= Bound(maxN)
    ensures var (s', got) := NeedFree(s, n);
            Shape(s', maxN) && (got == n && n > 0 ==> s'.live[Last(s')].free >= n)
  {
    NeedFreeKeepsLined(s, n);
  }

  lemma MoveToTailKeepsShape(s: Log, from: nat, n: int, maxN: nat)
    requires Shape(s, maxN) && from < Last(s)
    requires 0 <= n <= s.live[from].resv && n <= s.live[Last(s)].free
    requires from == 0 || n == s.live[from].resv % Z
    ensures Shape(MoveResv(s, Last(s), from, n), maxN)
  {
  }

  lemma MoveFromTailKeepsShape(s: Log, to: nat, n: int, maxN: nat)
    requires Shape(s, maxN) && to < Last(s)
    requires 0 <= n <= s.live[Last(s)].resv && n <= s.live[to].free
    requires to == 0 || (s.live[to].resv + n) % Z == 0
    ensures Shape(MoveResv(s, to, Last(s), n), maxN)
  {
  }

  // ---------- The loop that fills the current file's reserve ----------

  lemma UseNextKeepsShape(s: Log, maxN: nat)
    requires Shape(s, maxN) && |s.live| > 1 && s.live[0].resv == 0
    ensures var s' := UseNext(s).0;
            s'.live == s.live[1..] && Shape(s', maxN) && Sum(s'.live) == Sum(s.live)
  {
    var s' := UseNext(s).0;
    assert s'.live == s.live[1..];
    forall i | 0 < i < Last(s')
      ensures Crowded(s'.live[i], maxN)
    {
      assert s'.live[i] == s.live[i + 1];
    }
  }

  lemma UseNextKeepsLined(s: Log)
    requires Lined(s) && |s.live| > 1
    ensures var s' := UseNext(s).0;
            s'.live == s.live[1..] && Lined(s')
  {
  }

  lemma MovedOutLined(s: Log, m: nat)
    requires Lined(s) && |s.live| > 1 && m == s.live[0].resv && s.live[Last(s)].free >= m
    ensures Lined(MoveResv(s, Last(s), 0, m)) && Capacity(MoveResv(s, Last(s), 0, m)) == Capacity(s)
  {
  }

  lemma UsedLined(s: Log)
    requires Lined(s)
    ensures Usable(s) && s.live[Last(s)].free >= 0 && s.live[0].resv >= 0
  {
  }

  lemma PassKeepsLined(s: Log)
    requires Lined(s) && |s.live| > 1 && s.live[0].resv <= Capacity(s)
    ensures Usable(s) && (Pass(s).1 ==> Lined(Pass(s).0) && Capacity(Pass(s).0) == Capacity(s))
  {
    hide NeedFree, MoveResv, UseNext, Lined, Usable;
    UsedLined(s);
    var m := s.live[0].resv;
    NeedFreeKeepsLined(s, m);
    var (s1, got) := NeedFree(s, m);
    UsedLined(s1);
    if got == m {
      MovedOutLined(s1, m);
      var s2 := MoveResv(s1, Last(s1), 0, m);
      UseNextKeepsLined(s2);
    }
  }

  lemma PassKeeps(s: Log, maxN: nat)
    requires Shape(s, maxN) && |s.live| > 1 && s.live[0].resv <= Capacity(s)
    requires s.live[0].resv + s.live[Last(s)].resv % Z <= Bound(maxN)
    ensures var (s', ok) := Pass(s);
            if ok then Shape(s', maxN) && Sum(s'.live) == Sum(s.live)
            else s'.live == s.live
  {
    var m := s.live[0].resv;
    var (s1, got) := NeedFree(s, m);
    NeedFreeKeepsShape(s, m, maxN);
    NeedFreeKeepsSum(s, m);
    if got == m {
      var s2 := MoveResv(s1, Last(s1), 0, m);
      MoveToTailKeepsShape(s1, 0, m, maxN);
      MoveKeepsSum(s1, Last(s1), 0, m);
      assert s2.live[0].resv == 0;
      hide Shape, NeedFree, MoveResv, UseNext, Sum;
      UseNextKeepsShape(s2, maxN);
    }
  }

  // The state a reservation is in while the files are being balanced: the request sits
  // whole in file t, and all other reserves are multiples of Z.
  ghost predicate Pending(s: Log, t: int, n: nat, maxN: nat) {
    && Shape(s, maxN) && 0 <= t < |s.live| && Aligned(s.live, t, n) && s.live[t].resv >= n
  }

  // Where the reserves are after one pass of the loop.
  lemma PassReserves(s: Log)
    requires Usable(s) && |s.live| > 1
    ensures var (s', ok) := Pass(s);
            var t := Last(s);
            ok ==>
              && (|s'.live| == t || (|s'.live| == t + 1 && s'.live[t].resv == s.live[0].resv
                                     && s'.live[t].free == Capacity(s) - s.live[0].resv))
              && forall i :: 0 <= i < t ==>
                   s'.live[i].resv == s.live[i + 1].resv + if i == Last(s') then s.live[0].resv else 0
  {
    var m := s.live[0].resv;
    var (s1, got) := NeedFree(s, m);
    if got == m {
      var s2 := MoveResv(s1, Last(s1), 0, m);
      assert UseNext(s2).0.live == s2.live[1..];
    }
  }

  lemma ShiftedAligned(live: seq<File>, live': seq<File>, t: int, n: int, m: int)
    requires 0 < t < |live| && Aligned(live, t, n) && m == live[0].resv
    requires var u := |live| - 1; |live'| == u || (|live'| == u + 1 && live'[u].resv == m)
    requires forall i :: 0 <= i < |live| - 1 ==>
               live'[i].resv == live[i + 1].resv + if i == |live'| - 1 then m else 0
    ensures Aligned(live', t - 1, n)
  {
    assert AlignedAt(live, 0, t, n);
    var t' := t - 1;
    forall i | 0 <= i < |live'|
      ensures AlignedAt(live', i, t', n)
    {
      if i < |live| - 1 {
        assert AlignedAt(live, i + 1, t, n);
      }
    }
  }

  // A multiple of the delete record below n, and what n has over a multiple, are n at most.
  lemma FitsBelow(m: int, n: nat, resv: int)
    requires 0 <= m < n && m % Z == 0 && (resv % Z == 0 || (resv - n) % Z == 0)
    ensures m + resv % Z <= n
  {
    assert resv % Z == 0 || resv % Z == n % Z;
  }

  lemma PassFits(s: Log, t: nat, n: nat, maxN: nat)
    requires Pending(s, t, n, maxN) && s.live[0].resv < n <= maxN
    ensures t > 0 && s.live[0].resv + s.live[Last(s)].resv % Z <= n <= Bound(maxN)
  {
    assert AlignedAt(s.live, 0, t, n) && AlignedAt(s.live, Last(s), t, n);
    FitsBelow(s.live[0].resv, n, s.live[Last(s)].resv);
  }

  lemma PassKeepsPending(s: Log, t: nat, n: nat, maxN: nat)
    requires Pending(s, t, n, maxN) && s.live[0].resv < n <= maxN <= Capacity(s)
    ensures t > 0
    ensures var (s', ok) := Pass(s);
            if ok then
              && Pending(s', t - 1, n, maxN) && Sum(s'.live) == Sum(s.live)
              && (Last(s') == Last(s) - 1 ||
                  (Last(s') == Last(s) && s'.live[Last(s)].free == Capacity(s) - s.live[0].resv))
            else s'.live == s.live && Shape(s', maxN)
  {
    PassFits(s, t, n, maxN);
    PassKeeps(s, maxN);
    PassReserves(s);
    var (s', ok) := Pass(s);
    PassKeepsCapacity(s);
    hide Pass, Sum, AlignedAt, Crowded;
    if ok {
      ShiftedAligned(s.live, s'.live, t, n, s.live[0].resv);
    }
  }

  lemma PassKeepsCapacity(s: Log)
    requires Usable(s)
    ensures Capacity(Pass(s).0) == Capacity(s)
  {
  }

  lemma {:induction false} MakeRoomKeeps(s: Log, n: nat, t: nat, maxN: nat)
    requires Pending(s, t, n, maxN) && n <= maxN <= Capacity(s)
    ensures var (s', ok) := MakeRoom(s, n, t);
            Sum(s'.live) == Sum(s.live) && Shape(s', maxN)
    decreases t
  {
    hide Pass, Sum, Aligned, Crowded;
    if s.live[0].resv < n {
      PassKeepsPending(s, t, n, maxN);
      PassKeepsCapacity(s);
      var (s', ok) := Pass(s);
      if ok {
        MakeRoomKeeps(s', n, t - 1, maxN);
      }
    }
  }

  // The greatest multiple of the delete record that is less than n.
  function Below(n: nat): (m: nat)
    ensures n > 0 ==> m % Z == 0 && m < n <= m + Z
  {
    if n == 0 then 0 else (n - 1) / Z * Z
  }

  /** Files so large that a file between the current one and the tail, which could not hold a
      request more, has as much reserved as any request asks for. */
  predicate Ample(capacity: int, maxN: nat) {
    capacity >= maxN + Z && capacity >= Bound(maxN) + Below(maxN)
  }

  // What is reserved in a file between the current one and the tail is a multiple of the
  // delete record that brought it close to full.
  lemma BetweenHolds(s: Log, i: nat, maxN: nat)
    requires Shape(s, maxN) && 0 < i < Last(s) && s.live[i].resv % Z == 0
    ensures s.live[i].resv > Capacity(s) - Bound(maxN)
    ensures Ample(Capacity(s), maxN) ==> s.live[i].resv >= maxN
  {
    assert Crowded(s.live[i], maxN);
  }

  // The comment of the source says that the loop runs at most once. This is so in ample files.
  lemma OnePassIsEnough(s: Log, n: nat, maxN: nat, t: nat)
    requires Shape(s, maxN) && 0 < t < |s.live| && s.live[t].resv >= n && s.live[0].resv < n <= maxN
    requires t > 1 ==> s.live[1].resv % Z == 0 && (Ample(Capacity(s), maxN) || s.live[1].resv >= n)
    ensures Pass(s).1 ==> Pass(s).0.live[0].resv >= n
    ensures MakeRoom(s, n, t) == Pass(s)
  {
    if t > 1 && s.live[1].resv < n {
      BetweenHolds(s, 1, maxN);
    }
    assert s.live[1].resv >= n;
  }

  // ---------- The walk from the current file to the tail ----------

  // How far the walk has come: files before i are settled, and the whole reserve is
  // congruent to the request n0, so that the tail comes out right of itself.
  ghost predicate Walking(s: Log, i: nat, n: nat, n0: nat) {
    && i <= |s.live|
    && n == (if i == 0 then n0 else 0)
    && (s.live != [] ==> s.live[0].resv >= n0)
    && (Sum(s.live) - n0) % Z == 0
    && forall j :: 0 <= j < i && j < |s.live| ==> AlignedAt(s.live, j, 0, n0)
  }

  lemma {:induction false} SumAligned(live: seq<File>, k: nat, n0: nat)
    requires k <= |live| && forall j :: 0 <= j < k ==> AlignedAt(live, j, 0, n0)
    ensures (Sum(live[..k]) - if k == 0 then 0 else n0) % Z == 0
  {
    if k > 0 {
      SumAligned(live, k - 1, n0);
      assert live[..k] == live[..k - 1] + [live[k - 1]];
      SumAppend(live[..k - 1], live[k - 1]);
      assert AlignedAt(live, k - 1, 0, n0);
    }
  }

  // The tail needs no settling: what it holds is the rest of a conserved total.
  lemma TailIsAligned(s: Log, i: nat, n: nat, n0: nat)
    requires s.live != [] && i == Last(s) && Walking(s, i, n, n0)
    ensures Excess(s.live[i].resv, n) == 0
  {
    SumAligned(s.live, i, n0);
    assert s.live == s.live[..i] + [s.live[i]];
    SumAppend(s.live[..i], s.live[i]);
  }

  lemma WalkOn(s: Log, s': Log, i: nat, n: nat, n0: nat)
    requires Walking(s, i, n, n0) && i < |s.live| <= |s'.live| && Sum(s'.live) == Sum(s.live)
    requires forall j :: 0 <= j < i ==> s'.live[j].resv == s.live[j].resv
    requires s'.live[i].resv >= n && Excess(s'.live[i].resv, n) == 0
    ensures Walking(s', i + 1, 0, n0)
  {
    forall j | 0 <= j < i + 1
      ensures AlignedAt(s'.live, j, 0, n0)
    {
      assert j < i ==> AlignedAt(s.live, j, 0, n0);
    }
  }

  lemma SettleFromTail(s: Log, i: nat, n: nat, c: nat, maxN: nat)
    requires Shape(s, maxN) && i < Last(s) && s.live[i].resv >= n
    requires c == Z - Excess(s.live[i].resv, n) && s.live[Last(s)].resv >= c && s.live[i].free >= c
    requires i > 0 ==> n == 0
    ensures var s' := MoveResv(s, i, Last(s), c);
            && Shape(s', maxN) && Sum(s'.live) == Sum(s.live)
            && s'.live[i].resv >= n && Excess(s'.live[i].resv, n) == 0
            && forall j :: 0 <= j < i ==> s'.live[j] == s.live[j]
  {
    hide Sum, Shape, MoveResv, Excess;
    MoveKeepsSum(s, i, Last(s), c);
    TakenExcess(s.live[i].resv, n, c);
    MoveFromTailKeepsShape(s, i, c, maxN);
    MovedBack(s, i, c);
  }

  lemma TakenExcess(resv: int, n: nat, c: nat)
    requires c == Z - Excess(resv, n) && resv >= n
    ensures resv + c >= n && Excess(resv + c, n) == 0 && (n == 0 ==> (resv + c) % Z == 0)
  {
  }

  lemma MovedBack(s: Log, to: nat, n: int)
    requires to < |s.live| - 1
    ensures var s' := MoveResv(s, to, Last(s), n);
            && |s'.live| == |s.live| && s'.live[to].resv == s.live[to].resv + n
            && forall j :: 0 <= j < |s.live| && j != to && j != Last(s) ==> s'.live[j] == s.live[j]
  {
  }

  lemma SettleToTail(s: Log, i: nat, n: nat, r: nat, maxN: nat)
    requires Shape(s, maxN) && i < Last(s) && s.live[i].resv >= n
    requires r == Excess(s.live[i].resv, n) && 0 < r && Z <= maxN && maxN + Z <= Capacity(s)
    requires i > 0 ==> n == 0
    ensures var (s1, got) := NeedFree(s, r);
            && Shape(s1, maxN) && Sum(s1.live) == Sum(s.live) && (got != r ==> s1.live == s.live)
            && (got == r ==>
                  var s' := MoveResv(s1, Last(s1), i, r);
                  && Shape(s', maxN) && Sum(s'.live) == Sum(s.live)
                  && s'.live[i].resv >= n && Excess(s'.live[i].resv, n) == 0
                  && forall j :: 0 <= j < i ==> s'.live[j] == s.live[j])
  {
    assert r + s.live[Last(s)].resv % Z <= Bound(maxN);
    NeedFreeKeepsShape(s, r, maxN);
    NeedFreeKeepsSum(s, r);
    var (s1, got) := NeedFree(s, r);
    hide Sum, NeedFree;
    if got == r {
      GiveToTail(s1, i, n, r, maxN);
    }
  }

  lemma GiveToTail(s: Log, i: nat, n: nat, r: nat, maxN: nat)
    requires Shape(s, maxN) && i < Last(s) && s.live[i].resv >= n && Z <= maxN
    requires r == Excess(s.live[i].resv, n) && r <= s.live[Last(s)].free
    requires i > 0 ==> n == 0
    ensures var s' := MoveResv(s, Last(s), i, r);
            && Shape(s', maxN) && Sum(s'.live) == Sum(s.live)
            && s'.live[i].resv >= n && Excess(s'.live[i].resv, n) == 0
            && forall j :: 0 <= j < i ==> s'.live[j] == s.live[j]
  {
    hide Sum, Shape, MoveResv, Excess;
    MoveKeepsSum(s, Last(s), i, r);
    GivenExcess(s.live[i].resv, n, r);
    MoveToTailKeepsShape(s, i, r, maxN);
    MovedOnly(s, Last(s), i, r);
  }

  lemma GivenExcess(resv: int, n: nat, r: nat)
    requires r == Excess(resv, n) && resv >= n
    ensures resv - r >= n && Excess(resv - r, n) == 0 && (n == 0 ==> r == resv % Z)
  {
  }

  lemma MovedOnly(s: Log, to: nat, from: nat, n: int)
    requires to < |s.live| && from < |s.live| && to != from
    ensures var s' := MoveResv(s, to, from, n);
            && |s'.live| == |s.live| && s'.live[from].resv == s.live[from].resv - n
            && forall j :: 0 <= j < |s.live| && j != to && j != from ==> s'.live[j] == s.live[j]
  {
  }

  // What one step of the walk keeps, whether it succeeds or not.
  ghost predicate Settled(s: Log, s': Log, ok: bool, i: nat, n0: nat, maxN: nat) {
    && Shape(s', maxN) && Sum(s'.live) == Sum(s.live)
    && if ok then Walking(s', i + 1, 0, n0) else s'.live == s.live
  }

  lemma SettleByTaking(s: Log, i: nat, n: nat, n0: nat, maxN: nat)
    requires Shape(s, maxN) && i < Last(s) && s.live[i].resv >= n && Walking(s, i, n, n0)
    requires Excess(s.live[i].resv, n) != 0
    requires var c := Z - Excess(s.live[i].resv, n); s.live[Last(s)].resv >= c && s.live[i].free >= c
    ensures Settled(s, MoveResv(s, i, Last(s), Z - Excess(s.live[i].resv, n)), true, i, n0, maxN)
  {
    var c := Z - Excess(s.live[i].resv, n);
    WalkingFacts(s, i, n, n0);
    SettleFromTail(s, i, n, c, maxN);
    hide Sum, Shape, MoveResv, Walking;
    WalkOn(s, MoveResv(s, i, Last(s), c), i, n, n0);
  }

  lemma SettleByGiving(s: Log, i: nat, n: nat, r: nat, n0: nat, maxN: nat)
    requires Shape(s, maxN) && i < Last(s) && s.live[i].resv >= n && Walking(s, i, n, n0)
    requires r == Excess(s.live[i].resv, n) && 0 < r && Z <= maxN && maxN + Z <= Capacity(s)
    ensures var (s1, got) := NeedFree(s, r);
            if got == r then Settled(s, MoveResv(s1, Last(s1), i, r), true, i, n0, maxN)
            else Settled(s, s1, false, i, n0, maxN)
  {
    WalkingFacts(s, i, n, n0);
    SettleToTail(s, i, n, r, maxN);
    var (s1, got) := NeedFree(s, r);
    hide Sum, Shape, MoveResv, NeedFree, Walking;
    if got == r {
      WalkOn(s, MoveResv(s1, Last(s1), i, r), i, n, n0);
    }
  }

  lemma SettleByNothing(s: Log, i: nat, n: nat, n0: nat, maxN: nat)
    requires Shape(s, maxN) && i < |s.live| && s.live[i].resv >= n && Walking(s, i, n, n0)
    requires Excess(s.live[i].resv, n) == 0
    ensures Settled(s, s, true, i, n0, maxN)
  {
    WalkOn(s, s, i, n, n0);
  }

  lemma SettleKeeps(s: Log, i: nat, n: nat, n0: nat, maxN: nat)
    requires Shape(s, maxN) && i < |s.live| && s.live[i].resv >= n && Walking(s, i, n, n0)
    requires Z <= maxN && maxN + Z <= Capacity(s)
    ensures var (s', ok) := Settle(s, i, n);
            Settled(s, s', ok, i, n0, maxN)
  {
    var r := Excess(s.live[i].resv, n);
    var t := Last(s);
    hide Settled, Shape, Sum, Walking, MoveResv, NeedFree, Usable, Quiet, Capacity, Excess;
    if i == t {
      TailIsAligned(s, i, n, n0);
    }
    if r == 0 {
      SettleByNothing(s, i, n, n0, maxN);
    } else if s.live[t].resv >= Z - r && s.live[i].free >= Z - r {
      SettleByTaking(s, i, n, n0, maxN);
    } else {
      SettleByGiving(s, i, n, r, n0, maxN);
    }
  }

  lemma WalkingFacts(s: Log, i: nat, n: nat, n0: nat)
    requires Walking(s, i, n, n0)
    ensures i > 0 ==> n == 0
  {
  }

  lemma {:induction false} BalanceRestKeeps(s: Log, i: nat, n: nat, n0: nat, maxN: nat)
    requires Shape(s, maxN) && i <= |s.live| && (i < |s.live| ==> s.live[i].resv >= n) && Walking(s, i, n, n0)
    requires Z <= maxN && maxN + Z <= Capacity(s)
    ensures var (s', ok) := BalanceRest(s, i, n);
            && Shape(s', maxN) && Sum(s'.live) == Sum(s.live)
            && (ok ==> Aligned(s'.live, 0, n0) && s'.live[0].resv >= n0)
    decreases Work(s, i)
  {
    if i < |s.live| {
      SettleKeeps(s, i, n, n0, maxN);
      var (s', ok) := Settle(s, i, n);
      if ok {
        BalanceRestKeeps(s', i + 1, 0, n0, maxN);
      }
    }
  }

  // ---------- Reservations that succeed ----------

  lemma GrantTailKeepsLined(s: Log, n: nat)
    requires Lined(s) && s.live[Last(s)].free >= n
    ensures Lined(Grant(s, Last(s), n))
  {
  }

  lemma GrantTailKeepsShape(s: Log, n: nat, maxN: nat)
    requires Shape(s, maxN) && s.live[Last(s)].free >= n
    ensures Shape(Grant(s, Last(s), n), maxN)
  {
  }

  lemma BalanceKeeps(s: Log, n: nat, maxN: nat)
    requires s.live != [] && Pending(s, Last(s), n, maxN) && n <= maxN && (Sum(s.live) - n) % Z == 0
    requires Z <= maxN && maxN + Z <= Capacity(s)
    ensures var (s', ok) := Balance(s, n, Last(s));
            && Shape(s', maxN) && Sum(s'.live) == Sum(s.live)
            && (ok ==> Aligned(s'.live, 0, n) && s'.live[0].resv >= n)
  {
    MakeRoomKeeps(s, n, Last(s), maxN);
    var (s1, ok) := MakeRoom(s, n, Last(s));
    if ok {
      BalanceRestKeeps(s1, 0, n, n, maxN);
    }
  }

  /** Reserving n bytes, for every request that a file can hold together with a delete
      record. The reserve of the log grows by what the call returns and stays the sum of the
      files' reserves. On success the current file holds the n bytes, its reserve is
      congruent to n, every later one to 0, and no count is negative: the three promises the
      source makes for balance, with the conservation it relies on. */
  lemma ReserveKeeps(s: Log, n: nat, maxN: nat)
    requires s.use && Shape(s, maxN) && Aligned(s.live, 0, 0) && s.resv == Sum(s.live)
    requires n <= maxN && Z <= maxN && maxN + Z <= Capacity(s)
    ensures var (s', z) := Reserve(s, n);
            && (z == n || z == 0)
            && s'.resv == s.resv + z && s'.resv == Sum(s'.live)
            && (z == n ==> Shape(s', maxN) && Aligned(s'.live, 0, n) && s'.live[0].resv >= n)
  {
    if s.live[0].free >= n {
      GrantAddsToSum(s, 0, n);
      GrantCurrentAligns(s, n);
    } else {
      var (s1, got) := NeedFree(s, n);
      TailIsMultiple(s);
      NeedFreeKeepsShape(s, n, maxN);
      NeedFreeKeepsSum(s, n);
      NeedFreeKeepsAligned(s, n);
      if got == n {
        SumIsAligned(s.live);
        ReserveAtTail(s1, n, maxN);
      }
    }
  }

  lemma TailIsMultiple(s: Log)
    requires s.live != [] && Aligned(s.live, 0, 0)
    ensures s.live[Last(s)].resv % Z == 0
  {
    assert AlignedAt(s.live, Last(s), 0, 0);
  }

  lemma SumIsAligned(live: seq<File>)
    requires Aligned(live, 0, 0)
    ensures Sum(live) % Z == 0
  {
    SumAligned(live, |live|, 0);
    assert live[..|live|] == live;
  }

  lemma GrantCurrentAligns(s: Log, n: nat)
    requires s.live != [] && Aligned(s.live, 0, 0)
    ensures Aligned(Grant(s, 0, n).live, 0, n)
  {
    var s' := Grant(s, 0, n);
    forall i | 0 <= i < |s'.live|
      ensures AlignedAt(s'.live, i, 0, n)
    {
      assert AlignedAt(s.live, i, 0, 0);
    }
  }

  lemma ReserveAtTail(s: Log, n: nat, maxN: nat)
    requires Shape(s, maxN) && Aligned(s.live, 0, 0) && Sum(s.live) % Z == 0 && s.live[Last(s)].free >= n
    requires s.resv == Sum(s.live) && 0 < n <= maxN && Z <= maxN && maxN + Z <= Capacity(s)
    ensures var (s', z) := ReserveInTail(s, n);
            && (z == n || z == 0)
            && s'.resv == s.resv + z && s'.resv == Sum(s'.live)
            && (z == n ==> Shape(s', maxN) && Aligned(s'.live, 0, n) && s'.live[0].resv >= n)
  {
    var s1 := Grant(s, Last(s), n);
    GrantIsPending(s, n, maxN);
    GrantAddsToSum(s, Last(s), n);
    BalanceKeeps(s1, n, maxN);
    var (s2, ok) := Balance(s1, n, Last(s));
    hide Balance, Shape, Sum, Aligned, Usable;
    GrantAddsToSum(s2, Last(s2), -(n as int));
  }

  // ---------- Reservations that fail ----------

  // How many files from i on, short of the tail, still have to be settled.
  ghost function Misfits(live: seq<File>, i: nat, n: int): nat
    requires i <= |live|
    decreases |live| - i
  {
    if i + 1 >= |live| then 0
    else (if Excess(live[i].resv, n) == 0 then 0 else 1) + Misfits(live, i + 1, 0)
  }

  lemma {:induction false} MisfitsFrame(live: seq<File>, live': seq<File>, i: nat, n: int)
    requires i <= |live| == |live'|
    requires forall j :: i <= j < |live| - 1 ==> live'[j].resv == live[j].resv
    ensures Misfits(live', i, n) == Misfits(live, i, n)
    decreases |live| - i
  {
    if i + 1 < |live| {
      MisfitsFrame(live, live', i + 1, 0);
    }
  }

  lemma {:induction false} MisfitsOfAligned(live: seq<File>, i: nat, t: nat, n: int)
    requires 0 < i <= |live|
    requires forall j :: i <= j < |live| - 1 && j != t ==> live[j].resv % Z == 0
    ensures Misfits(live, i, 0) <= if i <= t < |live| - 1 then 1 else 0
    decreases |live| - i
  {
    if i + 1 < |live| {
      MisfitsOfAligned(live, i + 1, t, n);
    }
  }

  // With room in the tail for every file still to be settled the walk cannot fail.
  lemma {:induction false} WalkSucceeds(s: Log, i: nat, n: nat, n0: nat, maxN: nat)
    requires Shape(s, maxN) && i <= |s.live| && (i < |s.live| ==> s.live[i].resv >= n) && Walking(s, i, n, n0)
    requires Z <= maxN && maxN + Z <= Capacity(s)
    requires s.live[Last(s)].free >= Z * Misfits(s.live, i, n)
    ensures BalanceRest(s, i, n).1
    decreases Work(s, i)
  {
    if i < |s.live| {
      SettleKeeps(s, i, n, n0, maxN);
      SettleLeaves(s, i, n, n0);
      var (s', ok) := Settle(s, i, n);
      WalkSucceeds(s', i + 1, 0, n0, maxN);
    }
  }

  lemma SettleLeaves(s: Log, i: nat, n: nat, n0: nat)
    requires Usable(s) && i < |s.live| && s.live[i].resv >= n && Walking(s, i, n, n0)
    requires Capacity(s) >= 2 * Z - 1
    requires s.live[Last(s)].free >= Z * Misfits(s.live, i, n)
    ensures var (s', ok) := Settle(s, i, n);
            && ok && |s'.live| == |s.live|
            && s'.live[Last(s')].free >= Z * Misfits(s'.live, i + 1, 0)
  {
    var r := Excess(s.live[i].resv, n);
    if i == Last(s) {
      TailIsAligned(s, i, n, n0);
    } else if r != 0 {
      var s' := Settle(s, i, n).0;
      MisfitsFrame(s.live, s'.live, i + 1, 0);
    }
  }

  // A first step of the walk that has to append a file leaves one file to settle.
  lemma FirstStepLeavesOne(s: Log, n: nat, maxN: nat)
    requires s.live != [] && Pending(s, Last(s), n, maxN) && s.live[0].resv >= n && Last(s) > 0
    requires Excess(s.live[0].resv, n) != 0 && Z <= n <= maxN && maxN + Z <= Capacity(s)
    ensures var (s', ok) := Settle(s, 0, n);
            if ok then s'.live[Last(s')].free >= Z * Misfits(s'.live, 1, 0) else s'.live == s.live
  {
    var t := Last(s);
    var (s', ok) := Settle(s, 0, n);
    var r := Excess(s.live[0].resv, n);
    if ok {
      forall j | 1 <= j < |s'.live| - 1 && j != t
        ensures s'.live[j].resv % Z == 0
      {
        assert AlignedAt(s.live, j, t, n);
      }
      MisfitsOfAligned(s'.live, 1, t, n);
    }
  }

  // The walk, once the current file holds the request, can only fail at its first step,
  // before anything has moved.
  lemma WalkFailsCleanly(s: Log, t: nat, n: nat, maxN: nat)
    requires Pending(s, t, n, maxN) && s.live[0].resv >= n && (Sum(s.live) - n) % Z == 0
    requires t == Last(s) || (t == Last(s) - 1 && s.live[Last(s)].free >= 2 * Z)
    requires Z <= n <= maxN && maxN + Z <= Capacity(s)
    ensures var (s', ok) := BalanceRest(s, 0, n);
            !ok ==> s'.live == s.live && t == Last(s)
  {
    if Excess(s.live[0].resv, n) == 0 || t < Last(s) || Last(s) == 0 {
      forall j | 1 <= j < Last(s) && j != t
        ensures s.live[j].resv % Z == 0
      {
        assert AlignedAt(s.live, j, t, n);
      }
      if Last(s) > 0 {
        MisfitsOfAligned(s.live, 1, t, n);
      }
      WalkSucceeds(s, 0, n, n, maxN);
    } else {
      FirstStepLeavesOne(s, n, maxN);
      SettleKeeps(s, 0, n, n, maxN);
      var (s', ok) := Settle(s, 0, n);
      if ok {
        WalkSucceeds(s', 1, 0, n, maxN);
      }
    }
  }

  // What makes a refusal harmless: one pass of the loop is enough, and a file it has to append
  // keeps room for two delete records.
  ghost predicate OnePasses(s: Log, n: nat) {
    && (|s.live| > 2 && s.live[0].resv < n ==> s.live[1].resv >= n)
    && (|s.live| > 1 && s.live[0].resv < n ==> s.live[0].resv + 2 * Z <= Capacity(s))
  }

  lemma AmpleOnePasses(s: Log, n: nat, maxN: nat)
    requires s.live != [] && Pending(s, Last(s), n, maxN) && Z <= n <= maxN && Ample(Capacity(s), maxN)
    ensures OnePasses(s, n)
  {
    if |s.live| > 1 {
      assert AlignedAt(s.live, 0, Last(s), n);
    }
    if |s.live| > 2 {
      assert AlignedAt(s.live, 1, Last(s), n);
      BetweenHolds(s, 1, maxN);
    }
  }

  lemma BalanceFailsCleanly(s: Log, n: nat, maxN: nat)
    requires s.live != [] && Pending(s, Last(s), n, maxN) && (Sum(s.live) - n) % Z == 0
    requires Z <= n <= maxN && maxN + Z <= Capacity(s) && OnePasses(s, n)
    ensures var (s', ok) := Balance(s, n, Last(s));
            !ok ==> Pending(s', Last(s'), n, maxN)
  {
    var t := Last(s);
    if s.live[0].resv >= n {
      WalkRefused(s, t, n, maxN);
    } else {
      BalanceAfterPassFailsCleanly(s, n, maxN);
    }
  }

  // The walk, when it is refused, leaves the request where it can be taken back.
  lemma WalkRefused(s: Log, t: nat, n: nat, maxN: nat)
    requires Pending(s, t, n, maxN) && s.live[0].resv >= n && (Sum(s.live) - n) % Z == 0
    requires t == Last(s) || (t == Last(s) - 1 && s.live[Last(s)].free >= 2 * Z)
    requires Z <= n <= maxN && maxN + Z <= Capacity(s)
    ensures var (s', ok) := BalanceRest(s, 0, n);
            !ok ==> Pending(s', Last(s'), n, maxN)
  {
    assert Usable(s);
    hide Sum, Shape, Pending, BalanceRest, Usable;
    WalkFailsCleanly(s, t, n, maxN);
    var (s', ok) := BalanceRest(s, 0, n);
    if !ok {
      SameLivePending(s, s', n, maxN);
    }
  }

  lemma BalanceAfterPassFailsCleanly(s: Log, n: nat, maxN: nat)
    requires s.live != [] && Pending(s, Last(s), n, maxN) && (Sum(s.live) - n) % Z == 0
    requires Z <= n <= maxN && maxN + Z <= Capacity(s) && s.live[0].resv < n && OnePasses(s, n)
    ensures var (s', ok) := Balance(s, n, Last(s));
            !ok ==> Pending(s', Last(s'), n, maxN)
  {
    var t := Last(s);
    PendingMeans(s, n, maxN);
    hide Pass, Sum, Shape, Pending, BalanceRest, Excess, OnePasses, Aligned;
    OnePassesMeans(s, n);
    PassKeepsPending(s, t, n, maxN);
    OnePassIsEnough(s, n, maxN, t);
    PassKeepsCapacity(s);
    var (s', ok) := Pass(s);
    if ok {
      PendingAt(s', t - 1, n, maxN);
      WalkRefused(s', t - 1, n, maxN);
    } else {
      SameLivePending(s, s', n, maxN);
    }
  }

  lemma PendingAt(s: Log, t: int, n: nat, maxN: nat)
    requires Pending(s, t, n, maxN)
    ensures 0 <= t < |s.live| && s.live[t].resv >= n && Usable(s)
  {
  }

  lemma OnePassesMeans(s: Log, n: nat)
    requires OnePasses(s, n) && s.live != [] && s.live[0].resv < n
    ensures |s.live| > 2 ==> s.live[1].resv >= n
    ensures |s.live| > 1 ==> s.live[0].resv + 2 * Z <= Capacity(s)
  {
  }

  lemma SameLivePending(s: Log, s': Log, n: nat, maxN: nat)
    requires s.live != [] && Pending(s, Last(s), n, maxN) && s'.live == s.live && s'.fileSize == s.fileSize
    ensures Pending(s', Last(s'), n, maxN)
  {
  }

  lemma PendingMeans(s: Log, n: nat, maxN: nat)
    requires s.live != [] && exists t :: Pending(s, t, n, maxN)
    ensures Shape(s, maxN) && (Pending(s, Last(s), n, maxN) ==> s.live[Last(s)].resv >= n)
    ensures Last(s) > 1 && Pending(s, Last(s), n, maxN) ==> s.live[1].resv % Z == 0
  {
    assert Last(s) > 1 && Pending(s, Last(s), n, maxN) ==> AlignedAt(s.live, 1, Last(s), n);
  }

  // The log while n bytes more are reserved in the tail.
  ghost function GrantedInTail(s: Log, n: nat): Log
    requires s.live != []
  {
    var s1 := NeedFree(s, n).0;
    Grant(s1, Last(s1), n)
  }

  /** A reservation that fails leaves the space accounting as sound as it was, when one pass is
      enough: what it took back is exactly what it had put into the tail, and the files are
      ready for the next command. */
  lemma RefusedIsUndone(s: Log, n: nat, maxN: nat)
    requires s.use && Shape(s, maxN) && Aligned(s.live, 0, 0) && s.resv == Sum(s.live)
    requires Z <= n <= maxN && maxN + Z <= Capacity(s)
    requires s.live[0].free < n && NeedFree(s, n).1 == n ==> OnePasses(GrantedInTail(s, n), n)
    ensures var (s', z) := Reserve(s, n);
            z == 0 ==> Shape(s', maxN) && Aligned(s'.live, 0, 0)
  {
    if s.live[0].free < n {
      var (s1, got) := NeedFree(s, n);
      TailIsMultiple(s);
      NeedFreeKeepsShape(s, n, maxN);
      NeedFreeKeepsAligned(s, n);
      if got == n {
        SumIsAligned(s1.live);
        FailedGrantIsUndone(s1, n, maxN);
      }
    }
  }

  /** In ample files a refused reservation undoes itself. */
  lemma ReserveFailsCleanly(s: Log, n: nat, maxN: nat)
    requires s.use && Shape(s, maxN) && Aligned(s.live, 0, 0) && s.resv == Sum(s.live)
    requires Z <= n <= maxN && Ample(Capacity(s), maxN)
    ensures var (s', z) := Reserve(s, n);
            z == 0 ==> Shape(s', maxN) && Aligned(s'.live, 0, 0)
  {
    if s.live[0].free < n && NeedFree(s, n).1 == n {
      TailIsMultiple(s);
      NeedFreeKeepsShape(s, n, maxN);
      NeedFreeKeepsAligned(s, n);
      GrantIsPending(NeedFree(s, n).0, n, maxN);
      AmpleOnePasses(GrantedInTail(s, n), n, maxN);
    }
    RefusedIsUndone(s, n, maxN);
  }

  lemma GrantIsPending(s: Log, n: nat, maxN: nat)
    requires Shape(s, maxN) && Aligned(s.live, 0, 0) && s.live[Last(s)].free >= n
    ensures Pending(Grant(s, Last(s), n), Last(s), n, maxN)
  {
    var t := Last(s);
    var s1 := Grant(s, t, n);
    GrantTailKeepsShape(s, n, maxN);
    forall i | 0 <= i < |s1.live|
      ensures AlignedAt(s1.live, i, t, n)
    {
      assert AlignedAt(s.live, i, 0, 0);
    }
  }

  lemma NeedFreeKeepsAligned(s: Log, n: int)
    requires s.live != [] && Aligned(s.live, 0, 0)
    ensures Aligned(NeedFree(s, n).0.live, 0, 0)
  {
    var s' := NeedFree(s, n).0;
    forall i | 0 <= i < |s'.live|
      ensures AlignedAt(s'.live, i, 0, 0)
    {
      if i < |s.live| {
        assert AlignedAt(s.live, i, 0, 0);
      }
    }
  }

  lemma FailedGrantIsUndone(s: Log, n: nat, maxN: nat)
    requires Shape(s, maxN) && Aligned(s.live, 0, 0) && Sum(s.live) % Z == 0 && s.live[Last(s)].free >= n
    requires Z <= n <= maxN && maxN + Z <= Capacity(s) && OnePasses(Grant(s, Last(s), n), n)
    ensures var (s', z) := ReserveInTail(s, n);
            z == 0 ==> Shape(s', maxN) && Aligned(s'.live, 0, 0)
  {
    var t := Last(s);
    var s1 := Grant(s, t, n);
    GrantAddsToSum(s, t, n);
    GrantIsPending(s, n, maxN);
    BalanceFailsCleanly(s1, n, maxN);
    var (s2, ok) := Balance(s1, n, t);
    hide Balance, Shape, Sum;
    if !ok {
      UngrantTail(s2, n, maxN);
    }
  }

  lemma UngrantTail(s: Log, n: nat, maxN: nat)
    requires s.live != [] && Pending(s, Last(s), n, maxN)
    ensures var s' := Grant(s, Last(s), -(n as int));
            Shape(s', maxN) && Aligned(s'.live, 0, 0)
  {
    var s' := Grant(s, Last(s), -(n as int));
    forall i | 0 <= i < |s'.live|
      ensures AlignedAt(s'.live, i, 0, 0)
    {
      assert AlignedAt(s.live, i, Last(s), n);
    }
  }

  // ---------- A file system that refuses nothing ----------

  lemma {:induction false} MakeRoomGranted(s: Log, n: nat, t: nat)
    requires Usable(s) && t < |s.live| && s.live[t].resv >= n && Granting(s)
    ensures MakeRoom(s, n, t).1 && Granting(MakeRoom(s, n, t).0)
    decreases t
  {
    if s.live[0].resv < n {
      assert Pass(s).1;
      MakeRoomGranted(Pass(s).0, n, t - 1);
    }
  }

  lemma {:induction false} BalanceRestGranted(s: Log, i: nat, n: nat)
    requires Usable(s) && i <= |s.live| && (i < |s.live| ==> s.live[i].resv >= n)
    requires Capacity(s) >= 2 * Z - 1 && Granting(s)
    ensures BalanceRest(s, i, n).1
    decreases Work(s, i)
  {
    if i < |s.live| {
      assert Settle(s, i, n).1;
      BalanceRestGranted(Settle(s, i, n).0, i + 1, 0);
    }
  }

  /** When the file system refuses no file, no reservation is refused, in files of any size
      that the walk can end in. */
  lemma GrantedReserves(s: Log, n: nat)
    requires s.use && Usable(s) && Capacity(s) >= 2 * Z - 1 && Granting(s)
    ensures Reserve(s, n).1 == n
  {
    if s.live[0].free < n {
      var s1 := NeedFree(s, n).0;
      var s2 := Grant(s1, Last(s1), n);
      MakeRoomGranted(s2, n, Last(s1));
      BalanceRestGranted(MakeRoom(s2, n, Last(s1)).0, 0, n);
    }
  }
}
