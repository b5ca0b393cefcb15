/** Each small step of the scheduler keeps every job and every connection in its place. */
module Moves {
  import opened Records
  import opened Heap
  import opened Schedule
  import opened Places

  // ---------- One job changes its place ----------

  lemma ReadyMoves(s: State, hand: set<nat>, s': State, hand': set<nat>, id: nat)
    requires ReadyPlaced(s, hand) && OnlyJob(s, hand, s', hand', id)
    requires forall t :: 0 <= t < |s'.tubes| ==> Ordered(s'.tubes[t].ready)
    requires forall t, e :: 0 <= t < |s'.tubes| ==>
               ReadyTimes(s', t, e) == ReadyTimes(s, t, e)
                                       - B(e.id == id && IsReady(s, hand, t, e))
                                       + B(e.id == id && IsReady(s', hand', t, e))
    ensures ReadyPlaced(s', hand')
  {
    hide ReadyTimes, Ordered;
    forall t, e | 0 <= t < |s'.tubes|
      ensures ReadyTimes(s', t, e) == Times(IsReady(s', hand', t, e))
    {
      assert ReadyTimes(s, t, e) == Times(IsReady(s, hand, t, e));
    }
  }

  lemma DelayedMoves(s: State, hand: set<nat>, s': State, hand': set<nat>, id: nat)
    requires DelayedPlaced(s, hand) && OnlyJob(s, hand, s', hand', id)
    requires forall t :: 0 <= t < |s'.tubes| ==> Ordered(s'.tubes[t].delay)
    requires forall t, e :: 0 <= t < |s'.tubes| ==>
               DelayedTimes(s', t, e) == DelayedTimes(s, t, e)
                                         - B(e.id == id && IsDelayed(s, hand, t, e))
                                         + B(e.id == id && IsDelayed(s', hand', t, e))
    ensures DelayedPlaced(s', hand')
  {
    hide DelayedTimes, Ordered;
    forall t, e | 0 <= t < |s'.tubes|
      ensures DelayedTimes(s', t, e) == Times(IsDelayed(s', hand', t, e))
    {
      assert DelayedTimes(s, t, e) == Times(IsDelayed(s, hand, t, e));
    }
  }

  lemma ReservedMoves(s: State, hand: set<nat>, s': State, hand': set<nat>, id: nat)
    requires ReservedPlaced(s, hand) && OnlyJob(s, hand, s', hand', id) && s'.conns.Keys == s.conns.Keys
    requires forall c, k :: c in s'.conns ==>
               ReservedTimes(s', c, k) == ReservedTimes(s, c, k)
                                          - B(k == id && IsReserved(s, hand, c, k))
                                          + B(k == id && IsReserved(s', hand', c, k))
    ensures ReservedPlaced(s', hand')
  {
    hide ReservedTimes;
    forall c, k | c in s'.conns
      ensures ReservedTimes(s', c, k) == Times(IsReserved(s', hand', c, k))
    {
      assert ReservedTimes(s, c, k) == Times(IsReserved(s, hand, c, k));
    }
  }

  lemma BuriedMoves(s: State, hand: set<nat>, s': State, hand': set<nat>, id: nat)
    requires BuriedPlaced(s, hand) && OnlyJob(s, hand, s', hand', id) && Unlisted(s, id)
    requires forall t :: 0 <= t < |s.tubes| ==> s'.tubes[t].buried == s.tubes[t].buried
    ensures BuriedPlaced(s', hand')
  {
    forall t | 0 <= t < |s'.tubes|
      ensures BuriedListSound(s', hand', t)
    {
      assert BuriedListSound(s, hand, t);
    }
  }

  // Only a buried job that is not in hand is on a list.
  lemma NotBuriedUnlisted(s: State, hand: set<nat>, id: nat)
    requires BuriedPlaced(s, hand) && (id !in s.jobs || id in hand || s.jobs[id].state != BURIED)
    ensures Unlisted(s, id)
  {
    forall t | 0 <= t < |s.tubes|
      ensures id !in s.tubes[t].buried
    {
      assert BuriedListSound(s, hand, t);
    }
  }

  // ---------- Out of the ready heap ----------

  lemma RootOfReady(s: State, hand: set<nat>, t: nat)
    requires t < |s.tubes| && ReadyPlaced(s, hand) && s.tubes[t].ready != []
    ensures IsReady(s, hand, t, s.tubes[t].ready[0])
  {
    var e := s.tubes[t].ready[0];
    assert e in s.tubes[t].ready;
    assert ReadyTimes(s, t, e) == Times(IsReady(s, hand, t, e));
  }

  lemma RemoveReadyPlaces(s: State, hand: set<nat>, id: nat)
    requires JobsSound(s, hand) && ReadyPlaced(s, hand) && Held(s, hand, id)
    requires var t := s.jobs[id].tube; t < |s.tubes| && s.tubes[t].ready != [] && s.tubes[t].ready[0].id == id
    ensures ReadyPlaced(RemoveReady(s, id), hand + {id})
  {
    hide Removed, Ordered;
    var s', t, hand' := RemoveReady(s, id), s.jobs[id].tube, hand + {id};
    var root := s.tubes[t].ready[0];
    RootOfReady(s, hand, t);
    RemoveKeeps(s.tubes[t].ready, 0);
    forall u, e | 0 <= u < |s'.tubes|
      ensures ReadyTimes(s', u, e) == ReadyTimes(s, u, e) - B(e.id == id && IsReady(s, hand, u, e))
                                      + B(e.id == id && IsReady(s', hand', u, e))
    {
      assert e.id == id && IsReady(s, hand, u, e) ==> e == root && u == t;
    }
    ReadyMoves(s, hand, s', hand', id);
  }

  // The rest of the invariant when only the heap of ready jobs and its counters differ, and
  // job id is taken in hand.
  lemma RemoveReadyOthers(s: State, hand: set<nat>, id: nat)
    requires Sound(s, hand) && Held(s, hand, id) && s.jobs[id].state == READY
    requires var t := s.jobs[id].tube; t < |s.tubes| && s.tubes[t].ready != []
    ensures var s', hand' := RemoveReady(s, id), hand + {id};
            && JobsSound(s', hand') && DelayedPlaced(s', hand') && ReservedPlaced(s', hand')
            && WaitingPlaced(s') && WatchesTubes(s') && BuriedPlaced(s', hand') && OnlyJob(s, hand, s', hand', id)
  {
    hide Removed, Ordered, CountersRight, ReadyPlaced, BuriedListSound, Unlisted;
    var s', hand' := RemoveReady(s, id), hand + {id};
    NotBuriedUnlisted(s, hand, id);
    BuriedMoves(s, hand, s', hand', id);
    assert forall t, e :: 0 <= t < |s'.tubes| ==> DelayedTimes(s', t, e) == DelayedTimes(s, t, e);
    DelayedMoves(s, hand, s', hand', id);
    assert forall c, k :: c in s'.conns ==> ReservedTimes(s', c, k) == ReservedTimes(s, c, k);
    ReservedMoves(s, hand, s', hand', id);
    SameWaiting(s, s');
    forall k | k in s'.jobs
      ensures JobSound(s', hand', k)
    {
      assert JobSound(s, hand, k);
    }
  }

  // Nothing about waiting differs.
  lemma SameWaiting(s: State, s': State)
    requires WaitingPlaced(s) && WatchesTubes(s) && |s'.tubes| == |s.tubes| && s'.waitingCt == s.waitingCt
    requires s'.conns.Keys == s.conns.Keys
    requires forall c :: c in s.conns ==>
        s'.conns[c].waiting == s.conns[c].waiting && s'.conns[c].watch == s.conns[c].watch
    requires forall t :: 0 <= t < |s.tubes| ==>
        s'.tubes[t].waiting == s.tubes[t].waiting && s'.tubes[t].waitingCt == s.tubes[t].waitingCt
    ensures WaitingPlaced(s') && WatchesTubes(s')
  {
    assert Waiters(s') == Waiters(s);
    forall t, c | 0 <= t < |s'.tubes|
      ensures WaitingTimes(s', t, c) == Times(IsWaitingOn(s', t, c))
    {
      assert WaitingTimes(s, t, c) == Times(IsWaitingOn(s, t, c));
    }
  }

  lemma RemoveReadyCounters(s: State, hand: set<nat>, id: nat)
    requires CountersRight(s, hand) && Held(s, hand, id) && s.jobs[id].state == READY
    requires var t := s.jobs[id].tube; t < |s.tubes| && s.tubes[t].ready != []
    ensures CountersRight(RemoveReady(s, id), hand + {id})
  {
    hide Removed, CountersRight;
    CountersMove(s, hand, RemoveReady(s, id), hand + {id}, id);
  }

  /** Taking the root of a heap of ready jobs in hand. */
  lemma RemoveReadySound(s: State, hand: set<nat>, id: nat)
    requires Sound(s, hand) && Held(s, hand, id)
    requires var t := s.jobs[id].tube; t < |s.tubes| && s.tubes[t].ready != [] && s.tubes[t].ready[0].id == id
    ensures Sound(RemoveReady(s, id), hand + {id}) && s.jobs[id].state == READY
  {
    hide RemoveReady, ReadyPlaced, DelayedPlaced, ReservedPlaced, CountersRight, WaitingPlaced, WatchesTubes, JobsSound,
        BuriedPlaced;
    RootOfReady(s, hand, s.jobs[id].tube);
    RemoveReadyPlaces(s, hand, id);
    RemoveReadyOthers(s, hand, id);
    RemoveReadyCounters(s, hand, id);
  }

  // ---------- Out of the heap of delayed jobs ----------

  lemma RootOfDelayed(s: State, hand: set<nat>, t: nat)
    requires t < |s.tubes| && DelayedPlaced(s, hand) && s.tubes[t].delay != []
    ensures IsDelayed(s, hand, t, s.tubes[t].delay[0])
  {
    var e := s.tubes[t].delay[0];
    assert e in s.tubes[t].delay;
    assert DelayedTimes(s, t, e) == Times(IsDelayed(s, hand, t, e));
  }

  lemma RemoveDelayedPlaces(s: State, hand: set<nat>, id: nat)
    requires JobsSound(s, hand) && DelayedPlaced(s, hand) && Held(s, hand, id)
    requires var t := s.jobs[id].tube; t < |s.tubes| && s.tubes[t].delay != [] && s.tubes[t].delay[0].id == id
    ensures DelayedPlaced(RemoveDelayed(s, id), hand + {id})
  {
    hide Removed, Ordered;
    var s', t, hand' := RemoveDelayed(s, id), s.jobs[id].tube, hand + {id};
    var root := s.tubes[t].delay[0];
    RootOfDelayed(s, hand, t);
    RemoveKeeps(s.tubes[t].delay, 0);
    forall u, e | 0 <= u < |s'.tubes|
      ensures DelayedTimes(s', u, e) == DelayedTimes(s, u, e) - B(e.id == id && IsDelayed(s, hand, u, e))
                                        + B(e.id == id && IsDelayed(s', hand', u, e))
    {
      assert e.id == id && IsDelayed(s, hand, u, e) ==> e == root && u == t;
    }
    DelayedMoves(s, hand, s', hand', id);
  }

  lemma RemoveDelayedOthers(s: State, hand: set<nat>, id: nat)
    requires Sound(s, hand) && Held(s, hand, id) && s.jobs[id].state == DELAYED
    requires var t := s.jobs[id].tube; t < |s.tubes| && s.tubes[t].delay != []
    ensures var s', hand' := RemoveDelayed(s, id), hand + {id};
            && JobsSound(s', hand') && ReadyPlaced(s', hand') && ReservedPlaced(s', hand')
            && WaitingPlaced(s') && WatchesTubes(s') && BuriedPlaced(s', hand')
  {
    hide Removed, Ordered, CountersRight, DelayedPlaced, BuriedListSound, Unlisted;
    var s', hand' := RemoveDelayed(s, id), hand + {id};
    NotBuriedUnlisted(s, hand, id);
    BuriedMoves(s, hand, s', hand', id);
    assert forall t, e :: 0 <= t < |s'.tubes| ==> ReadyTimes(s', t, e) == ReadyTimes(s, t, e);
    ReadyMoves(s, hand, s', hand', id);
    assert forall c, k :: c in s'.conns ==> ReservedTimes(s', c, k) == ReservedTimes(s, c, k);
    ReservedMoves(s, hand, s', hand', id);
    SameWaiting(s, s');
    forall k | k in s'.jobs
      ensures JobSound(s', hand', k)
    {
      assert JobSound(s, hand, k);
    }
  }

  lemma RemoveDelayedCounters(s: State, hand: set<nat>, id: nat)
    requires CountersRight(s, hand) && Held(s, hand, id) && s.jobs[id].state == DELAYED
    requires var t := s.jobs[id].tube; t < |s.tubes| && s.tubes[t].delay != []
    ensures CountersRight(RemoveDelayed(s, id), hand + {id})
  {
    hide Removed, CountersRight;
    CountersMove(s, hand, RemoveDelayed(s, id), hand + {id}, id);
  }

  /** Taking the root of a heap of delayed jobs in hand. */
  lemma RemoveDelayedSound(s: State, hand: set<nat>, id: nat)
    requires Sound(s, hand) && Held(s, hand, id)
    requires var t := s.jobs[id].tube; t < |s.tubes| && s.tubes[t].delay != [] && s.tubes[t].delay[0].id == id
    ensures Sound(RemoveDelayed(s, id), hand + {id}) && s.jobs[id].state == DELAYED
  {
    hide RemoveDelayed, ReadyPlaced, DelayedPlaced, ReservedPlaced, CountersRight, WaitingPlaced, WatchesTubes,
        JobsSound, BuriedPlaced;
    RootOfDelayed(s, hand, s.jobs[id].tube);
    RemoveDelayedPlaces(s, hand, id);
    RemoveDelayedOthers(s, hand, id);
    RemoveDelayedCounters(s, hand, id);
  }

  // ---------- Into a heap ----------

  lemma PlaceReady(s: State, hand: set<nat>, id: nat, delay: int, now: int)
    requires ReadyPlaced(s, hand) && id in s.jobs && id in hand && s.jobs[id].tube < |s.tubes|
    ensures ReadyPlaced(PlaceInHeap(s, id, delay, now), hand - {id})
  {
    hide Pushed, Ordered;
    var s', t, hand' := PlaceInHeap(s, id, delay, now), s.jobs[id].tube, hand - {id};
    PushKeeps(s.tubes[t].ready, Entry(s.jobs[id].pri, id));
    forall u, e | 0 <= u < |s'.tubes|
      ensures ReadyTimes(s', u, e) == ReadyTimes(s, u, e) - B(e.id == id && IsReady(s, hand, u, e))
                                      + B(e.id == id && IsReady(s', hand', u, e))
    {
      assert e.id == id && IsReady(s', hand', u, e) ==> e == Entry(s.jobs[id].pri, id) && u == t;
    }
    ReadyMoves(s, hand, s', hand', id);
  }

  lemma PlaceDelayed(s: State, hand: set<nat>, id: nat, delay: int, now: int)
    requires DelayedPlaced(s, hand) && id in s.jobs && id in hand && s.jobs[id].tube < |s.tubes|
    ensures DelayedPlaced(PlaceInHeap(s, id, delay, now), hand - {id})
  {
    hide Pushed, Ordered;
    var s', t, hand' := PlaceInHeap(s, id, delay, now), s.jobs[id].tube, hand - {id};
    PushKeeps(s.tubes[t].delay, Entry(now + delay, id));
    forall u, e | 0 <= u < |s'.tubes|
      ensures DelayedTimes(s', u, e) == DelayedTimes(s, u, e) - B(e.id == id && IsDelayed(s, hand, u, e))
                                        + B(e.id == id && IsDelayed(s', hand', u, e))
    {
      assert e.id == id && IsDelayed(s', hand', u, e) ==> e == Entry(now + delay, id) && u == t;
    }
    DelayedMoves(s, hand, s', hand', id);
  }

  lemma PlaceOthers(s: State, hand: set<nat>, id: nat, delay: int, now: int)
    requires Sound(s, hand) && id in s.jobs && id in hand && s.jobs[id].tube < |s.tubes|
    ensures var s', hand' := PlaceInHeap(s, id, delay, now), hand - {id};
            && JobsSound(s', hand') && ReservedPlaced(s', hand') && WaitingPlaced(s') && WatchesTubes(s')
            && BuriedPlaced(s', hand')
  {
    hide Pushed, Ordered, CountersRight, ReadyPlaced, DelayedPlaced, BuriedListSound, Unlisted;
    var s', hand' := PlaceInHeap(s, id, delay, now), hand - {id};
    NotBuriedUnlisted(s, hand, id);
    BuriedMoves(s, hand, s', hand', id);
    assert forall c, k :: c in s'.conns ==> ReservedTimes(s', c, k) == ReservedTimes(s, c, k);
    ReservedMoves(s, hand, s', hand', id);
    SameWaiting(s, s');
    forall k | k in s'.jobs
      ensures JobSound(s', hand', k)
    {
      assert JobSound(s, hand, k);
    }
  }

  lemma PlaceCounters(s: State, hand: set<nat>, id: nat, delay: int, now: int)
    requires CountersRight(s, hand) && id in s.jobs && id in hand && s.jobs[id].tube < |s.tubes|
    ensures CountersRight(PlaceInHeap(s, id, delay, now), hand - {id})
  {
    hide Pushed, CountersRight;
    CountersMove(s, hand, PlaceInHeap(s, id, delay, now), hand - {id}, id);
  }

  /** Putting a job in hand into the heap of ready or of delayed jobs of its tube. */
  lemma PlaceSound(s: State, hand: set<nat>, id: nat, delay: int, now: int)
    requires Sound(s, hand) && id in s.jobs && id in hand && s.jobs[id].tube < |s.tubes|
    ensures Sound(PlaceInHeap(s, id, delay, now), hand - {id})
  {
    hide PlaceInHeap, ReadyPlaced, DelayedPlaced, ReservedPlaced, CountersRight, WaitingPlaced, WatchesTubes, JobsSound,
        BuriedPlaced;
    PlaceReady(s, hand, id, delay, now);
    PlaceDelayed(s, hand, id, delay, now);
    PlaceOthers(s, hand, id, delay, now);
    PlaceCounters(s, hand, id, delay, now);
  }

  // ---------- To a connection and back ----------

  lemma GiveHeaps(s: State, hand: set<nat>, id: nat, c: nat, now: int)
    requires Sound(s, hand) && id in s.jobs && id in hand && s.jobs[id].tube < |s.tubes| && c in s.conns
    ensures var s', hand' := Give(s, id, c, now), hand - {id};
            && JobsSound(s', hand') && ReadyPlaced(s', hand') && DelayedPlaced(s', hand') && WaitingPlaced(s')
            && WatchesTubes(s')
            && BuriedPlaced(s', hand')
  {
    hide Ordered, CountersRight, Sooner, BuriedListSound, Unlisted;
    var s', hand' := Give(s, id, c, now), hand - {id};
    NotBuriedUnlisted(s, hand, id);
    BuriedMoves(s, hand, s', hand', id);
    assert forall t, e :: 0 <= t < |s'.tubes| ==> ReadyTimes(s', t, e) == ReadyTimes(s, t, e);
    ReadyMoves(s, hand, s', hand', id);
    assert forall t, e :: 0 <= t < |s'.tubes| ==> DelayedTimes(s', t, e) == DelayedTimes(s, t, e);
    DelayedMoves(s, hand, s', hand', id);
    SameWaiting(s, s');
    forall k | k in s'.jobs
      ensures JobSound(s', hand', k)
    {
      assert JobSound(s, hand, k);
    }
  }

  lemma GiveReserved(s: State, hand: set<nat>, id: nat, c: nat, now: int)
    requires ReservedPlaced(s, hand) && id in s.jobs && id in hand && s.jobs[id].tube < |s.tubes| && c in s.conns
    ensures ReservedPlaced(Give(s, id, c, now), hand - {id})
  {
    hide Sooner;
    var s', hand' := Give(s, id, c, now), hand - {id};
    assert multiset(s.conns[c].reserved + [id]) == multiset(s.conns[c].reserved) + multiset{id};
    ReservedMoves(s, hand, s', hand', id);
  }

  lemma GiveCounters(s: State, hand: set<nat>, id: nat, c: nat, now: int)
    requires CountersRight(s, hand) && id in s.jobs && id in hand && s.jobs[id].tube < |s.tubes| && c in s.conns
    ensures CountersRight(Give(s, id, c, now), hand - {id})
  {
    hide CountersRight, Sooner;
    CountersMove(s, hand, Give(s, id, c, now), hand - {id}, id);
  }

  /** Giving a job in hand to a connection. */
  lemma GiveSound(s: State, hand: set<nat>, id: nat, c: nat, now: int)
    requires Sound(s, hand) && id in s.jobs && id in hand && s.jobs[id].tube < |s.tubes| && c in s.conns
    ensures Sound(Give(s, id, c, now), hand - {id})
  {
    hide Give, ReadyPlaced, DelayedPlaced, ReservedPlaced, CountersRight, WaitingPlaced, WatchesTubes, JobsSound,
        BuriedPlaced;
    GiveHeaps(s, hand, id, c, now);
    GiveReserved(s, hand, id, c, now);
    GiveCounters(s, hand, id, c, now);
  }

  lemma ConsBag(x: nat, xs: seq<nat>)
    ensures multiset([x] + xs) == multiset{x} + multiset(xs)
  {
  }

  lemma OtherTaken(m: multiset<nat>, x: nat, y: nat)
    requires x != y
    ensures multiset{y} + (m - multiset{x}) == (multiset{y} + m) - multiset{x}
  {
  }

  lemma FirstTaken(m: multiset<nat>, x: nat)
    ensures (multiset{x} + m) - multiset{x} == m
  {
  }

  lemma RemoveFirstCases(xs: seq<nat>, x: nat)
    requires xs != []
    ensures xs == [xs[0]] + xs[1..]
    ensures RemoveFirst(xs, x) == if xs[0] == x then xs[1..] else [xs[0]] + RemoveFirst(xs[1..], x)
    ensures x in xs <==> xs[0] == x || x in xs[1..]
  {
  }

  lemma {:induction false} RemoveFirstTakesOne(xs: seq<nat>, x: nat)
    ensures multiset(RemoveFirst(xs, x)) == multiset(xs) - multiset{x}
    ensures |RemoveFirst(xs, x)| == |xs| - B(x in xs)
  {
    if xs == [] {
      assert multiset(xs) == multiset{};
    } else {
      hide RemoveFirst;
      var y, rest := xs[0], xs[1..];
      RemoveFirstCases(xs, x);
      ConsBag(y, rest);
      if y == x {
        FirstTaken(multiset(rest), x);
      } else {
        RemoveFirstTakesOne(rest, x);
        ConsBag(y, RemoveFirst(rest, x));
        OtherTaken(multiset(rest), x, y);
      }
    }
  }

  lemma TakeBackHeaps(s: State, hand: set<nat>, id: nat, c: nat)
    requires Sound(s, hand) && Held(s, hand, id) && ReservedBy(s, id, c) && c in s.conns && s.jobs[id].tube < |s.tubes|
    ensures var s', hand' := TakeBack(s, id, c), hand + {id};
            && JobsSound(s', hand') && ReadyPlaced(s', hand') && DelayedPlaced(s', hand') && WaitingPlaced(s')
            && WatchesTubes(s')
            && BuriedPlaced(s', hand')
  {
    hide Ordered, CountersRight, RemoveFirst, BuriedListSound, Unlisted;
    var s', hand' := TakeBack(s, id, c), hand + {id};
    NotBuriedUnlisted(s, hand, id);
    BuriedMoves(s, hand, s', hand', id);
    assert forall t, e :: 0 <= t < |s'.tubes| ==> ReadyTimes(s', t, e) == ReadyTimes(s, t, e);
    ReadyMoves(s, hand, s', hand', id);
    assert forall t, e :: 0 <= t < |s'.tubes| ==> DelayedTimes(s', t, e) == DelayedTimes(s, t, e);
    DelayedMoves(s, hand, s', hand', id);
    SameWaiting(s, s');
    forall k | k in s'.jobs
      ensures JobSound(s', hand', k)
    {
      assert JobSound(s, hand, k);
    }
  }

  lemma TakeBackReserved(s: State, hand: set<nat>, id: nat, c: nat)
    requires ReservedPlaced(s, hand) && Held(s, hand, id) && ReservedBy(s, id, c) && c in s.conns
        && s.jobs[id].tube < |s.tubes|
    ensures ReservedPlaced(TakeBack(s, id, c), hand + {id})
  {
    hide RemoveFirst;
    var s', hand' := TakeBack(s, id, c), hand + {id};
    RemoveFirstTakesOne(s.conns[c].reserved, id);
    assert ReservedTimes(s, c, id) == Times(IsReserved(s, hand, c, id));
    ReservedMoves(s, hand, s', hand', id);
  }

  lemma TakeBackCounters(s: State, hand: set<nat>, id: nat, c: nat)
    requires CountersRight(s, hand) && Held(s, hand, id) && ReservedBy(s, id, c) && c in s.conns
        && s.jobs[id].tube < |s.tubes|
    ensures CountersRight(TakeBack(s, id, c), hand + {id})
  {
    hide CountersRight, RemoveFirst;
    CountersMove(s, hand, TakeBack(s, id, c), hand + {id}, id);
  }

  /** Taking a reserved job back from its connection. */
  lemma TakeBackSound(s: State, hand: set<nat>, id: nat, c: nat)
    requires Sound(s, hand) && Held(s, hand, id) && ReservedBy(s, id, c) && c in s.conns && s.jobs[id].tube < |s.tubes|
    ensures Sound(TakeBack(s, id, c), hand + {id})
  {
    hide TakeBack, ReadyPlaced, DelayedPlaced, ReservedPlaced, CountersRight, WaitingPlaced, WatchesTubes, JobsSound,
        BuriedPlaced;
    TakeBackHeaps(s, hand, id, c);
    TakeBackReserved(s, hand, id, c);
    TakeBackCounters(s, hand, id, c);
  }

  // ---------- Waiting ----------

  // Jobs, heaps, lists and their counters are the same.
  ghost predicate SameJobs(s: State, s': State) {
    SameHeaps(s, s') && forall t :: 0 <= t < |s.tubes| ==> s'.tubes[t].buried == s.tubes[t].buried
  }

  // The same, but for the lists of buried jobs.
  ghost predicate SameHeaps(s: State, s': State) {
    && s'.jobs == s.jobs && |s'.tubes| == |s.tubes| && s'.conns.Keys == s.conns.Keys
    && s'.readyCt == s.readyCt && s'.urgentCt == s.urgentCt && s'.reservedCt == s.reservedCt
    && (forall t :: 0 <= t < |s.tubes| ==>
          && s'.tubes[t].ready == s.tubes[t].ready && s'.tubes[t].delay == s.tubes[t].delay
          && s'.tubes[t].urgentCt == s.tubes[t].urgentCt && s'.tubes[t].reservedCt == s.tubes[t].reservedCt)
    && forall c :: c in s.conns ==> s'.conns[c].reserved == s.conns[c].reserved && s'.conns[c].watch == s.conns[c].watch
  }

  lemma SameJobsPlaced(s: State, s': State, hand: set<nat>)
    requires JobsSound(s, hand) && ReadyPlaced(s, hand) && DelayedPlaced(s, hand) && ReservedPlaced(s, hand)
        && SameHeaps(s, s')
    ensures JobsSound(s', hand) && ReadyPlaced(s', hand) && DelayedPlaced(s', hand) && ReservedPlaced(s', hand)
  {
    hide Ordered;
    forall t, e | 0 <= t < |s'.tubes|
      ensures ReadyTimes(s', t, e) == Times(IsReady(s', hand, t, e))
      ensures DelayedTimes(s', t, e) == Times(IsDelayed(s', hand, t, e))
    {
      assert ReadyTimes(s, t, e) == Times(IsReady(s, hand, t, e));
      assert DelayedTimes(s, t, e) == Times(IsDelayed(s, hand, t, e));
    }
    forall c, id | c in s'.conns
      ensures ReservedTimes(s', c, id) == Times(IsReserved(s', hand, c, id))
    {
      assert ReservedTimes(s, c, id) == Times(IsReserved(s, hand, c, id));
    }
    forall id | id in s'.jobs
      ensures JobSound(s', hand, id)
    {
      assert JobSound(s, hand, id);
    }
  }

  lemma SameJobsCounted(s: State, s': State, hand: set<nat>)
    requires CountersRight(s, hand) && WatchesTubes(s) && SameHeaps(s, s')
    ensures CountersRight(s', hand) && WatchesTubes(s')
  {
    forall k | Counted(s', k)
      ensures Counter(s', k) == |Members(s', hand, k)|
    {
      assert Counter(s, k) == |Members(s, hand, k)|;
      assert Members(s', hand, k) == Members(s, hand, k);
    }
  }

  lemma SameBuriedPlaced(s: State, s': State, hand: set<nat>)
    requires BuriedPlaced(s, hand) && SameJobs(s, s')
    ensures BuriedPlaced(s', hand)
  {
    forall t | 0 <= t < |s'.tubes|
      ensures BuriedListSound(s', hand, t)
    {
      assert BuriedListSound(s, hand, t);
    }
  }

  lemma SameJobsSound(s: State, s': State, hand: set<nat>)
    requires Sound(s, hand) && SameJobs(s, s') && WaitingPlaced(s')
    ensures Sound(s', hand)
  {
    hide SameHeaps, ReadyPlaced, DelayedPlaced, ReservedPlaced, CountersRight, WaitingPlaced, WatchesTubes, JobsSound,
        BuriedPlaced;
    SameBuriedPlaced(s, s', hand);
    SameJobsPlaced(s, s', hand);
    SameJobsCounted(s, s', hand);
  }

  // The lists of buried jobs may differ.
  lemma SameHeapsSound(s: State, s': State, hand: set<nat>)
    requires Sound(s, hand) && SameHeaps(s, s') && WaitingPlaced(s') && BuriedPlaced(s', hand)
    ensures Sound(s', hand)
  {
    hide SameHeaps, ReadyPlaced, DelayedPlaced, ReservedPlaced, CountersRight, WaitingPlaced, WatchesTubes, JobsSound,
        BuriedPlaced;
    SameJobsPlaced(s, s', hand);
    SameJobsCounted(s, s', hand);
  }

  lemma WaitersMove(s: State, s': State, c: nat)
    requires c in s.conns && s'.conns.Keys == s.conns.Keys
    requires forall k :: k in s.conns && k != c ==> s'.conns[k].waiting == s.conns[k].waiting
    ensures |Waiters(s')| == |Waiters(s)| - B(s.conns[c].waiting) + B(s'.conns[c].waiting)
  {
    var a, b := Waiters(s), Waiters(s');
    assert a - {c} == b - {c};
    if c in a { assert |a - {c}| == |a| - 1; } else { assert a - {c} == a; }
    if c in b { assert |b - {c}| == |b| - 1; } else { assert b - {c} == b; }
  }

  // Only connection c starts or stops waiting.
  ghost predicate OnlyWaiter(s: State, s': State, c: nat) {
    && c in s.conns && SameJobs(s, s')
    && (forall k :: k in s.conns && k != c ==> s'.conns[k].waiting == s.conns[k].waiting)
    && s'.waitingCt == s.waitingCt - B(s.conns[c].waiting) + B(s'.conns[c].waiting)
    && (forall t :: 0 <= t < |s.tubes| ==>
          s'.tubes[t].waitingCt == s.tubes[t].waitingCt - B(IsWaitingOn(s, t, c)) + B(IsWaitingOn(s', t, c)))
    && (forall t :: 0 <= t < |s.tubes| ==>
          |s'.tubes[t].waiting| == |s.tubes[t].waiting| - B(IsWaitingOn(s, t, c)) + B(IsWaitingOn(s', t, c)))
    && forall t, k :: 0 <= t < |s.tubes| ==>
         WaitingTimes(s', t, k) == WaitingTimes(s, t, k) - B(k == c && IsWaitingOn(s, t, c))
                                   + B(k == c && IsWaitingOn(s', t, c))
  }

  lemma OnlyWaiterSound(s: State, s': State, hand: set<nat>, c: nat)
    requires Sound(s, hand) && OnlyWaiter(s, s', c)
    ensures Sound(s', hand)
  {
    hide WaitingTimes, ReadyPlaced, DelayedPlaced, ReservedPlaced, CountersRight, JobsSound, BuriedPlaced;
    WaitersMove(s, s', c);
    forall t, k | 0 <= t < |s'.tubes|
      ensures WaitingTimes(s', t, k) == Times(IsWaitingOn(s', t, k))
    {
      assert WaitingTimes(s, t, k) == Times(IsWaitingOn(s, t, k));
      assert k != c ==> IsWaitingOn(s', t, k) == IsWaitingOn(s, t, k);
    }
    SameJobsSound(s, s', hand);
  }

  lemma WaitsTube(s: State, c: nat, t: nat)
    requires c in s.conns && !s.conns[c].waiting && t < |s.tubes|
    ensures var s' := Waits(s, c);
            && |s'.tubes| == |s.tubes| && |s'.tubes[t].waiting| == |s.tubes[t].waiting| + B(IsWaitingOn(s', t, c))
            && (forall k :: WaitingTimes(s', t, k) == WaitingTimes(s, t, k) + B(k == c && IsWaitingOn(s', t, c)))
            && s'.tubes[t].waitingCt == s.tubes[t].waitingCt + B(IsWaitingOn(s', t, c))
  {
    assert multiset(s.tubes[t].waiting + [c]) == multiset(s.tubes[t].waiting) + multiset{c};
  }

  lemma WaitsSame(s: State, c: nat)
    requires c in s.conns && !s.conns[c].waiting
    ensures var s' := Waits(s, c);
            && SameJobs(s, s') && |s'.tubes| == |s.tubes| && s'.conns.Keys == s.conns.Keys
            && s'.waitingCt == s.waitingCt + 1 && s'.conns[c].waiting
            && forall k :: k in s.conns && k != c ==> s'.conns[k].waiting == s.conns[k].waiting
  {
  }

  /** A connection starts to wait. */
  lemma WaitsSound(s: State, hand: set<nat>, c: nat)
    requires Sound(s, hand) && c in s.conns && !s.conns[c].waiting
    ensures Sound(Waits(s, c), hand)
  {
    hide Sound, WaitingTimes, Waits, SameJobs;
    var s' := Waits(s, c);
    WaitsSame(s, c);
    forall t | 0 <= t < |s.tubes|
      ensures |s'.tubes| == |s.tubes| && |s'.tubes[t].waiting| == |s.tubes[t].waiting| + B(IsWaitingOn(s', t, c))
      ensures s'.tubes[t].waitingCt == s.tubes[t].waitingCt + B(IsWaitingOn(s', t, c))
    {
      WaitsTube(s, c, t);
    }
    forall t, k | 0 <= t < |s.tubes|
      ensures WaitingTimes(s', t, k) == WaitingTimes(s, t, k) + B(k == c && IsWaitingOn(s', t, c))
    {
      WaitsTube(s, c, t);
    }
    OnlyWaiterSound(s, s', hand, c);
  }

  lemma RegisteredOnce(s: State, t: nat, c: nat)
    requires WaitingPlaced(s) && t < |s.tubes|
    ensures c in s.tubes[t].waiting <==> IsWaitingOn(s, t, c)
    ensures multiset(s.tubes[t].waiting)[c] == Times(IsWaitingOn(s, t, c))
  {
    assert WaitingTimes(s, t, c) == Times(IsWaitingOn(s, t, c));
  }

  lemma StopWaitingTube(s: State, c: nat, t: nat)
    requires WaitingPlaced(s) && c in s.conns && s.conns[c].waiting && t < |s.tubes|
    ensures var s' := StopWaiting(s, c);
            && |s'.tubes| == |s.tubes| && |s'.tubes[t].waiting| == |s.tubes[t].waiting| - B(IsWaitingOn(s, t, c))
            && (forall k :: WaitingTimes(s', t, k) == WaitingTimes(s, t, k) - B(k == c && IsWaitingOn(s, t, c)))
            && s'.tubes[t].waitingCt == s.tubes[t].waitingCt - B(IsWaitingOn(s, t, c))
  {
    hide RemoveFirst;
    RegisteredOnce(s, t, c);
    RemoveFirstTakesOne(s.tubes[t].waiting, c);
  }

  lemma StopWaitingSame(s: State, c: nat)
    requires c in s.conns && s.conns[c].waiting
    ensures var s' := StopWaiting(s, c);
            && SameJobs(s, s') && |s'.tubes| == |s.tubes| && s'.conns.Keys == s.conns.Keys
            && s'.waitingCt == s.waitingCt - 1 && !s'.conns[c].waiting
            && forall k :: k in s.conns && k != c ==> s'.conns[k].waiting == s.conns[k].waiting
  {
    hide RemoveFirst;
  }

  /** A connection waits no longer. */
  lemma StopWaitingSound(s: State, hand: set<nat>, c: nat)
    requires Sound(s, hand) && c in s.conns
    ensures Sound(StopWaiting(s, c), hand) && !StopWaiting(s, c).conns[c].waiting
  {
    if s.conns[c].waiting {
      StopWaitingMoves(s, hand, c);
    }
  }

  lemma StopWaitingMoves(s: State, hand: set<nat>, c: nat)
    requires Sound(s, hand) && c in s.conns && s.conns[c].waiting
    ensures Sound(StopWaiting(s, c), hand) && !StopWaiting(s, c).conns[c].waiting
  {
    hide JobsSound, ReadyPlaced, DelayedPlaced, ReservedPlaced, CountersRight, WaitingPlaced, WaitingTimes,
        StopWaiting, SameJobs, BuriedPlaced;
    var s' := StopWaiting(s, c);
    StopWaitingSame(s, c);
    forall t | 0 <= t < |s.tubes|
      ensures |s'.tubes| == |s.tubes| && |s'.tubes[t].waiting| == |s.tubes[t].waiting| - B(IsWaitingOn(s, t, c))
      ensures s'.tubes[t].waitingCt == s.tubes[t].waitingCt - B(IsWaitingOn(s, t, c))
    {
      StopWaitingTube(s, c, t);
    }
    forall t, k | 0 <= t < |s.tubes|
      ensures WaitingTimes(s', t, k) == WaitingTimes(s, t, k) - B(k == c && IsWaitingOn(s, t, c))
    {
      StopWaitingTube(s, c, t);
    }
    OnlyWaiterSound(s, s', hand, c);
  }

  lemma WaiterTaken(tube: Tube)
    requires tube.waiting != []
    ensures var (c, tube') := TakeWaiter(tube);
            && c in tube.waiting && multiset(tube'.waiting) == multiset(tube.waiting) - multiset{c}
            && |tube'.waiting| == |tube.waiting| - 1
  {
    var i := tube.last % |tube.waiting|;
    assert tube.waiting == tube.waiting[..i] + [tube.waiting[i]] + tube.waiting[i + 1..];
  }

  // The connection whose turn it is on a tube is taken off this tube, then off all others.
  ghost function Called(s: State, t: nat): State
    requires t < |s.tubes| && s.tubes[t].waiting != [] && TakeWaiter(s.tubes[t]).0 in s.conns
  {
    var (c, tube) := TakeWaiter(s.tubes[t]);
    StopWaiting(SetTube(s, t, tube), c)
  }

  lemma NotThereToRemove(xs: seq<nat>, x: nat)
    requires multiset(xs)[x] == 0
    ensures multiset(RemoveFirst(xs, x)) == multiset(xs) && |RemoveFirst(xs, x)| == |xs|
  {
    RemoveFirstTakesOne(xs, x);
    assert x !in xs;
  }

  lemma CalledTube(s: State, t: nat, u: nat)
    requires WaitingPlaced(s) && t < |s.tubes| && u < |s.tubes| && s.tubes[t].waiting != []
        && TakeWaiter(s.tubes[t]).0 in s.conns
    ensures var c, s' := TakeWaiter(s.tubes[t]).0, Called(s, t);
            && IsWaitingOn(s, t, c) && |s'.tubes| == |s.tubes|
            && |s'.tubes[u].waiting| == |s.tubes[u].waiting| - B(IsWaitingOn(s, u, c))
            && (forall k :: WaitingTimes(s', u, k) == WaitingTimes(s, u, k) - B(k == c && IsWaitingOn(s, u, c)))
            && s'.tubes[u].waitingCt == s.tubes[u].waitingCt - B(IsWaitingOn(s, u, c))
  {
    var (c, tube) := TakeWaiter(s.tubes[t]);
    WaiterTaken(s.tubes[t]);
    RegisteredOnce(s, t, c);
    RegisteredOnce(s, u, c);
    hide TakeWaiter, RemoveFirst;
    if u == t {
      NotThereToRemove(tube.waiting, c);
    } else {
      RemoveFirstTakesOne(s.tubes[u].waiting, c);
    }
  }

  lemma CalledSame(s: State, t: nat)
    requires WaitingPlaced(s) && t < |s.tubes| && s.tubes[t].waiting != []
    ensures var c := TakeWaiter(s.tubes[t]).0;
            && c in s.conns && s.conns[c].waiting && t in s.conns[c].watch
            && var s' := Called(s, t);
               && SameJobs(s, s') && |s'.tubes| == |s.tubes| && s'.conns.Keys == s.conns.Keys
               && s'.waitingCt == s.waitingCt - 1 && !s'.conns[c].waiting
               && forall k :: k in s.conns && k != c ==> s'.conns[k].waiting == s.conns[k].waiting
  {
    hide RemoveFirst;
    WaiterTaken(s.tubes[t]);
    RegisteredOnce(s, t, TakeWaiter(s.tubes[t]).0);
  }

  /** Calling the connection whose turn it is: it waits no longer, on any tube. */
  lemma CalledSound(s: State, hand: set<nat>, t: nat)
    requires Sound(s, hand) && t < |s.tubes| && s.tubes[t].waiting != []
    ensures var c := TakeWaiter(s.tubes[t]).0;
            && c in s.conns && s.conns[c].waiting && t in s.conns[c].watch
            && Sound(Called(s, t), hand) && SameJobs(s, Called(s, t))
            && !Called(s, t).conns[c].waiting
  {
    hide JobsSound, ReadyPlaced, DelayedPlaced, ReservedPlaced, CountersRight, WaitingPlaced, WaitingTimes,
        TakeWaiter, Called, SameJobs, BuriedPlaced;
    CalledSame(s, t);
    var c, s' := TakeWaiter(s.tubes[t]).0, Called(s, t);
    forall u | 0 <= u < |s.tubes|
      ensures |s'.tubes[u].waiting| == |s.tubes[u].waiting| - B(IsWaitingOn(s, u, c))
      ensures s'.tubes[u].waitingCt == s.tubes[u].waitingCt - B(IsWaitingOn(s, u, c))
    {
      CalledTube(s, t, u);
    }
    forall u, k | 0 <= u < |s.tubes|
      ensures WaitingTimes(s', u, k) == WaitingTimes(s, u, k) - B(k == c && IsWaitingOn(s, u, c))
    {
      CalledTube(s, t, u);
    }
    OnlyWaiterSound(s, s', hand, c);
  }

  // ---------- The soonest job ----------

  lemma SameSoonest(s: State, s': State, stale: set<nat>)
    requires SoonestRight(s, stale) && s'.jobs == s.jobs && s'.conns.Keys == s.conns.Keys
    requires forall c :: c in s.conns ==>
        s'.conns[c].reserved == s.conns[c].reserved && s'.conns[c].soonest == s.conns[c].soonest
    ensures SoonestRight(s', stale)
  {
    forall c | c in s'.conns
      ensures SoonestRightFor(s', c, c in stale)
    {
      assert SoonestRightFor(s, c, c in stale);
    }
  }

  // A job in hand is on no connection's list.
  lemma InHandOnNoList(s: State, hand: set<nat>, id: nat, c: nat)
    requires ReservedPlaced(s, hand) && id in hand && c in s.conns
    ensures id !in s.conns[c].reserved
  {
    assert ReservedTimes(s, c, id) == Times(IsReserved(s, hand, c, id));
  }

  lemma OnListIsReserved(s: State, hand: set<nat>, id: nat, c: nat)
    requires ReservedPlaced(s, hand) && c in s.conns
    ensures id in s.conns[c].reserved <==> IsReserved(s, hand, c, id)
  {
    assert ReservedTimes(s, c, id) == Times(IsReserved(s, hand, c, id));
  }

  lemma PlaceSoonest(s: State, hand: set<nat>, id: nat, delay: int, now: int, stale: set<nat>)
    requires SoonestRight(s, stale) && ReservedPlaced(s, hand) && id in s.jobs && id in hand
        && s.jobs[id].tube < |s.tubes|
    ensures SoonestRight(PlaceInHeap(s, id, delay, now), stale)
  {
    hide Pushed;
    var s' := PlaceInHeap(s, id, delay, now);
    forall c | c in s'.conns
      ensures SoonestRightFor(s', c, c in stale)
    {
      assert SoonestRightFor(s, c, c in stale);
      InHandOnNoList(s, hand, id, c);
    }
  }

  lemma GiveSoonest(s: State, hand: set<nat>, id: nat, c: nat, now: int, stale: set<nat>)
    requires SoonestRight(s, stale) && ReservedPlaced(s, hand) && id in s.jobs && id in hand
        && s.jobs[id].tube < |s.tubes|
    requires c in s.conns && c !in stale
    ensures SoonestRight(Give(s, id, c, now), stale)
  {
    var s' := Give(s, id, c, now);
    forall k | k in s'.conns
      ensures SoonestRightFor(s', k, k in stale)
    {
      assert SoonestRightFor(s, k, k in stale);
      InHandOnNoList(s, hand, id, k);
    }
  }

  lemma TakeBackSoonest(s: State, hand: set<nat>, id: nat, c: nat, stale: set<nat>)
    requires SoonestRight(s, stale) && ReservedPlaced(s, hand) && id in s.jobs && s.jobs[id].tube < |s.tubes|
        && c in s.conns
    ensures SoonestRight(TakeBack(s, id, c), stale + {c})
  {
    var s' := TakeBack(s, id, c);
    forall k | k in s'.conns
      ensures SoonestRightFor(s', k, k in stale + {c})
    {
      assert SoonestRightFor(s, k, k in stale);
    }
  }

  // The scan of a list finds the soonest of its jobs and the one known before.
  lemma {:induction false} SoonestFinds(s: State, soonest: Option<nat>, ids: seq<nat>)
    requires forall k :: k in ids ==> k in s.jobs
    requires soonest.Some? ==> soonest.value in s.jobs
    ensures var r := Soonest(s, soonest, ids);
            && (r == None <==> soonest == None && ids == [])
            && (r.Some? ==>
                  && (r.value in ids || r == soonest) && r.value in s.jobs
                  && (forall k :: k in ids ==> s.jobs[r.value].deadline <= s.jobs[k].deadline)
                  && (soonest.Some? ==> s.jobs[r.value].deadline <= s.jobs[soonest.value].deadline))
    decreases |ids|
  {
    if ids != [] {
      assert ids[0] in ids && forall k :: k in ids[1..] ==> k in ids;
      SoonestFinds(s, if Sooner(s, ids[0], soonest) then Some(ids[0]) else soonest, ids[1..]);
      assert forall k :: k in ids ==> k == ids[0] || k in ids[1..];
    }
  }

  /** After a reply to a connection what it remembers is right again. */
  lemma RescheduleSoonest(s: State, hand: set<nat>, c: nat, stale: set<nat>)
    requires SoonestRight(s, stale) && ReservedPlaced(s, hand) && c in s.conns
    ensures SoonestRight(Reschedule(s, c), stale - {c})
  {
    var s', conn := Reschedule(s, c), s.conns[c];
    forall k | k in conn.reserved
      ensures k in s.jobs
    {
      OnListIsReserved(s, hand, k, c);
    }
    SoonestFinds(s, None, conn.reserved);
    forall k | k in s'.conns
      ensures SoonestRightFor(s', k, k in stale - {c})
    {
      assert SoonestRightFor(s, k, k in stale);
    }
  }

  lemma RescheduleSound(s: State, hand: set<nat>, c: nat)
    requires Sound(s, hand) && c in s.conns
    ensures Sound(Reschedule(s, c), hand)
  {
    var s' := Reschedule(s, c);
    hide Soonest;
    assert SameJobs(s, s');
    SameWaiting(s, s');
    hide Sound;
    SameJobsSound(s, s', hand);
  }
}
