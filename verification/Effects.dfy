/** What each command of the scheduler does, told by the fields of jobs, connections and tubes before
    and after it. */
module Effects {
  import opened Records
  import opened Heap
  import opened Schedule
  import opened Places
  import opened Moves
  import opened Queue
  import opened Dispatch

  // ---------- In terms of jobs, connections and tubes ----------

  // No job is handed out from the tube at this time.
  ghost predicate OnPause(s: State, t: nat, now: int) {
    t < |s.tubes| && s.tubes[t].pause > 0 && now < s.tubes[t].unpauseAt
  }

  ghost predicate WaitsFor(s: State, c: nat, t: nat) {
    c in s.conns && s.conns[c].waiting && t in s.conns[c].watch
  }

  ghost predicate ReadyIn(s: State, id: nat, t: nat) {
    id in s.jobs && s.jobs[id].state == READY && s.jobs[id].tube == t
  }

  // A ready job of a tube not on pause has gone to a connection that waited for it.
  ghost predicate WentTo(s: State, s': State, id: nat, c: nat, now: int) {
    && id in s.jobs && id in s'.jobs && s.jobs[id].state == READY
    && WaitsFor(s, c, s.jobs[id].tube) && !OnPause(s, s.jobs[id].tube, now)
    && s'.jobs[id] == s.jobs[id].(state := RESERVED, deadline := now + s.jobs[id].ttr, reservoir := Some(c))
  }

  ghost predicate AsWasOrHandedOut(s: State, s': State, id: nat, now: int) {
    && id in s.jobs && id in s'.jobs
    && (s'.jobs[id] == s.jobs[id]
        || (s'.jobs[id].reservoir.Some? && WentTo(s, s', id, s'.jobs[id].reservoir.value, now)))
  }

  // No ready job and no waiting connection could be brought together.
  ghost predicate NothingLeft(s: State, now: int) {
    forall id, c :: !CouldGo(s, id, c, now)
  }

  // Jobs but those in change are as they were, or were handed out.
  ghost predicate OthersServed(s: State, s': State, change: set<nat>, now: int) {
    forall id :: id in s.jobs && id !in change ==> AsWasOrHandedOut(s, s', id, now)
  }

  ghost predicate OthersSame(s: State, s': State, change: set<nat>) {
    forall id :: id !in change ==> (id in s'.jobs <==> id in s.jobs) && (id in s.jobs ==> s'.jobs[id] == s.jobs[id])
  }

  // ---------- The order of service ----------

  lemma HeapHasReady(s: State, hand: set<nat>, id: nat) returns (i: nat)
    requires ReadyPlaced(s, hand) && Held(s, hand, id) && s.jobs[id].state == READY && s.jobs[id].tube < |s.tubes|
    ensures var t := s.tubes[s.jobs[id].tube];
            i < |t.ready| && t.ready[i] == Entry(s.jobs[id].pri, id)
  {
    var t, e := s.jobs[id].tube, Entry(s.jobs[id].pri, id);
    assert ReadyTimes(s, t, e) == Times(IsReady(s, hand, t, e));
    assert e in multiset(s.tubes[t].ready);
    assert e in s.tubes[t].ready;
    i :| 0 <= i < |s.tubes[t].ready| && s.tubes[t].ready[i] == e;
  }

  lemma WaiterRegistered(s: State, t: nat, c: nat)
    requires WaitingPlaced(s) && t < |s.tubes| && WaitsFor(s, c, t)
    ensures c in s.tubes[t].waiting
  {
    assert WaitingTimes(s, t, c) == Times(IsWaitingOn(s, t, c));
    assert c in multiset(s.tubes[t].waiting);
  }

  // The tube of a job that could be handed out is one the choice looks at.
  lemma CouldBeServed(s: State, id: nat, c: nat, now: int) returns (i: nat)
    requires Sound(s, {}) && id in s.jobs && s.jobs[id].state == READY && WaitsFor(s, c, s.jobs[id].tube)
    requires !OnPause(s, s.jobs[id].tube, now)
    ensures s.jobs[id].tube < |s.tubes| && Eligible(s.tubes[s.jobs[id].tube], now)
    ensures i < |s.tubes[s.jobs[id].tube].ready| && s.tubes[s.jobs[id].tube].ready[i] == Entry(s.jobs[id].pri, id)
  {
    SoundPlaces(s, {});
    assert JobSound(s, {}, id);
    i := HeapHasReady(s, {}, id);
    WaiterRegistered(s, s.jobs[id].tube, c);
  }

  // The job could go to the connection.
  ghost predicate CouldGo(s: State, id: nat, c: nat, now: int) {
    && id in s.jobs && s.jobs[id].state == READY && WaitsFor(s, c, s.jobs[id].tube)
    && !OnPause(s, s.jobs[id].tube, now)
  }

  /** The job handed out next is, of all ready jobs that some connection waits for in a tube not on
      pause, the one of least priority number, and of those with this number the one put first; it
      is one of them, and there is none only if there are no such jobs. */
  lemma NextIsFirst(s: State, now: int, stale: set<nat>)
    requires Queued(s, stale)
    ensures var (s1, best) := NextAwaited(s, now);
            && (best == None ==> NothingLeft(s, now))
            && (best.Some? ==>
                  var b := best.value.id;
                  && b in s.jobs && s.jobs[b].state == READY && !OnPause(s, s.jobs[b].tube, now)
                  && (exists c :: WaitsFor(s, c, s.jobs[b].tube))
                  && forall id, c :: CouldGo(s, id, c, now) ==>
                       s.jobs[b].pri < s.jobs[id].pri || (s.jobs[b].pri == s.jobs[id].pri && b <= id))
  {
    SoundPlaces(s, {});
    hide Sound, SoonestRight;
    var (s1, best) := NextAwaited(s, now);
    var t := BestIsLeast(s.tubes, |s.tubes|, now);
    if best.Some? {
      RootOfReady(s, {}, t);
      SomeoneWaits(s, t);
    }
    forall id, c | CouldGo(s, id, c, now)
      ensures best.Some?
      ensures var b := best.value.id;
              b in s.jobs && (s.jobs[b].pri < s.jobs[id].pri || (s.jobs[b].pri == s.jobs[id].pri && b <= id))
    {
      var i := CouldBeServed(s, id, c, now);
      assert Eligible(s.tubes[s.jobs[id].tube], now);
    }
  }

  lemma SomeoneWaits(s: State, t: nat)
    requires WaitingPlaced(s) && t < |s.tubes| && s.tubes[t].waiting != []
    ensures WaitsFor(s, s.tubes[t].waiting[0], t)
  {
    var c := s.tubes[t].waiting[0];
    assert c in s.tubes[t].waiting;
    assert WaitingTimes(s, t, c) == Times(IsWaitingOn(s, t, c));
  }

  lemma DrainedPlainly(s: State, now: int, stale: set<nat>)
    requires Queued(s, stale) && Drained(s, now)
    ensures NothingLeft(s, now)
  {
    forall id, c
      ensures !CouldGo(s, id, c, now)
    {
      if CouldGo(s, id, c, now) {
        var i := CouldBeServed(s, id, c, now);
      }
    }
  }

  // ---------- Matching ----------

  // Connections may have stopped waiting, and pauses that are over may have ended.
  ghost predicate Later(s: State, s': State, now: int) {
    && |s'.tubes| == |s.tubes| && (forall c, t :: WaitsFor(s', c, t) ==> WaitsFor(s, c, t))
    && (forall t :: OnPause(s, t, now) ==> OnPause(s', t, now))
    && forall t :: 0 <= t < |s.tubes| ==>
         && s'.tubes[t].unpauseAt == s.tubes[t].unpauseAt
         && (s'.tubes[t].pause == s.tubes[t].pause || (s'.tubes[t].pause == 0 && !OnPause(s, t, now)))
  }

  lemma DistributedLater(s: State, s': State, now: int)
    requires Distributed(s, s', now)
    ensures Later(s, s', now)
  {
    forall c, t | WaitsFor(s', c, t)
      ensures WaitsFor(s, c, t)
    {
      assert ServedAtMostOnce(s, s', c);
    }
  }

  // Matching hands out what it can, and changes nothing else of a job.
  lemma MatchingServes(s: State, now: int, stale: set<nat>)
    requires Queued(s, stale)
    ensures var s' := ProcessQueue(s, now, stale);
            && NothingLeft(s', now) && s'.jobs.Keys == s.jobs.Keys && OthersServed(s, s', {}, now)
            && s'.conns.Keys == s.conns.Keys && (forall c :: c in s.conns ==> ServedAtMostOnce(s, s', c))
            && Later(s, s', now)
  {
    hide Queued, Drained, NothingLeft, OthersServed, Later;
    ProcessQueueDrains(s, now, stale);
    var s' := ProcessQueue(s, now, stale);
    DrainedPlainly(s', now, stale);
    DistributedLater(s, s', now);
    DistributedServes(s, s', now);
  }

  lemma DistributedServes(s: State, s': State, now: int)
    requires Distributed(s, s', now)
    ensures OthersServed(s, s', {}, now)
  {
    forall id | id in s.jobs
      ensures AsWasOrHandedOut(s, s', id, now)
    {
      assert HandedOutAtMostOnce(s, s', id, now);
    }
  }

  // No connection has got a job while a better one it waited for was left.
  ghost predicate BestWent(s: State, s': State, now: int) {
    forall a, b, c, t :: WentTo(s, s', a, c, now) && ReadyIn(s', b, t) && WaitsFor(s, c, t) && !OnPause(s, t, now) ==>
      s.jobs[a].pri < s'.jobs[b].pri || (s.jobs[a].pri == s'.jobs[b].pri && a <= b)
  }

  lemma SameJobsBestWent(s: State, s': State, now: int)
    requires s'.jobs == s.jobs
    ensures BestWent(s, s', now)
  {
  }

  lemma FirstThenBest(s: State, s1: State, s2: State, s3: State, id: nat, c0: nat, now: int)
    requires s1.jobs == s.jobs && s1.conns == s.conns && HandedOut(s1, s2, id, c0, now) && Later(s, s2, now)
    requires forall k, c :: CouldGo(s, k, c, now) ==>
               s.jobs[id].pri < s.jobs[k].pri || (s.jobs[id].pri == s.jobs[k].pri && id <= k)
    requires OthersServed(s2, s3, {}, now) && s3.jobs.Keys == s2.jobs.Keys && BestWent(s2, s3, now)
    ensures BestWent(s, s3, now)
  {
    forall a, b, c, t | WentTo(s, s3, a, c, now) && ReadyIn(s3, b, t) && WaitsFor(s, c, t) && !OnPause(s, t, now)
      ensures s.jobs[a].pri < s3.jobs[b].pri || (s.jobs[a].pri == s3.jobs[b].pri && a <= b)
    {
      assert AsWasOrHandedOut(s2, s3, b, now) && AsWasOrHandedOut(s2, s3, a, now);
      assert CouldGo(s, b, c, now);
      if a != id {
        assert WentTo(s2, s3, a, c, now) && WaitsFor(s2, c, t);
      }
    }
  }

  /** Matching serves every connection as well as it can: of the jobs it waited for in tubes not on pause,
      those still ready afterwards come after the one it got, by priority number and then by id. */
  lemma {:induction false} MatchingIsBest(s: State, now: int, stale: set<nat>)
    requires Queued(s, stale)
    ensures BestWent(s, ProcessQueue(s, now, stale), now)
    decreases s.readyCt
  {
    hide Queued, HandedOut, Assign, Eligible, Best, Distributed, Unpaused, OthersServed, BestWent, Later, NothingLeft;
    var t := ChoiceMatches(s, now, stale);
    ChoiceQueued(s, now, stale);
    var (s1, best) := NextAwaited(s, now);
    if best == None {
      SameJobsBestWent(s, s1, now);
    } else {
      var id := best.value.id;
      AssignQueued(s1, id, now, stale);
      var s2 := Assign(s1, id, now);
      ReadyGoesDown(s, stale);
      NextIsFirst(s, now, stale);
      EligibleIsNotPaused(s.tubes[t], now);
      HandedOutDistributes(s, s1, s2, id, ServedBy(s1, id), now);
      DistributedLater(s, s2, now);
      MatchingServes(s2, now, stale);
      MatchingIsBest(s2, now, stale);
      FirstThenBest(s, s1, s2, ProcessQueue(s2, now, stale), id, ServedBy(s1, id), now);
    }
  }

  // ---------- Whose turn it is ----------

  // Where the tube's mark stands among the connections that wait.
  function Mark(tube: Tube): (i: nat)
    requires tube.waiting != []
    ensures i < |tube.waiting|
  {
    tube.last % |tube.waiting|
  }

  lemma {:induction false} AbsentIsNotRemoved(xs: seq<nat>, x: nat)
    requires x !in xs
    ensures RemoveFirst(xs, x) == xs
  {
    if xs != [] {
      assert xs == [xs[0]] + xs[1..];
      AbsentIsNotRemoved(xs[1..], x);
    }
  }

  lemma TakenIsGone(s: State, t: nat)
    requires WaitingPlaced(s) && t < |s.tubes| && s.tubes[t].waiting != []
    ensures var (c, tube) := TakeWaiter(s.tubes[t]);
            c !in tube.waiting && WaitsFor(s, c, t)
  {
    var i, was := Mark(s.tubes[t]), s.tubes[t].waiting;
    var (c, tube) := TakeWaiter(s.tubes[t]);
    assert was == was[..i] + [was[i]] + was[i + 1..];
    assert multiset(was) == multiset(tube.waiting) + multiset{c};
    assert WaitingTimes(s, t, c) == Times(IsWaitingOn(s, t, c));
    assert c in multiset(was);
  }

  /** The job goes to the connection at the mark of its tube, and the mark moves on to the next place. */
  lemma ServesAtTheMark(s: State, id: nat, now: int, stale: set<nat>)
    requires Queued(s, stale) && Matches(s, id)
    ensures ServedBy(s, id) in s.conns
    ensures var s', t := Assign(s, id, now), s.jobs[id].tube;
            var was, i := s.tubes[t].waiting, Mark(s.tubes[t]);
            && HandedOut(s, s', id, was[i], now)
            && s'.tubes[t].waiting == was[..i] + was[i + 1..] && s'.tubes[t].last == i + 1
  {
    AssignQueued(s, id, now, stale);
    SoundPlaces(s, {});
    hide Sound, SoonestRight, HandedOut, Removed, Reschedule;
    var t := s.jobs[id].tube;
    TakenIsGone(s, t);
    AssignInSteps(s, id, now);
    var (c, tube) := TakeWaiter(s.tubes[t]);
    AbsentIsNotRemoved(tube.waiting, c);
    Answers(Give(Called(RemoveReady(s, id), t), id, c, now), c);
  }

  lemma Wraps(a: nat, n: nat)
    requires n > 0 && a < 2 * n
    ensures a % n == if a < n then a else a - n
  {
  }

  lemma TakenAtTheMark(tube: Tube)
    requires tube.waiting != []
    ensures var (c, tube1) := TakeWaiter(tube);
            var was, i := tube.waiting, Mark(tube);
            && c == was[i] && |tube1.waiting| == |was| - 1
            && (forall k :: 0 <= k < |tube1.waiting| ==> tube1.waiting[k] == was[if k < i then k else k + 1])
            && (|was| >= 3 ==> var m := |was| - 1;
                               Mark(tube1) == if i + 1 < m then i + 1 else i + 1 - m)
  {
    var n := |tube.waiting|;
    if n >= 3 {
      Wraps(Mark(tube) + 1, n - 1);
    }
  }

  /** Connections are not served in the order in which they asked: of three or more, the one after the
      one just served is passed over, and the next but one is served. */
  lemma NextInLineIsPassedOver(tube: Tube)
    requires |tube.waiting| >= 3
    ensures var was, n, i := tube.waiting, |tube.waiting|, Mark(tube);
            var (c, tube1) := TakeWaiter(tube);
            && tube1.waiting != []
            && var (d, tube2) := TakeWaiter(tube1);
               && c == was[i] && d == was[if i + 2 < n then i + 2 else i + 2 - n]
               && was[if i + 1 < n then i + 1 else 0] in tube2.waiting
  {
    TakenAtTheMark(tube);
    var was, n, i, tube1 := tube.waiting, |tube.waiting|, Mark(tube), TakeWaiter(tube).1;
    TakenAtTheMark(tube1);
    hide TakeWaiter, Mark;
    var j, over, tube2 := Mark(tube1), if i + 1 < n then i + 1 else 0, TakeWaiter(tube1).1;
    var place := if i + 1 < n then i else 0;
    assert tube1.waiting[place] == was[over] && place != j;
    var left := if place < j then place else place - 1;
    assert tube2.waiting[left] == tube1.waiting[place];
  }

  // The connection served asks again at once.
  function AskedAgain(tube: Tube): (tube': Tube)
    requires tube.waiting != []
    ensures |tube'.waiting| == |tube.waiting|
  {
    var (c, tube1) := TakeWaiter(tube);
    tube1.(waiting := tube1.waiting + [c])
  }

  // After so many turns.
  function Turns(tube: Tube, k: nat): (tube': Tube)
    requires tube.waiting != []
    ensures tube'.waiting != []
    decreases k
  {
    if k == 0 then tube else Turns(AskedAgain(tube), k - 1)
  }

  lemma AsksAtTheEnd(tube: Tube)
    requires tube.waiting != []
    ensures var next, was, i := AskedAgain(tube), tube.waiting, Mark(tube);
            && (forall k :: 0 <= k < |was| - 1 ==> next.waiting[k] == was[if k < i then k else k + 1])
            && Mark(next) == if i + 1 == |was| then 0 else i + 1
  {
    Wraps(Mark(tube) + 1, |tube.waiting|);
  }

  /** But each is served in the end, if those served ask again at once and no others come: after fewer
      turns than the square of their number. */
  lemma ServedInTheEnd(tube: Tube, p: nat) returns (k: nat)
    requires p < |tube.waiting|
    ensures TakeWaiter(Turns(tube, k)).0 == tube.waiting[p] && k < |tube.waiting| * |tube.waiting|
  {
    hide Mark, Turns, TakeWaiter, TurnsFor;
    k := ServedAfter(tube, p);
    FewerThanSquare(p, |tube.waiting|, Mark(tube));
  }

  lemma FewerThanSquare(p: nat, n: nat, i: nat)
    requires p < n && i < n
    ensures 0 <= TurnsFor(p, n, i) < n * n
  {
    TimesGrows(if p < i then p + 1 else p, n - 1, n);
    assert (p + 1) * n == p * n + n && n * n == (n - 1) * n + n;
  }

  lemma TimesGrows(p: nat, q: nat, n: nat)
    requires p <= q
    ensures p * n <= q * n
  {
    assert q * n == p * n + (q - p) * n;
  }

  // After so many turns at most is the connection at place p served, when the mark is at i.
  function TurnsFor(p: nat, n: nat, i: nat): int {
    p * n + if p >= i then 0 else n - i
  }

  lemma SomeTurns(p: nat, n: nat, i: nat)
    requires i < n
    ensures TurnsFor(p, n, i) >= 0
  {
  }

  lemma OneTurnMore(p: nat, q: nat, n: nat, i: nat)
    requires i < n && p < n && p != i && q == (if p > i then p - 1 else p)
    ensures TurnsFor(q, n, if i + 1 == n then 0 else i + 1) + 1 <= TurnsFor(p, n, i)
  {
    assert p > i ==> p * n == q * n + n;
  }

  lemma {:induction false} ServedAfter(tube: Tube, p: nat) returns (k: nat)
    requires p < |tube.waiting|
    ensures TakeWaiter(Turns(tube, k)).0 == tube.waiting[p]
    ensures k == 0 || k <= TurnsFor(p, |tube.waiting|, Mark(tube))
    decreases p, p < Mark(tube), |tube.waiting| - Mark(tube)
  {
    TakenAtTheMark(tube);
    AsksAtTheEnd(tube);
    hide Mark, TakeWaiter, AskedAgain, TurnsFor;
    var n, i := |tube.waiting|, Mark(tube);
    k := 0;
    if p != i {
      var next := AskedAgain(tube);
      var q := if p > i then p - 1 else p;
      assert next.waiting[q] == tube.waiting[p];
      k := ServedAfter(next, q);
      OneTurnMore(p, q, n, i);
      SomeTurns(q, n, Mark(next));
      k := k + 1;
    }
  }

  // ---------- Enqueuing ----------

  // The job stands in its tube with the delay asked for, or it has been handed out already.
  ghost predicate Stands(s: State, s': State, id: nat, t: nat, pri: u32, ttr: int, delay: int, now: int) {
    && id in s'.jobs
    && var j := s'.jobs[id];
       && j.tube == t && j.pri == pri && j.ttr == ttr
       && if delay > 0 then j.state == DELAYED && j.deadline == now + delay && j.reservoir == None
          else
            || (j.state == READY && j.reservoir == None)
            || (&& j.state == RESERVED && j.deadline == now + ttr && j.reservoir.Some?
                && WaitsFor(s, j.reservoir.value, t) && !OnPause(s, t, now))
  }

  // Connections are as they were, or have got one job and wait no longer.
  ghost predicate ConnsServed(s: State, s': State) {
    s'.conns.Keys == s.conns.Keys && forall c :: c in s.conns ==> ServedAtMostOnce(s, s', c)
  }

  lemma EnqueueDoes(s: State, id: nat, delay: int, now: int, stale: set<nat>)
    requires InHand(s, id, stale)
    ensures var s' := Enqueue(s, id, delay, now, stale);
            && Stands(s, s', id, s.jobs[id].tube, s.jobs[id].pri, s.jobs[id].ttr, delay, now)
            && OthersServed(s, s', {id}, now)
            && s'.jobs.Keys == s.jobs.Keys && ConnsServed(s, s') && NothingLeft(s', now) && Later(s, s', now)
  {
    hide PlaceInHeap, ProcessQueue, Queued, NothingLeft, InHand, Stands, OthersServed, ConnsServed, Later;
    PlacedQueued(s, id, delay, now, stale);
    HandTube(s, id, stale);
    var s1 := PlaceInHeap(s, id, delay, now);
    PlacedPlainly(s, id, delay, now);
    MatchingServes(s1, now, stale);
    ServedAfterPlacing(s, s1, ProcessQueue(s1, now, stale), id, delay, now);
  }

  lemma HandTube(s: State, id: nat, stale: set<nat>)
    requires InHand(s, id, stale)
    ensures id in s.jobs && s.jobs[id].tube < |s.tubes|
  {
  }

  lemma ServedAfterPlacing(s: State, s1: State, s': State, id: nat, delay: int, now: int)
    requires id in s.jobs && Placed(s, s1, id, delay, now) && OthersServed(s1, s', {}, now)
    requires s'.jobs.Keys == s1.jobs.Keys && s'.conns.Keys == s1.conns.Keys
    requires (forall c :: c in s1.conns ==> ServedAtMostOnce(s1, s', c)) && Later(s1, s', now)
    ensures Later(s, s', now)
    ensures Stands(s, s', id, s.jobs[id].tube, s.jobs[id].pri, s.jobs[id].ttr, delay, now)
    ensures OthersServed(s, s', {id}, now) && ConnsServed(s, s')
  {
    assert AsWasOrHandedOut(s1, s', id, now);
    forall k | k in s.jobs && k != id
      ensures AsWasOrHandedOut(s, s', k, now)
    {
      assert AsWasOrHandedOut(s1, s', k, now);
    }
    forall c | c in s.conns
      ensures ServedAtMostOnce(s, s', c)
    {
      assert ServedAtMostOnce(s1, s', c);
    }
  }

  ghost predicate Placed(s: State, s1: State, id: nat, delay: int, now: int)
    requires id in s.jobs
  {
    && s1.conns == s.conns && |s1.tubes| == |s.tubes| && s1.jobs.Keys == s.jobs.Keys
    && (forall k :: k in s.jobs && k != id ==> s1.jobs[k] == s.jobs[k])
    && s1.jobs[id] == (if delay > 0 then s.jobs[id].(reservoir := None, state := DELAYED, deadline := now + delay)
                       else s.jobs[id].(reservoir := None, state := READY))
    && forall t :: 0 <= t < |s.tubes| ==>
         s1.tubes[t].pause == s.tubes[t].pause && s1.tubes[t].unpauseAt == s.tubes[t].unpauseAt
  }

  lemma PlacedPlainly(s: State, id: nat, delay: int, now: int)
    requires id in s.jobs && s.jobs[id].tube < |s.tubes|
    ensures Placed(s, PlaceInHeap(s, id, delay, now), id, delay, now)
  {
    hide Pushed;
  }

  // ---------- One step after another ----------

  lemma LaterTwice(s: State, s1: State, s2: State, now: int)
    requires Later(s, s1, now) && Later(s1, s2, now)
    ensures Later(s, s2, now)
  {
  }

  lemma OthersServedTwice(s: State, s1: State, s2: State, a: set<nat>, b: set<nat>, now: int)
    requires OthersServed(s, s1, a, now) && OthersServed(s1, s2, b, now) && Later(s, s1, now)
    requires s.jobs.Keys <= s1.jobs.Keys
    ensures OthersServed(s, s2, a + b, now)
  {
    forall id | id in s.jobs && id !in a + b
      ensures AsWasOrHandedOut(s, s2, id, now)
    {
      assert AsWasOrHandedOut(s, s1, id, now) && AsWasOrHandedOut(s1, s2, id, now);
    }
  }

  lemma StandsOn(s: State, s1: State, s2: State, id: nat, t: nat, pri: u32, ttr: int, now: int)
    requires Stands(s, s1, id, t, pri, ttr, 0, now) && AsWasOrHandedOut(s1, s2, id, now) && Later(s, s1, now)
    ensures Stands(s, s2, id, t, pri, ttr, 0, now)
  {
  }

  // ---------- Before and after ----------

  // Nothing differs that decides what jobs may be handed out, but the jobs in change.
  ghost predicate SameChances(s: State, s0: State, change: set<nat>) {
    && |s0.tubes| == |s.tubes| && s0.conns.Keys == s.conns.Keys
    && (forall c :: c in s.conns ==>
          s0.conns[c].waiting == s.conns[c].waiting && s0.conns[c].watch == s.conns[c].watch)
    && (forall t :: 0 <= t < |s.tubes| ==>
          s0.tubes[t].pause == s.tubes[t].pause && s0.tubes[t].unpauseAt == s.tubes[t].unpauseAt)
    && forall id :: id in s.jobs && id !in change ==> id in s0.jobs && s0.jobs[id] == s.jobs[id]
  }

  lemma ServedSince(s: State, s0: State, s': State, change: set<nat>, now: int)
    requires SameChances(s, s0, change) && OthersServed(s0, s', change, now)
    ensures OthersServed(s, s', change, now)
  {
    forall id | id in s.jobs && id !in change
      ensures AsWasOrHandedOut(s, s', id, now)
    {
      assert AsWasOrHandedOut(s0, s', id, now);
    }
  }

  lemma StandsSince(s: State, s0: State, s': State, change: set<nat>, id: nat, t: nat, pri: u32, ttr: int, delay: int,
      now: int)
    requires SameChances(s, s0, change) && Stands(s0, s', id, t, pri, ttr, delay, now)
    ensures Stands(s, s', id, t, pri, ttr, delay, now)
  {
  }

  // The reply changes only what the connection remembers as its soonest job.
  ghost predicate Answered(s: State, s': State, c: nat) {
    && s'.jobs == s.jobs && s'.tubes == s.tubes && s'.conns.Keys == s.conns.Keys && c in s.conns
    && s'.conns[c] == s.conns[c].(soonest := s'.conns[c].soonest)
    && forall k :: k in s.conns && k != c ==> s'.conns[k] == s.conns[k]
  }

  lemma Answers(s: State, c: nat)
    requires c in s.conns
    ensures Answered(s, Reschedule(s, c), c)
  {
    hide Soonest;
  }

  lemma AnsweredSame(s: State, s1: State, s': State, c: nat, now: int)
    requires Answered(s1, s', c)
    ensures forall change :: OthersServed(s, s1, change, now) ==> OthersServed(s, s', change, now)
    ensures forall id, t, pri, ttr, delay ::
              Stands(s, s1, id, t, pri, ttr, delay, now) ==> Stands(s, s', id, t, pri, ttr, delay, now)
    ensures NothingLeft(s1, now) ==> NothingLeft(s', now)
  {
    forall change | OthersServed(s, s1, change, now)
      ensures OthersServed(s, s', change, now)
    {
      forall id | id in s.jobs && id !in change
        ensures AsWasOrHandedOut(s, s', id, now)
      {
        assert AsWasOrHandedOut(s, s1, id, now);
      }
    }
    if NothingLeft(s1, now) {
      forall id, c
        ensures !CouldGo(s', id, c, now)
      {
        assert !CouldGo(s1, id, c, now);
      }
    }
  }

  // ---------- Put ----------

  /** A job put is there, in its tube, with its priority, time to run and delay, or it has gone to a
      connection that waited for it. */
  lemma PutDoes(s: State, c: nat, id: nat, t: nat, pri: u32, ttr: int, delay: int, now: int)
    requires InOrder(s) && Valid(s, Put(c, id, t, pri, ttr, delay))
    ensures var s' := Execute(s, Put(c, id, t, pri, ttr, delay), now);
            && s'.jobs.Keys == s.jobs.Keys + {id} && Stands(s, s', id, t, pri, ttr, delay, now)
            && OthersServed(s, s', {id}, now) && NothingLeft(s', now)
  {
    hide Sound, SoonestRight, Enqueue, Idle, Reschedule, Stands, OthersServed, NothingLeft, ConnsServed, Answered,
        SameChances;
    var j := Job(t, pri, ttr, INVALID, 0, None);
    TakeUp(s, {}, id, j, {});
    var s0 := SetJob(s, id, j);
    EnqueueKeeps(s0, id, delay, now, {});
    EnqueueDoes(s0, id, delay, now, {});
    var s1 := Enqueue(s0, id, delay, now, {});
    PutChances(s, id, j);
    ServedSince(s, s0, s1, {id}, now);
    StandsSince(s, s0, s1, {id}, id, t, pri, ttr, delay, now);
    Answers(s1, c);
    AnsweredSame(s, s1, Reschedule(s1, c), c, now);
    AnsweredJobs(s1, Reschedule(s1, c), c);
  }

  lemma AnsweredJobs(s: State, s': State, c: nat)
    requires Answered(s, s', c)
    ensures s'.jobs == s.jobs
  {
  }

  lemma PutChances(s: State, id: nat, j: Job)
    requires id !in s.jobs
    ensures SameChances(s, SetJob(s, id, j), {id}) && SetJob(s, id, j).jobs.Keys == s.jobs.Keys + {id}
  {
  }

  // ---------- Reserve ----------

  // Some job of the connection is within a second of its deadline, and no tube it watches has a
  // ready job.
  ghost predicate TurnedAway(s: State, c: nat, now: int)
    requires c in s.conns
  {
    && (exists r :: r in s.conns[c].reserved && r in s.jobs && s.jobs[r].deadline - 1000000000 <= now)
    && forall id, t :: t in s.conns[c].watch ==> !ReadyIn(s, id, t)
  }

  // A ready job of a tube the connection watches, not on pause, is the last of its jobs now.
  ghost predicate Got(s: State, s': State, c: nat, id: nat, now: int) {
    && c in s.conns && c in s'.conns && id in s.jobs && id in s'.jobs && s.jobs[id].state == READY
    && s.jobs[id].tube in s.conns[c].watch && !OnPause(s, s.jobs[id].tube, now)
    && s'.jobs[id] == s.jobs[id].(state := RESERVED, deadline := now + s.jobs[id].ttr, reservoir := Some(c))
    && s'.conns[c].reserved == s.conns[c].reserved + [id] && !s'.conns[c].waiting
  }

  // The connection is registered on every tube it watches, and none of them that is not on pause has
  // a ready job.
  ghost predicate NowWaits(s: State, s': State, c: nat, now: int) {
    && c in s.conns && c in s'.conns && s'.conns[c].waiting && s'.conns[c].reserved == s.conns[c].reserved
    && s'.conns[c].watch == s.conns[c].watch
    && forall t :: t in s.conns[c].watch ==>
         && t < |s'.tubes| && c in s'.tubes[t].waiting
         && forall id :: ReadyIn(s', id, t) ==> OnPause(s', t, now)
  }

  lemma SoonPlainly(s: State, c: nat, now: int)
    requires Queued(s, {}) && c in s.conns
    ensures DeadlineSoon(s, c, now) <==>
            exists r :: r in s.conns[c].reserved && r in s.jobs && s.jobs[r].deadline - 1000000000 <= now
  {
    AnswerQueued(s, c, {});
    assert {} - {c} == {};
    Answers(s, c);
    var s' := Reschedule(s, c);
    hide Sound, Reschedule;
    assert SoonestRightFor(s', c, false);
  }

  lemma WatchedReadyPlainly(s: State, c: nat)
    requires Queued(s, {}) && c in s.conns
    ensures SomeWatchedReady(s, c) <==> exists id, t :: t in s.conns[c].watch && ReadyIn(s, id, t)
  {
    SoundPlaces(s, {});
    hide Sound, SoonestRight;
    if SomeWatchedReady(s, c) {
      var t :| 0 <= t < |s.tubes| && t in s.conns[c].watch && s.tubes[t].ready != [];
      RootOfReady(s, {}, t);
      assert ReadyIn(s, s.tubes[t].ready[0].id, t);
    }
    forall id, t | t in s.conns[c].watch && ReadyIn(s, id, t)
      ensures SomeWatchedReady(s, c)
    {
      var i := HeapHasReady(s, {}, id);
    }
  }

  lemma WaitsPlainly(s: State, c: nat)
    requires c in s.conns
    ensures var s0 := Waits(s, c);
            && s0.jobs == s.jobs && |s0.tubes| == |s.tubes| && s0.conns == s.conns[c := s.conns[c].(waiting := true)]
            && forall t :: 0 <= t < |s.tubes| ==>
                 s0.tubes[t].pause == s.tubes[t].pause && s0.tubes[t].unpauseAt == s.tubes[t].unpauseAt
  {
  }

  // The connection has been registered, and the jobs are to be matched.
  ghost predicate Asking(s: State, s1: State, c: nat) {
    && c in s.conns && c in s1.conns && !s.conns[c].waiting && s1.jobs == s.jobs && |s1.tubes| == |s.tubes|
    && s1.conns.Keys == s.conns.Keys && s1.conns[c].waiting
    && s1.conns[c].reserved == s.conns[c].reserved && s1.conns[c].watch == s.conns[c].watch
    && (forall k :: k in s.conns && k != c ==> s1.conns[k] == s.conns[k])
    && forall t :: 0 <= t < |s.tubes| ==>
         s1.tubes[t].pause == s.tubes[t].pause && s1.tubes[t].unpauseAt == s.tubes[t].unpauseAt
  }

  // A job that was handed out went to a connection that waited before, or to the one that asked.
  ghost predicate ServedOrTaken(s: State, s': State, c: nat, now: int) {
    forall id :: id in s.jobs ==> AsWasOrHandedOut(s, s', id, now) || Taken(s, s', id, c, now)
  }

  ghost predicate Taken(s: State, s': State, id: nat, c: nat, now: int) {
    && c in s.conns && id in s.jobs && id in s'.jobs && s.jobs[id].state == READY
    && s.jobs[id].tube in s.conns[c].watch && !OnPause(s, s.jobs[id].tube, now)
    && s'.jobs[id] == s.jobs[id].(state := RESERVED, deadline := now + s.jobs[id].ttr, reservoir := Some(c))
  }

  // Of the ready jobs left in tubes the connection watches, not on pause, none comes before the one
  // it got.
  ghost predicate GotBest(s: State, s': State, c: nat, now: int)
    requires c in s.conns
  {
    forall id, k, t :: Got(s, s', c, id, now) && ReadyIn(s', k, t) && t in s.conns[c].watch && !OnPause(s, t, now) ==>
      s.jobs[id].pri < s'.jobs[k].pri || (s.jobs[id].pri == s'.jobs[k].pri && id <= k)
  }

  lemma AskingGetsBest(s: State, s1: State, s': State, c: nat, now: int)
    requires Asking(s, s1, c) && BestWent(s1, s', now)
    ensures GotBest(s, s', c, now)
  {
    forall id, k, t | Got(s, s', c, id, now) && ReadyIn(s', k, t) && t in s.conns[c].watch && !OnPause(s, t, now)
      ensures s.jobs[id].pri < s'.jobs[k].pri || (s.jobs[id].pri == s'.jobs[k].pri && id <= k)
    {
      assert WentTo(s1, s', id, c, now) && WaitsFor(s1, c, t);
    }
  }

  lemma AskingServed(s: State, s1: State, s': State, c: nat, now: int)
    requires Asking(s, s1, c) && OthersServed(s1, s', {}, now)
    ensures ServedOrTaken(s, s', c, now)
  {
    forall id | id in s.jobs
      ensures AsWasOrHandedOut(s, s', id, now) || Taken(s, s', id, c, now)
    {
      assert AsWasOrHandedOut(s1, s', id, now);
      if s'.jobs[id] != s.jobs[id] && s'.jobs[id].reservoir == Some(c) {
        assert Taken(s, s', id, c, now);
      }
    }
  }

  lemma LastIsNew(s1: State, s': State, c: nat, now: int) returns (id: nat)
    requires Queued(s1, {}) && Queued(s', {}) && OthersServed(s1, s', {}, now) && s'.jobs.Keys == s1.jobs.Keys
    requires c in s1.conns && c in s'.conns && |s'.conns[c].reserved| == |s1.conns[c].reserved| + 1
    requires s'.conns[c].reserved[..|s1.conns[c].reserved|] == s1.conns[c].reserved
    ensures s'.conns[c].reserved == s1.conns[c].reserved + [id] && id in s1.jobs && WentTo(s1, s', id, c, now)
  {
    SoundPlaces(s1, {});
    SoundPlaces(s', {});
    hide Sound, SoonestRight;
    var was, are := s1.conns[c].reserved, s'.conns[c].reserved;
    id := are[|was|];
    assert are == was + [id] && id in are;
    OnListIsReserved(s', {}, id, c);
    assert AsWasOrHandedOut(s1, s', id, now);
    assert ReservedTimes(s1, c, id) == Times(IsReserved(s1, {}, c, id));
    assert ReservedTimes(s', c, id) == Times(IsReserved(s', {}, c, id));
    assert multiset(are) == multiset(was) + multiset{id};
  }

  lemma StillWaits(s: State, s1: State, s': State, c: nat, now: int)
    requires Asking(s, s1, c) && WaitingPlaced(s') && WatchesTubes(s') && NothingLeft(s', now)
    requires c in s'.conns && s'.conns[c] == s1.conns[c]
    ensures NowWaits(s, s', c, now)
  {
    forall t | t in s.conns[c].watch
      ensures t < |s'.tubes| && c in s'.tubes[t].waiting
      ensures forall id :: ReadyIn(s', id, t) ==> OnPause(s', t, now)
    {
      assert WaitsFor(s', c, t);
      WaiterRegistered(s', t, c);
      forall id | ReadyIn(s', id, t)
        ensures OnPause(s', t, now)
      {
        assert !CouldGo(s', id, c, now);
      }
    }
  }

  lemma GotPlainly(s: State, s1: State, s': State, c: nat, id: nat, now: int)
    requires Asking(s, s1, c) && WentTo(s1, s', id, c, now) && c in s'.conns && !s'.conns[c].waiting
    requires s'.conns[c].reserved == s1.conns[c].reserved + [id]
    ensures Got(s, s', c, id, now)
  {
  }

  lemma AskingEnds(s: State, s1: State, s': State, c: nat, now: int)
    requires Asking(s, s1, c) && Queued(s1, {}) && Queued(s', {}) && OthersServed(s1, s', {}, now)
    requires NothingLeft(s', now) && ConnsServed(s1, s') && s'.jobs.Keys == s1.jobs.Keys && |s'.tubes| == |s1.tubes|
    ensures c in s'.conns
    ensures NowWaits(s, s', c, now) || exists id :: Got(s, s', c, id, now)
    ensures s'.conns[c].waiting || s'.conns[c].reserved != s.conns[c].reserved
  {
    hide Sound, SoonestRight, NothingLeft, OthersServed, NowWaits, Got, WentTo;
    SoundPlaces(s', {});
    assert ServedAtMostOnce(s1, s', c);
    if s'.conns[c] == s1.conns[c] {
      StillWaits(s, s1, s', c, now);
    } else {
      var id := LastIsNew(s1, s', c, now);
      GotPlainly(s, s1, s', c, id, now);
    }
  }

  /** A connection that asks for a job is turned away, and then nothing happens, exactly when one of its
      jobs is within a second of its deadline and no tube it watches has a ready job. Else it gets a
      ready job of the tubes it watches, none left in them comes before it, or it waits and there is
      none. */
  lemma ReserveDoes(s: State, c: nat, now: int)
    requires InOrder(s) && Valid(s, Reserve(c))
    ensures var s' := Execute(s, Reserve(c), now);
            && c in s'.conns && ServedOrTaken(s, s', c, now) && s'.jobs.Keys == s.jobs.Keys
            && (TurnedAway(s, c, now) <==> !s'.conns[c].waiting && s'.conns[c].reserved == s.conns[c].reserved)
            && (TurnedAway(s, c, now) ==> s'.jobs == s.jobs && s'.tubes == s.tubes)
            && (!TurnedAway(s, c, now) ==>
                  && (NowWaits(s, s', c, now) || exists id :: Got(s, s', c, id, now))
                  && GotBest(s, s', c, now))
  {
    hide Sound, SoonestRight, Waits, Reschedule, DeadlineSoon, SomeWatchedReady, ProcessQueue, Idle, Drained, Got,
        NowWaits, ServedOrTaken, NothingLeft, OthersServed, GotBest, BestWent;
    SoonPlainly(s, c, now);
    WatchedReadyPlainly(s, c);
    if DeadlineSoon(s, c, now) && !SomeWatchedReady(s, c) {
      Answers(s, c);
      SameServed(s, Reschedule(s, c), c, now);
    } else {
      WaitsQueued(s, c);
      WaitsPlainly(s, c);
      var s1 := Reschedule(Waits(s, c), c);
      Answers(Waits(s, c), c);
      MatchingServes(s1, now, {});
      ProcessQueueDrains(s1, now, {});
      MatchingIsBest(s1, now, {});
      AskingGetsBest(s, s1, ProcessQueue(s1, now, {}), c, now);
      AskingServed(s, s1, ProcessQueue(s1, now, {}), c, now);
      AskingEnds(s, s1, ProcessQueue(s1, now, {}), c, now);
    }
  }

  lemma SameServed(s: State, s': State, c: nat, now: int)
    requires s'.jobs == s.jobs
    ensures ServedOrTaken(s, s', c, now)
  {
  }

  // ---------- Release, bury, touch ----------

  ghost predicate Has(s: State, c: nat, id: nat) {
    id in s.jobs && s.jobs[id].state == RESERVED && s.jobs[id].reservoir == Some(c)
  }

  lemma TakenBackChances(s: State, id: nat, c: nat, pri: u32)
    requires c in s.conns && id in s.jobs && s.jobs[id].tube < |s.tubes|
    ensures var s1 := TakeBack(s, id, c);
            && id in s1.jobs && SameChances(s, SetJob(s1, id, s1.jobs[id].(pri := pri)), {id})
            && SetJob(s1, id, s1.jobs[id].(pri := pri)).jobs == s.jobs[id := s.jobs[id].(reservoir := None, pri := pri)]
  {
    hide RemoveFirst;
  }

  /** A job the connection has is given back with the new priority and delay; without a delay it is
      ready, or goes to a connection that waits. A job it does not have is left alone. */
  lemma ReleaseDoes(s: State, c: nat, id: nat, pri: u32, delay: int, now: int)
    requires InOrder(s) && Valid(s, Release(c, id, pri, delay))
    ensures var s' := Execute(s, Release(c, id, pri, delay), now);
            && s'.jobs.Keys == s.jobs.Keys
            && if Has(s, c, id) then
                 && Stands(s, s', id, s.jobs[id].tube, pri, s.jobs[id].ttr, delay, now)
                 && OthersServed(s, s', {id}, now) && NothingLeft(s', now)
               else s'.jobs == s.jobs
  {
    hide Sound, SoonestRight, Enqueue, Idle, Reschedule, Stands, OthersServed, NothingLeft, ConnsServed, Answered,
        SameChances, TakeBack, Later;
    if Has(s, c, id) {
      ReleaseStarts(s, c, id, pri, delay, now);
      TakenBackChances(s, id, c, pri);
      var s1 := TakeBack(s, id, c);
      var s2 := SetJob(s1, id, s1.jobs[id].(pri := pri));
      EnqueueDoes(s2, id, delay, now, {c});
      var s3 := Enqueue(s2, id, delay, now, {c});
      ServedSince(s, s2, s3, {id}, now);
      StandsSince(s, s2, s3, {id}, id, s.jobs[id].tube, pri, s.jobs[id].ttr, delay, now);
      Answers(s3, c);
      AnsweredSame(s, s3, Reschedule(s3, c), c, now);
      AnsweredJobs(s3, Reschedule(s3, c), c);
    } else {
      Answers(s, c);
      AnsweredJobs(s, Reschedule(s, c), c);
    }
  }

  /** A job the connection has is buried with the new priority; nothing else happens to a job. */
  lemma BuryDoes(s: State, c: nat, id: nat, pri: u32, now: int)
    requires InOrder(s) && Valid(s, Bury(c, id, pri))
    ensures var s' := Execute(s, Bury(c, id, pri), now);
            && OthersSame(s, s', {id})
            && (id in s.jobs <==> id in s'.jobs)
            && (id in s.jobs ==>
                  s'.jobs[id] == if Has(s, c, id) then s.jobs[id].(state := BURIED, pri := pri, reservoir := None)
                                 else s.jobs[id])
  {
    BuryKeeps(s, c, id, pri);
    hide Sound, SoonestRight, Idle, DoBury, OnBuriedList;
    BuriedAlone(s, c, id, pri);
  }

  lemma BuriedAlone(s: State, c: nat, id: nat, pri: u32)
    requires c in s.conns && (id in s.jobs ==> s.jobs[id].tube < |s.tubes|)
    ensures DoBury(s, c, id, pri).jobs ==
            if Has(s, c, id) then s.jobs[id := s.jobs[id].(state := BURIED, pri := pri, reservoir := None)] else s.jobs
  {
    hide Reschedule, TakeBack, AddBuried, PutBuried;
    if Has(s, c, id) {
      BuriedOnly(s, c, id, pri);
      Answers(AddBuried(PutBuried(s, c, id, pri), id), c);
    } else {
      Answers(s, c);
    }
  }

  lemma BuriedOnly(s: State, c: nat, id: nat, pri: u32)
    requires c in s.conns && id in s.jobs && s.jobs[id].tube < |s.tubes|
    ensures var s1 := AddBuried(PutBuried(s, c, id, pri), id);
            && s1.jobs == s.jobs[id := s.jobs[id].(state := BURIED, pri := pri, reservoir := None)] && c in s1.conns
  {
  }

  /** A job the connection has gets its time to run anew; nothing else happens to a job. */
  lemma TouchDoes(s: State, c: nat, id: nat, now: int)
    requires InOrder(s) && Valid(s, Touch(c, id))
    ensures var s' := Execute(s, Touch(c, id), now);
            && OthersSame(s, s', {id}) && (id in s.jobs <==> id in s'.jobs)
            && (id in s.jobs ==>
                  s'.jobs[id] == if Has(s, c, id) then s.jobs[id].(deadline := now + s.jobs[id].ttr) else s.jobs[id])
  {
    hide Sound, SoonestRight, Reschedule, Idle;
    if Has(s, c, id) {
      Answers(Touched(s, c, id, now), c);
    } else {
      Answers(s, c);
    }
  }

  // ---------- Commands that name a job ----------

  /** A job that nobody has is reserved by its id for the connection, with its time to run before it;
      nothing else happens to a job. */
  lemma ReserveJobDoes(s: State, c: nat, id: nat, now: int)
    requires InOrder(s) && Valid(s, ReserveJob(c, id))
    ensures var s' := Execute(s, ReserveJob(c, id), now);
            && OthersSame(s, s', {id}) && c in s'.conns && (id in s.jobs <==> id in s'.jobs)
            && (if id in s.jobs && s.jobs[id].state != RESERVED then
                  && s'.jobs[id] ==
                     s.jobs[id].(state := RESERVED, deadline := now + s.jobs[id].ttr, reservoir := Some(c))
                  && s'.conns[c].reserved == s.conns[c].reserved + [id]
                else s'.jobs == s.jobs && s'.conns[c].reserved == s.conns[c].reserved)
  {
    hide Sound, SoonestRight, Reschedule, Idle, Unplaced;
    if id in s.jobs && s.jobs[id].state != RESERVED {
      UnplacedRest(s, id);
      Answers(Give(Unplaced(s, id), id, c, now), c);
    } else {
      Answers(s, c);
    }
  }

  /** A deleted job is gone, and nothing else happens to a job. */
  lemma DeleteDoes(s: State, c: nat, id: nat, now: int)
    requires InOrder(s) && Valid(s, Delete(c, id))
    ensures var s' := Execute(s, Delete(c, id), now);
            && OthersSame(s, s', {id})
            && (id in s.jobs && (Has(s, c, id) || (s.jobs[id].state != RESERVED && !PanicsOn(s, id))) ==>
                  id !in s'.jobs)
            && (id in s.jobs && !Has(s, c, id) && (s.jobs[id].state == RESERVED || PanicsOn(s, id)) ==>
                  id in s'.jobs && s'.jobs[id] == s.jobs[id])
  {
    hide Sound, SoonestRight, Reschedule, Idle, Unplaced, TakeBack, RemoveFirst;
    SoundPlaces(s, {});
    Answers(s, c);
    if Has(s, c, id) {
      assert JobSound(s, {}, id);
      TakeBackRest(s, id, c);
      Answers(Forgotten(TakeBack(s, id, c), id), c);
    } else if CanRemove(s, id) {
      UnplacedRest(s, id);
      Answers(Forgotten(Unplaced(s, id), id), c);
    }
  }

  lemma UnplacedChances(s: State, id: nat)
    requires AtRoot(s, id)
    ensures SameChances(s, Unplaced(s, id), {}) && Unplaced(s, id).jobs == s.jobs
  {
    hide Removed, RemoveFirst;
  }

  // A job taken out of its place and enqueued without a delay.
  lemma KickOneDoes(s: State, id: nat, now: int)
    requires Queued(s, {}) && CanKick(s, id)
    ensures var s' := KickOne(s, id, now);
            && Stands(s, s', id, s.jobs[id].tube, s.jobs[id].pri, s.jobs[id].ttr, 0, now)
            && OthersServed(s, s', {id}, now) && s'.jobs.Keys == s.jobs.Keys
            && NothingLeft(s', now) && Later(s, s', now)
  {
    hide Sound, SoonestRight, Unplaced, Idle, Enqueue, Stands, OthersServed, NothingLeft, SameChances, Later,
        ConnsServed;
    UnplacedInHand(s, id);
    UnplacedChances(s, id);
    var s1 := Unplaced(s, id);
    EnqueueDoes(s1, id, 0, now, {});
    var s2 := Enqueue(s1, id, 0, now, {});
    SameChancesMore(s, s1, {id});
    ServedSince(s, s1, s2, {id}, now);
    StandsSince(s, s1, s2, {id}, id, s.jobs[id].tube, s.jobs[id].pri, s.jobs[id].ttr, 0, now);
    LaterSince(s, s1, s2, now);
  }

  lemma SameChancesMore(s: State, s0: State, change: set<nat>)
    requires SameChances(s, s0, {})
    ensures SameChances(s, s0, change)
  {
  }

  lemma LaterSince(s: State, s0: State, s': State, now: int)
    requires SameChances(s, s0, {}) && Later(s0, s', now)
    ensures Later(s, s', now)
  {
    assert forall t :: OnPause(s, t, now) ==> OnPause(s0, t, now);
  }

  /** A buried or delayed job that is kicked by its id is ready, or goes to a connection that waits. */
  lemma KickJobDoes(s: State, c: nat, id: nat, now: int)
    requires InOrder(s) && Valid(s, KickJob(c, id))
    ensures var s' := Execute(s, KickJob(c, id), now);
            && s'.jobs.Keys == s.jobs.Keys
            && if id in s.jobs && (s.jobs[id].state == BURIED || s.jobs[id].state == DELAYED) then
                 && Stands(s, s', id, s.jobs[id].tube, s.jobs[id].pri, s.jobs[id].ttr, 0, now)
                 && OthersServed(s, s', {id}, now) && NothingLeft(s', now)
               else s'.jobs == s.jobs
  {
    hide Sound, SoonestRight, Reschedule, Idle, Unplaced, Enqueue, Stands, OthersServed, NothingLeft, Answered, Later;
    if id in s.jobs && (s.jobs[id].state == BURIED || s.jobs[id].state == DELAYED) {
      UnplacedInHand(s, id);
      EnqueueKeeps(Unplaced(s, id), id, 0, now, {});
      KickOneDoes(s, id, now);
      var s1 := KickOne(s, id, now);
      Answers(s1, c);
      AnsweredSame(s, s1, Reschedule(s1, c), c, now);
      AnsweredJobs(s1, Reschedule(s1, c), c);
    } else {
      Answers(s, c);
      AnsweredJobs(s, Reschedule(s, c), c);
    }
  }

  // ---------- Kicking the jobs of a tube ----------

  // The jobs in ids were kicked: they are ready, or have gone to connections that waited.
  ghost predicate KickedAll(s: State, s': State, ids: set<nat>, now: int) {
    forall id :: id in ids ==>
      id in s.jobs && Stands(s, s', id, s.jobs[id].tube, s.jobs[id].pri, s.jobs[id].ttr, 0, now)
  }

  lemma KickedMore(s: State, s1: State, s2: State, id: nat, ids: set<nat>, now: int)
    requires id in s.jobs && Stands(s, s1, id, s.jobs[id].tube, s.jobs[id].pri, s.jobs[id].ttr, 0, now)
    requires OthersServed(s, s1, {id}, now) && Later(s, s1, now) && s1.jobs.Keys == s.jobs.Keys
    requires KickedAll(s1, s2, ids, now) && OthersServed(s1, s2, ids, now) && id !in ids
    requires forall k :: k in ids ==> k in s.jobs && s.jobs[k].state != READY
    ensures KickedAll(s, s2, ids + {id}, now) && OthersServed(s, s2, ids + {id}, now)
    ensures forall k :: k in ids ==> k in s.jobs && s.jobs[k] == s1.jobs[k]
  {
    hide Stands, Later;
    forall k | k in ids
      ensures k in s.jobs && s.jobs[k] == s1.jobs[k]
    {
      assert AsWasOrHandedOut(s, s1, k, now);
    }
    OthersServedTwice(s, s1, s2, {id}, ids, now);
    assert {id} + ids == ids + {id};
    assert AsWasOrHandedOut(s1, s2, id, now);
    StandsOn(s, s1, s2, id, s.jobs[id].tube, s.jobs[id].pri, s.jobs[id].ttr, now);
    forall k | k in ids
      ensures Stands(s, s2, k, s.jobs[k].tube, s.jobs[k].pri, s.jobs[k].ttr, 0, now)
    {
      StandsEarlier(s, s1, s2, k, s.jobs[k].tube, s.jobs[k].pri, s.jobs[k].ttr, now);
    }
  }

  // Jobs in such a state were in it before another was kicked.
  lemma StillInState(s: State, s1: State, id: nat, ids: set<nat>, t: nat, state: u8, now: int)
    requires OfTube(s1, ids, t, state) && OthersServed(s, s1, {id}, now) && id !in ids && s1.jobs.Keys == s.jobs.Keys
    requires state != RESERVED
    ensures OfTube(s, ids, t, state)
  {
    forall k | k in ids
      ensures s.jobs[k] == s1.jobs[k]
    {
      assert AsWasOrHandedOut(s, s1, k, now);
    }
  }

  lemma StandsEarlier(s: State, s1: State, s2: State, id: nat, t: nat, pri: u32, ttr: int, now: int)
    requires Stands(s1, s2, id, t, pri, ttr, 0, now) && Later(s, s1, now)
    ensures Stands(s, s2, id, t, pri, ttr, 0, now)
  {
  }

  // As many jobs as the number says, of this state and in this tube.
  ghost predicate OfTube(s: State, ids: set<nat>, t: nat, state: u8) {
    forall id :: id in ids ==> id in s.jobs && s.jobs[id].tube == t && s.jobs[id].state == state
  }

  // One job, and then the others.
  lemma KickBuriedStep(s: State, t: nat, n: nat, now: int)
    requires Queued(s, {}) && t < |s.tubes| && n > 0 && s.tubes[t].buried != []
    ensures var id := s.tubes[t].buried[0];
            && CanKick(s, id)
            && var s1 := KickOne(s, id, now);
               && Queued(s1, {}) && |s1.tubes| == |s.tubes|
               && KickBuried(s, t, n, now).0 == KickBuried(s1, t, n - 1, now).0
               && KickBuried(s, t, n, now).1 == KickBuried(s1, t, n - 1, now).1 + 1
  {
    hide Queued, KickOne, CanKick;
    ListedCanBeKicked(s, t);
    KickOneKeeps(s, s.tubes[t].buried[0], now);
  }

  lemma KickBuriedNone(s: State, t: nat, n: nat, now: int)
    requires Queued(s, {}) && t < |s.tubes| && (n == 0 || s.tubes[t].buried == [])
    ensures KickBuried(s, t, n, now) == (s, 0)
  {
    hide Queued;
  }

  lemma {:induction false} KickBuriedDoes(s: State, t: nat, n: nat, now: int) returns (ids: set<nat>)
    requires Queued(s, {}) && t < |s.tubes|
    ensures var (s', k) := KickBuried(s, t, n, now);
            && |ids| == k && OfTube(s, ids, t, BURIED) && KickedAll(s, s', ids, now) && OthersServed(s, s', ids, now)
            && s'.jobs.Keys == s.jobs.Keys
    decreases n
  {
    hide Queued, KickOne, CanKick, Stands, Later, OthersServed, NothingLeft, KickBuried;
    ids := {};
    if n == 0 || s.tubes[t].buried == [] {
      KickBuriedNone(s, t, n, now);
      NoneKicked(s, now);
    } else {
      var id := s.tubes[t].buried[0];
      BuriedOfTube(s, t);
      KickBuriedStep(s, t, n, now);
      KickOneDoes(s, id, now);
      var s1 := KickOne(s, id, now);
      var more := KickBuriedDoes(s1, t, n - 1, now);
      NotAgain(s, s1, id, more, t, BURIED, now);
      StillInState(s, s1, id, more, t, BURIED, now);
      hide KickedAll;
      KickedMore(s, s1, KickBuried(s1, t, n - 1, now).0, id, more, now);
      ids := more + {id};
    }
  }

  lemma NoneKicked(s: State, now: int)
    ensures OthersServed(s, s, {}, now)
  {
  }

  lemma BuriedOfTube(s: State, t: nat)
    requires Queued(s, {}) && t < |s.tubes| && s.tubes[t].buried != []
    ensures var id := s.tubes[t].buried[0];
            id in s.jobs && s.jobs[id].tube == t && s.jobs[id].state == BURIED
  {
    SoundPlaces(s, {});
    assert BuriedListSound(s, {}, t);
    assert s.tubes[t].buried[0] in s.tubes[t].buried;
  }

  // A job that was kicked is not in that state any more.
  lemma NotAgain(s: State, s1: State, id: nat, ids: set<nat>, t: nat, state: u8, now: int)
    requires id in s.jobs && Stands(s, s1, id, s.jobs[id].tube, s.jobs[id].pri, s.jobs[id].ttr, 0, now)
    requires OfTube(s1, ids, t, state) && (state == BURIED || state == DELAYED)
    ensures id !in ids
  {
  }

  ghost predicate DelayedIn(s: State, id: nat, t: nat) {
    id in s.jobs && s.jobs[id].state == DELAYED && s.jobs[id].tube == t
  }

  // The delayed jobs of the tube that are not among these are due no sooner.
  ghost predicate DueFirst(s: State, ids: set<nat>, t: nat) {
    forall id, k :: id in ids && id in s.jobs && k !in ids && DelayedIn(s, k, t) ==>
      s.jobs[id].deadline <= s.jobs[k].deadline
  }

  lemma FirstIsDue(s: State, t: nat)
    requires Queued(s, {}) && t < |s.tubes| && s.tubes[t].delay != []
    ensures var id := s.tubes[t].delay[0].id;
            && id in s.jobs && s.jobs[id].tube == t && s.jobs[id].state == DELAYED
            && forall k :: DelayedIn(s, k, t) ==> s.jobs[id].deadline <= s.jobs[k].deadline
  {
    SoundPlaces(s, {});
    RootOfDelayed(s, {}, t);
    hide Sound, SoonestRight;
    forall k | DelayedIn(s, k, t)
      ensures s.tubes[t].delay[0].key <= s.jobs[k].deadline
    {
      var e := Entry(s.jobs[k].deadline, k);
      assert DelayedTimes(s, t, e) == Times(IsDelayed(s, {}, t, e));
      assert e in multiset(s.tubes[t].delay);
      assert e in s.tubes[t].delay;
      var i :| 0 <= i < |s.tubes[t].delay| && s.tubes[t].delay[i] == e;
      RootIsLeast(s.tubes[t].delay, i);
    }
  }

  lemma DueFirstMore(s: State, s1: State, id: nat, ids: set<nat>, t: nat, now: int)
    requires id in s.jobs && OthersServed(s, s1, {id}, now) && DueFirst(s1, ids, t) && s1.jobs.Keys == s.jobs.Keys
    requires forall k :: k in ids ==> k in s.jobs && s.jobs[k] == s1.jobs[k]
    requires forall k :: DelayedIn(s, k, t) ==> s.jobs[id].deadline <= s.jobs[k].deadline
    ensures DueFirst(s, ids + {id}, t)
  {
    forall a, k | a in ids && k !in ids + {id} && DelayedIn(s, k, t)
      ensures s.jobs[a].deadline <= s.jobs[k].deadline
    {
      assert AsWasOrHandedOut(s, s1, k, now);
    }
  }

  // One job, and then the others.
  lemma KickDelayedStep(s: State, t: nat, n: nat, now: int)
    requires Queued(s, {}) && t < |s.tubes| && n > 0 && s.tubes[t].delay != []
    ensures var id := s.tubes[t].delay[0].id;
            && CanKick(s, id)
            && var s1 := KickOne(s, id, now);
               && Queued(s1, {}) && |s1.tubes| == |s.tubes|
               && KickDelayed(s, t, n, now).0 == KickDelayed(s1, t, n - 1, now).0
               && KickDelayed(s, t, n, now).1 == KickDelayed(s1, t, n - 1, now).1 + 1
  {
    hide Queued, KickOne, CanKick;
    FirstDelayedCanBeKicked(s, t);
    KickOneKeeps(s, s.tubes[t].delay[0].id, now);
  }

  lemma KickDelayedNone(s: State, t: nat, n: nat, now: int)
    requires Queued(s, {}) && t < |s.tubes| && (n == 0 || s.tubes[t].delay == [])
    ensures KickDelayed(s, t, n, now) == (s, 0)
  {
    hide Queued;
  }

  lemma {:induction false} KickDelayedDoes(s: State, t: nat, n: nat, now: int) returns (ids: set<nat>)
    requires Queued(s, {}) && t < |s.tubes|
    ensures var (s', k) := KickDelayed(s, t, n, now);
            && |ids| == k && OfTube(s, ids, t, DELAYED) && KickedAll(s, s', ids, now) && OthersServed(s, s', ids, now)
            && s'.jobs.Keys == s.jobs.Keys && DueFirst(s, ids, t)
    decreases n
  {
    hide Queued, KickOne, CanKick, Stands, Later, OthersServed, NothingLeft, KickDelayed, DueFirst;
    ids := {};
    if n == 0 || s.tubes[t].delay == [] {
      KickDelayedNone(s, t, n, now);
      NoneKicked(s, now);
      NoneDueFirst(s, t);
    } else {
      var id := s.tubes[t].delay[0].id;
      FirstIsDue(s, t);
      KickDelayedStep(s, t, n, now);
      KickOneDoes(s, id, now);
      var s1 := KickOne(s, id, now);
      var more := KickDelayedDoes(s1, t, n - 1, now);
      NotAgain(s, s1, id, more, t, DELAYED, now);
      StillInState(s, s1, id, more, t, DELAYED, now);
      hide KickedAll;
      KickedMore(s, s1, KickDelayed(s1, t, n - 1, now).0, id, more, now);
      DueFirstMore(s, s1, id, more, t, now);
      ids := more + {id};
    }
  }

  lemma NoneDueFirst(s: State, t: nat)
    ensures DueFirst(s, {}, t)
  {
  }

  /** Kicking a tube: jobs in its list of buried jobs if there are any, else delayed jobs, those due
      first, are ready afterwards or have gone to connections that waited; other jobs are left alone.
      Fewer than n are kicked only if no more are there. */
  lemma KickDoes(s: State, c: nat, t: nat, n: nat, now: int) returns (ids: set<nat>)
    requires InOrder(s) && Valid(s, Kick(c, t, n))
    ensures var s' := Execute(s, Kick(c, t, n), now);
            && |ids| <= n && KickedAll(s, s', ids, now) && OthersServed(s, s', ids, now) && s'.jobs.Keys == s.jobs.Keys
            && |s'.tubes| == |s.tubes|
            && (if s.tubes[t].buried != [] then OfTube(s, ids, t, BURIED) && (|ids| < n ==> s'.tubes[t].buried == [])
                else OfTube(s, ids, t, DELAYED) && DueFirst(s, ids, t) && (|ids| < n ==> s'.tubes[t].delay == []))
  {
    KickJobsEnds(s, t, n, now);
    hide Queued, Idle, KickBuried, KickDelayed, KickedAll, OthersServed, OfTube, DueFirst, Stands, Reschedule;
    if s.tubes[t].buried != [] {
      ids := KickBuriedDoes(s, t, n, now);
    } else {
      ids := KickDelayedDoes(s, t, n, now);
    }
    var s1 := KickJobs(s, t, n, now).0;
    Answers(s1, c);
    KickedAnswered(s, s1, Reschedule(s1, c), c, ids, now);
  }

  lemma KickedAnswered(s: State, s1: State, s': State, c: nat, ids: set<nat>, now: int)
    requires Answered(s1, s', c) && KickedAll(s, s1, ids, now) && OthersServed(s, s1, ids, now)
    ensures KickedAll(s, s', ids, now) && OthersServed(s, s', ids, now) && s'.jobs == s1.jobs && s'.tubes == s1.tubes
  {
    AnsweredSame(s, s1, s', c, now);
  }

  // ---------- Pausing, watching, coming and going ----------

  /** A tube paused hands out nothing for the time asked, or for the shortest time; nothing else
      happens to a job or a tube. */
  lemma PauseDoes(s: State, c: nat, t: nat, delay: int, now: int)
    requires InOrder(s) && Valid(s, Pause(c, t, delay))
    ensures var s', d := Execute(s, Pause(c, t, delay), now), if delay > 0 then delay else 1;
            && s'.jobs == s.jobs && |s'.tubes| == |s.tubes|
            && s'.tubes[t] == s.tubes[t].(pause := d, unpauseAt := now + d)
            && forall u :: 0 <= u < |s.tubes| && u != t ==> s'.tubes[u] == s.tubes[u]
  {
    hide Reschedule, Queued, Idle;
    Answers(PausedTube(s, t, delay, now), c);
  }

  lemma WatchDoes(s: State, c: nat, t: nat, now: int)
    requires InOrder(s) && Valid(s, Watch(c, t))
    ensures var s' := Execute(s, Watch(c, t), now);
            && s'.jobs == s.jobs && s'.tubes == s.tubes && s'.conns.Keys == s.conns.Keys
            && (forall u :: u in s'.conns[c].watch <==> u in s.conns[c].watch || u == t)
            && forall k :: k in s.conns && k != c ==> s'.conns[k] == s.conns[k]
  {
    hide Reschedule, Queued, Idle;
    var watch := s.conns[c].watch;
    Answers(Watching(s, c, if t in watch then watch else watch + [t]), c);
  }

  /** A tube ignored is watched no more, unless it is the only one. */
  lemma IgnoreDoes(s: State, c: nat, t: nat, now: int)
    requires InOrder(s) && Valid(s, Ignore(c, t))
    ensures var s' := Execute(s, Ignore(c, t), now);
            && s'.jobs == s.jobs && s'.tubes == s.tubes && s'.conns.Keys == s.conns.Keys
            && (if |s.conns[c].watch| < 2 then s'.conns[c].watch == s.conns[c].watch
                else forall u :: u in s'.conns[c].watch <==> u in s.conns[c].watch && u != t)
            && forall k :: k in s.conns && k != c ==> s'.conns[k] == s.conns[k]
  {
    SoundPlaces(s, {});
    hide Reschedule, Sound, SoonestRight, Idle;
    var watch := s.conns[c].watch;
    if t in watch && |watch| < 2 {
      Answers(Watching(s, c, watch), c);
    } else {
      Answers(Watching(s, c, RemoveFirst(watch, t)), c);
      OneOut(watch, t);
      if |watch| < 2 {
        NotThereToRemove(watch, t);
      }
    }
  }

  lemma OneOut(xs: seq<nat>, x: nat)
    requires NoRepeats(xs)
    ensures forall u :: u in RemoveFirst(xs, x) <==> u in xs && u != x
  {
    RemoveFirstTakesOne(xs, x);
    hide RemoveFirst;
    var ys := RemoveFirst(xs, x);
    forall u
      ensures u in ys <==> u in xs && u != x
    {
      OnceOnly(xs, u);
      assert u in ys <==> u in multiset(ys);
    }
  }

  lemma {:induction false} OnceOnly(xs: seq<nat>, u: nat)
    requires NoRepeats(xs)
    ensures multiset(xs)[u] == Times(u in xs)
  {
    if xs != [] {
      assert xs == [xs[0]] + xs[1..];
      forall i, j | 0 <= i < j < |xs[1..]|
        ensures xs[1..][i] != xs[1..][j]
      {
        assert xs[i + 1] != xs[j + 1];
      }
      OnceOnly(xs[1..], u);
      assert xs[0] !in xs[1..];
    }
  }

  lemma ConnectDoes(s: State, c: nat, t: nat, now: int)
    requires InOrder(s) && Valid(s, Connect(c, t))
    ensures var s' := Execute(s, Connect(c, t), now);
            && s'.jobs == s.jobs && s'.tubes == s.tubes && s'.conns.Keys == s.conns.Keys + {c}
            && s'.conns[c].watch == [t] && !s'.conns[c].waiting && s'.conns[c].reserved == []
            && forall k :: k in s.conns ==> s'.conns[k] == s.conns[k]
  {
  }

  lemma MakeTubeDoes(s: State, now: int)
    requires InOrder(s)
    ensures var s' := Execute(s, MakeTube, now);
            && s'.jobs == s.jobs && s'.conns == s.conns && |s'.tubes| == |s.tubes| + 1
            && s'.tubes[..|s.tubes|] == s.tubes
            && var tube := s'.tubes[|s.tubes|];
               tube.ready == [] && tube.delay == [] && tube.buried == [] && tube.waiting == [] && tube.pause == 0
  {
  }

  /** A connection that hangs up while it waits waits no longer and keeps its jobs. */
  lemma HangUpDoes(s: State, c: nat, now: int)
    requires InOrder(s) && Valid(s, HangUp(c))
    ensures var s' := Execute(s, HangUp(c), now);
            && s'.jobs == s.jobs && s'.conns.Keys == s.conns.Keys && !s'.conns[c].waiting
            && s'.conns[c].reserved == s.conns[c].reserved && s'.conns[c].watch == s.conns[c].watch
            && forall k :: k in s.conns && k != c ==> s'.conns[k] == s.conns[k]
  {
    HangUpKeeps(s, c);
    hide Reschedule, Sound, SoonestRight, Idle, RemoveFirst;
    Answers(StopWaiting(s, c), c);
  }

  // ---------- A connection leaves ----------

  lemma StoppedChances(s: State, c: nat)
    requires c in s.conns
    ensures var s0 := StopWaiting(s, c);
            && s0.jobs == s.jobs && s0.conns.Keys == s.conns.Keys && s0.conns[c].reserved == s.conns[c].reserved
            && (forall now :: Later(s, s0, now))
  {
    hide RemoveFirst;
  }

  lemma OnePlaceChances(s: State, s': State, id: nat, j: Job, c: nat, conn: Conn, t: nat, tube: Tube)
    requires c in s.conns && t < |s.tubes|
    requires s'.jobs == s.jobs[id := j] && s'.conns == s.conns[c := conn] && s'.tubes == s.tubes[t := tube]
    requires conn.waiting == s.conns[c].waiting && conn.watch == s.conns[c].watch
    requires tube.pause == s.tubes[t].pause && tube.unpauseAt == s.tubes[t].unpauseAt
    ensures SameChances(s, s', {id})
  {
  }

  lemma TakenChances(s: State, id: nat, c: nat)
    requires c in s.conns && id in s.jobs && s.jobs[id].tube < |s.tubes|
    ensures var s1 := TakeBack(s, id, c);
            && SameChances(s, s1, {id}) && s1.jobs == s.jobs[id := s.jobs[id].(reservoir := None)]
            && s1.conns[c].reserved == RemoveFirst(s.conns[c].reserved, id)
  {
    hide RemoveFirst, SameChances;
    var s1, t := TakeBack(s, id, c), s.jobs[id].tube;
    OnePlaceChances(s, s1, id, s1.jobs[id], c, s1.conns[c], t, s1.tubes[t]);
  }

  // The first of the leaving connection's jobs goes back to its tube.
  lemma FirstGoesBack(s: State, c: nat, now: int)
    requires Queued(s, {c}) && Asks(s, c) && s.conns[c].reserved != []
    ensures var id := s.conns[c].reserved[0];
            && Has(s, c, id) && s.jobs[id].tube < |s.tubes| && InHand(TakeBack(s, id, c), id, {c})
            && var s' := Enqueue(TakeBack(s, id, c), id, 0, now, {c});
               && Queued(s', {c}) && Asks(s', c) && s'.jobs.Keys == s.jobs.Keys
               && s'.conns[c].reserved == s.conns[c].reserved[1..]
               && Stands(s, s', id, s.jobs[id].tube, s.jobs[id].pri, s.jobs[id].ttr, 0, now)
               && OthersServed(s, s', {id}, now) && Later(s, s', now)
  {
    hide Queued, Idle, TakeBack, Enqueue, InHand, Stands, OthersServed, NothingLeft, SameChances, Later;
    EnqueueFirst(s, c, now);
    var id := s.conns[c].reserved[0];
    TakenChances(s, id, c);
    var s1 := TakeBack(s, id, c);
    EnqueueDoes(s1, id, 0, now, {c});
    var s2 := Enqueue(s1, id, 0, now, {c});
    ServedSince(s, s1, s2, {id}, now);
    StandsSince(s, s1, s2, {id}, id, s.jobs[id].tube, s.jobs[id].pri, s.jobs[id].ttr, 0, now);
    LaterFrom(s, s1, s2, {id}, now);
    AskingKeeps(s1, s2, c);
  }

  lemma AskingKeeps(s: State, s': State, c: nat)
    requires ConnsServed(s, s') && c in s.conns && !s.conns[c].waiting
    ensures s'.conns[c] == s.conns[c]
  {
    assert ServedAtMostOnce(s, s', c);
  }

  lemma LaterFrom(s: State, s0: State, s': State, change: set<nat>, now: int)
    requires SameChances(s, s0, change) && Later(s0, s', now)
    ensures Later(s, s', now)
  {
    assert forall t :: OnPause(s, t, now) ==> OnPause(s0, t, now);
  }

  ghost function Jobs(s: State, c: nat): set<nat>
    requires c in s.conns
  {
    set id | id in s.conns[c].reserved
  }

  lemma RestOfJobs(s: State, c: nat)
    requires ReservedPlaced(s, {}) && c in s.conns && s.conns[c].reserved != []
    ensures s.conns[c].reserved[0] !in s.conns[c].reserved[1..]
    ensures Jobs(s, c) == (set id | id in s.conns[c].reserved[1..]) + {s.conns[c].reserved[0]}
    ensures forall id :: id in s.conns[c].reserved ==> id in s.jobs && s.jobs[id].state == RESERVED
  {
    var ids := s.conns[c].reserved;
    assert ids == [ids[0]] + ids[1..];
    assert ReservedTimes(s, c, ids[0]) <= 1;
    forall id | id in ids
      ensures id in s.jobs && s.jobs[id].state == RESERVED
    {
      OnListIsReserved(s, {}, id, c);
    }
  }

  lemma {:induction false} AllGoBack(s: State, c: nat, now: int)
    requires Queued(s, {c}) && Asks(s, c)
    ensures var s' := EnqueueReserved(s, c, now);
            && s'.jobs.Keys == s.jobs.Keys && KickedAll(s, s', Jobs(s, c), now) && OthersServed(s, s', Jobs(s, c), now)
    decreases |s.conns[c].reserved|
  {
    hide TakeBack, Enqueue, InHand, Stands, Later, OthersServed, Sound, SoonestRight, NotWaiting, Idle;
    if s.conns[c].reserved == [] {
      NoneKicked(s, now);
      assert Jobs(s, c) == {};
    } else {
      EnqueueFirst(s, c, now);
      FirstGoesBack(s, c, now);
      SoundPlaces(s, {});
      RestOfJobs(s, c);
      var id := s.conns[c].reserved[0];
      var s1 := Enqueue(TakeBack(s, id, c), id, 0, now, {c});
      AllGoBack(s1, c, now);
      hide KickedAll;
      KickedMore(s, s1, EnqueueReserved(s1, c, now), id, Jobs(s1, c), now);
    }
  }

  /** The jobs of a connection that leaves are ready again, or go to others that wait; other jobs are
      left alone, and the connection is gone. */
  lemma DisconnectDoes(s: State, c: nat, now: int)
    requires InOrder(s) && Valid(s, Disconnect(c))
    ensures var s', ids := Execute(s, Disconnect(c), now), Jobs(s, c);
            && s'.conns.Keys == s.conns.Keys - {c} && s'.jobs.Keys == s.jobs.Keys
            && (forall id :: id in ids <==> Has(s, c, id))
            && KickedAll(s, s', ids, now) && OthersServed(s, s', ids, now)
  {
    hide Idle, StopWaiting, EnqueueReserved, Stands, OthersServed, Later, Sound, SoonestRight;
    StoppedQueued(s, c);
    StoppedChances(s, c);
    var s0 := StopWaiting(s, c);
    EnqueueReservedEnds(s0, c, now);
    AllGoBack(s0, c, now);
    SoundPlaces(s, {});
    HasIsListed(s, c);
    GoneServed(s, s0, EnqueueReserved(s0, c, now), c, Jobs(s, c), now);
  }

  lemma HasIsListed(s: State, c: nat)
    requires ReservedPlaced(s, {}) && c in s.conns
    ensures forall id :: id in Jobs(s, c) <==> Has(s, c, id)
  {
    forall id
      ensures id in Jobs(s, c) <==> Has(s, c, id)
    {
      assert ReservedTimes(s, c, id) == Times(IsReserved(s, {}, c, id));
      assert id in s.conns[c].reserved <==> id in multiset(s.conns[c].reserved);
    }
  }

  lemma GoneServed(s: State, s0: State, s1: State, c: nat, ids: set<nat>, now: int)
    requires s0.jobs == s.jobs && Later(s, s0, now) && KickedAll(s0, s1, ids, now) && OthersServed(s0, s1, ids, now)
    ensures KickedAll(s, Gone(s1, c), ids, now) && OthersServed(s, Gone(s1, c), ids, now)
  {
    forall id | id in ids
      ensures Stands(s, Gone(s1, c), id, s.jobs[id].tube, s.jobs[id].pri, s.jobs[id].ttr, 0, now)
    {
      StandsEarlier(s, s0, s1, id, s.jobs[id].tube, s.jobs[id].pri, s.jobs[id].ttr, now);
    }
    forall id | id in s.jobs && id !in ids
      ensures AsWasOrHandedOut(s, Gone(s1, c), id, now)
    {
      assert AsWasOrHandedOut(s0, s1, id, now);
    }
  }

  // ---------- Ticks ----------

  // The delayed jobs whose time has come.
  ghost function Due(s: State, now: int): set<nat> {
    set id | id in s.jobs && s.jobs[id].state == DELAYED && s.jobs[id].deadline <= now
  }

  lemma RemovedChances(s: State, id: nat)
    requires CanPromote(s, id)
    ensures SameChances(s, RemoveDelayed(s, id), {}) && RemoveDelayed(s, id).jobs == s.jobs
  {
    hide Removed;
  }

  // One delayed job made ready, and what can be handed out handed out.
  lemma PromoteOneDoes(s: State, now: int, stale: set<nat>) returns (id: nat)
    requires Queued(s, stale) && IsDue(s, now)
    ensures SoonestDelayed(s.tubes, |s.tubes|).Some? && CanPromote(s, SoonestDelayed(s.tubes, |s.tubes|).value.id)
    ensures Queued(Promoted(s, now), stale) && id in Due(s, now)
    ensures var s' := ProcessQueue(Promoted(s, now), now, stale);
            && Stands(s, s', id, s.jobs[id].tube, s.jobs[id].pri, s.jobs[id].ttr, 0, now)
            && OthersServed(s, s', {id}, now) && s'.jobs.Keys == s.jobs.Keys && Later(s, s', now)
            && |DelayedJobs(s')| < |DelayedJobs(s)| && Queued(s', stale)
  {
    hide Queued, Distributed, SoonestDelayed, RemoveDelayed, PlaceInHeap, Stands, OthersServed, Later,
        SameChances, ProcessQueue, ConnsServed, NothingLeft, Placed;
    PromotionQueued(s, now, stale);
    PromotedQueued(s, now, stale);
    SoonestIsDelayed(s, stale);
    id := SoonestDelayed(s.tubes, |s.tubes|).value.id;
    RemovedChances(s, id);
    var s1 := RemoveDelayed(s, id);
    SameTubes(s, s1);
    PlacedPlainly(s1, id, 0, now);
    var s2 := Promoted(s, now);
    MatchingServes(s2, now, stale);
    var s3 := ProcessQueue(s2, now, stale);
    ServedAfterPlacing(s1, s2, s3, id, 0, now);
    SameChancesMore(s, s1, {id});
    ServedSince(s, s1, s3, {id}, now);
    StandsSince(s, s1, s3, {id}, id, s.jobs[id].tube, s.jobs[id].pri, s.jobs[id].ttr, 0, now);
    LaterSince(s, s1, s3, now);
    KeysKept(s1, s2, id, now);
  }

  lemma SameTubes(s: State, s1: State)
    requires SameChances(s, s1, {})
    ensures |s1.tubes| == |s.tubes|
  {
  }

  lemma KeysKept(s: State, s1: State, id: nat, now: int)
    requires id in s.jobs && Placed(s, s1, id, 0, now)
    ensures s1.jobs.Keys == s.jobs.Keys
  {
  }

  lemma DueOneLess(s: State, s1: State, id: nat, now: int)
    requires id in Due(s, now) && OthersServed(s, s1, {id}, now) && s1.jobs.Keys == s.jobs.Keys
    requires Stands(s, s1, id, s.jobs[id].tube, s.jobs[id].pri, s.jobs[id].ttr, 0, now)
    ensures Due(s, now) == Due(s1, now) + {id} && id !in Due(s1, now)
  {
    forall k | k in s.jobs && k != id
      ensures k in Due(s, now) <==> k in Due(s1, now)
    {
      assert AsWasOrHandedOut(s, s1, k, now);
    }
  }

  lemma NoneDuePlainly(s: State, now: int, stale: set<nat>)
    requires Queued(s, stale) && !IsDue(s, now)
    ensures Due(s, now) == {}
  {
    NotDueNone(s, now, stale);
  }

  lemma {:induction false} DuePromoted(s: State, now: int, stale: set<nat>)
    requires Queued(s, stale)
    ensures var s' := PromoteDue(s, now, stale);
            && s'.jobs.Keys == s.jobs.Keys && KickedAll(s, s', Due(s, now), now)
            && OthersServed(s, s', Due(s, now), now) && Later(s, s', now)
    decreases |DelayedJobs(s)|
  {
    hide Queued, Promoted, Distributed, SoonestDelayed, IsDue, Stands, OthersServed, Later, ProcessQueue;
    if IsDue(s, now) {
      var id := PromoteOneDoes(s, now, stale);
      var s1 := ProcessQueue(Promoted(s, now), now, stale);
      DuePromoted(s1, now, stale);
      DueOneLess(s, s1, id, now);
      hide KickedAll;
      KickedMore(s, s1, PromoteDue(s1, now, stale), id, Due(s1, now), now);
      LaterTwice(s, s1, PromoteDue(s1, now, stale), now);
    } else {
      NoneDuePlainly(s, now, stale);
      NoneKicked(s, now);
      NoneLater(s, now);
    }
  }

  lemma NoneLater(s: State, now: int)
    ensures Later(s, s, now)
  {
  }

  // A pause that is over makes no difference.
  lemma PauseOver(s: State, s': State, t: nat, now: int)
    requires t < |s.tubes| && s.tubes[t].unpauseAt <= now
    requires OthersServed(WithoutPause(s, t), s', {}, now) && Later(WithoutPause(s, t), s', now)
    ensures OthersServed(s, s', {}, now) && Later(s, s', now)
  {
    var s1 := WithoutPause(s, t);
    forall u
      ensures OnPause(s1, u, now) <==> OnPause(s, u, now)
    {
    }
    forall id | id in s.jobs
      ensures AsWasOrHandedOut(s, s', id, now)
    {
      assert AsWasOrHandedOut(s1, s', id, now);
    }
  }

  lemma {:induction false} UnpauseServes(s: State, t: nat, now: int, stale: set<nat>)
    requires Queued(s, stale) && t <= |s.tubes|
    ensures var s' := UnpauseFrom(s, t, now, stale);
            s'.jobs.Keys == s.jobs.Keys && OthersServed(s, s', {}, now) && Later(s, s', now)
    decreases |s.tubes| - t
  {
    hide Queued, ProcessQueue, Eligible, Drained, OthersServed, Later, NothingLeft;
    if t < |s.tubes| {
      if s.tubes[t].pause > 0 && s.tubes[t].unpauseAt - now <= 0 {
        WithoutPauseQueued(s, t, stale);
        var s1 := WithoutPause(s, t);
        ProcessQueueDrains(s1, now, stale);
        MatchingServes(s1, now, stale);
        var s2 := ProcessQueue(s1, now, stale);
        PauseOver(s, s2, t, now);
        UnpauseServes(s2, t + 1, now, stale);
        var none: set<nat> := {};
        assert none + none == none;
        OthersServedTwice(s, s2, UnpauseFrom(s2, t + 1, now, stale), none, none, now);
        LaterTwice(s, s2, UnpauseFrom(s2, t + 1, now, stale), now);
      } else {
        UnpauseServes(s, t + 1, now, stale);
      }
    } else {
      NoneKicked(s, now);
      NoneLater(s, now);
    }
  }

  lemma KickedThenServed(s: State, s1: State, s2: State, ids: set<nat>, now: int)
    requires KickedAll(s, s1, ids, now) && OthersServed(s, s1, ids, now) && Later(s, s1, now)
    requires OthersServed(s1, s2, {}, now) && s1.jobs.Keys == s.jobs.Keys
    ensures KickedAll(s, s2, ids, now) && OthersServed(s, s2, ids, now)
  {
    hide Stands, Later;
    OthersServedTwice(s, s1, s2, ids, {}, now);
    assert ids + {} == ids;
    forall id | id in ids
      ensures Stands(s, s2, id, s.jobs[id].tube, s.jobs[id].pri, s.jobs[id].ttr, 0, now)
    {
      assert AsWasOrHandedOut(s1, s2, id, now);
      StandsOn(s, s1, s2, id, s.jobs[id].tube, s.jobs[id].pri, s.jobs[id].ttr, now);
    }
  }

  /** A tick makes the delayed jobs whose time has come ready, or hands them out, and ends the pauses that
      are over and no other; other jobs are left alone. */
  lemma TickDoes(s: State, now: int)
    requires InOrder(s)
    ensures var s', ids := Execute(s, Tick, now), Due(s, now);
            && s'.jobs.Keys == s.jobs.Keys && s'.conns.Keys == s.conns.Keys
            && KickedAll(s, s', ids, now) && OthersServed(s, s', ids, now) && NothingLeft(s', now)
            && |s'.tubes| == |s.tubes|
            && forall t :: 0 <= t < |s.tubes| ==>
                 && s'.tubes[t].unpauseAt == s.tubes[t].unpauseAt
                 && (s'.tubes[t].pause > 0 <==> OnPause(s, t, now))
  {
    TickKeeps(s, now);
    hide Queued, Idle, PromoteDue, UnpauseFrom, NoneDue, Drained, KickedAll, OthersServed, NothingLeft, PromotesDue,
        Due;
    PromoteDueEnds(s, now, {});
    DuePromoted(s, now, {});
    var s1 := PromoteDue(s, now, {});
    UnpauseServes(s1, 0, now, {});
    var s2 := UnpauseFrom(s1, 0, now, {});
    KickedThenServed(s, s1, s2, Due(s, now), now);
    LaterTwice(s, s1, s2, now);
    DrainedPlainly(s2, now, {});
  }

  // ---------- How long the server sleeps ----------

  ghost predicate FallsDueAt(s: State, at: int) {
    exists id :: id in s.jobs && s.jobs[id].state == DELAYED && s.jobs[id].deadline == at
  }

  ghost predicate PauseEndsAt(tubes: seq<Tube>, at: int) {
    exists t :: 0 <= t < |tubes| && tubes[t].unpauseAt == at
  }

  lemma {:induction false} PausePeriodIsUsed(tubes: seq<Tube>, k: nat, now: int, start: int)
    requires k <= |tubes|
    ensures var p := PausePeriod(tubes, k, now, start);
            p == start || PauseEndsAt(tubes, now + p)
  {
    if k > 0 {
      PausePeriodIsUsed(tubes, k - 1, now, start);
      assert tubes[k - 1].unpauseAt == tubes[k - 1].unpauseAt;
    }
  }

  lemma DelayPeriodIsUsed(s: State, now: int)
    requires Queued(s, {})
    ensures var p := DelayPeriod(s.tubes, now);
            p == DEFAULT_PERIOD || FallsDueAt(s, now + p)
  {
    var e := SoonestDelayed(s.tubes, |s.tubes|);
    if e.Some? {
      SoonestIsDelayed(s, {});
      assert IsDelayed(s, {}, s.jobs[e.value.id].tube, e.value);
    }
  }

  lemma StillFallsDue(s: State, s': State, now: int, at: int)
    requires OthersServed(s, s', {}, now) && Later(s, s', now)
    ensures FallsDueAt(s, at) ==> FallsDueAt(s', at)
    ensures PauseEndsAt(s.tubes, at) ==> PauseEndsAt(s'.tubes, at)
  {
    if FallsDueAt(s, at) {
      var id :| id in s.jobs && s.jobs[id].state == DELAYED && s.jobs[id].deadline == at;
      assert AsWasOrHandedOut(s, s', id, now);
      assert s'.jobs[id] == s.jobs[id];
    }
    if PauseEndsAt(s.tubes, at) {
      var t :| 0 <= t < |s.tubes| && s.tubes[t].unpauseAt == at;
      assert s'.tubes[t].unpauseAt == at;
    }
  }

  /** The server does not wake for nothing: after the time a tick returns a delayed job falls due or a
      pause was to end, or an hour has gone by. */
  lemma TickPeriodIsUsed(s: State, now: int)
    requires InOrder(s)
    ensures var s', p := Execute(s, Tick, now), TickPeriod(s, now);
            p == DEFAULT_PERIOD || FallsDueAt(s', now + p) || PauseEndsAt(s'.tubes, now + p)
  {
    hide Queued, Idle, PromoteDue, UnpauseFrom, NoneDue, Drained, DelayPeriod, PausePeriod, FallsDueAt, PauseEndsAt,
        OthersServed, Later;
    PromoteDueEnds(s, now, {});
    var s1 := PromoteDue(s, now, {});
    DelayPeriodIsUsed(s1, now);
    PausePeriodIsUsed(s1.tubes, |s1.tubes|, now, DelayPeriod(s1.tubes, now));
    UnpauseServes(s1, 0, now, {});
    StillFallsDue(s1, UnpauseFrom(s1, 0, now, {}), now, now + TickPeriod(s, now));
  }
}
