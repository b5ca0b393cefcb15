/** The loops of the scheduler: matching ready jobs to waiting connections, and making
    delayed jobs ready when their time has come. */
module Queue {
  import opened Records
  import opened Heap
  import opened Schedule
  import opened Places
  import opened Moves

  // ---------- Choosing the next job ----------

  /** The choice is the least ready job, by priority and then by id, of all the tubes that are
      not paused and have a connection waiting; there is none exactly when there is no such
      tube with a ready job. */
  lemma {:induction false} BestIsLeast(tubes: seq<Tube>, k: nat, now: int) returns (t: nat)
    requires k <= |tubes| && forall u :: 0 <= u < |tubes| ==> Ordered(tubes[u].ready)
    ensures Best(tubes, k, now) == None <==> forall u :: 0 <= u < k ==> !Eligible(tubes[u], now)
    ensures Best(tubes, k, now).Some? ==>
              var e := Best(tubes, k, now).value;
              && t < k && Eligible(tubes[t], now) && tubes[t].ready[0] == e
              && forall u, i :: 0 <= u < k && Eligible(tubes[u], now) && 0 <= i < |tubes[u].ready| ==>
                  e.key < tubes[u].ready[i].key || (e.key == tubes[u].ready[i].key && e.id <= tubes[u].ready[i].id)
  {
    t := 0;
    if k > 0 {
      t := BestIsLeast(tubes, k - 1, now);
      var best, best', tube := Best(tubes, k - 1, now), Best(tubes, k, now), tubes[k - 1];
      if best' != best {
        t := k - 1;
      }
      if best'.Some? {
        forall u, i | 0 <= u < k && Eligible(tubes[u], now) && 0 <= i < |tubes[u].ready|
          ensures var e, f := best'.value, tubes[u].ready[i];
                  e.key < f.key || (e.key == f.key && e.id <= f.id)
        {
          RootIsLeast(tubes[u].ready, i);
        }
      }
    }
  }

  lemma PausesOver(s: State, now: int, hand: set<nat>, stale: set<nat>)
    requires Sound(s, hand) && SoonestRight(s, stale)
    ensures var s' := NextAwaited(s, now).0;
            && Sound(s', hand) && SoonestRight(s', stale) && SameJobs(s, s') && s'.conns == s.conns
            && |s'.tubes| == |s.tubes|
            && forall t :: 0 <= t < |s.tubes| ==>
                 && s'.tubes[t] == Unpaused(s.tubes[t], now)
                 && (Eligible(s'.tubes[t], now) <==> Eligible(s.tubes[t], now))
  {
    var s' := NextAwaited(s, now).0;
    assert SameJobs(s, s');
    SameWaiting(s, s');
    SameSoonest(s, s', stale);
    hide Sound, Best;
    SameJobsSound(s, s', hand);
  }

  // ---------- Handing out one job ----------

  // The job to hand out is at the root of its heap and its tube has a connection waiting.
  ghost predicate Matches(s: State, id: nat) {
    && Held(s, {}, id) && s.jobs[id].tube < |s.tubes|
    && var tube := s.tubes[s.jobs[id].tube];
       tube.ready != [] && tube.ready[0].id == id && tube.waiting != []
  }

  ghost predicate NotWaiting(s: State, stale: set<nat>) {
    forall c :: c in stale && c in s.conns ==> !s.conns[c].waiting
  }

  // The connection served by handing out job id.
  function ServedBy(s: State, id: nat): nat
    requires id in s.jobs && s.jobs[id].tube < |s.tubes| && s.tubes[s.jobs[id].tube].waiting != []
  {
    TakeWaiter(s.tubes[s.jobs[id].tube]).0
  }

  lemma AssignStarts(s: State, id: nat, stale: set<nat>)
    requires Sound(s, {}) && SoonestRight(s, stale) && NotWaiting(s, stale) && Matches(s, id)
    ensures var s1, t := RemoveReady(s, id), s.jobs[id].tube;
            && Sound(s1, {id}) && SoonestRight(s1, stale) && s1.tubes[t].waiting == s.tubes[t].waiting
            && s1.tubes[t].last == s.tubes[t].last && |s1.tubes| == |s.tubes|
            && s1.jobs == s.jobs && s1.conns == s.conns && s.jobs[id].state == READY
            && s1.readyCt == s.readyCt - 1
  {
    var s1 := RemoveReady(s, id);
    SameSoonest(s, s1, stale);
    hide Removed, Sound;
    RemoveReadySound(s, {}, id);
    assert {} + {id} == {id};
  }

  // Handing out a job that is in hand already.
  lemma AssignEnds(s: State, id: nat, now: int, stale: set<nat>)
    requires Sound(s, {id}) && SoonestRight(s, stale) && NotWaiting(s, stale) && id in s.jobs
    requires s.jobs[id].tube < |s.tubes| && s.tubes[s.jobs[id].tube].waiting != []
    ensures var t := s.jobs[id].tube;
            var c := TakeWaiter(s.tubes[t]).0;
            && c in s.conns && s.conns[c].waiting && t in s.conns[c].watch
            && var s' := Reschedule(Give(Called(s, t), id, c, now), c);
               Sound(s', {}) && SoonestRight(s', stale)
  {
    hide Sound, Called, Give, Reschedule, SoonestRight, TakeWaiter;
    var t := s.jobs[id].tube;
    CalledSound(s, {id}, t);
    var c := TakeWaiter(s.tubes[t]).0;
    var s2 := Called(s, t);
    CalledKeeps(s, t, stale);
    GiveKeeps(s2, id, c, now, stale);
    assert {id} - {id} == {};
    var s3 := Give(s2, id, c, now);
    SoundPlaces(s3, {});
    RescheduleSound(s3, {}, c);
    RescheduleSoonest(s3, {}, c, stale);
    StaleMore(Reschedule(s3, c), stale - {c}, stale);
  }

  lemma SoundPlaces(s: State, hand: set<nat>)
    requires Sound(s, hand)
    ensures ReservedPlaced(s, hand) && ReadyPlaced(s, hand) && DelayedPlaced(s, hand) && JobsSound(s, hand)
    ensures WaitingPlaced(s) && WatchesTubes(s) && CountersRight(s, hand) && BuriedPlaced(s, hand)
  {
  }

  lemma StaleMore(s: State, a: set<nat>, b: set<nat>)
    requires SoonestRight(s, a) && a <= b
    ensures SoonestRight(s, b)
  {
    forall c | c in s.conns
      ensures SoonestRightFor(s, c, c in b)
    {
      assert SoonestRightFor(s, c, c in a);
    }
  }

  lemma CalledKeeps(s: State, t: nat, stale: set<nat>)
    requires SoonestRight(s, stale) && t < |s.tubes| && s.tubes[t].waiting != [] && TakeWaiter(s.tubes[t]).0 in s.conns
    ensures SoonestRight(Called(s, t), stale) && Called(s, t).jobs == s.jobs && Called(s, t).conns.Keys == s.conns.Keys
    ensures |Called(s, t).tubes| == |s.tubes|
  {
    hide RemoveFirst, TakeWaiter;
    SameSoonest(s, Called(s, t), stale);
  }

  lemma GiveKeeps(s: State, id: nat, c: nat, now: int, stale: set<nat>)
    requires Sound(s, {id}) && SoonestRight(s, stale) && id in s.jobs && s.jobs[id].tube < |s.tubes|
    requires c in s.conns && c !in stale
    ensures var s' := Give(s, id, c, now);
            Sound(s', {id} - {id}) && SoonestRight(s', stale) && c in s'.conns
  {
    GiveSoonest(s, {id}, id, c, now, stale);
    hide Sound, SoonestRight;
    GiveSound(s, {id}, id, c, now);
  }

  // Job id went to connection c, and nothing else happened to a job or a connection.
  ghost predicate HandedOut(s: State, s': State, id: nat, c: nat, now: int) {
    && id in s.jobs && c in s.conns && |s'.tubes| == |s.tubes| && s'.conns.Keys == s.conns.Keys
    && s.jobs[id].state == READY && s.conns[c].waiting && s.jobs[id].tube in s.conns[c].watch
    && s'.jobs == s.jobs[id := s.jobs[id].(deadline := now + s.jobs[id].ttr, state := RESERVED, reservoir := Some(c))]
    && !s'.conns[c].waiting && s'.conns[c].watch == s.conns[c].watch
    && s'.conns[c].reserved == s.conns[c].reserved + [id]
    && (forall k :: k in s.conns && k != c ==> s'.conns[k] == s.conns[k])
    && (forall t :: 0 <= t < |s.tubes| ==>
          && s'.tubes[t].delay == s.tubes[t].delay && s'.tubes[t].buried == s.tubes[t].buried
          && s'.tubes[t].pause == s.tubes[t].pause && s'.tubes[t].unpauseAt == s.tubes[t].unpauseAt)
    && s'.readyCt == s.readyCt - 1
  }

  lemma AssignInSteps(s: State, id: nat, now: int)
    requires Matches(s, id) && ServedBy(s, id) in s.conns
    ensures var t, c := s.jobs[id].tube, ServedBy(s, id);
            var s1 := RemoveReady(s, id);
            && t < |s1.tubes| && s1.tubes[t].waiting != [] && TakeWaiter(s1.tubes[t]).0 == c && c in s1.conns
            && c in Called(s1, t).conns && id in Called(s1, t).jobs && t < |Called(s1, t).tubes|
            && c in Give(Called(s1, t), id, c, now).conns
            && Assign(s, id, now) == Reschedule(Give(Called(s1, t), id, c, now), c)
  {
    hide Removed, RemoveFirst;
  }

  lemma AssignHandsOut(s: State, id: nat, now: int)
    requires Matches(s, id) && ServedBy(s, id) in s.conns && s.jobs[id].state == READY
    requires s.conns[ServedBy(s, id)].waiting && s.jobs[id].tube in s.conns[ServedBy(s, id)].watch
    ensures HandedOut(s, Assign(s, id, now), id, ServedBy(s, id), now)
  {
    hide Removed, RemoveFirst, Soonest, Sooner;
  }

  /** Handing out a job keeps every job and connection in its place. */
  lemma AssignSound(s: State, id: nat, now: int, stale: set<nat>)
    requires Sound(s, {}) && SoonestRight(s, stale) && NotWaiting(s, stale) && Matches(s, id)
    ensures ServedBy(s, id) in s.conns && HandedOut(s, Assign(s, id, now), id, ServedBy(s, id), now)
    ensures Sound(Assign(s, id, now), {}) && SoonestRight(Assign(s, id, now), stale)
    ensures s.readyCt > 0
  {
    hide Sound, SoonestRight, Called, Give, Reschedule, Assign, RemoveReady, HandedOut, TakeWaiter;
    AssignStarts(s, id, stale);
    var s1 := RemoveReady(s, id);
    ServedStays(s, s1, id);
    AssignEnds(s1, id, now, stale);
    AssignInSteps(s, id, now);
    AssignHandsOut(s, id, now);
    SomeReady(s, id);
  }

  lemma ServedStays(s: State, s1: State, id: nat)
    requires Matches(s, id) && |s1.tubes| == |s.tubes| && s1.jobs == s.jobs
    requires var t := s.jobs[id].tube; s1.tubes[t].waiting == s.tubes[t].waiting && s1.tubes[t].last == s.tubes[t].last
    ensures ServedBy(s1, id) == ServedBy(s, id)
  {
  }

  lemma SomeReady(s: State, id: nat)
    requires Sound(s, {}) && Held(s, {}, id) && s.jobs[id].state == READY
    ensures s.readyCt > 0
  {
    hide ReadyPlaced, DelayedPlaced, ReservedPlaced, WaitingPlaced, JobsSound, BuriedPlaced;
    assert Counted(s, AnyReady);
    assert id in Members(s, {}, AnyReady);
  }

  lemma ReadyCounted(s: State)
    requires Sound(s, {})
    ensures s.readyCt >= 0
  {
    hide ReadyPlaced, DelayedPlaced, ReservedPlaced, WaitingPlaced, JobsSound, BuriedPlaced;
    assert Counted(s, AnyReady);
  }

  // ---------- The loop ----------

  ghost predicate Queued(s: State, stale: set<nat>) {
    Sound(s, {}) && SoonestRight(s, stale) && NotWaiting(s, stale)
  }

  lemma ChoiceMatches(s: State, now: int, stale: set<nat>) returns (t: nat)
    requires Queued(s, stale)
    ensures var (s1, best) := NextAwaited(s, now);
            && Queued(s1, stale) && s1.conns == s.conns && s1.jobs == s.jobs && s1.readyCt == s.readyCt
            && |s1.tubes| == |s.tubes|
            && (best.Some? ==> Matches(s1, best.value.id) && t < |s.tubes| && Eligible(s.tubes[t], now)
                               && s.jobs[best.value.id].tube == t && s.tubes[t].ready[0] == best.value)
            && (best == None ==> forall u :: 0 <= u < |s.tubes| ==> !Eligible(s1.tubes[u], now))
  {
    var (s1, best) := NextAwaited(s, now);
    PausesOver(s, now, {}, stale);
    SoundPlaces(s, {});
    hide Sound, SoonestRight;
    t := BestIsLeast(s.tubes, |s.tubes|, now);
    if best.Some? {
      RootOfReady(s, {}, t);
    }
  }

  lemma ChoiceQueued(s: State, now: int, stale: set<nat>)
    requires Queued(s, stale)
    ensures var (s1, best) := NextAwaited(s, now);
            && Queued(s1, stale) && s1.readyCt == s.readyCt && (best.Some? ==> Matches(s1, best.value.id))
  {
    var t := ChoiceMatches(s, now, stale);
  }

  lemma HandedOutQueued(s: State, s': State, id: nat, c: nat, now: int, stale: set<nat>)
    requires NotWaiting(s, stale) && HandedOut(s, s', id, c, now)
    ensures NotWaiting(s', stale)
  {
  }

  lemma AssignQueued(s: State, id: nat, now: int, stale: set<nat>)
    requires Queued(s, stale) && Matches(s, id)
    ensures ServedBy(s, id) in s.conns && HandedOut(s, Assign(s, id, now), id, ServedBy(s, id), now)
    ensures Queued(Assign(s, id, now), stale) && Assign(s, id, now).readyCt == s.readyCt - 1 >= 0
  {
    hide Sound, SoonestRight, Assign;
    AssignSound(s, id, now, stale);
    HandedOutQueued(s, Assign(s, id, now), id, ServedBy(s, id), now, stale);
  }

  /** The loop: jobs are handed out until no tube that is not paused has both a ready job and
      a connection waiting. It ends because every turn leaves one ready job less. */
  ghost function ProcessQueue(s: State, now: int, stale: set<nat>): (s': State)
    requires Queued(s, stale)
    decreases s.readyCt
  {
    ChoiceQueued(s, now, stale);
    var (s1, best) := NextAwaited(s, now);
    if best == None then s1
    else
      AssignQueued(s1, best.value.id, now, stale);
      ProcessQueue(Assign(s1, best.value.id, now), now, stale)
  }

  // Nothing can be handed out at time now.
  ghost predicate Drained(s: State, now: int) {
    forall t :: 0 <= t < |s.tubes| ==> !Eligible(s.tubes[t], now)
  }

  // A connection is as it was, or it has got one job and waits no longer.
  ghost predicate ServedAtMostOnce(s: State, s': State, c: nat)
    requires c in s.conns && c in s'.conns
  {
    || s'.conns[c] == s.conns[c]
    || (&& s.conns[c].waiting && !s'.conns[c].waiting && s'.conns[c].watch == s.conns[c].watch
        && |s'.conns[c].reserved| == |s.conns[c].reserved| + 1
        && s'.conns[c].reserved[..|s.conns[c].reserved|] == s.conns[c].reserved)
  }

  // A job is as it was, or it was ready in a tube not paused and went to a connection that
  // waited on this tube.
  ghost predicate HandedOutAtMostOnce(s: State, s': State, id: nat, now: int)
    requires id in s.jobs && id in s'.jobs
  {
    var j, j' := s.jobs[id], s'.jobs[id];
    || j' == j
    || (&& j.state == READY && j.tube < |s.tubes| && !Paused(s.tubes[j.tube], now)
        && j'.reservoir.Some? && j'.reservoir.value in s.conns
        && s.conns[j'.reservoir.value].waiting && j.tube in s.conns[j'.reservoir.value].watch
        && j' == j.(deadline := now + j.ttr, state := RESERVED, reservoir := j'.reservoir))
  }

  // What matching does to jobs, connections and tubes.
  ghost predicate Distributed(s: State, s': State, now: int) {
    && s'.jobs.Keys == s.jobs.Keys && s'.conns.Keys == s.conns.Keys && |s'.tubes| == |s.tubes|
    && (forall c :: c in s.conns ==> ServedAtMostOnce(s, s', c))
    && (forall id :: id in s.jobs ==> HandedOutAtMostOnce(s, s', id, now))
    && forall t :: 0 <= t < |s.tubes| ==>
         && s'.tubes[t].delay == s.tubes[t].delay && s'.tubes[t].buried == s.tubes[t].buried
         && s'.tubes[t].unpauseAt == s.tubes[t].unpauseAt
         && (s'.tubes[t].pause == s.tubes[t].pause || (s'.tubes[t].pause == 0 && !Paused(s.tubes[t], now)))
  }

  lemma HandedOutDistributes(s: State, s1: State, s2: State, id: nat, c: nat, now: int)
    requires s1.jobs == s.jobs && s1.conns == s.conns && |s1.tubes| == |s.tubes|
    requires forall t :: 0 <= t < |s.tubes| ==> s1.tubes[t] == Unpaused(s.tubes[t], now)
    requires HandedOut(s1, s2, id, c, now) && s.jobs[id].tube < |s.tubes| && !Paused(s.tubes[s.jobs[id].tube], now)
    ensures Distributed(s, s2, now)
  {
  }

  lemma EligibleIsNotPaused(tube: Tube, now: int)
    requires Eligible(tube, now)
    ensures !Paused(tube, now)
  {
  }

  lemma ServedTwice(s: State, s1: State, s2: State, now: int, c: nat)
    requires Distributed(s, s1, now) && Distributed(s1, s2, now) && c in s.conns
    ensures ServedAtMostOnce(s, s2, c)
  {
    hide HandedOutAtMostOnce;
    assert ServedAtMostOnce(s, s1, c) && ServedAtMostOnce(s1, s2, c);
  }

  lemma HandedOutTwice(s: State, s1: State, s2: State, now: int, id: nat)
    requires Distributed(s, s1, now) && Distributed(s1, s2, now) && id in s.jobs
    ensures HandedOutAtMostOnce(s, s2, id, now)
  {
    assert HandedOutAtMostOnce(s, s1, id, now) && HandedOutAtMostOnce(s1, s2, id, now);
    var j1, j2 := s1.jobs[id], s2.jobs[id];
    if j2 != j1 {
      assert ServedAtMostOnce(s, s1, j2.reservoir.value);
    }
  }

  lemma DistributedTwice(s: State, s1: State, s2: State, now: int)
    requires Distributed(s, s1, now) && Distributed(s1, s2, now)
    ensures Distributed(s, s2, now)
  {
    hide ServedAtMostOnce, HandedOutAtMostOnce;
    forall c | c in s.conns
      ensures ServedAtMostOnce(s, s2, c)
    {
      ServedTwice(s, s1, s2, now, c);
    }
    forall id | id in s.jobs
      ensures HandedOutAtMostOnce(s, s2, id, now)
    {
      HandedOutTwice(s, s1, s2, now, id);
    }
  }

  /** Matching keeps everything in its place and leaves nothing to hand out. It gives each
      waiting connection at most one job, each job to at most one connection, and only jobs of
      tubes the connection waited on. */
  lemma {:induction false} ProcessQueueDrains(s: State, now: int, stale: set<nat>)
    requires Queued(s, stale)
    ensures var s' := ProcessQueue(s, now, stale);
            Queued(s', stale) && Drained(s', now) && Distributed(s, s', now)
    decreases s.readyCt
  {
    hide Queued, HandedOut, Assign, Eligible, Best, Distributed, Unpaused;
    var t := ChoiceMatches(s, now, stale);
    ChoiceQueued(s, now, stale);
    var (s1, best) := NextAwaited(s, now);
    if best == None {
      OnlyPausesOver(s, now);
    } else {
      var id := best.value.id;
      AssignQueued(s1, id, now, stale);
      var s2 := Assign(s1, id, now);
      ReadyGoesDown(s, stale);
      ProcessQueueDrains(s2, now, stale);
      EligibleIsNotPaused(s.tubes[t], now);
      HandedOutDistributes(s, s1, s2, id, ServedBy(s1, id), now);
      DistributedTwice(s, s2, ProcessQueue(s2, now, stale), now);
    }
  }

  lemma ReadyGoesDown(s: State, stale: set<nat>)
    requires Queued(s, stale)
    ensures s.readyCt >= 0
  {
    ReadyCounted(s);
  }

  lemma OnlyPausesOver(s: State, now: int)
    ensures Distributed(s, NextAwaited(s, now).0, now)
  {
  }

  // ---------- Delayed jobs whose time has come ----------

  lemma {:induction false} SoonestDelayedIsLeast(tubes: seq<Tube>, k: nat) returns (t: nat)
    requires k <= |tubes| && forall u :: 0 <= u < |tubes| ==> Ordered(tubes[u].delay)
    ensures SoonestDelayed(tubes, k) == None ==> forall u :: 0 <= u < k ==> tubes[u].delay == []
    ensures SoonestDelayed(tubes, k).Some? ==>
              var e := SoonestDelayed(tubes, k).value;
              && t < k && tubes[t].delay != [] && tubes[t].delay[0] == e
              && forall u, i :: 0 <= u < k && 0 <= i < |tubes[u].delay| ==> e.key <= tubes[u].delay[i].key
  {
    t := 0;
    if k > 0 {
      t := SoonestDelayedIsLeast(tubes, k - 1);
      var best, best', tube := SoonestDelayed(tubes, k - 1), SoonestDelayed(tubes, k), tubes[k - 1];
      if best' != best {
        t := k - 1;
      }
      if best'.Some? {
        forall u, i | 0 <= u < k && 0 <= i < |tubes[u].delay|
          ensures best'.value.key <= tubes[u].delay[i].key
        {
          RootIsLeast(tubes[u].delay, i);
        }
      }
    }
  }

  ghost function DelayedJobs(s: State): set<nat> {
    set id | id in s.jobs && s.jobs[id].state == DELAYED
  }

  // The time has come for the soonest delayed job.
  predicate IsDue(s: State, now: int) {
    var e := SoonestDelayed(s.tubes, |s.tubes|);
    e.Some? && e.value.key <= now
  }

  // The soonest delayed job made ready.
  ghost function Promoted(s: State, now: int): State
    requires SoonestDelayed(s.tubes, |s.tubes|).Some?
    requires var id := SoonestDelayed(s.tubes, |s.tubes|).value.id;
             id in s.jobs && s.jobs[id].tube < |s.tubes| && s.tubes[s.jobs[id].tube].delay != []
  {
    var id := SoonestDelayed(s.tubes, |s.tubes|).value.id;
    PlaceInHeap(RemoveDelayed(s, id), id, 0, now)
  }

  ghost predicate CanPromote(s: State, id: nat) {
    id in s.jobs && s.jobs[id].tube < |s.tubes| && s.tubes[s.jobs[id].tube].delay != []
  }

  lemma SoonestIsDelayed(s: State, stale: set<nat>)
    requires Queued(s, stale) && SoonestDelayed(s.tubes, |s.tubes|).Some?
    ensures var e := SoonestDelayed(s.tubes, |s.tubes|).value;
            && CanPromote(s, e.id) && s.tubes[s.jobs[e.id].tube].delay[0] == e && IsDelayed(s, {}, s.jobs[e.id].tube, e)
  {
    SoundPlaces(s, {});
    hide Sound, SoonestRight;
    var t := SoonestDelayedIsLeast(s.tubes, |s.tubes|);
    RootOfDelayed(s, {}, t);
  }

  lemma PromotedQueued(s: State, now: int, stale: set<nat>)
    requires Queued(s, stale) && SoonestDelayed(s.tubes, |s.tubes|).Some?
    ensures var id := SoonestDelayed(s.tubes, |s.tubes|).value.id;
            && CanPromote(s, id) && Queued(Promoted(s, now), stale) && s.jobs[id].state == DELAYED
            && Promoted(s, now).conns == s.conns
            && Promoted(s, now).jobs == s.jobs[id := s.jobs[id].(reservoir := None, state := READY)]
  {
    var id := SoonestDelayed(s.tubes, |s.tubes|).value.id;
    SoonestIsDelayed(s, stale);
    var s1 := RemoveDelayed(s, id);
    RemovedKeepsRest(s, id, stale);
    hide Sound, SoonestRight, RemoveDelayed, SoonestDelayed;
    RemoveDelayedSound(s, {}, id);
    SoundPlaces(s1, {} + {id});
    assert {} + {id} == {id} && {id} - {id} == {};
    PlaceSound(s1, {id}, id, 0, now);
    PlaceSoonest(s1, {id}, id, 0, now, stale);
  }

  lemma RemovedKeepsRest(s: State, id: nat, stale: set<nat>)
    requires SoonestRight(s, stale) && CanPromote(s, id)
    ensures var s1 := RemoveDelayed(s, id);
            s1.jobs == s.jobs && s1.conns == s.conns && |s1.tubes| == |s.tubes| && SoonestRight(s1, stale)
  {
    hide Removed;
    SameSoonest(s, RemoveDelayed(s, id), stale);
  }

  lemma DistributedKeepsDelayed(s: State, s': State, now: int)
    requires Distributed(s, s', now)
    ensures DelayedJobs(s') == DelayedJobs(s)
  {
    forall id | id in s.jobs
      ensures (s.jobs[id].state == DELAYED) <==> (s'.jobs[id].state == DELAYED)
    {
      assert HandedOutAtMostOnce(s, s', id, now);
    }
  }

  lemma OneDelayedLess(s: State, s1: State, id: nat)
    requires id in s.jobs && s.jobs[id].state == DELAYED
        && s1.jobs == s.jobs[id := s.jobs[id].(reservoir := None, state := READY)]
    ensures |DelayedJobs(s1)| < |DelayedJobs(s)|
  {
    assert DelayedJobs(s1) == DelayedJobs(s) - {id} && id in DelayedJobs(s);
  }

  lemma PromotionQueued(s: State, now: int, stale: set<nat>)
    requires Queued(s, stale) && IsDue(s, now)
    ensures CanPromote(s, SoonestDelayed(s.tubes, |s.tubes|).value.id) && Queued(Promoted(s, now), stale)
    ensures var s2 := ProcessQueue(Promoted(s, now), now, stale);
            Queued(s2, stale) && |DelayedJobs(s2)| < |DelayedJobs(s)|
  {
    hide Queued, Promoted, Distributed, SoonestDelayed;
    PromotedQueued(s, now, stale);
    ProcessQueueDrains(Promoted(s, now), now, stale);
    DistributedKeepsDelayed(Promoted(s, now), ProcessQueue(Promoted(s, now), now, stale), now);
    OneDelayedLess(s, Promoted(s, now), SoonestDelayed(s.tubes, |s.tubes|).value.id);
  }

  /** The loop that makes delayed jobs ready; jobs are matched after each. It ends because
      every turn leaves one delayed job less. */
  ghost function PromoteDue(s: State, now: int, stale: set<nat>): State
    requires Queued(s, stale)
    decreases |DelayedJobs(s)|
  {
    if !IsDue(s, now) then s
    else
      PromotionQueued(s, now, stale);
      PromoteDue(ProcessQueue(Promoted(s, now), now, stale), now, stale)
  }

  // No delayed job's time has come.
  ghost predicate NoneDue(s: State, now: int) {
    forall id :: id in s.jobs && s.jobs[id].state == DELAYED ==> s.jobs[id].deadline > now
  }

  // A job is as it was, or its time had come and it is ready, or it has been handed out.
  ghost predicate PromotedOrHandedOut(s: State, s': State, id: nat, now: int)
    requires id in s.jobs && id in s'.jobs
  {
    var j, j' := s.jobs[id], s'.jobs[id];
    || j' == j
    || (j.state == DELAYED && j.deadline <= now && j'.state == READY && j'.tube == j.tube)
    || ((j.state == READY || (j.state == DELAYED && j.deadline <= now)) && j'.state == RESERVED && j'.tube == j.tube)
  }

  ghost predicate PromotesDue(s: State, s': State, now: int) {
    && s'.jobs.Keys == s.jobs.Keys && s'.conns.Keys == s.conns.Keys
    && forall id :: id in s.jobs ==> PromotedOrHandedOut(s, s', id, now)
  }

  lemma PromotesThenMore(s: State, s1: State, s2: State, now: int)
    requires PromotesDue(s, s1, now) && PromotesDue(s1, s2, now)
    ensures PromotesDue(s, s2, now)
  {
    forall id | id in s.jobs
      ensures PromotedOrHandedOut(s, s2, id, now)
    {
      assert PromotedOrHandedOut(s, s1, id, now) && PromotedOrHandedOut(s1, s2, id, now);
    }
  }

  lemma OnePromotes(s: State, s1: State, s2: State, id: nat, now: int)
    requires id in s.jobs && s.jobs[id].state == DELAYED && s.jobs[id].deadline <= now && s1.conns == s.conns
    requires s1.jobs == s.jobs[id := s.jobs[id].(reservoir := None, state := READY)]
    requires Distributed(s1, s2, now)
    ensures PromotesDue(s, s2, now)
  {
    forall k | k in s.jobs
      ensures PromotedOrHandedOut(s, s2, k, now)
    {
      assert HandedOutAtMostOnce(s1, s2, k, now);
    }
  }

  lemma NotDueNone(s: State, now: int, stale: set<nat>)
    requires Queued(s, stale) && !IsDue(s, now)
    ensures NoneDue(s, now)
  {
    SoundPlaces(s, {});
    hide Sound, SoonestRight;
    var t := SoonestDelayedIsLeast(s.tubes, |s.tubes|);
    forall id | id in s.jobs && s.jobs[id].state == DELAYED
      ensures s.jobs[id].deadline > now
    {
      assert JobSound(s, {}, id);
      var u, e := s.jobs[id].tube, Entry(s.jobs[id].deadline, id);
      assert DelayedTimes(s, u, e) == Times(IsDelayed(s, {}, u, e));
      assert e in s.tubes[u].delay;
    }
  }

  /** When the loop has ended no delayed job's time has come; no job is lost, and only jobs
      whose time had come were made ready. */
  lemma {:induction false} PromoteDueEnds(s: State, now: int, stale: set<nat>)
    requires Queued(s, stale)
    ensures var s' := PromoteDue(s, now, stale);
            Queued(s', stale) && NoneDue(s', now) && PromotesDue(s, s', now)
    ensures Drained(s, now) ==> Drained(PromoteDue(s, now, stale), now)
    decreases |DelayedJobs(s)|
  {
    hide Queued, Promoted, Distributed, SoonestDelayed, Drained, NoneDue, ProcessQueue;
    if IsDue(s, now) {
      PromotionQueued(s, now, stale);
      PromotedQueued(s, now, stale);
      SoonestIsDelayed(s, stale);
      var s1 := Promoted(s, now);
      ProcessQueueDrains(s1, now, stale);
      var s2 := ProcessQueue(s1, now, stale);
      OnePromotes(s, s1, s2, SoonestDelayed(s.tubes, |s.tubes|).value.id, now);
      PromoteDueEnds(s2, now, stale);
      PromotesThenMore(s, s2, PromoteDue(s2, now, stale), now);
    } else {
      NotDueNone(s, now, stale);
    }
  }

  // ---------- Pauses that are over ----------

  // No tube without a pause has both a ready job and a connection waiting.
  ghost predicate Idle(s: State) {
    forall t :: 0 <= t < |s.tubes| && s.tubes[t].pause <= 0 ==> s.tubes[t].ready == [] || s.tubes[t].waiting == []
  }

  lemma DrainedIsIdle(s: State, now: int)
    requires Drained(s, now)
    ensures Idle(s)
  {
    forall t | 0 <= t < |s.tubes| && s.tubes[t].pause <= 0
      ensures s.tubes[t].ready == [] || s.tubes[t].waiting == []
    {
      assert !Eligible(s.tubes[t], now);
    }
  }

  function WithoutPause(s: State, t: nat): State
    requires t < |s.tubes|
  {
    SetTube(s, t, s.tubes[t].(pause := 0))
  }

  lemma WithoutPauseQueued(s: State, t: nat, stale: set<nat>)
    requires Queued(s, stale) && t < |s.tubes|
    ensures Queued(WithoutPause(s, t), stale)
  {
    var s' := WithoutPause(s, t);
    assert SameJobs(s, s');
    SameWaiting(s, s');
    SameSoonest(s, s', stale);
    hide Sound;
    SameJobsSound(s, s', {});
  }

  // The walk over the tubes that ends the pauses whose time has come, from tube t on.
  ghost function UnpauseFrom(s: State, t: nat, now: int, stale: set<nat>): State
    requires Queued(s, stale) && t <= |s.tubes|
    decreases |s.tubes| - t
  {
    if t == |s.tubes| then s
    else if s.tubes[t].pause > 0 && s.tubes[t].unpauseAt - now <= 0 then
      WithoutPauseQueued(s, t, stale);
      ProcessQueueDrains(WithoutPause(s, t), now, stale);
      UnpauseFrom(ProcessQueue(WithoutPause(s, t), now, stale), t + 1, now, stale)
    else UnpauseFrom(s, t + 1, now, stale)
  }

  // The tubes before t have no pause that is over; nothing can be handed out in them nor in
  // a tube without a pause.
  ghost predicate UnpausedTo(s: State, t: nat, now: int) {
    forall u :: 0 <= u < |s.tubes| ==>
      && (u < t && s.tubes[u].pause > 0 ==> s.tubes[u].unpauseAt > now)
      && (u < t || s.tubes[u].pause <= 0 ==> !Eligible(s.tubes[u], now))
  }

  lemma DrainedUnpauses(s: State, s': State, t: nat, now: int)
    requires t < |s.tubes| && UnpausedTo(s, t, now) && Distributed(WithoutPause(s, t), s', now) && Drained(s', now)
    ensures UnpausedTo(s', t + 1, now)
  {
    hide Eligible;
    var s1 := WithoutPause(s, t);
    forall u | 0 <= u < |s'.tubes|
      ensures u < t + 1 && s'.tubes[u].pause > 0 ==> s'.tubes[u].unpauseAt > now
    {
      assert s1.tubes[u].unpauseAt == s.tubes[u].unpauseAt;
    }
  }

  ghost predicate SamePauseEnds(s: State, s': State) {
    |s'.tubes| == |s.tubes| && forall t :: 0 <= t < |s.tubes| ==> s'.tubes[t].unpauseAt == s.tubes[t].unpauseAt
  }

  /** After the walk no pause is over and nothing can be handed out. */
  lemma {:induction false} UnpauseEnds(s: State, t: nat, now: int, stale: set<nat>)
    requires Queued(s, stale) && t <= |s.tubes| && UnpausedTo(s, t, now)
    ensures var s' := UnpauseFrom(s, t, now, stale);
            && Queued(s', stale) && UnpausedTo(s', |s'.tubes|, now) && |s'.tubes| == |s.tubes|
            && s'.jobs.Keys == s.jobs.Keys && s'.conns.Keys == s.conns.Keys
            && (forall x :: NoneDue(s, x) ==> NoneDue(s', x)) && SamePauseEnds(s, s')
    decreases |s.tubes| - t
  {
    hide Queued, ProcessQueue, Eligible, NoneDue, Drained;
    if t < |s.tubes| {
      if s.tubes[t].pause > 0 && s.tubes[t].unpauseAt - now <= 0 {
        WithoutPauseQueued(s, t, stale);
        var s1 := WithoutPause(s, t);
        ProcessQueueDrains(s1, now, stale);
        var s2 := ProcessQueue(s1, now, stale);
        DrainedUnpauses(s, s2, t, now);
        StillNoneDue(s, s1, s2, now);
        UnpauseEnds(s2, t + 1, now, stale);
      } else {
        NothingToUnpause(s, t, now);
        UnpauseEnds(s, t + 1, now, stale);
      }
    }
  }

  lemma StillNoneDue(s: State, s1: State, s2: State, now: int)
    requires s1.jobs == s.jobs && Distributed(s1, s2, now)
    ensures forall x :: NoneDue(s, x) ==> NoneDue(s2, x)
  {
    forall id | id in s2.jobs && s2.jobs[id].state == DELAYED
      ensures s2.jobs[id] == s.jobs[id]
    {
      assert HandedOutAtMostOnce(s1, s2, id, now);
    }
  }

  lemma NothingToUnpause(s: State, t: nat, now: int)
    requires t < |s.tubes| && UnpausedTo(s, t, now) && !(s.tubes[t].pause > 0 && s.tubes[t].unpauseAt - now <= 0)
    ensures UnpausedTo(s, t + 1, now)
  {
  }
}
