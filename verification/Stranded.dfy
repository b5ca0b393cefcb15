/** What becomes of a job that is buried while another is on its tube's list of buried jobs: it is
    on no list, so reserving it by its id dereferences nil, deleting it does not find it and kicking
    the jobs of its tube never comes to it. It stays so until it is kicked by its id. */
module Stranded {
  import opened Records
  import opened Heap
  import opened Schedule
  import opened Places
  import opened Moves
  import opened Queue
  import opened Dispatch

  // Job id is j, buried and on no list.
  ghost predicate Stranded(s: State, id: nat, j: Job) {
    && id in s.jobs && s.jobs[id] == j && j.state == BURIED && j.tube < |s.tubes|
    && id !in s.tubes[j.tube].buried
  }

  // ---------- What leaves it alone ----------

  // No other job's step changes job id or the lists it would be on.
  ghost predicate LeftAlone(s: State, s': State, id: nat) {
    && |s'.tubes| >= |s.tubes| && (id in s.jobs ==> id in s'.jobs && s'.jobs[id] == s.jobs[id])
    && forall t :: 0 <= t < |s.tubes| && id in s'.tubes[t].buried ==> id in s.tubes[t].buried
  }

  lemma TakenOffLeaves(s: State, x: nat, id: nat)
    requires AtRoot(s, x)
    ensures LeftAlone(s, Unplaced(s, x), id)
  {
    hide RemoveFirst, Removed;
    RemoveFirstTakesOne(s.tubes[s.jobs[x].tube].buried, x);
    var was, now := s.tubes[s.jobs[x].tube].buried, RemoveFirst(s.tubes[s.jobs[x].tube].buried, x);
    assert id in now ==> id in multiset(now);
    assert id in multiset(was) ==> id in was;
  }

  lemma WaitingLeaves(s: State, c: nat, id: nat)
    requires c in s.conns
    ensures LeftAlone(s, StopWaiting(s, c), id) && LeftAlone(s, Waits(s, c), id)
  {
    hide RemoveFirst;
  }

  lemma ReservationLeaves(s: State, x: nat, c: nat, id: nat, now: int)
    requires c in s.conns && x in s.jobs && s.jobs[x].tube < |s.tubes| && x != id
    ensures LeftAlone(s, TakeBack(s, x, c), id) && LeftAlone(s, Give(s, x, c, now), id)
  {
    hide RemoveFirst;
  }

  lemma AnswerLeaves(s: State, c: nat, id: nat)
    requires c in s.conns
    ensures LeftAlone(s, Reschedule(s, c), id)
  {
  }

  lemma PlaceLeaves(s: State, x: nat, delay: int, now: int, id: nat)
    requires x in s.jobs && s.jobs[x].tube < |s.tubes| && x != id
    ensures LeftAlone(s, PlaceInHeap(s, x, delay, now), id)
  {
    hide Pushed;
  }

  // Only ready jobs are handed out.
  lemma MatchingLeaves(s: State, now: int, stale: set<nat>, id: nat)
    requires Queued(s, stale) && id in s.jobs && s.jobs[id].state == BURIED
    ensures LeftAlone(s, ProcessQueue(s, now, stale), id)
  {
    hide Queued, ProcessQueue;
    ProcessQueueDrains(s, now, stale);
    assert HandedOutAtMostOnce(s, ProcessQueue(s, now, stale), id, now);
  }

  lemma EnqueueLeaves(s: State, x: nat, delay: int, now: int, stale: set<nat>, id: nat, j: Job)
    requires InHand(s, x, stale) && Stranded(s, id, j) && x != id
    ensures Stranded(Enqueue(s, x, delay, now, stale), id, j)
  {
    PlacedQueued(s, x, delay, now, stale);
    PlaceLeaves(s, x, delay, now, id);
    hide Sound, SoonestRight, NotWaiting, Queued, ProcessQueue, PlaceInHeap;
    MatchingLeaves(PlaceInHeap(s, x, delay, now), now, stale, id);
  }

  // ---------- The loops ----------

  lemma FirstBuriedIsAnother(s: State, t: nat, id: nat, j: Job)
    requires Queued(s, {}) && t < |s.tubes| && s.tubes[t].buried != [] && Stranded(s, id, j)
    ensures s.tubes[t].buried[0] != id
  {
    SoundPlaces(s, {});
    assert BuriedListSound(s, {}, t);
    assert s.tubes[t].buried[0] in s.tubes[t].buried;
  }

  lemma KickOneLeaves(s: State, x: nat, now: int, id: nat, j: Job)
    requires Queued(s, {}) && CanKick(s, x) && x != id && Stranded(s, id, j)
    ensures Stranded(KickOne(s, x, now), id, j)
  {
    hide Queued, Sound, SoonestRight, NotWaiting, AtRoot, Unplaced, Enqueue;
    TakenOffLeaves(s, x, id);
    UnplacedInHand(s, x);
    EnqueueLeaves(Unplaced(s, x), x, 0, now, {}, id, j);
  }

  lemma {:induction false} KickBuriedLeaves(s: State, t: nat, n: nat, now: int, id: nat, j: Job)
    requires Queued(s, {}) && t < |s.tubes| && Stranded(s, id, j)
    ensures Stranded(KickBuried(s, t, n, now).0, id, j)
    decreases n
  {
    hide Queued, KickOne, CanKick, Stranded;
    if n > 0 && s.tubes[t].buried != [] {
      ListedCanBeKicked(s, t);
      FirstBuriedIsAnother(s, t, id, j);
      KickOneKeeps(s, s.tubes[t].buried[0], now);
      KickOneLeaves(s, s.tubes[t].buried[0], now, id, j);
      KickBuriedLeaves(KickOne(s, s.tubes[t].buried[0], now), t, n - 1, now, id, j);
    }
  }

  lemma FirstDelayedIsAnother(s: State, t: nat, id: nat, j: Job)
    requires Queued(s, {}) && t < |s.tubes| && s.tubes[t].delay != [] && Stranded(s, id, j)
    ensures s.tubes[t].delay[0].id != id
  {
    SoundPlaces(s, {});
    RootOfDelayed(s, {}, t);
  }

  lemma {:induction false} KickDelayedLeaves(s: State, t: nat, n: nat, now: int, id: nat, j: Job)
    requires Queued(s, {}) && t < |s.tubes| && Stranded(s, id, j)
    ensures Stranded(KickDelayed(s, t, n, now).0, id, j)
    decreases n
  {
    hide Queued, KickOne, CanKick, Stranded;
    if n > 0 && s.tubes[t].delay != [] {
      FirstDelayedCanBeKicked(s, t);
      FirstDelayedIsAnother(s, t, id, j);
      KickOneKeeps(s, s.tubes[t].delay[0].id, now);
      KickOneLeaves(s, s.tubes[t].delay[0].id, now, id, j);
      KickDelayedLeaves(KickOne(s, s.tubes[t].delay[0].id, now), t, n - 1, now, id, j);
    }
  }

  lemma {:induction false} EnqueueReservedLeaves(s: State, c: nat, now: int, id: nat, j: Job)
    requires Queued(s, {c}) && Asks(s, c) && Stranded(s, id, j)
    ensures Stranded(EnqueueReserved(s, c, now), id, j)
    decreases |s.conns[c].reserved|
  {
    hide Queued, Idle, TakeBack, Enqueue, InHand;
    if s.conns[c].reserved != [] {
      EnqueueFirst(s, c, now);
      var x := s.conns[c].reserved[0];
      ReservationLeaves(s, x, c, id, now);
      EnqueueLeaves(TakeBack(s, x, c), x, 0, now, {c}, id, j);
      EnqueueReservedLeaves(Enqueue(TakeBack(s, x, c), x, 0, now, {c}), c, now, id, j);
    }
  }

  lemma PromotedLeaves(s: State, now: int, stale: set<nat>, id: nat, j: Job)
    requires Queued(s, stale) && IsDue(s, now) && Stranded(s, id, j)
    ensures CanPromote(s, SoonestDelayed(s.tubes, |s.tubes|).value.id) && Stranded(Promoted(s, now), id, j)
  {
    hide Queued, SoonestDelayed, Removed, Pushed;
    SoonestIsDelayed(s, stale);
  }

  lemma PromoteDueLeaves(s: State, now: int, stale: set<nat>, id: nat, j: Job)
    requires Queued(s, stale) && Stranded(s, id, j)
    ensures Stranded(PromoteDue(s, now, stale), id, j)
    decreases |DelayedJobs(s)|
  {
    hide Queued, Promoted, ProcessQueue, SoonestDelayed;
    if IsDue(s, now) {
      PromotionQueued(s, now, stale);
      PromotedLeaves(s, now, stale, id, j);
      MatchingLeaves(Promoted(s, now), now, stale, id);
      PromoteDueLeaves(ProcessQueue(Promoted(s, now), now, stale), now, stale, id, j);
    }
  }

  lemma UnpauseFromLeaves(s: State, t: nat, now: int, stale: set<nat>, id: nat, j: Job)
    requires Queued(s, stale) && t <= |s.tubes| && Stranded(s, id, j)
    ensures Stranded(UnpauseFrom(s, t, now, stale), id, j)
    decreases |s.tubes| - t
  {
    hide Queued, ProcessQueue, Drained;
    if t < |s.tubes| {
      if s.tubes[t].pause > 0 && s.tubes[t].unpauseAt - now <= 0 {
        WithoutPauseQueued(s, t, stale);
        ProcessQueueDrains(WithoutPause(s, t), now, stale);
        MatchingLeaves(WithoutPause(s, t), now, stale, id);
        UnpauseFromLeaves(ProcessQueue(WithoutPause(s, t), now, stale), t + 1, now, stale, id, j);
      } else {
        UnpauseFromLeaves(s, t + 1, now, stale, id, j);
      }
    }
  }

  // ---------- The commands ----------

  lemma PutLeaves(s: State, c: nat, x: nat, put: Job, delay: int, now: int, id: nat, j: Job)
    requires InOrder(s) && Asks(s, c) && x !in s.jobs && put.tube < |s.tubes| && Stranded(s, id, j)
    ensures Stranded(DoPut(s, c, x, put, delay, now), id, j)
  {
    hide Sound, SoonestRight, Enqueue, Idle, Reschedule;
    TakeUp(s, {}, x, put, {});
    EnqueueKeeps(SetJob(s, x, put), x, delay, now, {});
    EnqueueLeaves(SetJob(s, x, put), x, delay, now, {}, id, j);
    AnswerLeaves(Enqueue(SetJob(s, x, put), x, delay, now, {}), c, id);
  }

  lemma ReserveLeaves(s: State, c: nat, now: int, id: nat, j: Job)
    requires InOrder(s) && Asks(s, c) && Stranded(s, id, j)
    ensures Stranded(DoReserve(s, c, now), id, j)
  {
    hide Sound, SoonestRight, Waits, Reschedule, DeadlineSoon, SomeWatchedReady, ProcessQueue, Idle, Drained;
    if DeadlineSoon(s, c, now) && !SomeWatchedReady(s, c) {
      AnswerLeaves(s, c, id);
    } else {
      WaitsQueued(s, c);
      WaitingLeaves(s, c, id);
      AnswerLeaves(Waits(s, c), c, id);
      MatchingLeaves(Reschedule(Waits(s, c), c), now, {}, id);
    }
  }

  lemma ByIdLeaves(s: State, c: nat, x: nat, now: int, id: nat, j: Job)
    requires InOrder(s) && Asks(s, c) && (x in s.jobs ==> AtRoot(s, x)) && Stranded(s, id, j)
    ensures Stranded(DoDelete(s, c, x), id, j)
    ensures x != id ==> Stranded(DoReserveJob(s, c, x, now), id, j) && Stranded(DoKickJob(s, c, x, now), id, j)
  {
    hide Sound, SoonestRight, Reschedule, Unplaced, Idle, TakeBack, AtRoot, Give, Enqueue;
    AnswerLeaves(s, c, id);
    if x in s.jobs && x != id {
      if ReservedBy(s, x, c) {
        TakenBack(s, x, c, {});
        ReservationLeaves(s, x, c, id, now);
        AnswerLeaves(Forgotten(TakeBack(s, x, c), x), c, id);
      } else if s.jobs[x].state != RESERVED {
        UnplacedInHand(s, x);
        TakenOffLeaves(s, x, id);
        var s1 := Unplaced(s, x);
        AnswerLeaves(Forgotten(s1, x), c, id);
        ReservationLeaves(s1, x, c, id, now);
        GiveKeepsConn(s1, x, c, now);
        AnswerLeaves(Give(s1, x, c, now), c, id);
        EnqueueKeeps(s1, x, 0, now, {});
        EnqueueLeaves(s1, x, 0, now, {}, id, j);
        AnswerLeaves(Enqueue(s1, x, 0, now, {}), c, id);
      }
    }
  }

  lemma GiveKeepsConn(s: State, x: nat, c: nat, now: int)
    requires c in s.conns && x in s.jobs && s.jobs[x].tube < |s.tubes|
    ensures c in Give(s, x, c, now).conns
  {
  }

  lemma ReleaseLeaves(s: State, c: nat, x: nat, pri: u32, delay: int, now: int, id: nat, j: Job)
    requires InOrder(s) && Asks(s, c) && Stranded(s, id, j)
    ensures Stranded(DoRelease(s, c, x, pri, delay, now), id, j)
  {
    hide Sound, SoonestRight, Reschedule, Idle, TakeBack, Enqueue;
    if !ReservedBy(s, x, c) {
      AnswerLeaves(s, c, id);
    } else {
      ReleaseStarts(s, c, x, pri, delay, now);
      ReservationLeaves(s, x, c, id, now);
      var s1 := TakeBack(s, x, c);
      var s2 := SetJob(s1, x, s1.jobs[x].(pri := pri));
      EnqueueLeaves(s2, x, delay, now, {c}, id, j);
      AnsweredStranded(Enqueue(s2, x, delay, now, {c}), c, id, j);
    }
  }

  lemma BuryLeaves(s: State, c: nat, x: nat, pri: u32, id: nat, j: Job)
    requires InOrder(s) && Asks(s, c) && Stranded(s, id, j)
    ensures x in s.jobs ==> s.jobs[x].tube < |s.tubes|
    ensures Stranded(DoBury(s, c, x, pri), id, j)
  {
    BuryKeeps(s, c, x, pri);
    hide InOrder, Reschedule, TakeBack;
    if !ReservedBy(s, x, c) {
      AnswerLeaves(s, c, id);
    } else {
      ReservationLeaves(s, x, c, id, 0);
      AnswerLeaves(AddBuried(PutBuried(s, c, x, pri), x), c, id);
    }
  }

  lemma TouchLeaves(s: State, c: nat, x: nat, now: int, id: nat, j: Job)
    requires c in s.conns && Stranded(s, id, j)
    ensures Stranded(DoTouch(s, c, x, now), id, j)
  {
    hide Reschedule;
    AnswerLeaves(s, c, id);
    if ReservedBy(s, x, c) {
      AnswerLeaves(Touched(s, c, x, now), c, id);
    }
  }

  lemma LeavingLeaves(s: State, c: nat, now: int, id: nat, j: Job)
    requires InOrder(s) && c in s.conns && Stranded(s, id, j)
    ensures Stranded(DoDisconnect(s, c, now), id, j)
    ensures c in StopWaiting(s, c).conns && Stranded(Reschedule(StopWaiting(s, c), c), id, j)
  {
    hide Sound, SoonestRight, NotWaiting, Idle, StopWaiting, EnqueueReserved, Reschedule;
    StoppedQueued(s, c);
    WaitingLeaves(s, c, id);
    AnswerLeaves(StopWaiting(s, c), c, id);
    EnqueueReservedLeaves(StopWaiting(s, c), c, now, id, j);
  }

  lemma KickAndTickLeave(s: State, now: int, id: nat, j: Job)
    requires InOrder(s) && Stranded(s, id, j)
    ensures Stranded(DoTick(s, now), id, j)
    ensures forall c: nat, t: nat, n: nat :: Asks(s, c) && t < |s.tubes| ==>
              Stranded(DoKick(s, c, t, n, now), id, j)
  {
    hide Queued, Idle, PromoteDue, UnpauseFrom, Stranded, KickBuried, KickDelayed;
    PromoteDueEnds(s, now, {});
    PromoteDueLeaves(s, now, {}, id, j);
    UnpauseFromLeaves(PromoteDue(s, now, {}), 0, now, {}, id, j);
    forall c: nat, t: nat, n: nat | Asks(s, c) && t < |s.tubes|
      ensures Stranded(DoKick(s, c, t, n, now), id, j)
    {
      KickJobsEnds(s, t, n, now);
      KickBuriedLeaves(s, t, n, now, id, j);
      KickDelayedLeaves(s, t, n, now, id, j);
      AnsweredStranded(KickJobs(s, t, n, now).0, c, id, j);
    }
  }

  lemma AnsweredStranded(s: State, c: nat, id: nat, j: Job)
    requires c in s.conns && Stranded(s, id, j)
    ensures Stranded(Reschedule(s, c), id, j)
  {
    hide Reschedule;
    AnswerLeaves(s, c, id);
  }

  lemma ConnectionLeaves(s: State, c: nat, t: nat, delay: int, now: int, id: nat, j: Job)
    requires Stranded(s, id, j) && t < |s.tubes|
    ensures Stranded(SetConn(s, c, NewConn(t)), id, j) && Stranded(WithNewTube(s), id, j)
    ensures c in s.conns ==>
              Stranded(DoWatch(s, c, t), id, j) && Stranded(Reschedule(PausedTube(s, t, delay, now), c), id, j)
  {
    if c in s.conns {
      hide Reschedule;
      AnswerLeaves(PausedTube(s, t, delay, now), c, id);
      var watch := s.conns[c].watch;
      AnswerLeaves(Watching(s, c, if t in watch then watch else watch + [t]), c, id);
    }
  }

  lemma IgnoreLeaves(s: State, c: nat, t: nat, id: nat, j: Job)
    requires Stranded(s, id, j) && c in s.conns
    ensures Stranded(DoIgnore(s, c, t), id, j)
  {
    hide Reschedule;
    var watch := s.conns[c].watch;
    AnswerLeaves(Watching(s, c, if t in watch && |watch| < 2 then watch else RemoveFirst(watch, t)), c, id);
  }

  // Kicked by its id, the job leaves: it is ready or has been handed out.
  lemma KickJobFrees(s: State, c: nat, now: int, id: nat, j: Job)
    requires InOrder(s) && Asks(s, c) && Stranded(s, id, j)
    ensures AtRoot(s, id) && !PanicsOn(DoKickJob(s, c, id, now), id)
    ensures id in DoKickJob(s, c, id, now).jobs
  {
    hide Sound, SoonestRight, Idle, Unplaced, ProcessQueue, Reschedule;
    UnplacedInHand(s, id);
    var s1 := Unplaced(s, id);
    PlacedQueued(s1, id, 0, now, {});
    var s2 := PlaceInHeap(s1, id, 0, now);
    ProcessQueueDrains(s2, now, {});
    var s3 := ProcessQueue(s2, now, {});
    assert HandedOutAtMostOnce(s2, s3, id, now);
    EnqueueKeeps(s1, id, 0, now, {});
    AnswerQueued(s3, c, {});
  }

  /** A job that is buried and on no list stays there unchanged through every command but one: it
      leaves exactly when it is kicked by its id. */
  lemma StrandedUntilKicked(s: State, cmd: Command, now: int, id: nat, j: Job)
    requires InOrder(s) && Valid(s, cmd) && Stranded(s, id, j)
    ensures Stranded(Execute(s, cmd, now), id, j) <==> !(cmd.KickJob? && cmd.id == id)
    ensures cmd.KickJob? && cmd.id == id ==> !PanicsOn(Execute(s, cmd, now), id)
  {
    if cmd.KickJob? && cmd.id == id {
      KickJobFrees(s, cmd.c, now, id, j);
    } else {
      OthersLeave(s, cmd, now, id, j);
    }
  }

  lemma OthersLeave(s: State, cmd: Command, now: int, id: nat, j: Job)
    requires InOrder(s) && Valid(s, cmd) && Stranded(s, id, j) && !(cmd.KickJob? && cmd.id == id)
    ensures Stranded(Execute(s, cmd, now), id, j)
  {
    StrandedPanics(s, id, j);
    hide InOrder, AtRoot, Stranded, DoPut, DoReserve, DoReserveJob, DoDelete, DoRelease, DoBury, DoKickJob, DoTouch,
        DoWatch, DoIgnore, DoDisconnect, DoTick, DoKick, Reschedule, PausedTube, StopWaiting, PanicsOn;
    match cmd
    case Connect(c, t) => ConnectionLeaves(s, c, t, 0, now, id, j);
    case Disconnect(c) => LeavingLeaves(s, c, now, id, j);
    case HangUp(c) => LeavingLeaves(s, c, now, id, j);
    case MakeTube => ConnectionLeaves(s, 0, j.tube, 0, now, id, j);
    case Put(c, x, t, pri, ttr, delay) => PutLeaves(s, c, x, Job(t, pri, ttr, INVALID, 0, None), delay, now, id, j);
    case Reserve(c) => ReserveLeaves(s, c, now, id, j);
    case ReserveJob(c, x) => ByIdLeaves(s, c, x, now, id, j);
    case Delete(c, x) => ByIdLeaves(s, c, x, now, id, j);
    case Release(c, x, pri, delay) => ReleaseLeaves(s, c, x, pri, delay, now, id, j);
    case Bury(c, x, pri) => BuryLeaves(s, c, x, pri, id, j);
    case KickJob(c, x) => ByIdLeaves(s, c, x, now, id, j);
    case Kick(c, t, n) => KickAndTickLeave(s, now, id, j);
    case Touch(c, x) => TouchLeaves(s, c, x, now, id, j);
    case Watch(c, t) => ConnectionLeaves(s, c, t, 0, now, id, j);
    case Ignore(c, t) => IgnoreLeaves(s, c, t, id, j);
    case Pause(c, t, delay) => ConnectionLeaves(s, c, t, delay, now, id, j);
    case Tick => KickAndTickLeave(s, now, id, j);
  }

  lemma StrandedPanics(s: State, id: nat, j: Job)
    requires Stranded(s, id, j)
    ensures j.tube < |s.tubes| && PanicsOn(s, id) && id in s.jobs && s.jobs[id] == j && !CanRemove(s, id)
  {
  }

  /** And through any run in which it is not kicked by its id. */
  lemma {:induction false} StrandedThroughRuns(s: State, run: seq<(Command, int)>, id: nat, j: Job)
    requires InOrder(s) && Admissible(s, run) && Stranded(s, id, j)
    requires forall i :: 0 <= i < |run| ==> !(run[i].0.KickJob? && run[i].0.id == id)
    ensures Stranded(Run(s, run), id, j)
    decreases |run|
  {
    hide InOrder, Valid, Execute, Stranded;
    if run != [] {
      StrandedUntilKicked(s, run[0].0, run[0].1, id, j);
      ExecuteKeeps(s, run[0].0, run[0].1);
      assert forall i :: 0 <= i < |run[1..]| ==> run[1..][i] == run[i + 1];
      StrandedThroughRuns(Execute(s, run[0].0, run[0].1), run[1..], id, j);
    }
  }

  /** Burying a job leaves it on no list exactly when its tube's list is not empty. */
  lemma BuryStrands(s: State, c: nat, id: nat, pri: u32)
    requires InOrder(s) && Asks(s, c) && ReservedBy(s, id, c)
    ensures s.jobs[id].tube < |s.tubes|
    ensures Stranded(DoBury(s, c, id, pri), id, Buried(s.jobs[id], pri)) <==> s.tubes[s.jobs[id].tube].buried != []
  {
    BuryKeeps(s, c, id, pri);
    hide Sound, SoonestRight, Reschedule, Idle, TakeBack;
    BuryKeepsTubes(s, c, id, pri);
  }

  lemma BuryKeepsTubes(s: State, c: nat, id: nat, pri: u32)
    requires InOrder(s) && Asks(s, c) && ReservedBy(s, id, c) && s.jobs[id].tube < |s.tubes|
    ensures |DoBury(s, c, id, pri).tubes| == |s.tubes|
  {
  }
}
