/** The scheduler in memory: an object whose fields the server changes in place. Every method
    is proved to take the state exactly where the function of the same meaning in Schedule,
    Queue or Dispatch takes it. */
module Scheduler {
  import opened Records
  import opened Heap
  import opened Schedule
  import Places
  import opened Moves
  import opened Queue
  import D = Dispatch

  class Server {
    var tubes: seq<Tube>
    var conns: map<nat, Conn>
    var jobs: map<nat, Job>
    var readyCt: int
    var urgentCt: int
    var reservedCt: int
    var waitingCt: int

    constructor ()
      ensures View() == D.EMPTY
    {
      tubes, conns, jobs := [D.EMPTY_TUBE], map[], map[];
      readyCt, urgentCt, reservedCt, waitingCt := 0, 0, 0, 0;
    }

    function View(): State
      reads this
    {
      State(tubes, conns, jobs, readyCt, urgentCt, reservedCt, waitingCt)
    }

    // ---------- Choosing ----------

    // The next job to hand out. Pauses found to be over are cleared on the way.
    method NextAwaitedJob(now: int) returns (best: Option<Entry>)
      modifies this`tubes
      ensures (View(), best) == NextAwaited(old(View()), now)
    {
      best := None;
      var t := 0;
      while t < |tubes|
        invariant t <= |tubes| == |old(tubes)|
        invariant forall u :: 0 <= u < |tubes| ==>
            tubes[u] == if u < t then Unpaused(old(tubes)[u], now) else old(tubes)[u]
        invariant best == Best(old(tubes), t, now)
      {
        var tube := tubes[t];
        if tube.pause > 0 && tube.unpauseAt > now {
          t := t + 1;
          continue;
        }
        if tube.pause > 0 {
          tube := tube.(pause := 0);
          tubes := tubes[t := tube];
        }
        if tube.waiting != [] && tube.ready != [] {
          var candidate := tube.ready[0];
          if best == None || Less(candidate, best.value) {
            best := Some(candidate);
          }
        }
        t := t + 1;
      }
      assert tubes == NextAwaited(old(View()), now).0.tubes;
    }

    method SoonestDelayedJob() returns (best: Option<Entry>)
      ensures best == SoonestDelayed(tubes, |tubes|)
    {
      best := None;
      var t := 0;
      while t < |tubes|
        invariant t <= |tubes| && best == SoonestDelayed(tubes, t)
      {
        if tubes[t].delay != [] {
          var nj := tubes[t].delay[0];
          if best == None || nj.key < best.value.key {
            best := Some(nj);
          }
        }
        t := t + 1;
      }
    }

    // ---------- Heaps ----------

    method RemoveReadyJob(id: nat)
      requires id in jobs && jobs[id].tube < |tubes| && tubes[jobs[id].tube].ready != []
      modifies this`tubes, this`readyCt, this`urgentCt
      ensures View() == RemoveReady(old(View()), id)
    {
      var t := jobs[id].tube;
      tubes := tubes[t := tubes[t].(ready := Removed(tubes[t].ready, 0))];
      readyCt := readyCt - 1;
      if jobs[id].pri < URGENT {
        urgentCt := urgentCt - 1;
        tubes := tubes[t := tubes[t].(urgentCt := tubes[t].urgentCt - 1)];
      }
    }

    method RemoveDelayedJob(id: nat)
      requires id in jobs && jobs[id].tube < |tubes| && tubes[jobs[id].tube].delay != []
      modifies this`tubes
      ensures View() == RemoveDelayed(old(View()), id)
    {
      var t := jobs[id].tube;
      tubes := tubes[t := tubes[t].(delay := Removed(tubes[t].delay, 0))];
    }

    // Takes a buried job off the list of its tube, and says if it was on it.
    method RemoveBuriedJob(id: nat) returns (found: bool)
      requires id in jobs && jobs[id].tube < |tubes|
      modifies this`tubes
      ensures View() == RemoveBuried(old(View()), id) && found == OnBuriedList(old(View()), id)
    {
      hide RemoveFirst;
      var t := jobs[id].tube;
      found := id in tubes[t].buried;
      tubes := tubes[t := tubes[t].(buried := RemoveFirst(tubes[t].buried, id))];
    }

    // Puts a job on the list of its tube, if that is empty.
    method InsertBuriedJob(id: nat)
      requires id in jobs && jobs[id].tube < |tubes|
      modifies this`tubes
      ensures View() == AddBuried(old(View()), id)
    {
      var t := jobs[id].tube;
      if tubes[t].buried == [] {
        tubes := tubes[t := tubes[t].(buried := [id])];
      }
    }

    // Puts a job into a heap of its tube.
    method PlaceJob(id: nat, delay: int, now: int)
      requires id in jobs && jobs[id].tube < |tubes|
      modifies this`tubes, this`jobs, this`readyCt, this`urgentCt
      ensures View() == PlaceInHeap(old(View()), id, delay, now)
    {
      hide Pushed;
      var j := jobs[id].(reservoir := None);
      var t := j.tube;
      if delay > 0 {
        j := j.(state := DELAYED, deadline := now + delay);
        tubes := tubes[t := tubes[t].(delay := Pushed(tubes[t].delay, Entry(j.deadline, id)))];
      } else {
        j := j.(state := READY);
        tubes := tubes[t := tubes[t].(ready := Pushed(tubes[t].ready, Entry(j.pri, id)))];
        readyCt := readyCt + 1;
        if j.pri < URGENT {
          urgentCt := urgentCt + 1;
          tubes := tubes[t := tubes[t].(urgentCt := tubes[t].urgentCt + 1)];
        }
      }
      jobs := jobs[id := j];
    }

    // ---------- Waiting ----------

    method EnqueueWaitingConn(c: nat)
      requires c in conns && Places.NoRepeats(conns[c].watch) && forall t :: t in conns[c].watch ==> t < |tubes|
      modifies this`tubes, this`conns, this`waitingCt
      ensures View() == Waits(old(View()), c)
    {
      hide Waits, Joined;
      var watch := conns[c].watch;
      conns := conns[c := conns[c].(waiting := true)];
      waitingCt := waitingCt + 1;
      var i := 0;
      while i < |watch|
        invariant i <= |watch| && |tubes| == |old(tubes)|
        invariant conns == old(conns)[c := old(conns)[c].(waiting := true)] && waitingCt == old(waitingCt) + 1
        invariant forall t :: 0 <= t < |tubes| ==>
            tubes[t] == if t in watch[..i] then Joined(old(tubes)[t], c) else old(tubes)[t]
      {
        var t := watch[i];
        assert t in watch && t !in watch[..i] && watch[..i + 1] == watch[..i] + [t];
        tubes := tubes[t := Joined(tubes[t], c)];
        i := i + 1;
      }
      assert watch[..i] == watch;
      Started(old(View()), c, tubes);
    }

    method RemoveWaitingConn(c: nat)
      requires c in conns && Places.NoRepeats(conns[c].watch) && forall t :: t in conns[c].watch ==> t < |tubes|
      modifies this`tubes, this`conns, this`waitingCt
      ensures View() == StopWaiting(old(View()), c)
    {
      hide StopWaiting, Left;
      if !conns[c].waiting {
        NotStopped(View(), c);
        return;
      }
      var watch := conns[c].watch;
      conns := conns[c := conns[c].(waiting := false)];
      waitingCt := waitingCt - 1;
      var i := 0;
      while i < |watch|
        invariant i <= |watch| && |tubes| == |old(tubes)|
        invariant conns == old(conns)[c := old(conns)[c].(waiting := false)] && waitingCt == old(waitingCt) - 1
        invariant forall t :: 0 <= t < |tubes| ==>
            tubes[t] == if t in watch[..i] then Left(old(tubes)[t], c) else old(tubes)[t]
      {
        var t := watch[i];
        assert t in watch && t !in watch[..i] && watch[..i + 1] == watch[..i] + [t];
        tubes := tubes[t := Left(tubes[t], c)];
        i := i + 1;
      }
      assert watch[..i] == watch;
      Stopped(old(View()), c, tubes);
    }

    // Takes the connection whose turn it is off a tube.
    method TakeWaitingConn(t: nat) returns (c: nat)
      requires t < |tubes| && tubes[t].waiting != []
      modifies this`tubes
      ensures var (w, tube) := TakeWaiter(old(tubes)[t]); c == w && View() == SetTube(old(View()), t, tube)
    {
      var tube := tubes[t];
      var last := tube.last % |tube.waiting|;
      c := tube.waiting[last];
      tubes := tubes[t := tube.(waiting := tube.waiting[..last] + tube.waiting[last + 1..], last := last + 1)];
    }

    // ---------- Reserved jobs ----------

    // The scan of a connection's jobs for the one whose deadline comes first.
    method ScanSoonest(c: nat)
      requires c in conns
      modifies this`conns
      ensures View() == SetConn(old(View()), c,
          old(conns)[c].(soonest := Soonest(old(View()), old(conns)[c].soonest, old(conns)[c].reserved)))
    {
      var ids := conns[c].reserved;
      ghost var s := View();
      var i := 0;
      while i < |ids|
        invariant i <= |ids| && c in conns && conns == old(conns)[c := old(conns)[c].(soonest := conns[c].soonest)]
        invariant Soonest(s, conns[c].soonest, ids[i..]) == Soonest(s, old(conns)[c].soonest, ids)
      {
        var id := ids[i];
        SetSoonestJob(c, id);
        assert ids[i..][0] == id && ids[i..][1..] == ids[i + 1..];
        i := i + 1;
      }
      assert ids[i..] == [];
    }

    method SetSoonestJob(c: nat, id: nat)
      requires c in conns
      modifies this`conns
      ensures var conn := old(conns)[c];
              View() == SetConn(old(View()), c,
                  conn.(soonest := if Sooner(old(View()), id, conn.soonest) then Some(id) else conn.soonest))
    {
      var soonest := conns[c].soonest;
      if soonest == None || (id in jobs && soonest.value in jobs && jobs[id].deadline < jobs[soonest.value].deadline) {
        soonest := Some(id);
      }
      conns := conns[c := conns[c].(soonest := soonest)];
    }

    // Works out the soonest job of a connection when it is not known.
    method ConnSched(c: nat)
      requires c in conns
      modifies this`conns
      ensures View() == Reschedule(old(View()), c)
    {
      if conns[c].reserved != [] && conns[c].soonest == None {
        ScanSoonest(c);
      }
    }

    method ReserveJob(id: nat, c: nat, now: int)
      requires c in conns && id in jobs && jobs[id].tube < |tubes|
      modifies this`tubes, this`conns, this`jobs, this`reservedCt
      ensures View() == Give(old(View()), id, c, now)
    {
      reservedCt := reservedCt + 1;
      var t := jobs[id].tube;
      tubes := tubes[t := tubes[t].(reservedCt := tubes[t].reservedCt + 1)];
      jobs := jobs[id := jobs[id].(deadline := now + jobs[id].ttr, state := RESERVED, reservoir := Some(c))];
      conns := conns[c := conns[c].(reserved := conns[c].reserved + [id])];
      SetSoonestJob(c, id);
    }

    method RemoveReservedJob(id: nat, c: nat)
      requires c in conns && id in jobs && jobs[id].tube < |tubes|
      modifies this`tubes, this`conns, this`jobs, this`reservedCt
      ensures View() == TakeBack(old(View()), id, c)
    {
      hide RemoveFirst;
      conns := conns[c := conns[c].(reserved := RemoveFirst(conns[c].reserved, id))];
      reservedCt := reservedCt - 1;
      var t := jobs[id].tube;
      tubes := tubes[t := tubes[t].(reservedCt := tubes[t].reservedCt - 1)];
      jobs := jobs[id := jobs[id].(reservoir := None)];
      conns := conns[c := conns[c].(soonest := None)];
    }

    // ---------- Matching ----------

    // Hands out a job: what processQueue does in one turn.
    method HandOut(id: nat, now: int, ghost stale: set<nat>)
      requires Queued(View(), stale) && Matches(View(), id)
      modifies this
      ensures ServedBy(old(View()), id) in old(View()).conns && View() == Assign(old(View()), id, now)
    {
      hide Places.Sound, Places.SoonestRight, RemoveReady, StopWaiting, Give, Reschedule, TakeWaiter, Assign;
      ghost var s := View();
      AssignQueued(s, id, now, stale);
      WatchKept(s, id, stale);
      AssignMeans(s, id, now);
      var t := jobs[id].tube;
      RemoveReadyJob(id);
      var c := TakeWaitingConn(t);
      RemoveWaitingConn(c);
      ReserveJob(id, c, now);
      ConnSched(c);
    }

    /** Hands out jobs until no tube that is not paused has both a ready job and a connection
        waiting. */
    method ProcessQueue(now: int, ghost stale: set<nat>)
      requires Queued(View(), stale)
      modifies this
      ensures View() == Queue.ProcessQueue(old(View()), now, stale)
    {
      hide Queued, Assign, Matches, NextAwaited;
      ghost var s := View();
      var best := NextAwaitedJob(now);
      while best.Some?
        invariant Queued(s, stale) && (View(), best) == NextAwaited(s, now)
        invariant Queue.ProcessQueue(s, now, stale) == Queue.ProcessQueue(old(View()), now, stale)
        decreases s.readyCt
      {
        ChoiceQueued(s, now, stale);
        ReadyGoesDown(s, stale);
        var id := best.value.id;
        MatchesMeans(View(), id);
        AssignQueued(View(), id, now, stale);
        HandOut(id, now, stale);
        s := View();
        best := NextAwaitedJob(now);
      }
    }

    // Puts a job in hand into a heap and matches.
    method EnqueueJob(id: nat, delay: int, now: int, ghost stale: set<nat>)
      requires D.InHand(View(), id, stale)
      modifies this
      ensures View() == D.Enqueue(old(View()), id, delay, now, stale)
    {
      hide PlaceInHeap, Queued, Places.Sound, Places.SoonestRight;
      D.PlacedQueued(View(), id, delay, now, stale);
      PlaceJob(id, delay, now);
      ProcessQueue(now, stale);
    }

    // ---------- The clock ----------

    /** Makes the delayed jobs ready whose time has come, and says how long it is to the next. */
    method PromoteDelayed(now: int, ghost stale: set<nat>) returns (period: int)
      requires Queued(View(), stale)
      modifies this
      ensures View() == PromoteDue(old(View()), now, stale) && period == D.DelayPeriod(View().tubes, now)
    {
      period := D.DEFAULT_PERIOD;
      hide Queued, Promoted, SoonestDelayed, PlaceInHeap, RemoveDelayed, Queue.ProcessQueue;
      var j := SoonestDelayedJob();
      while j.Some?
        invariant Queued(View(), stale) && j == SoonestDelayed(tubes, |tubes|)
        invariant PromoteDue(View(), now, stale) == PromoteDue(old(View()), now, stale)
        invariant period == D.DEFAULT_PERIOD
        decreases |DelayedJobs(View())|
      {
        var d := j.value.key - now;
        if d > 0 {
          period := if d < period then d else period;
          break;
        }
        PromotionQueued(View(), now, stale);
        PromotionMeans(View(), now);
        var id := j.value.id;
        RemoveDelayedJob(id);
        PlaceJob(id, 0, now);
        ProcessQueue(now, stale);
        j := SoonestDelayedJob();
      }
    }

    /** Ends the pauses whose time has come, and says how long it is to the end of the next, if
        that is less than the period given. */
    method EndPauses(now: int, start: int, ghost stale: set<nat>) returns (period: int)
      requires Queued(View(), stale)
      modifies this
      ensures View() == UnpauseFrom(old(View()), 0, now, stale)
      ensures period == D.PausePeriod(old(tubes), |old(tubes)|, now, start)
    {
      hide Queued, Queue.ProcessQueue, Drained, Distributed;
      period := start;
      var t := 0;
      while t < |tubes|
        invariant t <= |tubes| && Queued(View(), stale) && SamePauseEnds(old(View()), View())
        invariant period == D.PausePeriod(old(tubes), t, now, start)
        invariant UnpauseFrom(View(), t, now, stale) == UnpauseFrom(old(View()), 0, now, stale)
        decreases |tubes| - t
      {
        if tubes[t].pause > 0 && tubes[t].unpauseAt - now <= 0 {
          WithoutPauseQueued(View(), t, stale);
          ProcessQueueDrains(WithoutPause(View(), t), now, stale);
          DistributedTubes(WithoutPause(View(), t), Queue.ProcessQueue(WithoutPause(View(), t), now, stale), now);
          tubes := tubes[t := tubes[t].(pause := 0)];
          ProcessQueue(now, stale);
        } else if tubes[t].unpauseAt - now > 0 {
          var d := tubes[t].unpauseAt - now;
          period := if d < period then d else period;
        }
        t := t + 1;
      }
    }

    /** Returns how long the server may sleep. */
    method ProtTick(now: int) returns (period: int)
      requires D.InOrder(View())
      modifies this
      ensures View() == D.DoTick(old(View()), now) && period == D.TickPeriod(old(View()), now)
    {
      hide Queued, PromoteDue, UnpauseFrom, Idle, D.DelayPeriod, D.PausePeriod;
      PromoteDueEnds(View(), now, {});
      period := PromoteDelayed(now, {});
      period := EndPauses(now, period, {});
    }

    // ---------- Commands ----------

    method DispatchPut(c: nat, id: nat, t: nat, pri: u32, ttr: int, delay: int, now: int)
      requires D.InOrder(View()) && D.Valid(View(), D.Put(c, id, t, pri, ttr, delay))
      modifies this
      ensures View() == D.Execute(old(View()), D.Put(c, id, t, pri, ttr, delay), now)
    {
      hide Places.Sound, Places.SoonestRight, Idle, D.Enqueue, Reschedule;
      var j := Job(t, pri, ttr, INVALID, 0, None);
      D.TakeUp(View(), {}, id, j, {});
      D.EnqueueKeeps(SetJob(View(), id, j), id, delay, now, {});
      jobs := jobs[id := j];
      EnqueueJob(id, delay, now, {});
      ConnSched(c);
    }

    // The deadline of the connection's soonest job is near; works that job out if need be.
    method ConnDeadLineSoon(c: nat, now: int) returns (soon: bool)
      requires c in conns && D.InOrder(View())
      modifies this`conns
      ensures soon == D.DeadlineSoon(old(View()), c, now)
      ensures View() == Reschedule(old(View()), c)
    {
      ConnSched(c);
      var soonest := conns[c].soonest;
      soon := soonest.Some? && soonest.value in jobs && now >= jobs[soonest.value].deadline - SAFETY_MARGIN;
    }

    // One of the tubes the connection watches has a ready job.
    method ConnReady(c: nat) returns (ready: bool)
      requires c in conns && forall t :: t in conns[c].watch ==> t < |tubes|
      ensures ready == D.SomeWatchedReady(View(), c)
    {
      var watch := conns[c].watch;
      assert forall k :: 0 <= k < |watch| ==> watch[k] in watch;
      var i := 0;
      while i < |watch|
        invariant i <= |watch| && forall k :: 0 <= k < i ==> tubes[watch[k]].ready == []
      {
        if tubes[watch[i]].ready != [] {
          assert watch[i] in watch;
          return true;
        }
        i := i + 1;
      }
      ready := false;
    }

    method DispatchReserve(c: nat, now: int)
      requires D.InOrder(View()) && D.Asks(View(), c)
      modifies this
      ensures View() == D.DoReserve(old(View()), c, now)
    {
      hide Places.Sound, Places.SoonestRight, Idle, Queued, Waits, Reschedule, Queue.ProcessQueue, D.DeadlineSoon,
          D.SomeWatchedReady;
      NothingToReschedule(View(), c);
      WatchSound(View(), c);
      D.WaitsQueued(View(), c);
      var soon := ConnDeadLineSoon(c, now);
      var ready := ConnReady(c);
      if soon && !ready {
        ConnSched(c);
        return;
      }
      EnqueueWaitingConn(c);
      ConnSched(c);
      ProcessQueue(now, {});
    }

    // Takes a job that nobody has reserved out of its place.
    method RemoveJob(id: nat)
      requires D.AtRoot(View(), id)
      modifies this
      ensures View() == D.Unplaced(old(View()), id)
    {
      hide RemoveReady, RemoveDelayed, RemoveBuried;
      if jobs[id].state == READY {
        RemoveReadyJob(id);
      } else if jobs[id].state == DELAYED {
        RemoveDelayedJob(id);
      } else {
        var _ := RemoveBuriedJob(id);
      }
    }

    method DispatchReserveJob(c: nat, id: nat, now: int)
      requires c in conns && (id in jobs ==> D.AtRoot(View(), id)) && !D.PanicsOn(View(), id)
      modifies this
      ensures View() == D.DoReserveJob(old(View()), c, id, now)
    {
      hide D.Unplaced, Reschedule;
      if id !in jobs || jobs[id].state == RESERVED {
        ConnSched(c);
        return;
      }
      D.UnplacedRest(View(), id);
      RemoveJob(id);
      ReserveJob(id, c, now);
      ConnSched(c);
    }

    method DispatchDelete(c: nat, id: nat)
      requires c in conns && (id in jobs ==> D.AtRoot(View(), id))
      modifies this
      ensures View() == D.DoDelete(old(View()), c, id)
    {
      hide D.Unplaced, TakeBack, Reschedule;
      if id in jobs && jobs[id].reservoir == Some(c) && jobs[id].state == RESERVED {
        TakeBackConns(View(), id, c);
        RemoveReservedJob(id, c);
      } else if id in jobs && jobs[id].state != RESERVED
                && (jobs[id].state != BURIED || id in tubes[jobs[id].tube].buried) {
        D.UnplacedRest(View(), id);
        RemoveJob(id);
      } else {
        ConnSched(c);
        return;
      }
      jobs := jobs - {id};
      ConnSched(c);
    }

    method DispatchRelease(c: nat, id: nat, pri: u32, delay: int, now: int)
      requires D.InOrder(View()) && D.Asks(View(), c)
      modifies this
      ensures View() == D.DoRelease(old(View()), c, id, pri, delay, now)
    {
      hide Places.Sound, Places.SoonestRight, Idle, Queued, TakeBack, Reschedule, D.Enqueue;
      if !(id in jobs && jobs[id].reservoir == Some(c) && jobs[id].state == RESERVED) {
        ConnSched(c);
        return;
      }
      D.ReleaseStarts(View(), c, id, pri, delay, now);
      RemoveReservedJob(id, c);
      jobs := jobs[id := jobs[id].(pri := pri)];
      EnqueueJob(id, delay, now, {c});
      ConnSched(c);
    }

    method DispatchBury(c: nat, id: nat, pri: u32)
      requires c in conns && (id in jobs ==> jobs[id].tube < |tubes|)
      modifies this
      ensures View() == D.DoBury(old(View()), c, id, pri)
    {
      hide TakeBack, Reschedule, AddBuried;
      if !(id in jobs && jobs[id].reservoir == Some(c) && jobs[id].state == RESERVED) {
        ConnSched(c);
        return;
      }
      TakeBackConns(View(), id, c);
      RemoveReservedJob(id, c);
      jobs := jobs[id := jobs[id].(pri := pri, state := BURIED, reservoir := None)];
      InsertBuriedJob(id);
      ConnSched(c);
    }

    method DispatchKickJob(c: nat, id: nat, now: int)
      requires D.InOrder(View()) && D.Asks(View(), c) && (id in jobs ==> D.AtRoot(View(), id))
      modifies this
      ensures View() == D.DoKickJob(old(View()), c, id, now)
    {
      hide Places.Sound, Places.SoonestRight, Idle, Queued, D.Unplaced, Reschedule, D.Enqueue;
      if !(id in jobs && (jobs[id].state == BURIED || jobs[id].state == DELAYED)) {
        ConnSched(c);
        return;
      }
      D.UnplacedInHand(View(), id);
      D.EnqueueKeeps(D.Unplaced(View(), id), id, 0, now, {});
      RemoveJob(id);
      EnqueueJob(id, 0, now, {});
      ConnSched(c);
    }

    // Makes a job at the root of its heap, or on the list of buried jobs, ready.
    method KickJob(id: nat, now: int)
      requires Queued(View(), {}) && D.CanKick(View(), id)
      modifies this
      ensures View() == D.KickOne(old(View()), id, now)
    {
      hide Places.Sound, Places.SoonestRight, D.Unplaced, D.Enqueue;
      D.UnplacedInHand(View(), id);
      RemoveJob(id);
      EnqueueJob(id, 0, now, {});
    }

    method KickBuriedJobs(t: nat, n: nat, now: int) returns (k: nat)
      requires Queued(View(), {}) && t < |tubes|
      modifies this
      ensures (View(), k) == D.KickBuried(old(View()), t, n, now)
    {
      hide Queued, D.KickOne, D.CanKick;
      k := 0;
      while k < n && tubes[t].buried != []
        invariant k <= n && t < |tubes| && Queued(View(), {})
        invariant D.KickBuried(old(View()), t, n, now) ==
                  (D.KickBuried(View(), t, n - k, now).0, k + D.KickBuried(View(), t, n - k, now).1)
        decreases n - k
      {
        D.ListedCanBeKicked(View(), t);
        D.KickOneKeeps(View(), tubes[t].buried[0], now);
        KickJob(tubes[t].buried[0], now);
        k := k + 1;
      }
    }

    method KickDelayedJobs(t: nat, n: nat, now: int) returns (k: nat)
      requires Queued(View(), {}) && t < |tubes|
      modifies this
      ensures (View(), k) == D.KickDelayed(old(View()), t, n, now)
    {
      hide Queued, D.KickOne, D.CanKick;
      k := 0;
      while k < n && tubes[t].delay != []
        invariant k <= n && t < |tubes| && Queued(View(), {})
        invariant D.KickDelayed(old(View()), t, n, now) ==
                  (D.KickDelayed(View(), t, n - k, now).0, k + D.KickDelayed(View(), t, n - k, now).1)
        decreases n - k
      {
        D.FirstDelayedCanBeKicked(View(), t);
        D.KickOneKeeps(View(), tubes[t].delay[0].id, now);
        KickJob(tubes[t].delay[0].id, now);
        k := k + 1;
      }
    }

    /** Kicks up to n jobs of a tube. */
    method DispatchKick(c: nat, t: nat, n: nat, now: int) returns (k: nat)
      requires D.InOrder(View()) && D.Asks(View(), c) && t < |tubes|
      modifies this
      ensures View() == D.DoKick(old(View()), c, t, n, now) && k == D.KickJobs(old(View()), t, n, now).1
    {
      hide Queued, Idle, Reschedule, D.KickBuried, D.KickDelayed;
      D.KickJobsEnds(View(), t, n, now);
      if tubes[t].buried != [] {
        k := KickBuriedJobs(t, n, now);
      } else {
        k := KickDelayedJobs(t, n, now);
      }
      ConnSched(c);
    }

    method TouchJob(c: nat, id: nat, now: int)
      requires c in conns
      modifies this
      ensures View() == D.DoTouch(old(View()), c, id, now)
    {
      hide Reschedule;
      if id in jobs && jobs[id].reservoir == Some(c) && jobs[id].state == RESERVED {
        jobs := jobs[id := jobs[id].(deadline := now + jobs[id].ttr)];
        conns := conns[c := conns[c].(soonest := None)];
      }
      ConnSched(c);
    }

    method DispatchWatch(c: nat, t: nat)
      requires c in conns
      modifies this`conns
      ensures View() == D.DoWatch(old(View()), c, t)
    {
      hide Reschedule;
      if t !in conns[c].watch {
        conns := conns[c := conns[c].(watch := conns[c].watch + [t])];
      }
      assert View() == D.Watching(old(View()), c, conns[c].watch);
      ConnSched(c);
    }

    method DispatchIgnore(c: nat, t: nat)
      requires c in conns
      modifies this`conns
      ensures View() == D.DoIgnore(old(View()), c, t)
    {
      hide Reschedule, RemoveFirst;
      if t in conns[c].watch && |conns[c].watch| < 2 {
      } else {
        conns := conns[c := conns[c].(watch := RemoveFirst(conns[c].watch, t))];
      }
      assert View() == D.Watching(old(View()), c, conns[c].watch);
      ConnSched(c);
    }

    method DispatchPause(c: nat, t: nat, delay: int, now: int)
      requires c in conns && t < |tubes|
      modifies this`tubes, this`conns
      ensures View() == Reschedule(D.PausedTube(old(View()), t, delay, now), c)
    {
      hide Reschedule;
      var d := if delay == 0 then 1 else delay;
      tubes := tubes[t := tubes[t].(pause := d, unpauseAt := now + d)];
      ConnSched(c);
    }

    // The reserved jobs of a leaving connection go back to their tubes.
    method EnqueueReservedJobs(c: nat, now: int)
      requires Queued(View(), {c}) && D.Asks(View(), c)
      modifies this
      ensures View() == D.EnqueueReserved(old(View()), c, now)
      ensures c in conns
    {
      hide Queued, TakeBack, D.Enqueue;
      while conns[c].reserved != []
        invariant Queued(View(), {c}) && D.Asks(View(), c)
        invariant D.EnqueueReserved(View(), c, now) == D.EnqueueReserved(old(View()), c, now)
        decreases |conns[c].reserved|
      {
        D.EnqueueFirst(View(), c, now);
        var id := conns[c].reserved[0];
        RemoveReservedJob(id, c);
        EnqueueJob(id, 0, now, {c});
      }
    }

    // A connection that waits hangs up.
    method HangUp(c: nat)
      requires D.InOrder(View()) && c in conns
      modifies this
      ensures c in StopWaiting(old(View()), c).conns && View() == Reschedule(StopWaiting(old(View()), c), c)
    {
      hide Queued, Idle, StopWaiting, Reschedule;
      D.HangUpKeeps(View(), c);
      WatchSound(View(), c);
      RemoveWaitingConn(c);
      ConnSched(c);
    }

    method ConnClose(c: nat, now: int)
      requires D.InOrder(View()) && c in conns
      modifies this
      ensures View() == D.DoDisconnect(old(View()), c, now)
    {
      hide Queued, Idle, StopWaiting, D.EnqueueReserved;
      D.StoppedQueued(View(), c);
      WatchSound(View(), c);
      RemoveWaitingConn(c);
      EnqueueReservedJobs(c, now);
      conns := conns - {c};
    }

    /** One command: the state is what Dispatch says, and everything is in order again. */
    method Dispatch(cmd: D.Command, now: int)
      requires D.InOrder(View()) && D.Valid(View(), cmd)
      modifies this
      ensures View() == D.Execute(old(View()), cmd, now) && D.InOrder(View())
    {
      hide D.InOrder, D.AtRoot, D.DoPut, D.DoReserve, D.DoReserveJob, D.DoDelete, D.DoRelease, D.DoBury, D.DoKickJob,
          D.DoTouch, D.DoWatch, D.DoIgnore, D.DoDisconnect, D.DoTick, D.DoKick, Reschedule, D.PausedTube, StopWaiting;
      D.ExecuteKeeps(View(), cmd, now);
      match cmd {
        case Connect(c, t) => conns := conns[c := D.NewConn(t)];
        case Disconnect(c) => ConnClose(c, now);
        case HangUp(c) => HangUp(c);
        case MakeTube => tubes := tubes + [D.EMPTY_TUBE];
        case Put(c, id, t, pri, ttr, delay) => DispatchPut(c, id, t, pri, ttr, delay, now);
        case Reserve(c) => DispatchReserve(c, now);
        case ReserveJob(c, id) => DispatchReserveJob(c, id, now);
        case Delete(c, id) => DispatchDelete(c, id);
        case Release(c, id, pri, delay) => DispatchRelease(c, id, pri, delay, now);
        case Bury(c, id, pri) =>
          D.BuryKeeps(View(), c, id, pri);
          DispatchBury(c, id, pri);
        case KickJob(c, id) => DispatchKickJob(c, id, now);
        case Kick(c, t, n) => var _ := DispatchKick(c, t, n, now);
        case Touch(c, id) => TouchJob(c, id, now);
        case Watch(c, t) => DispatchWatch(c, t);
        case Ignore(c, t) => DispatchIgnore(c, t);
        case Pause(c, t, delay) => DispatchPause(c, t, delay, now);
        case Tick => var _ := ProtTick(now);
      }
    }
  }

  // Handing out, step by step.
  lemma AssignMeans(s: State, id: nat, now: int)
    requires Matches(s, id) && ServedBy(s, id) in s.conns
    ensures var t, s1 := s.jobs[id].tube, RemoveReady(s, id);
            && t < |s1.tubes| && s1.tubes[t].waiting != [] && s1.jobs == s.jobs && s1.conns == s.conns
            && |s1.tubes| == |s.tubes|
            && var (c, tube) := TakeWaiter(s1.tubes[t]);
               && c == ServedBy(s, id) && c in s.conns
               && var s2 := SetTube(s1, t, tube);
                  && c in s2.conns && |s2.tubes| == |s.tubes|
                  && var s3 := StopWaiting(s2, c);
                     && c in s3.conns && id in s3.jobs && s3.jobs[id].tube < |s3.tubes|
                     && c in Give(s3, id, c, now).conns
                     && Assign(s, id, now) == Reschedule(Give(s3, id, c, now), c)
  {
    hide Removed, RemoveFirst;
  }

  lemma WatchKept(s: State, id: nat, stale: set<nat>)
    requires Queued(s, stale) && Matches(s, id) && ServedBy(s, id) in s.conns
    ensures Places.NoRepeats(s.conns[ServedBy(s, id)].watch)
    ensures forall t :: t in s.conns[ServedBy(s, id)].watch ==> t < |s.tubes|
  {
    SoundPlaces(s, {});
  }

  lemma MatchesMeans(s: State, id: nat)
    requires Matches(s, id)
    ensures id in s.jobs && s.jobs[id].tube < |s.tubes|
  {
  }

  // All watched tubes have been visited.
  lemma Started(s: State, c: nat, tubes: seq<Tube>)
    requires c in s.conns && |tubes| == |s.tubes|
    requires forall t :: 0 <= t < |tubes| ==>
        tubes[t] == if t in s.conns[c].watch then Joined(s.tubes[t], c) else s.tubes[t]
    ensures Waits(s, c) == SetConn(s, c, s.conns[c].(waiting := true)).(waitingCt := s.waitingCt + 1, tubes := tubes)
  {
    var s' := Waits(s, c);
    assert |s'.tubes| == |tubes|;
    forall t | 0 <= t < |tubes|
      ensures tubes[t] == s'.tubes[t]
    {
      StartedAt(s, c, t);
    }
  }

  lemma StartedAt(s: State, c: nat, t: nat)
    requires c in s.conns && t < |s.tubes|
    ensures var s' := Waits(s, c);
            && |s'.tubes| == |s.tubes|
            && s'.tubes[t] == if t in s.conns[c].watch then Joined(s.tubes[t], c) else s.tubes[t]
  {
  }

  lemma Stopped(s: State, c: nat, tubes: seq<Tube>)
    requires c in s.conns && s.conns[c].waiting && |tubes| == |s.tubes|
    requires forall t :: 0 <= t < |tubes| ==>
        tubes[t] == if t in s.conns[c].watch then Left(s.tubes[t], c) else s.tubes[t]
    ensures StopWaiting(s, c) ==
            SetConn(s, c, s.conns[c].(waiting := false)).(waitingCt := s.waitingCt - 1, tubes := tubes)
  {
    hide RemoveFirst;
    var s' := StopWaiting(s, c);
    assert |s'.tubes| == |tubes|;
    forall t | 0 <= t < |tubes|
      ensures tubes[t] == s'.tubes[t]
    {
      StoppedAt(s, c, t);
    }
  }

  lemma StoppedAt(s: State, c: nat, t: nat)
    requires c in s.conns && s.conns[c].waiting && t < |s.tubes|
    ensures var s' := StopWaiting(s, c);
            |s'.tubes| == |s.tubes| && s'.tubes[t] == if t in s.conns[c].watch then Left(s.tubes[t], c) else s.tubes[t]
  {
    hide RemoveFirst;
  }

  lemma NotStopped(s: State, c: nat)
    requires c in s.conns && !s.conns[c].waiting
    ensures StopWaiting(s, c) == s
  {
  }

  function Joined(tube: Tube, c: nat): Tube {
    tube.(waiting := tube.waiting + [c], waitingCt := tube.waitingCt + 1)
  }

  function Left(tube: Tube, c: nat): Tube {
    tube.(waiting := RemoveFirst(tube.waiting, c), waitingCt := tube.waitingCt - 1)
  }

  lemma PromotionMeans(s: State, now: int)
    requires IsDue(s, now) && CanPromote(s, SoonestDelayed(s.tubes, |s.tubes|).value.id)
    ensures var id := SoonestDelayed(s.tubes, |s.tubes|).value.id;
            var s1 := RemoveDelayed(s, id);
            && id in s1.jobs && s1.jobs[id].tube < |s1.tubes|
            && Promoted(s, now) == PlaceInHeap(s1, id, 0, now)
  {
    hide Removed, SoonestDelayed, PlaceInHeap;
  }

  lemma DistributedTubes(s: State, s': State, now: int)
    requires Distributed(s, s', now)
    ensures |s'.tubes| == |s.tubes| && SamePauseEnds(s, s')
  {
  }

  lemma WatchSound(s: State, c: nat)
    requires D.InOrder(s) && c in s.conns
    ensures Places.NoRepeats(s.conns[c].watch) && forall t :: t in s.conns[c].watch ==> t < |s.tubes|
  {
    SoundPlaces(s, {});
  }

  // Between commands every connection knows its soonest job.
  lemma NothingToReschedule(s: State, c: nat)
    requires D.InOrder(s) && c in s.conns
    ensures Reschedule(s, c) == s
  {
    assert Places.SoonestRightFor(s, c, c in {});
  }

  lemma TakeBackConns(s: State, id: nat, c: nat)
    requires c in s.conns && id in s.jobs && s.jobs[id].tube < |s.tubes|
    ensures c in TakeBack(s, id, c).conns && TakeBack(s, id, c).jobs == s.jobs[id := s.jobs[id].(reservoir := None)]
    ensures |TakeBack(s, id, c).tubes| == |s.tubes|
  {
  }
}
