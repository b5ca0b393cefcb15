/** The commands of the server on the scheduler, and what every run of them keeps. */
module Dispatch {
  import opened Records
  import opened Heap
  import opened Schedule
  import opened Places
  import opened Moves
  import opened Queue

  // Commands as they arrive, already parsed. Connection c asks; the log accepts every write.
  datatype Command =
    | Connect(c: nat, t: nat)
    | Disconnect(c: nat)
    | HangUp(c: nat)
    | MakeTube
    | Put(c: nat, id: nat, t: nat, pri: u32, ttr: int, delay: int)
    | Reserve(c: nat)
    | ReserveJob(c: nat, id: nat)
    | Delete(c: nat, id: nat)
    | Release(c: nat, id: nat, pri: u32, delay: int)
    | Bury(c: nat, id: nat, pri: u32)
    | KickJob(c: nat, id: nat)
    | Kick(c: nat, t: nat, n: nat)
    | Touch(c: nat, id: nat)
    | Watch(c: nat, t: nat)
    | Ignore(c: nat, t: nat)
    | Pause(c: nat, t: nat, delay: int)
    | Tick

  // Between commands: everything in its place, nothing to be handed out.
  ghost predicate InOrder(s: State) {
    Queued(s, {}) && Idle(s)
  }

  // ---------- Jobs in hand ----------

  // The counters do not count jobs in hand, nor buried ones.
  lemma HandCounters(s: State, hand: set<nat>, s': State, hand': set<nat>, id: nat)
    requires CountersRight(s, hand) && OnlyJob(s, hand, s', hand', id)
    requires s'.tubes == s.tubes && s'.readyCt == s.readyCt && s'.urgentCt == s.urgentCt
        && s'.reservedCt == s.reservedCt
    requires id in s.jobs && id !in hand ==> s.jobs[id].state == BURIED
    requires id in s'.jobs && id !in hand' ==> s'.jobs[id].state == BURIED
    ensures CountersRight(s', hand')
  {
    hide CountersRight;
    CountersMove(s, hand, s', hand', id);
  }

  // A job that is in no heap and on no list, because it is in hand, buried or not there, may
  // be made, changed, taken in hand, put down buried or forgotten.
  ghost predicate OnlyAside(s: State, hand: set<nat>, s': State, hand': set<nat>, id: nat) {
    && s' == s.(jobs := s'.jobs) && OnlyJob(s, hand, s', hand', id)
    && (id in s.jobs && id !in hand ==> s.jobs[id].state == BURIED)
    && (id in s'.jobs && id !in hand' ==> s'.jobs[id].state == BURIED && s'.jobs[id].reservoir == None)
    && (id in hand' ==> id in s'.jobs)
    && (id in s'.jobs ==> s'.jobs[id].tube < |s.tubes|)
  }

  lemma AsideSound(s: State, hand: set<nat>, s': State, hand': set<nat>, id: nat)
    requires Sound(s, hand) && OnlyAside(s, hand, s', hand', id) && Unlisted(s, id)
    ensures Sound(s', hand')
  {
    hide Ordered, BuriedListSound, Unlisted;
    BuriedMoves(s, hand, s', hand', id);
    assert forall t, e :: 0 <= t < |s'.tubes| ==> ReadyTimes(s', t, e) == ReadyTimes(s, t, e);
    ReadyMoves(s, hand, s', hand', id);
    assert forall t, e :: 0 <= t < |s'.tubes| ==> DelayedTimes(s', t, e) == DelayedTimes(s, t, e);
    DelayedMoves(s, hand, s', hand', id);
    assert forall c, k :: c in s'.conns ==> ReservedTimes(s', c, k) == ReservedTimes(s, c, k);
    ReservedMoves(s, hand, s', hand', id);
    SameWaiting(s, s');
    HandCounters(s, hand, s', hand', id);
    forall k | k in s'.jobs
      ensures JobSound(s', hand', k)
    {
      assert k in s.jobs ==> JobSound(s, hand, k);
    }
  }

  lemma AsideSoonest(s: State, hand: set<nat>, s': State, hand': set<nat>, id: nat, stale: set<nat>)
    requires SoonestRight(s, stale) && ReservedPlaced(s, hand) && OnlyAside(s, hand, s', hand', id)
    ensures SoonestRight(s', stale)
  {
    forall c | c in s'.conns
      ensures SoonestRightFor(s', c, c in stale)
    {
      assert SoonestRightFor(s, c, c in stale);
      OnListIsReserved(s, hand, id, c);
    }
  }

  // ---------- Enqueuing ----------

  // Job id is in hand, and the connections in stale have not been answered yet.
  ghost predicate InHand(s: State, id: nat, stale: set<nat>) {
    && Sound(s, {id}) && SoonestRight(s, stale) && NotWaiting(s, stale)
    && id in s.jobs && s.jobs[id].tube < |s.tubes|
  }

  lemma PlacedQueued(s: State, id: nat, delay: int, now: int, stale: set<nat>)
    requires InHand(s, id, stale)
    ensures Queued(PlaceInHeap(s, id, delay, now), stale)
    ensures PlaceInHeap(s, id, delay, now).conns == s.conns && |PlaceInHeap(s, id, delay, now).tubes| == |s.tubes|
    ensures PlaceInHeap(s, id, delay, now).jobs.Keys == s.jobs.Keys
  {
    SoundPlaces(s, {id});
    PlaceSoonest(s, {id}, id, delay, now, stale);
    PlaceConns(s, id, delay, now);
    hide Sound, SoonestRight, PlaceInHeap;
    PlaceSound(s, {id}, id, delay, now);
    assert {id} - {id} == {};
  }

  lemma PlaceConns(s: State, id: nat, delay: int, now: int)
    requires id in s.jobs && s.jobs[id].tube < |s.tubes|
    ensures PlaceInHeap(s, id, delay, now).conns == s.conns && |PlaceInHeap(s, id, delay, now).tubes| == |s.tubes|
    ensures PlaceInHeap(s, id, delay, now).jobs.Keys == s.jobs.Keys
  {
    hide Pushed;
  }

  /** A job in hand goes to a heap of its tube, and jobs are matched. */
  ghost function Enqueue(s: State, id: nat, delay: int, now: int, stale: set<nat>): State
    requires InHand(s, id, stale)
  {
    PlacedQueued(s, id, delay, now, stale);
    ProcessQueue(PlaceInHeap(s, id, delay, now), now, stale)
  }

  // What matching leaves as it is.
  ghost predicate SameElsewhere(s: State, s': State) {
    && |s'.tubes| == |s.tubes| && s'.conns.Keys == s.conns.Keys && s'.jobs.Keys == s.jobs.Keys
    && forall c :: c in s.conns && !s.conns[c].waiting ==> s'.conns[c] == s.conns[c]
  }

  lemma DistributedElsewhere(s: State, s': State, now: int)
    requires Distributed(s, s', now)
    ensures SameElsewhere(s, s')
  {
    forall c | c in s.conns && !s.conns[c].waiting
      ensures s'.conns[c] == s.conns[c]
    {
      assert ServedAtMostOnce(s, s', c);
    }
  }

  lemma EnqueueKeeps(s: State, id: nat, delay: int, now: int, stale: set<nat>)
    requires InHand(s, id, stale)
    ensures var s' := Enqueue(s, id, delay, now, stale);
            Queued(s', stale) && Idle(s') && SameElsewhere(s, s')
  {
    hide Queued, PlaceInHeap, ProcessQueue, Drained, Distributed, Sound, SoonestRight;
    PlacedQueued(s, id, delay, now, stale);
    var s1 := PlaceInHeap(s, id, delay, now);
    ProcessQueueDrains(s1, now, stale);
    var s' := ProcessQueue(s1, now, stale);
    DrainedIsIdle(s', now);
    DistributedElsewhere(s1, s', now);
  }

  // ---------- Answering ----------

  // The reply to connection c reschedules it.
  lemma AnswerQueued(s: State, c: nat, stale: set<nat>)
    requires Queued(s, stale) && c in s.conns
    ensures Queued(Reschedule(s, c), stale - {c}) && (Idle(s) ==> Idle(Reschedule(s, c)))
    ensures Reschedule(s, c).conns.Keys == s.conns.Keys && Reschedule(s, c).jobs == s.jobs
        && Reschedule(s, c).tubes == s.tubes
  {
    SoundPlaces(s, {});
    RescheduleSound(s, {}, c);
    RescheduleSoonest(s, {}, c, stale);
    RescheduleWaits(s, c, stale);
  }

  lemma RescheduleWaits(s: State, c: nat, stale: set<nat>)
    requires NotWaiting(s, stale) && c in s.conns
    ensures NotWaiting(Reschedule(s, c), stale - {c})
    ensures Reschedule(s, c).conns.Keys == s.conns.Keys && Reschedule(s, c).jobs == s.jobs
        && Reschedule(s, c).tubes == s.tubes
    ensures forall k :: k in s.conns && k != c ==> Reschedule(s, c).conns[k] == s.conns[k]
  {
    hide Soonest;
  }

  // ---------- Taking a job in hand ----------

  lemma TakenBack(s: State, id: nat, c: nat, stale: set<nat>)
    requires Queued(s, stale) && stale <= {c} && c in s.conns && !s.conns[c].waiting && ReservedBy(s, id, c)
    ensures s.jobs[id].tube < |s.tubes|
    ensures var s' := TakeBack(s, id, c);
            && InHand(s', id, {c}) && s'.jobs == s.jobs[id := s.jobs[id].(reservoir := None)]
            && s'.conns.Keys == s.conns.Keys && |s'.tubes| == |s.tubes|
            && (Idle(s) ==> Idle(s')) && !s'.conns[c].waiting
            && s'.conns[c].reserved == RemoveFirst(s.conns[c].reserved, id)
  {
    SoundPlaces(s, {});
    assert JobSound(s, {}, id);
    TakeBackSoonest(s, {}, id, c, stale);
    assert stale + {c} == {c} && {} + {id} == {id};
    TakeBackRest(s, id, c);
    hide Sound, SoonestRight, TakeBack;
    TakeBackSound(s, {}, id, c);
  }

  lemma TakeBackRest(s: State, id: nat, c: nat)
    requires c in s.conns && !s.conns[c].waiting && id in s.jobs && s.jobs[id].tube < |s.tubes|
    ensures var s' := TakeBack(s, id, c);
            && NotWaiting(s', {c}) && s'.jobs == s.jobs[id := s.jobs[id].(reservoir := None)]
            && s'.conns.Keys == s.conns.Keys && |s'.tubes| == |s.tubes|
            && (Idle(s) ==> Idle(s')) && !s'.conns[c].waiting
            && s'.conns[c].reserved == RemoveFirst(s.conns[c].reserved, id)
  {
    hide RemoveFirst;
  }

  // The job is where the by-id commands look for it: at the root of its heap.
  predicate AtRoot(s: State, id: nat) {
    id in s.jobs && s.jobs[id].tube < |s.tubes| &&
    var tube := s.tubes[s.jobs[id].tube];
    && (s.jobs[id].state == READY ==> tube.ready != [] && tube.ready[0].id == id)
    && (s.jobs[id].state == DELAYED ==> tube.delay != [] && tube.delay[0].id == id)
  }

  // A ready or delayed job is taken out of its heap, a buried one off its list.
  function Unplaced(s: State, id: nat): State
    requires AtRoot(s, id)
  {
    if s.jobs[id].state == READY then RemoveReady(s, id)
    else if s.jobs[id].state == DELAYED then RemoveDelayed(s, id)
    else RemoveBuried(s, id)
  }

  lemma RemovedFromList(s: State, hand: set<nat>, id: nat)
    requires BuriedPlaced(s, hand) && id in s.jobs && s.jobs[id].tube < |s.tubes|
    ensures BuriedPlaced(RemoveBuried(s, id), hand) && Unlisted(RemoveBuried(s, id), id)
    ensures SameHeaps(s, RemoveBuried(s, id)) && RemoveBuried(s, id).conns == s.conns
  {
    hide RemoveFirst;
    var s', u := RemoveBuried(s, id), s.jobs[id].tube;
    assert BuriedListSound(s, hand, u);
    RemoveFromOne(s.tubes[u].buried, id);
    forall t | 0 <= t < |s'.tubes|
      ensures BuriedListSound(s', hand, t) && id !in s'.tubes[t].buried
    {
      assert BuriedListSound(s, hand, t);
    }
  }

  lemma RemoveFromOne(xs: seq<nat>, x: nat)
    requires |xs| <= 1
    ensures RemoveFirst(xs, x) == if x in xs then [] else xs
  {
    if xs != [] {
      assert xs[1..] == [] && xs == [xs[0]];
    }
  }

  lemma RemoveBuriedSound(s: State, hand: set<nat>, id: nat)
    requires Sound(s, hand) && id in s.jobs && s.jobs[id].tube < |s.tubes|
    ensures Sound(RemoveBuried(s, id), hand) && Unlisted(RemoveBuried(s, id), id)
  {
    var s' := RemoveBuried(s, id);
    SoundPlaces(s, hand);
    RemovedFromList(s, hand, id);
    SameWaiting(s, s');
    hide Sound, RemoveBuried, BuriedPlaced;
    SameHeapsSound(s, s', hand);
  }

  lemma AddedToList(s: State, hand: set<nat>, id: nat)
    requires BuriedPlaced(s, hand) && id in s.jobs && s.jobs[id].tube < |s.tubes| &&
        IsBuried(s, hand, s.jobs[id].tube, id)
    ensures BuriedPlaced(AddBuried(s, id), hand) && SameHeaps(s, AddBuried(s, id)) && AddBuried(s, id).conns == s.conns
  {
    var s' := AddBuried(s, id);
    forall t | 0 <= t < |s'.tubes|
      ensures BuriedListSound(s', hand, t)
    {
      assert BuriedListSound(s, hand, t);
    }
  }

  lemma AddBuriedSound(s: State, hand: set<nat>, id: nat)
    requires Sound(s, hand) && id in s.jobs && s.jobs[id].tube < |s.tubes| && IsBuried(s, hand, s.jobs[id].tube, id)
    ensures Sound(AddBuried(s, id), hand)
  {
    var s' := AddBuried(s, id);
    SoundPlaces(s, hand);
    AddedToList(s, hand, id);
    SameWaiting(s, s');
    hide Sound, AddBuried, BuriedPlaced;
    SameHeapsSound(s, s', hand);
  }

  lemma AddBuriedQueued(s: State, id: nat, stale: set<nat>)
    requires Queued(s, stale) && id in s.jobs && s.jobs[id].tube < |s.tubes| && s.jobs[id].state == BURIED
    ensures var s' := AddBuried(s, id);
            && Queued(s', stale) && (Idle(s) ==> Idle(s')) && s'.conns == s.conns && s'.jobs == s.jobs
  {
    var s' := AddBuried(s, id);
    SameSoonest(s, s', stale);
    hide Sound, SoonestRight;
    AddBuriedSound(s, {}, id);
  }

  lemma UnplacedSound(s: State, id: nat)
    requires Sound(s, {}) && AtRoot(s, id) && s.jobs[id].state != RESERVED
    ensures Sound(Unplaced(s, id), {id})
  {
    assert {} + {id} == {id};
    if s.jobs[id].state == READY {
      hide Sound, RemoveReady;
      RemoveReadySound(s, {}, id);
    } else if s.jobs[id].state == DELAYED {
      hide Sound, RemoveDelayed;
      RemoveDelayedSound(s, {}, id);
    } else {
      SoundPlaces(s, {});
      assert JobSound(s, {}, id);
      var s1 := RemoveBuried(s, id);
      assert OnlyAside(s1, {}, s1, {id}, id);
      hide Sound, RemoveBuried, OnlyAside;
      RemoveBuriedSound(s, {}, id);
      AsideSound(s1, {}, s1, {id}, id);
    }
  }

  lemma UnplacedRest(s: State, id: nat)
    requires AtRoot(s, id)
    ensures var s' := Unplaced(s, id);
            s'.jobs == s.jobs && s'.conns == s.conns && |s'.tubes| == |s.tubes| && (Idle(s) ==> Idle(s'))
  {
    hide Removed;
  }

  lemma UnplacedInHand(s: State, id: nat)
    requires Queued(s, {}) && AtRoot(s, id) && s.jobs[id].state != RESERVED
    ensures var s' := Unplaced(s, id);
            && InHand(s', id, {}) && s'.jobs == s.jobs && s'.conns == s.conns && |s'.tubes| == |s.tubes|
            && (Idle(s) ==> Idle(s'))
  {
    hide Sound, SoonestRight, Unplaced;
    UnplacedSound(s, id);
    UnplacedRest(s, id);
    SameConnsSoonest(s, Unplaced(s, id), {});
  }

  lemma SameConnsSoonest(s: State, s': State, stale: set<nat>)
    requires SoonestRight(s, stale) && s'.jobs == s.jobs && s'.conns == s.conns
    ensures SoonestRight(s', stale) && (NotWaiting(s, stale) ==> NotWaiting(s', stale))
  {
    SameSoonest(s, s', stale);
  }

  // ---------- Letting go of a job in hand ----------

  // What is put down in the dictionary for a job in hand: nothing, or a buried job.
  lemma PutDown(s: State, id: nat, s': State, stale: set<nat>)
    requires InHand(s, id, stale) && OnlyAside(s, {id}, s', {}, id)
    ensures Queued(s', stale) && (Idle(s) ==> Idle(s'))
  {
    SoundPlaces(s, {id});
    NotBuriedUnlisted(s, {id}, id);
    AsideSoonest(s, {id}, s', {}, id, stale);
    hide Sound, SoonestRight;
    AsideSound(s, {id}, s', {}, id);
  }

  // A job in hand is changed, or a new one made and taken in hand.
  lemma TakeUp(s: State, hand: set<nat>, id: nat, j: Job, stale: set<nat>)
    requires Sound(s, hand) && SoonestRight(s, stale) && NotWaiting(s, stale)
    requires (hand == {id} && id in s.jobs) || (hand == {} && id !in s.jobs)
    requires j.tube < |s.tubes|
    ensures InHand(SetJob(s, id, j), id, stale)
  {
    SoundPlaces(s, hand);
    var s' := SetJob(s, id, j);
    assert OnlyAside(s, hand, s', {id}, id);
    NotBuriedUnlisted(s, hand, id);
    AsideSoonest(s, hand, s', {id}, id, stale);
    hide Sound, SoonestRight;
    AsideSound(s, hand, s', {id}, id);
  }

  lemma GivenQueued(s: State, id: nat, c: nat, now: int)
    requires InHand(s, id, {}) && c in s.conns
    ensures var s' := Give(s, id, c, now);
            && Queued(s', {}) && (Idle(s) ==> Idle(s')) && s'.conns.Keys == s.conns.Keys && |s'.tubes| == |s.tubes|
  {
    assert {id} - {id} == {};
    GiveKeeps(s, id, c, now, {});
    hide Sound, SoonestRight;
    GiveRest(s, id, c, now);
  }

  lemma GiveRest(s: State, id: nat, c: nat, now: int)
    requires id in s.jobs && s.jobs[id].tube < |s.tubes| && c in s.conns
    ensures var s' := Give(s, id, c, now);
            (Idle(s) ==> Idle(s')) && s'.conns.Keys == s.conns.Keys && |s'.tubes| == |s.tubes|
  {
    hide Sooner;
  }

  // ---------- The commands ----------

  // What the server relies on: the connection that asks does not wait for a job, a new job or
  // connection gets a fresh number, tubes exist, and a job named by its id that is in a heap
  // is at the root of it. A buried job to be reserved by its id must be on the list of its tube:
  // for one that is not the source dereferences nil.
  ghost predicate Valid(s: State, cmd: Command) {
    match cmd
    case Connect(c, t) => c !in s.conns && t < |s.tubes|
    case Disconnect(c) => c in s.conns
    case HangUp(c) => c in s.conns && s.conns[c].waiting
    case MakeTube => true
    case Put(c, id, t, _, _, _) => Asks(s, c) && id !in s.jobs && t < |s.tubes|
    case Reserve(c) => Asks(s, c)
    case ReserveJob(c, id) => Asks(s, c) && (id in s.jobs ==> AtRoot(s, id)) && !PanicsOn(s, id)
    case Delete(c, id) => Asks(s, c) && (id in s.jobs ==> AtRoot(s, id))
    case Release(c, _, _, _) => Asks(s, c)
    case Bury(c, _, _) => Asks(s, c)
    case KickJob(c, id) => Asks(s, c) && (id in s.jobs ==> AtRoot(s, id))
    case Kick(c, t, _) => Asks(s, c) && t < |s.tubes|
    case Touch(c, _) => Asks(s, c)
    case Watch(c, t) => Asks(s, c) && t < |s.tubes|
    case Ignore(c, t) => Asks(s, c)
    case Pause(c, t, delay) => Asks(s, c) && delay >= 0 && t < |s.tubes|
    case Tick => true
  }

  // Reserving the job by its id makes the source dereference nil.
  predicate PanicsOn(s: State, id: nat) {
    id in s.jobs && s.jobs[id].state == BURIED && !OnBuriedList(s, id)
  }

  ghost predicate Asks(s: State, c: nat) {
    c in s.conns && !s.conns[c].waiting
  }

  ghost function DoPut(s: State, c: nat, id: nat, j: Job, delay: int, now: int): State
    requires InOrder(s) && Asks(s, c) && id !in s.jobs && j.tube < |s.tubes|
  {
    TakeUp(s, {}, id, j, {});
    EnqueueKeeps(SetJob(s, id, j), id, delay, now, {});
    Reschedule(Enqueue(SetJob(s, id, j), id, delay, now, {}), c)
  }

  lemma PutKeeps(s: State, c: nat, id: nat, j: Job, delay: int, now: int)
    requires InOrder(s) && Asks(s, c) && id !in s.jobs && j.tube < |s.tubes|
    ensures InOrder(DoPut(s, c, id, j, delay, now))
  {
    hide Sound, SoonestRight, Enqueue, Idle, Reschedule;
    TakeUp(s, {}, id, j, {});
    EnqueueKeeps(SetJob(s, id, j), id, delay, now, {});
    AnswerQueued(Enqueue(SetJob(s, id, j), id, delay, now, {}), c, {});
    assert {} - {c} == {};
  }

  // The deadline of a connection's soonest job is near.
  predicate DeadlineSoon(s: State, c: nat, now: int)
    requires c in s.conns
  {
    var soonest := Reschedule(s, c).conns[c].soonest;
    soonest.Some? && soonest.value in s.jobs && now >= s.jobs[soonest.value].deadline - SAFETY_MARGIN
  }

  predicate SomeWatchedReady(s: State, c: nat)
    requires c in s.conns
  {
    exists t :: 0 <= t < |s.tubes| && t in s.conns[c].watch && s.tubes[t].ready != []
  }

  // A connection that asks for a job is answered at once when one of its jobs is about to
  // time out and there is none for it; else it waits, and jobs are matched.
  ghost function DoReserve(s: State, c: nat, now: int): State
    requires InOrder(s) && Asks(s, c)
  {
    if DeadlineSoon(s, c, now) && !SomeWatchedReady(s, c) then Reschedule(s, c)
    else
      WaitsQueued(s, c);
      ProcessQueue(Reschedule(Waits(s, c), c), now, {})
  }

  lemma WaitsRest(s: State, c: nat)
    requires Asks(s, c) && NotWaiting(s, {})
    ensures var s' := Waits(s, c);
            && s'.jobs == s.jobs && s'.conns.Keys == s.conns.Keys
            && s'.conns[c].reserved == s.conns[c].reserved && s'.conns[c].soonest == s.conns[c].soonest
            && forall k :: k in s.conns && k != c ==> s'.conns[k] == s.conns[k]
  {
  }

  lemma WaitsQueued(s: State, c: nat)
    requires Queued(s, {}) && Asks(s, c)
    ensures c in Waits(s, c).conns && Queued(Reschedule(Waits(s, c), c), {})
  {
    hide Sound, Waits, Reschedule;
    WaitsSound(s, {}, c);
    WaitsRest(s, c);
    SameSoonest(s, Waits(s, c), {});
    AnswerQueued(Waits(s, c), c, {});
    assert {} - {c} == {};
  }

  lemma ReserveKeeps(s: State, c: nat, now: int)
    requires InOrder(s) && Asks(s, c)
    ensures InOrder(DoReserve(s, c, now))
  {
    hide Sound, SoonestRight, Waits, Reschedule, DeadlineSoon, SomeWatchedReady, ProcessQueue, Idle, Drained;
    assert {} - {c} == {};
    if DeadlineSoon(s, c, now) && !SomeWatchedReady(s, c) {
      AnswerQueued(s, c, {});
    } else {
      WaitsQueued(s, c);
      var s1 := Reschedule(Waits(s, c), c);
      ProcessQueueDrains(s1, now, {});
      DrainedIsIdle(ProcessQueue(s1, now, {}), now);
    }
  }

  // A job that is not reserved is taken out of its place and reserved for the connection.
  function DoReserveJob(s: State, c: nat, id: nat, now: int): State
    requires c in s.conns && (id in s.jobs ==> AtRoot(s, id))
  {
    if id !in s.jobs || s.jobs[id].state == RESERVED then Reschedule(s, c)
    else
      UnplacedRest(s, id);
      Reschedule(Give(Unplaced(s, id), id, c, now), c)
  }

  lemma ReserveJobKeeps(s: State, c: nat, id: nat, now: int)
    requires InOrder(s) && Asks(s, c) && (id in s.jobs ==> AtRoot(s, id))
    ensures InOrder(DoReserveJob(s, c, id, now))
  {
    hide Sound, SoonestRight, Reschedule, Unplaced, Idle, Give, AtRoot;
    assert {} - {c} == {};
    if id !in s.jobs || s.jobs[id].state == RESERVED {
      AnswerQueued(s, c, {});
    } else {
      UnplacedInHand(s, id);
      GivenQueued(Unplaced(s, id), id, c, now);
      AnswerQueued(Give(Unplaced(s, id), id, c, now), c, {});
    }
  }

  function Forgotten(s: State, id: nat): State {
    s.(jobs := s.jobs - {id})
  }

  // A job the connection has reserved, or one that nobody has reserved, is forgotten. A buried job
  // that is on no list is not found, and stays.
  function DoDelete(s: State, c: nat, id: nat): State
    requires c in s.conns && (id in s.jobs ==> AtRoot(s, id))
  {
    if ReservedBy(s, id, c) then Reschedule(Forgotten(TakeBack(s, id, c), id), c)
    else if !CanRemove(s, id) then Reschedule(s, c)
    else
      UnplacedRest(s, id);
      Reschedule(Forgotten(Unplaced(s, id), id), c)
  }

  // The job is found where its state says: a buried one only on the list of its tube.
  predicate CanRemove(s: State, id: nat) {
    id in s.jobs && s.jobs[id].state != RESERVED && (s.jobs[id].state == BURIED ==> OnBuriedList(s, id))
  }

  lemma DeleteKeeps(s: State, c: nat, id: nat)
    requires InOrder(s) && Asks(s, c) && (id in s.jobs ==> AtRoot(s, id))
    ensures InOrder(DoDelete(s, c, id))
    ensures id in DoDelete(s, c, id).jobs <==> id in s.jobs && !ReservedBy(s, id, c) && !CanRemove(s, id)
  {
    hide Sound, SoonestRight, Reschedule, Unplaced, Idle, TakeBack;
    assert {} - {c} == {} && {c} - {c} == {};
    if ReservedBy(s, id, c) {
      TakenBack(s, id, c, {});
      var s1 := TakeBack(s, id, c);
      PutDown(s1, id, Forgotten(s1, id), {c});
      AnswerQueued(Forgotten(s1, id), c, {c});
    } else if !CanRemove(s, id) {
      AnswerQueued(s, c, {});
    } else {
      UnplacedInHand(s, id);
      var s1 := Unplaced(s, id);
      PutDown(s1, id, Forgotten(s1, id), {});
      AnswerQueued(Forgotten(s1, id), c, {});
    }
  }

  // The job goes back to a heap with a new priority.
  ghost function DoRelease(s: State, c: nat, id: nat, pri: u32, delay: int, now: int): State
    requires InOrder(s) && Asks(s, c)
  {
    if !ReservedBy(s, id, c) then Reschedule(s, c)
    else
      ReleaseStarts(s, c, id, pri, delay, now);
      var s1 := TakeBack(s, id, c);
      Reschedule(Enqueue(SetJob(s1, id, s1.jobs[id].(pri := pri)), id, delay, now, {c}), c)
  }

  lemma ReleaseStarts(s: State, c: nat, id: nat, pri: u32, delay: int, now: int)
    requires InOrder(s) && Asks(s, c) && ReservedBy(s, id, c)
    ensures s.jobs[id].tube < |s.tubes|
    ensures var s1 := TakeBack(s, id, c);
            && id in s1.jobs
            && var s2 := SetJob(s1, id, s1.jobs[id].(pri := pri));
               && InHand(s2, id, {c}) && c in s2.conns
               && var s3 := Enqueue(s2, id, delay, now, {c});
                  Queued(s3, {c}) && Idle(s3) && c in s3.conns
  {
    hide Sound, SoonestRight, Idle, TakeBack, Enqueue;
    TakenBack(s, id, c, {});
    var s1 := TakeBack(s, id, c);
    TakeUp(s1, {id}, id, s1.jobs[id].(pri := pri), {c});
    EnqueueKeeps(SetJob(s1, id, s1.jobs[id].(pri := pri)), id, delay, now, {c});
  }

  lemma ReleaseKeeps(s: State, c: nat, id: nat, pri: u32, delay: int, now: int)
    requires InOrder(s) && Asks(s, c)
    ensures InOrder(DoRelease(s, c, id, pri, delay, now))
  {
    hide Sound, SoonestRight, Reschedule, Idle, TakeBack, Enqueue;
    assert {} - {c} == {} && {c} - {c} == {};
    if !ReservedBy(s, id, c) {
      AnswerQueued(s, c, {});
    } else {
      ReleaseStarts(s, c, id, pri, delay, now);
      var s1 := TakeBack(s, id, c);
      AnswerQueued(Enqueue(SetJob(s1, id, s1.jobs[id].(pri := pri)), id, delay, now, {c}), c, {c});
    }
  }

  function Buried(j: Job, pri: u32): Job {
    j.(pri := pri, state := BURIED, reservoir := None)
  }

  function DoBury(s: State, c: nat, id: nat, pri: u32): State
    requires c in s.conns && (id in s.jobs ==> s.jobs[id].tube < |s.tubes|)
  {
    if !ReservedBy(s, id, c) then Reschedule(s, c)
    else
      Reschedule(AddBuried(PutBuried(s, c, id, pri), id), c)
  }

  // The job is taken back and is buried, but not yet on a list.
  function PutBuried(s: State, c: nat, id: nat, pri: u32): (s': State)
    requires c in s.conns && id in s.jobs && s.jobs[id].tube < |s.tubes|
    ensures |s'.tubes| == |s.tubes| && c in s'.conns && s'.jobs == s.jobs[id := Buried(s.jobs[id], pri)]
  {
    SetJob(TakeBack(s, id, c), id, Buried(s.jobs[id], pri))
  }

  /** Burying a job keeps everything in order; the job is on the list of its tube afterwards if
      and only if that list was empty. */
  lemma BuryKeeps(s: State, c: nat, id: nat, pri: u32)
    requires InOrder(s) && Asks(s, c)
    ensures id in s.jobs ==> s.jobs[id].tube < |s.tubes|
    ensures InOrder(DoBury(s, c, id, pri))
    ensures ReservedBy(s, id, c) ==>
              var s' := DoBury(s, c, id, pri);
              && id in s'.jobs && s'.jobs[id] == Buried(s.jobs[id], pri)
              && (OnBuriedList(s', id) <==> s.tubes[s.jobs[id].tube].buried == [])
  {
    SoundPlaces(s, {});
    assert id in s.jobs ==> JobSound(s, {}, id);
    hide Sound, SoonestRight, Reschedule, Idle, TakeBack, AddBuried;
    assert {} - {c} == {} && {c} - {c} == {};
    if !ReservedBy(s, id, c) {
      AnswerQueued(s, c, {});
    } else {
      TakenBack(s, id, c, {});
      var s1, s2 := TakeBack(s, id, c), PutBuried(s, c, id, pri);
      PutDown(s1, id, s2, {c});
      AddBuriedQueued(s2, id, {c});
      AnswerQueued(AddBuried(s2, id), c, {c});
      BuriedWhenEmpty(s, c, id, pri);
    }
  }

  lemma BuriedWhenEmpty(s: State, c: nat, id: nat, pri: u32)
    requires BuriedPlaced(s, {}) && c in s.conns && id in s.jobs && s.jobs[id].tube < |s.tubes| &&
        s.jobs[id].state == RESERVED
    ensures var s3 := AddBuried(PutBuried(s, c, id, pri), id);
            && s3.jobs == s.jobs[id := Buried(s.jobs[id], pri)]
            && (OnBuriedList(s3, id) <==> s.tubes[s.jobs[id].tube].buried == [])
  {
    NotBuriedUnlisted(s, {}, id);
  }

  // A buried or delayed job becomes ready.
  ghost function DoKickJob(s: State, c: nat, id: nat, now: int): State
    requires InOrder(s) && Asks(s, c) && (id in s.jobs ==> AtRoot(s, id))
  {
    if id in s.jobs && (s.jobs[id].state == BURIED || s.jobs[id].state == DELAYED) then
      UnplacedInHand(s, id);
      EnqueueKeeps(Unplaced(s, id), id, 0, now, {});
      Reschedule(Enqueue(Unplaced(s, id), id, 0, now, {}), c)
    else Reschedule(s, c)
  }

  lemma KickJobKeeps(s: State, c: nat, id: nat, now: int)
    requires InOrder(s) && Asks(s, c) && (id in s.jobs ==> AtRoot(s, id))
    ensures InOrder(DoKickJob(s, c, id, now))
  {
    hide Sound, SoonestRight, Reschedule, Unplaced, Idle, Enqueue;
    assert {} - {c} == {};
    if id in s.jobs && (s.jobs[id].state == BURIED || s.jobs[id].state == DELAYED) {
      UnplacedInHand(s, id);
      EnqueueKeeps(Unplaced(s, id), id, 0, now, {});
      AnswerQueued(Enqueue(Unplaced(s, id), id, 0, now, {}), c, {});
    } else {
      AnswerQueued(s, c, {});
    }
  }

  // ---------- Kicking the jobs of a tube ----------

  // The job is at the root of its heap or on its list, and becomes ready.
  ghost predicate CanKick(s: State, id: nat) {
    AtRoot(s, id) && (s.jobs[id].state == BURIED || s.jobs[id].state == DELAYED)
  }

  ghost function KickOne(s: State, id: nat, now: int): State
    requires Queued(s, {}) && CanKick(s, id)
  {
    UnplacedInHand(s, id);
    Enqueue(Unplaced(s, id), id, 0, now, {})
  }

  lemma KickOneKeeps(s: State, id: nat, now: int)
    requires Queued(s, {}) && CanKick(s, id)
    ensures var s' := KickOne(s, id, now);
            && Queued(s', {}) && Idle(s') && |s'.tubes| == |s.tubes| && s'.conns.Keys == s.conns.Keys
            && s'.jobs.Keys == s.jobs.Keys && forall c :: Asks(s, c) ==> Asks(s', c)
  {
    hide Sound, SoonestRight, Unplaced, Idle, Enqueue;
    UnplacedInHand(s, id);
    EnqueueKeeps(Unplaced(s, id), id, 0, now, {});
  }

  lemma ListedCanBeKicked(s: State, t: nat)
    requires Queued(s, {}) && t < |s.tubes| && s.tubes[t].buried != []
    ensures CanKick(s, s.tubes[t].buried[0])
  {
    SoundPlaces(s, {});
    assert BuriedListSound(s, {}, t);
    assert s.tubes[t].buried[0] in s.tubes[t].buried;
  }

  lemma FirstDelayedCanBeKicked(s: State, t: nat)
    requires Queued(s, {}) && t < |s.tubes| && s.tubes[t].delay != []
    ensures CanKick(s, s.tubes[t].delay[0].id)
  {
    SoundPlaces(s, {});
    RootOfDelayed(s, {}, t);
  }

  // At most n jobs of the list of buried jobs become ready.
  ghost function KickBuried(s: State, t: nat, n: nat, now: int): (r: (State, nat))
    requires Queued(s, {}) && t < |s.tubes|
    decreases n
  {
    if n == 0 || s.tubes[t].buried == [] then (s, 0)
    else
      ListedCanBeKicked(s, t);
      KickOneKeeps(s, s.tubes[t].buried[0], now);
      var (s', k) := KickBuried(KickOne(s, s.tubes[t].buried[0], now), t, n - 1, now);
      (s', k + 1)
  }

  // At most n delayed jobs, those due first, become ready.
  ghost function KickDelayed(s: State, t: nat, n: nat, now: int): (r: (State, nat))
    requires Queued(s, {}) && t < |s.tubes|
    decreases n
  {
    if n == 0 || s.tubes[t].delay == [] then (s, 0)
    else
      FirstDelayedCanBeKicked(s, t);
      KickOneKeeps(s, s.tubes[t].delay[0].id, now);
      var (s', k) := KickDelayed(KickOne(s, s.tubes[t].delay[0].id, now), t, n - 1, now);
      (s', k + 1)
  }

  // What kicking the jobs of a tube keeps.
  ghost predicate Kicked(s: State, s': State) {
    && Queued(s', {}) && (Idle(s) ==> Idle(s')) && |s'.tubes| == |s.tubes| && s'.conns.Keys == s.conns.Keys
    && s'.jobs.Keys == s.jobs.Keys && forall c :: Asks(s, c) ==> Asks(s', c)
  }

  lemma {:induction false} KickBuriedEnds(s: State, t: nat, n: nat, now: int)
    requires Queued(s, {}) && t < |s.tubes|
    ensures var (s', k) := KickBuried(s, t, n, now);
            Kicked(s, s') && k <= n && (k < n ==> s'.tubes[t].buried == [])
    decreases n
  {
    hide Queued, Idle, KickOne, CanKick;
    if n > 0 && s.tubes[t].buried != [] {
      ListedCanBeKicked(s, t);
      KickOneKeeps(s, s.tubes[t].buried[0], now);
      KickBuriedEnds(KickOne(s, s.tubes[t].buried[0], now), t, n - 1, now);
    }
  }

  lemma {:induction false} KickDelayedEnds(s: State, t: nat, n: nat, now: int)
    requires Queued(s, {}) && t < |s.tubes|
    ensures var (s', k) := KickDelayed(s, t, n, now);
            Kicked(s, s') && k <= n && (k < n ==> s'.tubes[t].delay == [])
    decreases n
  {
    hide Queued, Idle, KickOne, CanKick;
    if n > 0 && s.tubes[t].delay != [] {
      FirstDelayedCanBeKicked(s, t);
      KickOneKeeps(s, s.tubes[t].delay[0].id, now);
      KickDelayedEnds(KickOne(s, s.tubes[t].delay[0].id, now), t, n - 1, now);
    }
  }

  // Buried jobs are kicked if there are any on the list, else delayed ones.
  ghost function KickJobs(s: State, t: nat, n: nat, now: int): (State, nat)
    requires Queued(s, {}) && t < |s.tubes|
  {
    if s.tubes[t].buried != [] then KickBuried(s, t, n, now) else KickDelayed(s, t, n, now)
  }

  ghost function DoKick(s: State, c: nat, t: nat, n: nat, now: int): State
    requires InOrder(s) && Asks(s, c) && t < |s.tubes|
  {
    KickJobsEnds(s, t, n, now);
    Reschedule(KickJobs(s, t, n, now).0, c)
  }

  /** Kicking up to n jobs of a tube: fewer are kicked only when no more are to be found. */
  lemma KickJobsEnds(s: State, t: nat, n: nat, now: int)
    requires Queued(s, {}) && t < |s.tubes|
    ensures var (s', k) := KickJobs(s, t, n, now);
            && Kicked(s, s') && k <= n
            && (k < n ==> if s.tubes[t].buried != [] then s'.tubes[t].buried == [] else s'.tubes[t].delay == [])
  {
    hide Queued, Kicked;
    KickBuriedEnds(s, t, n, now);
    KickDelayedEnds(s, t, n, now);
  }

  lemma KickKeeps(s: State, c: nat, t: nat, n: nat, now: int)
    requires InOrder(s) && Asks(s, c) && t < |s.tubes|
    ensures InOrder(DoKick(s, c, t, n, now))
  {
    hide Queued, Idle, Reschedule, KickJobs;
    assert {} - {c} == {};
    KickJobsEnds(s, t, n, now);
    AnswerQueued(KickJobs(s, t, n, now).0, c, {});
  }

  // ---------- Touching a job ----------

  // A reserved job gets its full time again, and its connection forgets which is the soonest.
  function Touched(s: State, c: nat, id: nat, now: int): State
    requires c in s.conns && id in s.jobs
  {
    SetConn(SetJob(s, id, s.jobs[id].(deadline := now + s.jobs[id].ttr)), c, s.conns[c].(soonest := None))
  }

  function DoTouch(s: State, c: nat, id: nat, now: int): State
    requires c in s.conns
  {
    if !ReservedBy(s, id, c) then Reschedule(s, c) else Reschedule(Touched(s, c, id, now), c)
  }

  lemma TouchedPlaces(s: State, c: nat, id: nat, now: int)
    requires Sound(s, {}) && c in s.conns && ReservedBy(s, id, c)
    ensures var s' := Touched(s, c, id, now);
            && JobsSound(s', {}) && ReadyPlaced(s', {}) && DelayedPlaced(s', {}) && ReservedPlaced(s', {})
            && WaitingPlaced(s') && WatchesTubes(s') && BuriedPlaced(s', {})
  {
    hide Ordered, CountersRight, BuriedListSound, Unlisted;
    var s' := Touched(s, c, id, now);
    NotBuriedUnlisted(s, {}, id);
    BuriedMoves(s, {}, s', {}, id);
    assert forall t, e :: 0 <= t < |s'.tubes| ==> ReadyTimes(s', t, e) == ReadyTimes(s, t, e);
    ReadyMoves(s, {}, s', {}, id);
    assert forall t, e :: 0 <= t < |s'.tubes| ==> DelayedTimes(s', t, e) == DelayedTimes(s, t, e);
    DelayedMoves(s, {}, s', {}, id);
    assert forall k, i :: k in s'.conns ==> ReservedTimes(s', k, i) == ReservedTimes(s, k, i);
    ReservedMoves(s, {}, s', {}, id);
    SameWaiting(s, s');
    forall k | k in s'.jobs
      ensures JobSound(s', {}, k)
    {
      assert JobSound(s, {}, k);
    }
  }

  lemma TouchedCounters(s: State, c: nat, id: nat, now: int)
    requires CountersRight(s, {}) && c in s.conns && ReservedBy(s, id, c)
    ensures CountersRight(Touched(s, c, id, now), {})
  {
    hide CountersRight;
    CountersMove(s, {}, Touched(s, c, id, now), {}, id);
  }

  lemma TouchedSoonest(s: State, c: nat, id: nat, now: int)
    requires SoonestRight(s, {}) && ReservedPlaced(s, {}) && Asks(s, c) && ReservedBy(s, id, c)
    ensures SoonestRight(Touched(s, c, id, now), {c}) && NotWaiting(Touched(s, c, id, now), {c})
  {
    var s' := Touched(s, c, id, now);
    forall k | k in s'.conns
      ensures SoonestRightFor(s', k, k in {c})
    {
      assert SoonestRightFor(s, k, k in {});
      OnListIsReserved(s, {}, id, k);
    }
  }

  lemma TouchKeeps(s: State, c: nat, id: nat, now: int)
    requires InOrder(s) && Asks(s, c)
    ensures InOrder(DoTouch(s, c, id, now))
  {
    assert {} - {c} == {} && {c} - {c} == {};
    if !ReservedBy(s, id, c) {
      hide Sound, SoonestRight, Reschedule, Idle;
      AnswerQueued(s, c, {});
    } else {
      SoundPlaces(s, {});
      TouchedPlaces(s, c, id, now);
      TouchedCounters(s, c, id, now);
      TouchedSoonest(s, c, id, now);
      hide ReadyPlaced, DelayedPlaced, ReservedPlaced, CountersRight, WaitingPlaced, WatchesTubes, JobsSound,
          SoonestRight, Reschedule, BuriedPlaced;
      AnswerQueued(Touched(s, c, id, now), c, {c});
    }
  }

  // ---------- Watching, pausing ----------

  // A connection that does not wait changes the tubes it watches.
  function Watching(s: State, c: nat, watch: seq<nat>): State
    requires c in s.conns
  {
    SetConn(s, c, s.conns[c].(watch := watch))
  }

  function DoWatch(s: State, c: nat, t: nat): State
    requires c in s.conns
  {
    var watch := s.conns[c].watch;
    Reschedule(Watching(s, c, if t in watch then watch else watch + [t]), c)
  }

  // The last tube watched is not ignored.
  function DoIgnore(s: State, c: nat, t: nat): State
    requires c in s.conns
  {
    var watch := s.conns[c].watch;
    Reschedule(Watching(s, c, if t in watch && |watch| < 2 then watch else RemoveFirst(watch, t)), c)
  }

  lemma WatchingPlaced(s: State, c: nat, watch: seq<nat>)
    requires Sound(s, {}) && Asks(s, c) && NoRepeats(watch) && forall t :: t in watch ==> t < |s.tubes|
    ensures WaitingPlaced(Watching(s, c, watch)) && WatchesTubes(Watching(s, c, watch))
  {
    var s' := Watching(s, c, watch);
    assert Waiters(s') == Waiters(s);
    forall t, k | 0 <= t < |s'.tubes|
      ensures WaitingTimes(s', t, k) == Times(IsWaitingOn(s', t, k))
    {
      assert WaitingTimes(s, t, k) == Times(IsWaitingOn(s, t, k));
    }
  }

  lemma WatchingJobs(s: State, c: nat, watch: seq<nat>)
    requires Sound(s, {}) && c in s.conns
    ensures var s' := Watching(s, c, watch);
            && JobsSound(s', {}) && ReadyPlaced(s', {}) && DelayedPlaced(s', {}) && ReservedPlaced(s', {})
            && CountersRight(s', {})
            && BuriedPlaced(s', {})
  {
    var s' := Watching(s, c, watch);
    hide Ordered;
    SameJobsBuried(s, s');
    assert forall t, e :: 0 <= t < |s'.tubes| ==> ReadyTimes(s', t, e) == ReadyTimes(s, t, e);
    ReadyMoves(s, {}, s', {}, 0);
    assert forall t, e :: 0 <= t < |s'.tubes| ==> DelayedTimes(s', t, e) == DelayedTimes(s, t, e);
    DelayedMoves(s, {}, s', {}, 0);
    assert forall k, i :: k in s'.conns ==> ReservedTimes(s', k, i) == ReservedTimes(s, k, i);
    ReservedMoves(s, {}, s', {}, 0);
    WatchingCounters(s, s');
    forall k | k in s'.jobs
      ensures JobSound(s', {}, k)
    {
      assert JobSound(s, {}, k);
    }
  }

  lemma SameJobsBuried(s: State, s': State)
    requires BuriedPlaced(s, {}) && s'.jobs == s.jobs && |s'.tubes| >= |s.tubes|
    requires forall t :: 0 <= t < |s'.tubes| ==> s'.tubes[t].buried == if t < |s.tubes| then s.tubes[t].buried else []
    ensures BuriedPlaced(s', {})
  {
    forall t | 0 <= t < |s'.tubes|
      ensures BuriedListSound(s', {}, t)
    {
      assert t < |s.tubes| ==> BuriedListSound(s, {}, t);
    }
  }

  lemma WatchingCounters(s: State, s': State)
    requires CountersRight(s, {}) && s'.jobs == s.jobs && s'.tubes == s.tubes
    requires s'.readyCt == s.readyCt && s'.urgentCt == s.urgentCt && s'.reservedCt == s.reservedCt
    ensures CountersRight(s', {})
  {
    hide CountersRight;
    CountersMove(s, {}, s', {}, 0);
  }

  lemma WatchingQueued(s: State, c: nat, watch: seq<nat>)
    requires InOrder(s) && Asks(s, c) && NoRepeats(watch) && forall t :: t in watch ==> t < |s.tubes|
    ensures var s' := Watching(s, c, watch);
            InOrder(s') && InOrder(Reschedule(s', c))
  {
    var s' := Watching(s, c, watch);
    WatchingPlaced(s, c, watch);
    WatchingJobs(s, c, watch);
    SameSoonest(s, s', {});
    assert {} - {c} == {};
    hide ReadyPlaced, DelayedPlaced, ReservedPlaced, CountersRight, WaitingPlaced, WatchesTubes, JobsSound,
        SoonestRight, Reschedule, BuriedPlaced;
    AnswerQueued(s', c, {});
  }

  lemma {:induction false} RemoveFirstNoRepeats(xs: seq<nat>, x: nat)
    requires NoRepeats(xs)
    ensures NoRepeats(RemoveFirst(xs, x)) && forall y :: y in RemoveFirst(xs, x) ==> y in xs
  {
    if xs != [] && xs[0] != x {
      var rest := xs[1..];
      assert NoRepeats(rest);
      RemoveFirstNoRepeats(rest, x);
      var r := RemoveFirst(rest, x);
      forall i, j | 0 <= i < j < |[xs[0]] + r|
        ensures ([xs[0]] + r)[i] != ([xs[0]] + r)[j]
      {
        assert r[j - 1] in r;
      }
    }
  }

  lemma WatchKeeps(s: State, c: nat, t: nat)
    requires InOrder(s) && Asks(s, c) && t < |s.tubes|
    ensures InOrder(DoWatch(s, c, t))
  {
    SoundPlaces(s, {});
    var watch := s.conns[c].watch;
    WatchingQueued(s, c, if t in watch then watch else watch + [t]);
  }

  lemma IgnoreKeeps(s: State, c: nat, t: nat)
    requires InOrder(s) && Asks(s, c)
    ensures InOrder(DoIgnore(s, c, t))
  {
    SoundPlaces(s, {});
    var watch := s.conns[c].watch;
    RemoveFirstNoRepeats(watch, t);
    WatchingQueued(s, c, if t in watch && |watch| < 2 then watch else RemoveFirst(watch, t));
  }

  function PausedTube(s: State, t: nat, delay: int, now: int): State
    requires t < |s.tubes|
  {
    var d := if delay == 0 then 1 else delay;
    SetTube(s, t, s.tubes[t].(pause := d, unpauseAt := now + d))
  }

  lemma PauseKeeps(s: State, c: nat, t: nat, delay: int, now: int)
    requires InOrder(s) && Asks(s, c) && t < |s.tubes| && delay >= 0
    ensures InOrder(Reschedule(PausedTube(s, t, delay, now), c))
  {
    var s' := PausedTube(s, t, delay, now);
    assert SameJobs(s, s');
    SameWaiting(s, s');
    SameSoonest(s, s', {});
    assert {} - {c} == {};
    hide Sound, SoonestRight, Reschedule;
    SameJobsSound(s, s', {});
    AnswerQueued(s', c, {});
  }

  // ---------- Connections that come and go, and tubes ----------

  // One turn of the loop that enqueues a leaving connection's reserved jobs.
  lemma EnqueueFirst(s: State, c: nat, now: int)
    requires Queued(s, {c}) && Asks(s, c) && s.conns[c].reserved != []
    ensures var id := s.conns[c].reserved[0];
            && ReservedBy(s, id, c) && s.jobs[id].tube < |s.tubes| && InHand(TakeBack(s, id, c), id, {c})
            && var s' := Enqueue(TakeBack(s, id, c), id, 0, now, {c});
               && Queued(s', {c}) && Idle(s') && Asks(s', c) && |s'.conns[c].reserved| < |s.conns[c].reserved|
               && s'.conns.Keys == s.conns.Keys && s'.jobs.Keys == s.jobs.Keys && |s'.tubes| == |s.tubes|
  {
    var id := s.conns[c].reserved[0];
    SoundPlaces(s, {});
    assert id in s.conns[c].reserved;
    OnListIsReserved(s, {}, id, c);
    hide Sound, SoonestRight, Idle, TakeBack, Enqueue;
    TakenBack(s, id, c, {c});
    var s1 := TakeBack(s, id, c);
    EnqueueKeeps(s1, id, 0, now, {c});
    assert id in s.jobs && s1.jobs.Keys == s.jobs.Keys;
  }

  // The jobs of a leaving connection go back to their tubes one by one.
  ghost function EnqueueReserved(s: State, c: nat, now: int): State
    requires Queued(s, {c}) && Asks(s, c)
    decreases |s.conns[c].reserved|
  {
    if s.conns[c].reserved == [] then s
    else
      EnqueueFirst(s, c, now);
      var id := s.conns[c].reserved[0];
      EnqueueReserved(Enqueue(TakeBack(s, id, c), id, 0, now, {c}), c, now)
  }

  lemma {:induction false} EnqueueReservedEnds(s: State, c: nat, now: int)
    requires Queued(s, {c}) && Asks(s, c)
    ensures var s' := EnqueueReserved(s, c, now);
            && Queued(s', {c}) && Asks(s', c) && s'.conns[c].reserved == [] && (Idle(s) ==> Idle(s'))
            && s'.jobs.Keys == s.jobs.Keys && s'.conns.Keys == s.conns.Keys && |s'.tubes| == |s.tubes|
    decreases |s.conns[c].reserved|
  {
    hide Queued, Idle, TakeBack, Enqueue, InHand;
    if s.conns[c].reserved != [] {
      EnqueueFirst(s, c, now);
      var id := s.conns[c].reserved[0];
      EnqueueReservedEnds(Enqueue(TakeBack(s, id, c), id, 0, now, {c}), c, now);
    }
  }

  /** A waiting connection that hangs up waits no longer, and keeps its reserved jobs. */
  lemma HangUpKeeps(s: State, c: nat)
    requires InOrder(s) && c in s.conns
    ensures c in StopWaiting(s, c).conns && InOrder(Reschedule(StopWaiting(s, c), c))
  {
    hide Sound, SoonestRight, Idle, StopWaiting, Reschedule;
    assert {c} - {c} == {};
    StoppedQueued(s, c);
    AnswerQueued(StopWaiting(s, c), c, {c});
  }

  function Gone(s: State, c: nat): State {
    s.(conns := s.conns - {c})
  }

  ghost function DoDisconnect(s: State, c: nat, now: int): State
    requires InOrder(s) && c in s.conns
  {
    StoppedQueued(s, c);
    Gone(EnqueueReserved(StopWaiting(s, c), c, now), c)
  }

  lemma StopWaitingRest(s: State, c: nat)
    requires c in s.conns && NotWaiting(s, {})
    ensures var s' := StopWaiting(s, c);
            && s'.jobs == s.jobs && s'.conns.Keys == s.conns.Keys && |s'.tubes| == |s.tubes|
            && s'.conns[c].reserved == s.conns[c].reserved && s'.conns[c].soonest == s.conns[c].soonest
            && !s'.conns[c].waiting
            && (forall k :: k in s.conns && k != c ==> s'.conns[k] == s.conns[k])
            && (Idle(s) ==> Idle(s'))
  {
  }

  lemma StoppedQueued(s: State, c: nat)
    requires Queued(s, {}) && c in s.conns
    ensures Queued(StopWaiting(s, c), {c}) && Asks(StopWaiting(s, c), c) && (Idle(s) ==> Idle(StopWaiting(s, c)))
    ensures StopWaiting(s, c).jobs == s.jobs && StopWaiting(s, c).conns.Keys == s.conns.Keys
    ensures |StopWaiting(s, c).tubes| == |s.tubes|
  {
    StopWaitingRest(s, c);
    SameSoonest(s, StopWaiting(s, c), {});
    hide Sound, StopWaiting, SoonestRight;
    StopWaitingSound(s, {}, c);
    StaleMore(StopWaiting(s, c), {}, {c});
  }

  lemma GonePlaced(s: State, c: nat)
    requires Sound(s, {}) && Asks(s, c) && s.conns[c].reserved == []
    ensures var s' := Gone(s, c);
            && JobsSound(s', {}) && ReadyPlaced(s', {}) && DelayedPlaced(s', {}) && ReservedPlaced(s', {})
            && WaitingPlaced(s') && WatchesTubes(s') && BuriedPlaced(s', {})
  {
    var s' := Gone(s, c);
    hide Ordered;
    SameJobsBuried(s, s');
    assert forall t, e :: 0 <= t < |s'.tubes| ==> ReadyTimes(s', t, e) == ReadyTimes(s, t, e);
    ReadyMoves(s, {}, s', {}, 0);
    assert forall t, e :: 0 <= t < |s'.tubes| ==> DelayedTimes(s', t, e) == DelayedTimes(s, t, e);
    DelayedMoves(s, {}, s', {}, 0);
    forall k, i | k in s'.conns
      ensures ReservedTimes(s', k, i) == Times(IsReserved(s', {}, k, i))
    {
      assert ReservedTimes(s, k, i) == Times(IsReserved(s, {}, k, i));
    }
    forall k | k in s'.jobs
      ensures JobSound(s', {}, k)
    {
      assert JobSound(s, {}, k);
      OnListIsReserved(s, {}, k, c);
    }
    assert Waiters(s') == Waiters(s);
    forall t, k | 0 <= t < |s'.tubes|
      ensures WaitingTimes(s', t, k) == Times(IsWaitingOn(s', t, k))
    {
      assert WaitingTimes(s, t, k) == Times(IsWaitingOn(s, t, k));
    }
  }

  lemma GoneSoonest(s: State, c: nat)
    requires SoonestRight(s, {c})
    ensures SoonestRight(Gone(s, c), {})
  {
    forall k | k in Gone(s, c).conns
      ensures SoonestRightFor(Gone(s, c), k, k in {})
    {
      assert SoonestRightFor(s, k, k in {c});
    }
  }

  lemma GoneQueued(s: State, c: nat)
    requires Queued(s, {c}) && Asks(s, c) && s.conns[c].reserved == []
    ensures Queued(Gone(s, c), {}) && (Idle(s) ==> Idle(Gone(s, c)))
  {
    GonePlaced(s, c);
    SoundPlaces(s, {});
    WatchingCounters(s, Gone(s, c));
    GoneSoonest(s, c);
  }

  lemma DisconnectKeeps(s: State, c: nat, now: int)
    requires InOrder(s) && c in s.conns
    ensures InOrder(DoDisconnect(s, c, now))
    ensures DoDisconnect(s, c, now).jobs.Keys == s.jobs.Keys && c !in DoDisconnect(s, c, now).conns
  {
    hide Sound, SoonestRight, NotWaiting, Idle, StopWaiting, EnqueueReserved;
    StoppedQueued(s, c);
    EnqueueReservedEnds(StopWaiting(s, c), c, now);
    GoneQueued(EnqueueReserved(StopWaiting(s, c), c, now), c);
  }

  function NewConn(t: nat): Conn {
    Conn([t], false, [], None)
  }

  lemma ConnectKeeps(s: State, c: nat, t: nat)
    requires InOrder(s) && c !in s.conns && t < |s.tubes|
    ensures InOrder(SetConn(s, c, NewConn(t)))
  {
    var s' := SetConn(s, c, NewConn(t));
    ConnectPlaced(s, c, t);
    WatchingCounters(s, s');
    forall k | k in s'.conns
      ensures SoonestRightFor(s', k, k in {})
    {
      assert k != c ==> SoonestRightFor(s, k, k in {});
    }
  }

  lemma ConnectPlaced(s: State, c: nat, t: nat)
    requires Sound(s, {}) && c !in s.conns && t < |s.tubes|
    ensures var s' := SetConn(s, c, NewConn(t));
            && JobsSound(s', {}) && ReadyPlaced(s', {}) && DelayedPlaced(s', {}) && ReservedPlaced(s', {})
            && WaitingPlaced(s') && WatchesTubes(s') && BuriedPlaced(s', {})
  {
    var s' := SetConn(s, c, NewConn(t));
    hide Ordered;
    SameJobsBuried(s, s');
    assert forall t, e :: 0 <= t < |s'.tubes| ==> ReadyTimes(s', t, e) == ReadyTimes(s, t, e);
    ReadyMoves(s, {}, s', {}, 0);
    assert forall t, e :: 0 <= t < |s'.tubes| ==> DelayedTimes(s', t, e) == DelayedTimes(s, t, e);
    DelayedMoves(s, {}, s', {}, 0);
    forall k | k in s'.jobs
      ensures JobSound(s', {}, k)
    {
      assert JobSound(s, {}, k);
    }
    forall k, i | k in s'.conns
      ensures ReservedTimes(s', k, i) == Times(IsReserved(s', {}, k, i))
    {
      if k != c {
        assert ReservedTimes(s, k, i) == Times(IsReserved(s, {}, k, i));
      } else if i in s.jobs {
        assert JobSound(s, {}, i);
      }
    }
    assert Waiters(s') == Waiters(s);
    forall u, k | 0 <= u < |s'.tubes|
      ensures WaitingTimes(s', u, k) == Times(IsWaitingOn(s', u, k))
    {
      assert WaitingTimes(s, u, k) == Times(IsWaitingOn(s, u, k));
    }
  }

  const EMPTY_TUBE: Tube := Tube([], [], [], [], 0, 0, 0, 0, 0, 0)

  function WithNewTube(s: State): State {
    s.(tubes := s.tubes + [EMPTY_TUBE])
  }

  lemma NewTubePlaced(s: State)
    requires Sound(s, {})
    ensures var s' := WithNewTube(s);
            && JobsSound(s', {}) && ReadyPlaced(s', {}) && DelayedPlaced(s', {}) && ReservedPlaced(s', {})
            && WaitingPlaced(s') && WatchesTubes(s') && BuriedPlaced(s', {})
  {
    var s' := WithNewTube(s);
    SameJobsBuried(s, s');
    forall t, e | 0 <= t < |s'.tubes|
      ensures ReadyTimes(s', t, e) == Times(IsReady(s', {}, t, e))
          && DelayedTimes(s', t, e) == Times(IsDelayed(s', {}, t, e))
    {
      if t < |s.tubes| {
        assert ReadyTimes(s, t, e) == Times(IsReady(s, {}, t, e)) && DelayedTimes(s, t, e) == Times(IsDelayed(s, {}, t,
            e));
      } else if e.id in s.jobs {
        assert JobSound(s, {}, e.id);
      }
    }
    forall k, i | k in s'.conns
      ensures ReservedTimes(s', k, i) == Times(IsReserved(s', {}, k, i))
    {
      assert ReservedTimes(s, k, i) == Times(IsReserved(s, {}, k, i));
    }
    forall k | k in s'.jobs
      ensures JobSound(s', {}, k)
    {
      assert JobSound(s, {}, k);
    }
    assert Waiters(s') == Waiters(s);
    forall t, k | 0 <= t < |s'.tubes|
      ensures WaitingTimes(s', t, k) == Times(IsWaitingOn(s', t, k))
    {
      if t < |s.tubes| {
        assert WaitingTimes(s, t, k) == Times(IsWaitingOn(s, t, k));
      }
    }
  }

  lemma NewTubeCounters(s: State)
    requires Sound(s, {})
    ensures CountersRight(WithNewTube(s), {})
  {
    var s' := WithNewTube(s);
    forall k | Counted(s', k)
      ensures Counter(s', k) == |Members(s', {}, k)|
    {
      assert Members(s', {}, k) == Members(s, {}, k);
      if Counted(s, k) {
        assert Counter(s, k) == |Members(s, {}, k)|;
      } else {
        forall id | id in s.jobs
          ensures !Is(s.jobs[id], k)
        {
          assert JobSound(s, {}, id);
        }
        assert Members(s, {}, k) == {};
      }
    }
  }

  lemma MakeTubeKeeps(s: State)
    requires InOrder(s)
    ensures InOrder(WithNewTube(s))
  {
    NewTubePlaced(s);
    NewTubeCounters(s);
    SameSoonestTubes(s, WithNewTube(s));
  }

  lemma SameSoonestTubes(s: State, s': State)
    requires SoonestRight(s, {}) && s'.jobs == s.jobs && s'.conns == s.conns
    ensures SoonestRight(s', {})
  {
    SameSoonest(s, s', {});
  }

  // ---------- Ticks ----------

  // The clock is looked at: delayed jobs whose time has come are made ready, and pauses that
  // are over end.
  ghost function DoTick(s: State, now: int): State
    requires InOrder(s)
  {
    PromoteDueEnds(s, now, {});
    UnpauseFrom(PromoteDue(s, now, {}), 0, now, {})
  }

  lemma PromoteIdle(s: State, now: int, stale: set<nat>)
    requires Queued(s, stale) && Idle(s)
    ensures Idle(PromoteDue(s, now, stale))
    decreases |DelayedJobs(s)|
  {
    hide Queued, Promoted, Distributed, SoonestDelayed, Drained, NoneDue, ProcessQueue, Idle;
    if IsDue(s, now) {
      PromotionQueued(s, now, stale);
      var s1 := Promoted(s, now);
      ProcessQueueDrains(s1, now, stale);
      DrainedIsIdle(ProcessQueue(s1, now, stale), now);
      PromoteIdle(ProcessQueue(s1, now, stale), now, stale);
    }
  }

  lemma IdleUnpaused(s: State, now: int)
    requires Idle(s)
    ensures UnpausedTo(s, 0, now)
  {
  }

  lemma UnpausedIsDrained(s: State, now: int)
    requires UnpausedTo(s, |s.tubes|, now)
    ensures Drained(s, now)
  {
  }

  /** After a tick no delayed job's time has come, no pause is over, and nothing can be handed
      out; no job and no connection is lost. */
  lemma TickKeeps(s: State, now: int)
    requires InOrder(s)
    ensures var s' := DoTick(s, now);
            && InOrder(s') && NoneDue(s', now) && Drained(s', now)
            && (forall t :: 0 <= t < |s'.tubes| && s'.tubes[t].pause > 0 ==> s'.tubes[t].unpauseAt > now)
            && s'.jobs.Keys == s.jobs.Keys && s'.conns.Keys == s.conns.Keys
  {
    hide Queued, Idle, PromoteDue, UnpauseFrom, NoneDue, Drained;
    PromoteDueEnds(s, now, {});
    PromoteIdle(s, now, {});
    var s1 := PromoteDue(s, now, {});
    IdleUnpaused(s1, now);
    UnpauseEnds(s1, 0, now, {});
    var s2 := UnpauseFrom(s1, 0, now, {});
    UnpausedIsDrained(s2, now);
    DrainedIsIdle(s2, now);
  }

  // How long the server may sleep at most: an hour.
  const DEFAULT_PERIOD := 0x34630B8A000

  // Until the first delayed job is due.
  function DelayPeriod(tubes: seq<Tube>, now: int): int {
    var e := SoonestDelayed(tubes, |tubes|);
    if e.Some? && e.value.key - now < DEFAULT_PERIOD then e.value.key - now else DEFAULT_PERIOD
  }

  // And until the first pause of the tubes before k ends that has not ended yet.
  function PausePeriod(tubes: seq<Tube>, k: nat, now: int, start: int): (p: int)
    requires k <= |tubes|
    ensures p <= start && (start > 0 ==> p > 0)
    ensures forall t :: 0 <= t < k && tubes[t].unpauseAt > now ==> now + p <= tubes[t].unpauseAt
  {
    if k == 0 then start
    else
      var p, d := PausePeriod(tubes, k - 1, now, start), tubes[k - 1].unpauseAt - now;
      if 0 < d < p then d else p
  }

  // The time a tick lets the server sleep.
  ghost function TickPeriod(s: State, now: int): int
    requires InOrder(s)
  {
    var s1 := PromoteDue(s, now, {});
    PausePeriod(s1.tubes, |s1.tubes|, now, DelayPeriod(s1.tubes, now))
  }

  lemma NothingDueBefore(s: State, now: int)
    requires Queued(s, {}) && NoneDue(s, now)
    ensures var p := DelayPeriod(s.tubes, now);
            0 < p <= DEFAULT_PERIOD && NoneDue(s, now + p - 1)
  {
    var e := SoonestDelayed(s.tubes, |s.tubes|);
    if e.Some? {
      SoonestIsDelayed(s, {});
      assert IsDelayed(s, {}, s.jobs[e.value.id].tube, e.value);
    }
    NotDueNone(s, now + DelayPeriod(s.tubes, now) - 1, {});
  }

  lemma NoneDueEarlier(s: State, a: int, b: int)
    requires NoneDue(s, a) && b <= a
    ensures NoneDue(s, b)
  {
  }

  /** The server does not oversleep: between a tick and the end of the time it returns no delayed
      job becomes due and no pause ends. */
  lemma TickPeriodIsSafe(s: State, now: int)
    requires InOrder(s)
    ensures var s', p := DoTick(s, now), TickPeriod(s, now);
            && 0 < p <= DEFAULT_PERIOD && NoneDue(s', now + p - 1)
            && forall t :: 0 <= t < |s'.tubes| && s'.tubes[t].pause > 0 ==> now + p <= s'.tubes[t].unpauseAt
  {
    hide Queued, Idle, PromoteDue, UnpauseFrom, NoneDue, Drained, DelayPeriod;
    PromoteDueEnds(s, now, {});
    PromoteIdle(s, now, {});
    var s1 := PromoteDue(s, now, {});
    NothingDueBefore(s1, now);
    IdleUnpaused(s1, now);
    UnpauseEnds(s1, 0, now, {});
    NoneDueEarlier(s1, now + DelayPeriod(s1.tubes, now) - 1, now + TickPeriod(s, now) - 1);
    TickKeeps(s, now);
  }

  // ---------- Runs ----------

  /** One command at time now. */
  ghost function Execute(s: State, cmd: Command, now: int): State
    requires InOrder(s) && Valid(s, cmd)
  {
    match cmd
    case Connect(c, t) => SetConn(s, c, NewConn(t))
    case Disconnect(c) => DoDisconnect(s, c, now)
    case HangUp(c) => HangUpKeeps(s, c); Reschedule(StopWaiting(s, c), c)
    case MakeTube => WithNewTube(s)
    case Put(c, id, t, pri, ttr, delay) => DoPut(s, c, id, Job(t, pri, ttr, INVALID, 0, None), delay, now)
    case Reserve(c) => DoReserve(s, c, now)
    case ReserveJob(c, id) => DoReserveJob(s, c, id, now)
    case Delete(c, id) => DoDelete(s, c, id)
    case Release(c, id, pri, delay) => DoRelease(s, c, id, pri, delay, now)
    case Bury(c, id, pri) => BuryKeeps(s, c, id, pri); DoBury(s, c, id, pri)
    case KickJob(c, id) => DoKickJob(s, c, id, now)
    case Kick(c, t, n) => DoKick(s, c, t, n, now)
    case Touch(c, id) => DoTouch(s, c, id, now)
    case Watch(c, t) => DoWatch(s, c, t)
    case Ignore(c, t) => DoIgnore(s, c, t)
    case Pause(c, t, delay) => Reschedule(PausedTube(s, t, delay, now), c)
    case Tick => DoTick(s, now)
  }

  /** Every command leaves every job in exactly one place, every waiting connection on exactly
      the tubes it watches, every counter right, every connection knowing its soonest job, and
      no tube without a pause with both a ready job and a connection waiting. */
  lemma ExecuteKeeps(s: State, cmd: Command, now: int)
    requires InOrder(s) && Valid(s, cmd)
    ensures InOrder(Execute(s, cmd, now))
  {
    hide InOrder, AtRoot, DoPut, DoReserve, DoReserveJob, DoDelete, DoRelease, DoBury, DoKickJob, DoTouch, DoWatch,
        DoIgnore, DoDisconnect, DoTick, DoKick, Reschedule, PausedTube, StopWaiting;
    match cmd
    case Connect(c, t) => ConnectKeeps(s, c, t);
    case Disconnect(c) => DisconnectKeeps(s, c, now);
    case HangUp(c) => HangUpKeeps(s, c);
    case MakeTube => MakeTubeKeeps(s);
    case Put(c, id, t, pri, ttr, delay) => PutKeeps(s, c, id, Job(t, pri, ttr, INVALID, 0, None), delay, now);
    case Reserve(c) => ReserveKeeps(s, c, now);
    case ReserveJob(c, id) => ReserveJobKeeps(s, c, id, now);
    case Delete(c, id) => DeleteKeeps(s, c, id);
    case Release(c, id, pri, delay) => ReleaseKeeps(s, c, id, pri, delay, now);
    case Bury(c, id, pri) => BuryKeeps(s, c, id, pri);
    case KickJob(c, id) => KickJobKeeps(s, c, id, now);
    case Kick(c, t, n) => KickKeeps(s, c, t, n, now);
    case Touch(c, id) => TouchKeeps(s, c, id, now);
    case Watch(c, t) => WatchKeeps(s, c, t);
    case Ignore(c, t) => IgnoreKeeps(s, c, t);
    case Pause(c, t, delay) => PauseKeeps(s, c, t, delay, now);
    case Tick => TickKeeps(s, now);
  }

  // A run: commands, each with the time at which it is served.
  ghost predicate Admissible(s: State, run: seq<(Command, int)>)
    requires InOrder(s)
    decreases |run|
  {
    hide InOrder, Valid, Execute;
    run == [] ||
    (Valid(s, run[0].0) &&
     (ExecuteKeeps(s, run[0].0, run[0].1); Admissible(Execute(s, run[0].0, run[0].1), run[1..])))
  }

  ghost function Run(s: State, run: seq<(Command, int)>): State
    requires InOrder(s) && Admissible(s, run)
    decreases |run|
  {
    hide InOrder, Valid, Execute;
    if run == [] then s
    else
      ExecuteKeeps(s, run[0].0, run[0].1);
      Run(Execute(s, run[0].0, run[0].1), run[1..])
  }

  const EMPTY: State := State([EMPTY_TUBE], map[], map[], 0, 0, 0, 0)

  lemma EmptyInOrder()
    ensures InOrder(EMPTY)
  {
    forall k | Counted(EMPTY, k)
      ensures Counter(EMPTY, k) == |Members(EMPTY, {}, k)|
    {
      assert Members(EMPTY, {}, k) == {};
    }
    assert Waiters(EMPTY) == {};
  }

  lemma {:induction false} RunInOrder(s: State, run: seq<(Command, int)>)
    requires InOrder(s) && Admissible(s, run)
    ensures InOrder(Run(s, run))
    decreases |run|
  {
    hide InOrder, Valid, Execute;
    if run != [] {
      ExecuteKeeps(s, run[0].0, run[0].1);
      RunInOrder(Execute(s, run[0].0, run[0].1), run[1..]);
    }
  }

  // ---------- What being in order means for one job and for one connection ----------

  ghost predicate InReadyHeap(s: State, t: nat, id: nat) {
    t < |s.tubes| && exists e :: e in s.tubes[t].ready && e.id == id
  }

  ghost predicate InDelayHeap(s: State, t: nat, id: nat) {
    t < |s.tubes| && exists e :: e in s.tubes[t].delay && e.id == id
  }

  ghost predicate OnListIn(s: State, t: nat, id: nat) {
    t < |s.tubes| && id in s.tubes[t].buried
  }

  ghost predicate OnListOf(s: State, c: nat, id: nat) {
    c in s.conns && id in s.conns[c].reserved
  }

  /** One place for each job, and its state and its connection name the place: a ready job is
      in the heap of ready jobs of its tube and nowhere else, a delayed one in the heap of
      delayed jobs, a reserved one on the list of the connection it names, a buried one in
      none of these, but on the list of buried jobs of its tube or on none. */
  lemma OnePlace(s: State, id: nat)
    requires InOrder(s) && id in s.jobs
    ensures var j := s.jobs[id];
            && (forall t :: InReadyHeap(s, t, id) <==> j.state == READY && t == j.tube)
            && (forall t :: InDelayHeap(s, t, id) <==> j.state == DELAYED && t == j.tube)
            && (forall c: nat :: OnListOf(s, c, id) <==> j.state == RESERVED && j.reservoir == Some(c))
            && (forall t :: OnListIn(s, t, id) ==> j.state == BURIED && t == j.tube)
            && (j.state == RESERVED <==> j.reservoir.Some?) && GoodState(j.state)
  {
    SoundPlaces(s, {});
    var j := s.jobs[id];
    assert JobSound(s, {}, id);
    forall t
      ensures InReadyHeap(s, t, id) <==> j.state == READY && t == j.tube
    {
      ReadyWhere(s, t, id);
    }
    forall t
      ensures InDelayHeap(s, t, id) <==> j.state == DELAYED && t == j.tube
    {
      DelayedWhere(s, t, id);
    }
    forall c: nat
      ensures OnListOf(s, c, id) <==> j.state == RESERVED && j.reservoir == Some(c)
    {
      if c in s.conns {
        OnListIsReserved(s, {}, id, c);
      }
    }
    forall t | OnListIn(s, t, id)
      ensures j.state == BURIED && t == j.tube
    {
      assert BuriedListSound(s, {}, t);
    }
  }

  lemma ReadyWhere(s: State, t: nat, id: nat)
    requires ReadyPlaced(s, {}) && JobsSound(s, {}) && id in s.jobs
    ensures InReadyHeap(s, t, id) <==> s.jobs[id].state == READY && t == s.jobs[id].tube
  {
    assert JobSound(s, {}, id);
    if t < |s.tubes| {
      forall e | e in s.tubes[t].ready
        ensures IsReady(s, {}, t, e)
      {
        assert ReadyTimes(s, t, e) == Times(IsReady(s, {}, t, e));
      }
      var e := Entry(s.jobs[id].pri, id);
      assert ReadyTimes(s, t, e) == Times(IsReady(s, {}, t, e));
      assert IsReady(s, {}, t, e) ==> e in s.tubes[t].ready;
    }
  }

  lemma DelayedWhere(s: State, t: nat, id: nat)
    requires DelayedPlaced(s, {}) && JobsSound(s, {}) && id in s.jobs
    ensures InDelayHeap(s, t, id) <==> s.jobs[id].state == DELAYED && t == s.jobs[id].tube
  {
    assert JobSound(s, {}, id);
    if t < |s.tubes| {
      forall e | e in s.tubes[t].delay
        ensures IsDelayed(s, {}, t, e)
      {
        assert DelayedTimes(s, t, e) == Times(IsDelayed(s, {}, t, e));
      }
      var e := Entry(s.jobs[id].deadline, id);
      assert DelayedTimes(s, t, e) == Times(IsDelayed(s, {}, t, e));
      assert IsDelayed(s, {}, t, e) ==> e in s.tubes[t].delay;
    }
  }

  /** From an empty server, after any run: each job in one place, and the soonest job of a
      connection is none exactly when it has none, and else the one of its jobs whose deadline
      comes first. */
  lemma RunKeepsPlaces(run: seq<(Command, int)>, id: nat, c: nat)
    requires InOrder(EMPTY) ==> Admissible(EMPTY, run)
    ensures InOrder(EMPTY)
    ensures var s := Run(EMPTY, run);
            && InOrder(s)
            && (id in s.jobs ==>
                  var j := s.jobs[id];
                  && (forall t :: InReadyHeap(s, t, id) <==> j.state == READY && t == j.tube)
                  && (forall t :: InDelayHeap(s, t, id) <==> j.state == DELAYED && t == j.tube)
                  && (forall k: nat :: OnListOf(s, k, id) <==> j.state == RESERVED && j.reservoir == Some(k))
                  && (forall t :: OnListIn(s, t, id) ==> j.state == BURIED && t == j.tube))
            && (c in s.conns ==>
                  && (s.conns[c].soonest == None <==> s.conns[c].reserved == [])
                  && (s.conns[c].soonest.Some? ==> IsSoonest(s, s.conns[c].reserved, s.conns[c].soonest.value)))
  {
    EmptyInOrder();
    RunInOrder(EMPTY, run);
    var s := Run(EMPTY, run);
    if id in s.jobs {
      OnePlace(s, id);
    }
    if c in s.conns {
      assert SoonestRightFor(s, c, c in {});
    }
  }

  // ---------- Commands that name a job that is not at the root ----------

  // The code takes out whatever is at the root of the heap the job is said to be in.
  function RootRemoved(s: State, id: nat): State
    requires HeapNamed(s, id)
  {
    if s.jobs[id].state == READY then RemoveReady(s, id) else RemoveDelayed(s, id)
  }

  // The job is ready or delayed, and the heap of its tube is not empty.
  predicate HeapNamed(s: State, id: nat) {
    id in s.jobs && s.jobs[id].tube < |s.tubes| &&
    var tube := s.tubes[s.jobs[id].tube];
    || (s.jobs[id].state == READY && tube.ready != [])
    || (s.jobs[id].state == DELAYED && tube.delay != [])
  }

  // What the commands that name a ready or delayed job by its id do with it, before they answer
  // or match jobs: they forget it, give it to the connection that asks, or make it ready.
  datatype ById = ToDelete | ToReserve | ToKick

  function DoneById(s: State, c: nat, id: nat, what: ById, now: int): State
    requires HeapNamed(s, id) && c in s.conns
  {
    var s1 := RootRemoved(s, id);
    match what
    case ToDelete => Forgotten(s1, id)
    case ToReserve => Give(s1, id, c, now)
    case ToKick => PlaceInHeap(s1, id, 0, now)
  }

  lemma InHeapIsNamed(s: State, id: nat)
    requires InOrder(s) && id in s.jobs && (s.jobs[id].state == READY || s.jobs[id].state == DELAYED)
    ensures HeapNamed(s, id)
  {
    OnePlace(s, id);
    var t := s.jobs[id].tube;
    SoundPlaces(s, {});
    assert JobSound(s, {}, id);
    assert s.jobs[id].state == READY ==> InReadyHeap(s, t, id);
    assert s.jobs[id].state == DELAYED ==> InDelayHeap(s, t, id);
  }

  lemma AtRootIsDone(s: State, c: nat, id: nat, what: ById, now: int)
    requires InOrder(s) && AtRoot(s, id) && HeapNamed(s, id) && Asks(s, c)
    ensures var s2 := DoneById(s, c, id, what, now);
            Sound(s2, {}) && c in s2.conns && (!what.ToKick? ==> InOrder(Reschedule(s2, c)))
  {
    hide Sound, SoonestRight, Idle, Unplaced, Give, PlaceInHeap, Reschedule;
    assert {id} - {id} == {};
    UnplacedInHand(s, id);
    var s1 := Unplaced(s, id);
    RootRemovedIsUnplaced(s, id);
    match what
    case ToDelete =>
      PutDown(s1, id, Forgotten(s1, id), {});
      DeleteKeeps(s, c, id);
    case ToReserve =>
      GivenQueued(s1, id, c, now);
      ReserveJobKeeps(s, c, id, now);
    case ToKick =>
      PlaceSound(s1, {id}, id, 0, now);
      PlaceConns(s1, id, 0, now);
  }

  lemma RootRemovedIsUnplaced(s: State, id: nat)
    requires AtRoot(s, id) && HeapNamed(s, id)
    ensures RootRemoved(s, id) == Unplaced(s, id)
  {
    hide RemoveReady, RemoveDelayed, RemoveBuried;
  }

  // A job that is there and is in no heap although its state names one.
  ghost predicate Lost(s: State, t: nat, e: Entry) {
    t < |s.tubes| &&
    ((IsReady(s, {}, t, e) && ReadyTimes(s, t, e) == 0) || (IsDelayed(s, {}, t, e) && DelayedTimes(s, t, e) == 0))
  }

  lemma LostIsNotSound(s: State, t: nat, e: Entry)
    requires Lost(s, t, e)
    ensures !Sound(s, {})
  {
  }

  // The job at the root is still there to be found, but in no heap.
  lemma ReadyRootIsLost(s: State, id: nat)
    requires Sound(s, {}) && id in s.jobs && s.jobs[id].state == READY
    requires var t := s.jobs[id].tube; t < |s.tubes| && s.tubes[t].ready != []
    ensures var t := s.jobs[id].tube;
            var e := s.tubes[t].ready[0];
            e.id in s.jobs && s.jobs[e.id].state == READY && Lost(RemoveReady(s, id), t, e)
  {
    var t := s.jobs[id].tube;
    var e := s.tubes[t].ready[0];
    SoundPlaces(s, {});
    hide Ordered, Removed, Sound;
    RootOfReady(s, {}, t);
    assert ReadyTimes(s, t, e) == Times(IsReady(s, {}, t, e));
    assert Ordered(s.tubes[t].ready);
    RemoveKeeps(s.tubes[t].ready, 0);
  }

  lemma DelayedRootIsLost(s: State, id: nat)
    requires Sound(s, {}) && id in s.jobs && s.jobs[id].state == DELAYED
    requires var t := s.jobs[id].tube; t < |s.tubes| && s.tubes[t].delay != []
    ensures var t := s.jobs[id].tube;
            var e := s.tubes[t].delay[0];
            e.id in s.jobs && s.jobs[e.id].state == DELAYED && Lost(RemoveDelayed(s, id), t, e)
  {
    var t := s.jobs[id].tube;
    var e := s.tubes[t].delay[0];
    SoundPlaces(s, {});
    hide Ordered, Removed, Sound;
    RootOfDelayed(s, {}, t);
    assert DelayedTimes(s, t, e) == Times(IsDelayed(s, {}, t, e));
    assert Ordered(s.tubes[t].delay);
    RemoveKeeps(s.tubes[t].delay, 0);
  }

  lemma RootIsLost(s: State, id: nat) returns (e: Entry)
    requires InOrder(s) && HeapNamed(s, id) && !AtRoot(s, id)
    ensures e.id != id && e.id in s.jobs && Lost(RootRemoved(s, id), s.jobs[id].tube, e)
    ensures s.jobs[e.id].state == s.jobs[id].state
  {
    hide Sound, Lost, RemoveReady, RemoveDelayed;
    var t := s.jobs[id].tube;
    if s.jobs[id].state == READY {
      ReadyRootIsLost(s, id);
      e := s.tubes[t].ready[0];
    } else {
      DelayedRootIsLost(s, id);
      e := s.tubes[t].delay[0];
    }
  }

  // What is done with another job does not bring it back.
  lemma StaysLost(s: State, c: nat, id: nat, what: ById, now: int, t: nat, e: Entry)
    requires HeapNamed(s, id) && c in s.conns
    requires Lost(RootRemoved(s, id), t, e) && e.id != id
    requires what.ToKick? ==> e.id in s.jobs && s.jobs[e.id].state == DELAYED
    ensures Lost(DoneById(s, c, id, what, now), t, e) && c in DoneById(s, c, id, what, now).conns
  {
    hide Sooner, Removed, Pushed;
    RootRemovedKeepsJobs(s, id);
  }

  lemma RootRemovedKeepsJobs(s: State, id: nat)
    requires HeapNamed(s, id)
    ensures var s1 := RootRemoved(s, id);
            s1.jobs == s.jobs && s1.conns == s.conns && |s1.tubes| == |s.tubes|
  {
    hide Removed;
  }

  // Nor does the answer.
  lemma StaysLostInAnswer(s: State, c: nat, t: nat, e: Entry)
    requires Lost(s, t, e) && c in s.conns
    ensures Lost(Reschedule(s, c), t, e)
  {
    hide Soonest;
  }

  // Nor does the matching that follows, which touches no delayed job.
  lemma StaysLostInMatching(s: State, s': State, now: int, t: nat, e: Entry)
    requires Lost(s, t, e) && IsDelayed(s, {}, t, e) && Distributed(s, s', now)
    ensures Lost(s', t, e)
  {
    assert HandedOutAtMostOnce(s, s', e.id, now);
  }

  /** Deleting, reserving or kicking a ready or delayed job by its id takes out the root of the heap
      it is in, whatever job that is. Everything is in order afterwards if and only if the job
      named is at the root. For a kick, which is followed by matching jobs, every job is in its
      place before that if and only if the job named is at the root, and when it is not, no
      matching puts things right. */
  lemma ByIdKeepsExactlyAtRoot(s: State, c: nat, id: nat, what: ById, now: int)
    requires InOrder(s) && Asks(s, c) && id in s.jobs && (s.jobs[id].state == READY || s.jobs[id].state == DELAYED)
    requires what.ToKick? ==> s.jobs[id].state == DELAYED
    ensures HeapNamed(s, id) && c in DoneById(s, c, id, what, now).conns
    ensures Sound(DoneById(s, c, id, what, now), {}) <==> AtRoot(s, id)
    ensures !what.ToKick? ==> (InOrder(Reschedule(DoneById(s, c, id, what, now), c)) <==> AtRoot(s, id))
    ensures what.ToKick? && !AtRoot(s, id) ==>
              forall s' :: Distributed(DoneById(s, c, id, what, now), s', now) ==> !Sound(s', {})
  {
    hide InOrder, Sound, DoneById, HeapNamed, AtRoot, Distributed, Lost, IsDelayed, Reschedule;
    InHeapIsNamed(s, id);
    if AtRoot(s, id) {
      AtRootIsDone(s, c, id, what, now);
    } else {
      var e := RootIsLost(s, id);
      var t, s2 := s.jobs[id].tube, DoneById(s, c, id, what, now);
      StaysLost(s, c, id, what, now, t, e);
      LostIsNotSound(s2, t, e);
      StaysLostInAnswer(s2, c, t, e);
      LostIsNotSound(Reschedule(s2, c), t, e);
      InOrderIsSound(Reschedule(s2, c));
      if what.ToKick? {
        forall s' | Distributed(s2, s', now)
          ensures !Sound(s', {})
        {
          DelayedIsLost(s, c, id, now, t, e);
          StaysLostInMatching(s2, s', now, t, e);
          LostIsNotSound(s', t, e);
        }
      }
    }
  }

  lemma InOrderIsSound(s: State)
    ensures InOrder(s) ==> Sound(s, {})
  {
  }

  lemma DelayedIsLost(s: State, c: nat, id: nat, now: int, t: nat, e: Entry)
    requires HeapNamed(s, id) && c in s.conns && e.id in s.jobs && s.jobs[e.id].state == DELAYED && e.id != id
    requires Lost(DoneById(s, c, id, ToKick, now), t, e)
    ensures IsDelayed(DoneById(s, c, id, ToKick, now), {}, t, e)
  {
    hide Removed, Pushed;
    RootRemovedKeepsJobs(s, id);
  }
}
