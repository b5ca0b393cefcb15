/** Where jobs and connections are. Each enqueued job is in exactly one place, each waiting
    connection once on every tube it watches; the counters count what is there; and the
    soonest job a connection remembers is the soonest of its jobs. */
module Places {
  import opened Records
  import opened Heap
  import opened Schedule

  // ---------- Jobs ----------

  // A job that is somewhere; hand holds the jobs an operation has in its hands.
  ghost predicate Held(s: State, hand: set<nat>, id: nat) {
    id in s.jobs && id !in hand
  }

  ghost predicate IsReady(s: State, hand: set<nat>, t: nat, e: Entry) {
    Held(s, hand, e.id) && var j := s.jobs[e.id]; j.state == READY && j.tube == t && j.pri == e.key
  }

  ghost predicate IsDelayed(s: State, hand: set<nat>, t: nat, e: Entry) {
    Held(s, hand, e.id) && var j := s.jobs[e.id]; j.state == DELAYED && j.tube == t && j.deadline == e.key
  }

  ghost predicate IsReserved(s: State, hand: set<nat>, c: nat, id: nat) {
    Held(s, hand, id) && s.jobs[id].state == RESERVED && s.jobs[id].reservoir == Some(c)
  }

  ghost function Times(b: bool): nat {
    if b then 1 else 0
  }

  ghost function ReadyTimes(s: State, t: nat, e: Entry): nat
    requires t < |s.tubes|
  {
    multiset(s.tubes[t].ready)[e]
  }

  ghost function DelayedTimes(s: State, t: nat, e: Entry): nat
    requires t < |s.tubes|
  {
    multiset(s.tubes[t].delay)[e]
  }

  ghost function ReservedTimes(s: State, c: nat, id: nat): nat
    requires c in s.conns
  {
    multiset(s.conns[c].reserved)[id]
  }

  // The heap of ready jobs of each tube holds exactly its ready jobs, each once, keyed by
  // priority, in heap order.
  ghost predicate ReadyPlaced(s: State, hand: set<nat>) {
    && (forall t :: 0 <= t < |s.tubes| ==> Ordered(s.tubes[t].ready))
    && forall t, e :: 0 <= t < |s.tubes| ==> ReadyTimes(s, t, e) == Times(IsReady(s, hand, t, e))
  }

  // The same for delayed jobs, keyed by deadline.
  ghost predicate DelayedPlaced(s: State, hand: set<nat>) {
    && (forall t :: 0 <= t < |s.tubes| ==> Ordered(s.tubes[t].delay))
    && forall t, e :: 0 <= t < |s.tubes| ==> DelayedTimes(s, t, e) == Times(IsDelayed(s, hand, t, e))
  }

  // The list of each connection holds exactly the jobs that name it, each once.
  ghost predicate ReservedPlaced(s: State, hand: set<nat>) {
    forall c, id :: c in s.conns ==> ReservedTimes(s, c, id) == Times(IsReserved(s, hand, c, id))
  }

  // A list of buried jobs holds at most one, which is a buried job of its tube.
  ghost predicate BuriedPlaced(s: State, hand: set<nat>) {
    forall t :: 0 <= t < |s.tubes| ==> BuriedListSound(s, hand, t)
  }

  ghost predicate BuriedListSound(s: State, hand: set<nat>, t: nat)
    requires t < |s.tubes|
  {
    && |s.tubes[t].buried| <= 1
    && forall id :: id in s.tubes[t].buried ==> IsBuried(s, hand, t, id)
  }

  ghost predicate IsBuried(s: State, hand: set<nat>, t: nat, id: nat) {
    Held(s, hand, id) && s.jobs[id].state == BURIED && s.jobs[id].tube == t
  }

  // The job is on no list of buried jobs.
  ghost predicate Unlisted(s: State, id: nat) {
    forall t :: 0 <= t < |s.tubes| ==> id !in s.tubes[t].buried
  }

  predicate GoodState(state: u8) {
    state == READY || state == RESERVED || state == BURIED || state == DELAYED
  }

  // A job has a tube, and names a connection exactly while it is reserved by it.
  ghost predicate JobSound(s: State, hand: set<nat>, id: nat)
    requires id in s.jobs
  {
    var j := s.jobs[id];
    && j.tube < |s.tubes|
    && (id !in hand ==>
          && GoodState(j.state) && (j.state == RESERVED <==> j.reservoir.Some?)
          && (j.reservoir.Some? ==> j.reservoir.value in s.conns))
  }

  ghost predicate JobsSound(s: State, hand: set<nat>) {
    && (forall id :: id in s.jobs ==> JobSound(s, hand, id))
    && forall id :: id in hand ==> id in s.jobs
  }

  // ---------- Waiting connections ----------

  ghost predicate IsWaitingOn(s: State, t: nat, c: nat) {
    c in s.conns && s.conns[c].waiting && t in s.conns[c].watch
  }

  ghost function WaitingTimes(s: State, t: nat, c: nat): nat
    requires t < |s.tubes|
  {
    multiset(s.tubes[t].waiting)[c]
  }

  ghost predicate NoRepeats(xs: seq<nat>) {
    forall i, j :: 0 <= i < j < |xs| ==> xs[i] != xs[j]
  }

  // A connection is registered once on a tube if it waits and watches the tube, and is not
  // registered otherwise.
  ghost predicate WaitingPlaced(s: State) {
    && (forall t, c :: 0 <= t < |s.tubes| ==> WaitingTimes(s, t, c) == Times(IsWaitingOn(s, t, c)))
    && (forall t :: 0 <= t < |s.tubes| ==> s.tubes[t].waitingCt == |s.tubes[t].waiting|)
    && (forall c :: c in s.conns ==> NoRepeats(s.conns[c].watch))
    && s.waitingCt == |Waiters(s)|
  }

  ghost function Waiters(s: State): set<nat> {
    set c | c in s.conns && s.conns[c].waiting
  }

  // ---------- Counters ----------

  datatype Kind = AnyReady | AnyUrgent | UrgentIn(tube: nat) | AnyReserved | ReservedIn(tube: nat)

  predicate Is(j: Job, k: Kind) {
    match k
    case AnyReady => j.state == READY
    case AnyUrgent => j.state == READY && j.pri < URGENT
    case UrgentIn(t) => j.state == READY && j.pri < URGENT && j.tube == t
    case AnyReserved => j.state == RESERVED
    case ReservedIn(t) => j.state == RESERVED && j.tube == t
  }

  predicate Counted(s: State, k: Kind) {
    (k.UrgentIn? || k.ReservedIn?) ==> k.tube < |s.tubes|
  }

  function Counter(s: State, k: Kind): int
    requires Counted(s, k)
  {
    match k
    case AnyReady => s.readyCt
    case AnyUrgent => s.urgentCt
    case UrgentIn(t) => s.tubes[t].urgentCt
    case AnyReserved => s.reservedCt
    case ReservedIn(t) => s.tubes[t].reservedCt
  }

  ghost function Members(s: State, hand: set<nat>, k: Kind): set<nat> {
    set id | id in s.jobs && id !in hand && Is(s.jobs[id], k)
  }

  // Every counter of jobs is the number of jobs it is for.
  ghost predicate CountersRight(s: State, hand: set<nat>) {
    forall k :: Counted(s, k) ==> Counter(s, k) == |Members(s, hand, k)|
  }

  // ---------- The soonest job of a connection ----------

  ghost predicate IsSoonest(s: State, ids: seq<nat>, id: nat) {
    && id in ids && id in s.jobs
    && forall k :: k in ids ==> k in s.jobs && s.jobs[id].deadline <= s.jobs[k].deadline
  }

  // What a connection remembers as its soonest job is one; only a stale connection, which
  // is about to be rescheduled, may remember none although it has jobs.
  ghost predicate SoonestRight(s: State, stale: set<nat>) {
    forall c :: c in s.conns ==> SoonestRightFor(s, c, c in stale)
  }

  ghost predicate SoonestRightFor(s: State, c: nat, stale: bool)
    requires c in s.conns
  {
    var conn := s.conns[c];
    && (conn.soonest.Some? ==> IsSoonest(s, conn.reserved, conn.soonest.value))
    && (conn.soonest == None && !stale ==> conn.reserved == [])
  }

  // ---------- All of it ----------

  ghost predicate Sound(s: State, hand: set<nat>) {
    && JobsSound(s, hand) && ReadyPlaced(s, hand) && DelayedPlaced(s, hand) && ReservedPlaced(s, hand)
    && CountersRight(s, hand) && WaitingPlaced(s) && WatchesTubes(s) && BuriedPlaced(s, hand)
  }

  ghost predicate WatchesTubes(s: State) {
    forall c, t :: c in s.conns && t in s.conns[c].watch ==> t < |s.tubes|
  }

  // Between commands.
  ghost predicate Settled(s: State) {
    Sound(s, {}) && SoonestRight(s, {})
  }

  // ---------- One job changes ----------

  // At most job id, and the way it is held, differs.
  ghost predicate OnlyJob(s: State, hand: set<nat>, s': State, hand': set<nat>, id: nat) {
    && |s'.tubes| == |s.tubes|
    && forall k :: k != id ==>
         && (k in s.jobs <==> k in s'.jobs) && (k in hand <==> k in hand')
         && (k in s.jobs ==> s'.jobs[k] == s.jobs[k])
  }

  ghost predicate Counts(s: State, hand: set<nat>, id: nat, k: Kind) {
    Held(s, hand, id) && Is(s.jobs[id], k)
  }

  lemma Without(a: set<nat>, x: nat)
    ensures |a - {x}| == |a| - B(x in a)
  {
    if x !in a {
      assert a - {x} == a;
    }
  }

  lemma OthersStayMembers(s: State, hand: set<nat>, s': State, hand': set<nat>, id: nat, k: Kind)
    requires OnlyJob(s, hand, s', hand', id)
    ensures Members(s, hand, k) - {id} == Members(s', hand', k) - {id}
    ensures id in Members(s, hand, k) <==> Counts(s, hand, id, k)
    ensures id in Members(s', hand', k) <==> Counts(s', hand', id, k)
  {
    hide Is;
  }

  lemma OneMemberChanges(s: State, hand: set<nat>, s': State, hand': set<nat>, id: nat, k: Kind)
    requires OnlyJob(s, hand, s', hand', id)
    ensures |Members(s', hand', k)| == |Members(s, hand, k)| - B(Counts(s, hand, id, k)) + B(Counts(s', hand', id, k))
  {
    hide Is, Members, Counts, OnlyJob;
    OthersStayMembers(s, hand, s', hand', id, k);
    Without(Members(s, hand, k), id);
    Without(Members(s', hand', k), id);
  }

  // The counters move with the one job that changes.
  lemma CountersMove(s: State, hand: set<nat>, s': State, hand': set<nat>, id: nat)
    requires CountersRight(s, hand) && OnlyJob(s, hand, s', hand', id)
    requires forall k :: Counted(s, k) ==>
               Counter(s', k) == Counter(s, k) - B(Counts(s, hand, id, k)) + B(Counts(s', hand', id, k))
    ensures CountersRight(s', hand')
  {
    hide Is, Counter, Counts, Members, OnlyJob;
    assert |s'.tubes| == |s.tubes| by { OnlyJobTubes(s, hand, s', hand', id); }
    forall k | Counted(s', k)
      ensures Counter(s', k) == |Members(s', hand', k)|
    {
      OneMemberChanges(s, hand, s', hand', id, k);
    }
  }

  lemma OnlyJobTubes(s: State, hand: set<nat>, s': State, hand': set<nat>, id: nat)
    requires OnlyJob(s, hand, s', hand', id)
    ensures |s'.tubes| == |s.tubes|
  {
  }
}
