/** The job scheduler as a value: tubes with their heaps of ready and delayed jobs and their
    waiting connections, connections with the jobs they have reserved, and the counters.
    Scheduler.dfy holds the same data in an object that the server changes in place. */
module Schedule {
  import opened Records
  import opened Heap

  // Jobs of a smaller priority number than this are urgent.
  const URGENT := 1024
  const SAFETY_MARGIN := 1000000000

  datatype Option<T> = None | Some(value: T)

  datatype Job = Job(tube: nat, pri: u32, ttr: int, state: u8, deadline: int, reservoir: Option<nat>)

  // buried is the list of buried jobs, which a job is put on only when it is empty. waiting
  // lists the connections registered on the tube; last is where the next one to be served is
  // looked for.
  datatype Tube = Tube(ready: seq<Entry>, delay: seq<Entry>, buried: seq<nat>, waiting: seq<nat>, last: nat,
                       pause: int, unpauseAt: int, urgentCt: int, waitingCt: int, reservedCt: int)

  // reserved lists the connection's jobs; soonest is the one of them whose deadline comes
  // first, as far as the connection has worked it out.
  datatype Conn = Conn(watch: seq<nat>, waiting: bool, reserved: seq<nat>, soonest: Option<nat>)

  datatype State = State(tubes: seq<Tube>, conns: map<nat, Conn>, jobs: map<nat, Job>,
                         readyCt: int, urgentCt: int, reservedCt: int, waitingCt: int)

  function SetTube(s: State, t: nat, tube: Tube): (s': State)
    requires t < |s.tubes|
  {
    s.(tubes := s.tubes[t := tube])
  }

  function SetConn(s: State, c: nat, conn: Conn): State {
    s.(conns := s.conns[c := conn])
  }

  function SetJob(s: State, id: nat, j: Job): State {
    s.(jobs := s.jobs[id := j])
  }

  function B(b: bool): int {
    if b then 1 else 0
  }

  // The first occurrence of x is taken out.
  function RemoveFirst(xs: seq<nat>, x: nat): seq<nat> {
    if xs == [] then [] else if xs[0] == x then xs[1..] else [xs[0]] + RemoveFirst(xs[1..], x)
  }

  // ---------- Ready and delayed jobs ----------

  /** Takes the job out of its tube's heap of ready jobs: whatever is at the root goes, for
      the position a job remembers is always 0. */
  function RemoveReady(s: State, id: nat): State
    requires id in s.jobs && s.jobs[id].tube < |s.tubes| && s.tubes[s.jobs[id].tube].ready != []
  {
    var t, u := s.jobs[id].tube, B(s.jobs[id].pri < URGENT);
    var tube := s.tubes[t];
    SetTube(s, t, tube.(ready := Removed(tube.ready, 0), urgentCt := tube.urgentCt - u)).
      (readyCt := s.readyCt - 1, urgentCt := s.urgentCt - u)
  }

  function RemoveDelayed(s: State, id: nat): State
    requires id in s.jobs && s.jobs[id].tube < |s.tubes| && s.tubes[s.jobs[id].tube].delay != []
  {
    var t := s.jobs[id].tube;
    SetTube(s, t, s.tubes[t].(delay := Removed(s.tubes[t].delay, 0)))
  }

  // ---------- Buried jobs ----------

  predicate OnBuriedList(s: State, id: nat) {
    id in s.jobs && s.jobs[id].tube < |s.tubes| && id in s.tubes[s.jobs[id].tube].buried
  }

  // Takes a buried job off the list of its tube; one that is not on it stays where it is.
  function RemoveBuried(s: State, id: nat): State
    requires id in s.jobs && s.jobs[id].tube < |s.tubes|
  {
    var t := s.jobs[id].tube;
    SetTube(s, t, s.tubes[t].(buried := RemoveFirst(s.tubes[t].buried, id)))
  }

  // Burying hands the list and the job to the insertion the wrong way round, so a job is put on
  // the list only when it is empty (JobList.BuryInsert).
  function AddBuried(s: State, id: nat): State
    requires id in s.jobs && s.jobs[id].tube < |s.tubes|
  {
    var t := s.jobs[id].tube;
    if s.tubes[t].buried == [] then SetTube(s, t, s.tubes[t].(buried := [id])) else s
  }

  // ---------- Into a heap ----------

  // Puts a job, which is in no heap and on no list, into a heap of its tube.
  function PlaceInHeap(s: State, id: nat, delay: int, now: int): State
    requires id in s.jobs && s.jobs[id].tube < |s.tubes|
  {
    var j, t := s.jobs[id], s.jobs[id].tube;
    var tube := s.tubes[t];
    if delay > 0 then
      SetTube(SetJob(s, id, j.(reservoir := None, state := DELAYED, deadline := now + delay)), t,
              tube.(delay := Pushed(tube.delay, Entry(now + delay, id))))
    else
      var u := B(j.pri < URGENT);
      SetTube(SetJob(s, id, j.(reservoir := None, state := READY)), t,
              tube.(ready := Pushed(tube.ready, Entry(j.pri, id)), urgentCt := tube.urgentCt + u)).
        (readyCt := s.readyCt + 1, urgentCt := s.urgentCt + u)
  }

  // ---------- Waiting ----------

  function Waits(s: State, c: nat): State
    requires c in s.conns
  {
    var conn := s.conns[c];
    SetConn(s, c, conn.(waiting := true)).
      (waitingCt := s.waitingCt + 1,
       tubes := seq(|s.tubes|, t requires 0 <= t < |s.tubes| =>
         var tube := s.tubes[t];
         if t in conn.watch then tube.(waiting := tube.waiting + [c], waitingCt := tube.waitingCt + 1) else tube))
  }

  function StopWaiting(s: State, c: nat): State
    requires c in s.conns
  {
    var conn := s.conns[c];
    if !conn.waiting then s
    else
      SetConn(s, c, conn.(waiting := false)).
        (waitingCt := s.waitingCt - 1,
         tubes := seq(|s.tubes|, t requires 0 <= t < |s.tubes| =>
           var tube := s.tubes[t];
           if t in conn.watch then
             tube.(waiting := RemoveFirst(tube.waiting, c), waitingCt := tube.waitingCt - 1)
           else tube))
  }

  // The connections registered on a tube are served in turn: the one at the tube's mark is
  // taken out, and the mark moves on.
  function TakeWaiter(tube: Tube): (r: (nat, Tube))
    requires tube.waiting != []
  {
    var i := tube.last % |tube.waiting|;
    (tube.waiting[i], tube.(waiting := tube.waiting[..i] + tube.waiting[i + 1..], last := i + 1))
  }

  // ---------- Reserved jobs ----------

  // A job comes before the soonest one known.
  predicate Sooner(s: State, id: nat, soonest: Option<nat>) {
    soonest == None ||
    (id in s.jobs && soonest.value in s.jobs && s.jobs[id].deadline < s.jobs[soonest.value].deadline)
  }

  function Soonest(s: State, soonest: Option<nat>, ids: seq<nat>): Option<nat>
    decreases |ids|
  {
    if ids == [] then soonest
    else Soonest(s, if Sooner(s, ids[0], soonest) then Some(ids[0]) else soonest, ids[1..])
  }

  // Every reply to a connection reschedules it, and that works out its soonest job if it is
  // not known.
  function Reschedule(s: State, c: nat): State
    requires c in s.conns
  {
    var conn := s.conns[c];
    if conn.reserved == [] || conn.soonest.Some? then s
    else SetConn(s, c, conn.(soonest := Soonest(s, None, conn.reserved)))
  }

  // Gives a job, which is in no heap and on no list, to a connection.
  function Give(s: State, id: nat, c: nat, now: int): State
    requires c in s.conns && id in s.jobs && s.jobs[id].tube < |s.tubes|
  {
    var j, conn, t := s.jobs[id], s.conns[c], s.jobs[id].tube;
    var s1 := SetJob(s, id, j.(deadline := now + j.ttr, state := RESERVED, reservoir := Some(c)));
    SetTube(SetConn(s1, c, conn.(reserved := conn.reserved + [id],
                                 soonest := if Sooner(s1, id, conn.soonest) then Some(id) else conn.soonest)),
            t, s.tubes[t].(reservedCt := s.tubes[t].reservedCt + 1)).
      (reservedCt := s.reservedCt + 1)
  }

  // Takes a reserved job away from its connection, whose soonest job is then not known.
  function TakeBack(s: State, id: nat, c: nat): State
    requires c in s.conns && id in s.jobs && s.jobs[id].tube < |s.tubes|
  {
    var j, conn, t := s.jobs[id], s.conns[c], s.jobs[id].tube;
    SetTube(SetConn(SetJob(s, id, j.(reservoir := None)), c,
                    conn.(reserved := RemoveFirst(conn.reserved, id), soonest := None)),
            t, s.tubes[t].(reservedCt := s.tubes[t].reservedCt - 1)).
      (reservedCt := s.reservedCt - 1)
  }

  predicate ReservedBy(s: State, id: nat, c: nat) {
    id in s.jobs && s.jobs[id].reservoir == Some(c) && s.jobs[id].state == RESERVED
  }

  // ---------- Matching ready jobs to waiting connections ----------

  predicate Paused(tube: Tube, now: int) {
    tube.pause > 0 && tube.unpauseAt > now
  }

  // A pause that has run out is cleared when the tube is looked at.
  function Unpaused(tube: Tube, now: int): Tube {
    if tube.pause > 0 && tube.unpauseAt <= now then tube.(pause := 0) else tube
  }

  predicate Eligible(tube: Tube, now: int) {
    !Paused(tube, now) && tube.waiting != [] && tube.ready != []
  }

  // The least root among the eligible tubes before k.
  function Best(tubes: seq<Tube>, k: nat, now: int): Option<Entry>
    requires k <= |tubes|
  {
    if k == 0 then None
    else
      var best, tube := Best(tubes, k - 1, now), tubes[k - 1];
      if Eligible(tube, now) && (best == None || Less(tube.ready[0], best.value)) then Some(tube.ready[0]) else best
  }

  // The next job to hand out, and the pauses that are over cleared.
  function NextAwaited(s: State, now: int): (r: (State, Option<Entry>)) {
    (s.(tubes := seq(|s.tubes|, t requires 0 <= t < |s.tubes| => Unpaused(s.tubes[t], now))),
     Best(s.tubes, |s.tubes|, now))
  }

  // Hands out a job: it leaves its heap and goes to the connection whose turn it is on its
  // tube, which waits no longer on any.
  function Assign(s: State, id: nat, now: int): State
    requires id in s.jobs && s.jobs[id].tube < |s.tubes|
    requires s.tubes[s.jobs[id].tube].ready != [] && s.tubes[s.jobs[id].tube].waiting != []
    requires TakeWaiter(s.tubes[s.jobs[id].tube]).0 in s.conns
  {
    var t := s.jobs[id].tube;
    var s1 := RemoveReady(s, id);
    var (c, tube) := TakeWaiter(s1.tubes[t]);
    var s2 := StopWaiting(SetTube(s1, t, tube), c);
    Reschedule(Give(s2, id, c, now), c)
  }

  // The root with the earliest deadline among the heaps of delayed jobs of the tubes before
  // k; the first one of several.
  function SoonestDelayed(tubes: seq<Tube>, k: nat): Option<Entry>
    requires k <= |tubes|
  {
    if k == 0 then None
    else
      var best, tube := SoonestDelayed(tubes, k - 1), tubes[k - 1];
      if tube.delay != [] && (best == None || tube.delay[0].key < best.value.key) then Some(tube.delay[0]) else best
  }
}
