/** Runs of the server seen from its log: any sequence of commands, with the file system
    granting or refusing new files as it likes, keeps the log in order, and a restart at any
    point between commands recovers exactly the jobs the clients were told about. */
module Runs {
  import opened Records
  import opened Replay
  import opened WalState
  import opened Linking
  import opened Space
  import opened Upkeep
  import opened Writing
  import opened Commands

  // The commands that reach the log. Put carries the job as it is when it is first written;
  // Update is a bury or a kick, with the job record it writes; Touch is any change of the
  // record in memory alone, such as reserving the job or touching it.
  datatype Command =
    | Put(id: u64, tube: Bytes, body: Bytes, rec: JobRec)
    | Update(id: u64, rec: JobRec)
    | Touch(id: u64, rec: JobRec)
    | Delete(id: u64)

  ghost predicate IsLogged(s: Log, id: u64) {
    id in s.jobs && s.jobs[id].home.In?
  }

  ghost predicate NewRecord(s: Log, id: u64, rec: JobRec) {
    IsLogged(s, id) && rec.id == id && rec.bodySize == s.jobs[id].rec.bodySize && LiveState(rec.state)
  }

  // What the server checks or ensures before it gives a command to the log: a put has a
  // fresh id and fits in the log; the other commands name a job that has been put.
  ghost predicate Valid(s: Log, cmd: Command, maxN: nat) {
    match cmd
    case Put(id, tube, body, rec) =>
      && id !in s.jobs && id !in s.book && LiveState(rec.state)
      && JobFits(s.book, id, Job(tube, body, rec, rec, Nowhere, 0), false, maxN)
    case Update(id, rec) => NewRecord(s, id, rec)
    case Touch(id, rec) => NewRecord(s, id, rec)
    case Delete(id) => IsLogged(s, id)
  }

  ghost function WithJob(s: Log, id: u64, j: Job): Log {
    s.(jobs := s.jobs[id := j])
  }

  // ---------- A fresh job ----------

  lemma FreshLinked(s: Log, id: u64, j: Job)
    requires Linked(s) && id !in s.jobs && j.home == Nowhere
    ensures Linked(WithJob(s, id, j))
  {
    var s' := WithJob(s, id, j);
    assert Files(s') == Files(s);
    forall k | k in s'.jobs
      ensures JobLinked(s', k)
    {
      assert k != id ==> JobLinked(s, k);
    }
    forall i | 0 <= i < |Files(s')|
      ensures FileLinked(s', Files(s')[i])
    {
      assert FileLinked(s, Files(s)[i]);
    }
  }

  lemma FreshFits(s: Log, id: u64, j: Job, maxN: nat)
    requires JobsFit(s, {}, maxN) && JobFits(s.book, id, j, false, maxN)
    ensures JobsFit(WithJob(s, id, j), {}, maxN)
  {
    var s' := WithJob(s, id, j);
    forall k | k in s'.jobs
      ensures JobFits(s'.book, k, s'.jobs[k], k in {}, maxN)
    {
      assert k != id ==> JobFits(s.book, k, s.jobs[k], k in {}, maxN);
    }
  }

  lemma FreshPersisted(s: Log, id: u64, j: Job)
    requires id !in s.jobs && j.home == Nowhere
    ensures Persisted(WithJob(s, id, j)) == Persisted(s)
  {
  }

  lemma FreshBase(s: Log, id: u64, j: Job, maxN: nat)
    requires Base(s, {}, maxN) && id !in s.jobs && j.home == Nowhere && JobFits(s.book, id, j, false, maxN)
    ensures Base(WithJob(s, id, j), {}, maxN)
  {
    hide Linked, JobsFit, Persisted, Numbered, Counted, Written, Recoverable, HeadHeld, Files, Consistent, JobFits;
    var s' := WithJob(s, id, j);
    FreshLinked(s, id, j);
    FreshFits(s, id, j, maxN);
    FreshPersisted(s, id, j);
    SameFilesSameReplay(s, s');
    SameTubesConsistent(s, s', {});
  }

  lemma FreshIsSteady(s: Log, id: u64, j: Job, maxN: nat)
    requires Steady(s, maxN) && id !in s.jobs && j.home == Nowhere && JobFits(s.book, id, j, false, maxN)
    ensures Steady(WithJob(s, id, j), maxN) && Persisted(WithJob(s, id, j)) == Persisted(s)
    ensures SameRoom(s, WithJob(s, id, j))
  {
    hide Base, Persisted, Sum, Shape, JobFits;
    FreshBase(s, id, j, maxN);
    FreshPersisted(s, id, j);
    SameSpace(s, WithJob(s, id, j), 0, maxN);
  }

  // ---------- Executing a command ----------

  ghost predicate Writable(s: Log, id: u64, maxN: nat) {
    id in s.jobs && s.use && Referenced(s) && (WalWrite(s, id).1 ==> Safe(WalWrite(s, id).0, maxN))
  }

  // Writes the job's record, then maintains the log.
  ghost function WriteAndMaintain(s: Log, id: u64, maxN: nat): (r: (Log, bool))
    requires Writable(s, id, maxN)
  {
    var (s', ok) := WalWrite(s, id);
    (if ok then WalMain(s', maxN) else s', ok)
  }

  ghost predicate Reservable(s: Log, n: nat, id: u64, maxN: nat) {
    && s.use && Usable(s) && Capacity(s) >= 2 * Z - 1
    && var (s', z) := Reserve(s, n); z > 0 ==> Writable(s', id, maxN)
  }

  ghost function ReserveAndWrite(s: Log, n: nat, id: u64, maxN: nat): (r: (Log, bool))
    requires Reservable(s, n, id, maxN)
  {
    var (s', z) := Reserve(s, n);
    if z <= 0 then (s', false) else WriteAndMaintain(s', id, maxN)
  }

  ghost function WithRec(s: Log, id: u64, rec: JobRec): Log
    requires id in s.jobs
  {
    WithJob(s, id, s.jobs[id].(rec := rec))
  }

  // An update reserves first: when that fails the record is not changed.
  ghost predicate Updatable(s: Log, id: u64, rec: JobRec, maxN: nat) {
    && id in s.jobs && s.use && Usable(s) && Capacity(s) >= 2 * Z - 1
    && var (s', z) := Reserve(s, Z); z > 0 ==> Writable(WithRec(s', id, rec), id, maxN)
  }

  ghost function ReserveAndUpdate(s: Log, id: u64, rec: JobRec, maxN: nat): (r: (Log, bool))
    requires Updatable(s, id, rec, maxN)
  {
    var (s', z) := Reserve(s, Z);
    if z <= 0 then (s', false) else WriteAndMaintain(WithRec(s', id, rec), id, maxN)
  }

  ghost function Marked(s: Log, id: u64): Log
    requires id in s.jobs
  {
    WithRec(s, id, s.jobs[id].rec.(state := INVALID))
  }

  function Forget(s: Log, id: u64): Log {
    s.(jobs := s.jobs - {id})
  }

  ghost function WriteAndForget(s: Log, id: u64, maxN: nat): (r: (Log, bool))
    requires Writable(s, id, maxN)
  {
    var (s', ok) := WriteAndMaintain(s, id, maxN);
    (Forget(s', id), ok)
  }

  ghost predicate Executable(s: Log, cmd: Command, maxN: nat) {
    match cmd
    case Put(id, tube, body, rec) =>
      Reservable(WithJob(s, id, Job(tube, body, rec, rec, Nowhere, 0)), FullSize(tube, body) + Z, id, maxN)
    case Update(id, rec) => Updatable(s, id, rec, maxN)
    case Touch(id, rec) => id in s.jobs
    case Delete(id) => id in s.jobs && Writable(Marked(s, id), id, maxN)
  }

  /** One command: the log afterwards, and whether the client is told that it was done. */
  ghost function Execute(s: Log, cmd: Command, maxN: nat): (r: (Log, bool))
    requires Executable(s, cmd, maxN)
  {
    hide Reservable, Updatable, Writable;
    match cmd
    case Put(id, tube, body, rec) =>
      ReserveAndWrite(WithJob(s, id, Job(tube, body, rec, rec, Nowhere, 0)), FullSize(tube, body) + Z, id, maxN)
    case Update(id, rec) => ReserveAndUpdate(s, id, rec, maxN)
    case Touch(id, rec) => (WithRec(s, id, rec), true)
    case Delete(id) => WriteAndForget(Marked(s, id), id, maxN)
  }

  // ---------- What the clients know ----------

  // The record a job has in memory; it is not told anew after a start.
  datatype Present = Unknown | Is(rec: JobRec)

  // The job as put, the record it has now, and every record it has had since it was last written
  // for a client.
  datatype Known = Known(tube: Bytes, body: Bytes, now: Present, recs: set<JobRec>)

  type Ledger = map<u64, Known>

  ghost function Expect(m: Ledger, cmd: Command, ok: bool): Ledger {
    match cmd
    case Put(id, tube, body, rec) => if ok then m[id := Known(tube, body, Is(rec), {rec})] else m
    case Update(id, rec) => if ok && id in m then m[id := m[id].(now := Is(rec), recs := {rec})] else m
    case Touch(id, rec) => if id in m then m[id := m[id].(now := Is(rec), recs := m[id].recs + {rec})] else m
    case Delete(id) => m - {id}
  }

  // A job whose record was just written.
  ghost function Told(j: Job): Known {
    Known(j.tube, j.body, Is(j.rec), {j.rec})
  }

  ghost predicate TracksJob(j: Job, k: Known) {
    && j.tube == k.tube && j.body == k.body && (k.now.Is? ==> j.rec == k.now.rec)
    && j.rec in k.recs && j.logged in k.recs
  }

  ghost predicate Tracks(s: Log, m: Ledger) {
    && (forall id :: id in m <==> IsLogged(s, id))
    && (forall id :: id in m ==> TracksJob(s.jobs[id], m[id]))
  }

  lemma RefreshedTracks(s: Log, s': Log, m: Ledger)
    requires Tracks(s, m) && Refreshed(s, s')
    ensures Tracks(s', m)
  {
    forall id | id in s.jobs
      ensures IsLogged(s', id) <==> IsLogged(s, id)
    {
      assert RefreshedJob(s.jobs[id], s'.jobs[id]);
    }
    forall id | id in m
      ensures TracksJob(s'.jobs[id], m[id])
    {
      assert IsLogged(s, id) && RefreshedJob(s.jobs[id], s'.jobs[id]);
    }
  }

  // ---------- Each command ----------

  // Once the record is written the command is done: maintenance changes nothing a client
  // can see.
  lemma Maintained(s: Log, id: u64, m: Ledger, maxN: nat)
    requires id in s.jobs && s.use && Referenced(s)
    requires var (s', ok) := WalWrite(s, id); ok && Safe(s', maxN) && Tracks(s', m)
    ensures Writable(s, id, maxN)
    ensures var (s', ok) := WriteAndMaintain(s, id, maxN);
            ok && Safe(s', maxN) && Tracks(s', m) && s'.book == WalWrite(s, id).0.book
  {
    hide WalWrite, Safe, Tracks, Referenced;
    var s1 := WalWrite(s, id).0;
    CompactKeeps(s1, Ratio(s1), maxN);
    RefreshedTracks(s1, WalMain(s1, maxN), m);
  }

  lemma PutTracks(s: Log, s': Log, id: u64, m: Ledger)
    requires id in s.jobs && s.live != [] && s.jobs[id].home == Nowhere && Tracks(s, m) && Writing.Known(s, id)
    requires s'.jobs == WriteFull(s, id).jobs
    ensures Tracks(s', m[id := Told(s.jobs[id])])
  {
    FullAppended(s, id);
    hide WriteFull;
    var m' := m[id := Told(s.jobs[id])];
    forall k
      ensures k in m' <==> IsLogged(s', k)
    {
      assert k in m <==> IsLogged(s, k);
    }
    forall k | k in m'
      ensures TracksJob(s'.jobs[k], m'[k])
    {
      assert k != id ==> TracksJob(s.jobs[k], m[k]);
    }
  }

  // What the book says after a command.
  ghost function Booked(book: map<u64, Deed>, cmd: Command, ok: bool): map<u64, Deed> {
    if cmd.Put? && ok then book[cmd.id := Deed(cmd.tube, cmd.body)] else book
  }

  lemma PutExecutes(s: Log, id: u64, n: nat, m: Ledger, maxN: nat)
    requires Safe(s, maxN) && Tracks(s, m)
    requires id in s.jobs && s.jobs[id].home == Nowhere && LiveState(s.jobs[id].rec.state)
    requires n == FullSize(s.jobs[id].tube, s.jobs[id].body) + Z <= maxN
    ensures Reservable(s, n, id, maxN)
    ensures var (s', ok) := ReserveAndWrite(s, n, id, maxN);
            && Safe(s', maxN)
            && Tracks(s', if ok then m[id := Told(s.jobs[id])] else m)
            && s'.book == if ok then s.book[id := Deed(s.jobs[id].tube, s.jobs[id].body)] else s.book
  {
    hide Base, Ready, Reserve, Referenced, Usable, Capacity, Steady, Tracks, Spare, WalWrite, Persisted,
        WriteAndMaintain, WriteFull, Writable, SameRoom, Unhindered;
    SteadyMeans(s, maxN);
    ReserveReady(s, n, maxN);
    var (s1, z) := Reserve(s, n);
    ReadyIsSteady(s, s1, z, maxN);
    SameRoomUnhindered(s, s1, maxN);
    SameJobsTrack(s, s1, m);
    if z > 0 {
      ReadyMeans(s1, n, maxN);
      SetAside(s1, id, maxN);
      BaseKnows(s1, id, {}, maxN);
      FullWrites(s1, id, n, maxN);
      SameRoomTwice(s, s1, WalWrite(s1, id).0);
      ReadyIsSteady(s, WalWrite(s1, id).0, 0, maxN);
      SameRoomUnhindered(s1, WalWrite(s1, id).0, maxN);
      PutTracks(s1, WalWrite(s1, id).0, id, m);
      Maintained(s1, id, m[id := Told(s.jobs[id])], maxN);
    }
  }

  lemma SameJobsTrack(s: Log, s': Log, m: Ledger)
    requires Tracks(s, m) && s'.jobs == s.jobs
    ensures Tracks(s', m)
  {
    forall id | id in m
      ensures TracksJob(s'.jobs[id], m[id])
    {
      assert IsLogged(s, id);
    }
    assert forall id :: IsLogged(s', id) <==> IsLogged(s, id);
  }

  lemma UpdateTracks(s: Log, s': Log, id: u64, m: Ledger)
    requires IsLogged(s, id) && s.live != [] && s'.jobs == ShortWritten(s, id).jobs
    requires forall k :: k in m <==> IsLogged(s, k)
    requires forall k :: k in m && k != id ==> k in s.jobs && TracksJob(s.jobs[k], m[k])
    requires id in m && s.jobs[id].tube == m[id].tube && s.jobs[id].body == m[id].body
    ensures Tracks(s', m[id := m[id].(now := Is(s.jobs[id].rec), recs := {s.jobs[id].rec})])
  {
    ShortAppended(s, id);
    hide ShortWritten;
    var m' := m[id := m[id].(now := Is(s.jobs[id].rec), recs := {s.jobs[id].rec})];
    assert forall k :: k in m' <==> IsLogged(s', k);
    forall k | k in m'
      ensures TracksJob(s'.jobs[k], m'[k])
    {
      assert k != id ==> TracksJob(s.jobs[k], m[k]);
    }
  }

  lemma RecIsReady(s: Log, id: u64, rec: JobRec, n: nat, maxN: nat)
    requires Ready(s, n, maxN) && NewRecord(s, id, rec)
    ensures Ready(WithRec(s, id, rec), n, maxN) && Persisted(WithRec(s, id, rec)) == Persisted(s)
  {
    hide Base, Persisted, Spare;
    ReadyMeans(s, n, maxN);
    TouchKeeps(s, id, rec, {}, maxN);
    SameSpace(s, WithRec(s, id, rec), n, maxN);
  }

  lemma UpdateWritten(s: Log, id: u64, rec: JobRec, m: Ledger, maxN: nat)
    requires Ready(s, Z, maxN) && Tracks(s, m) && NewRecord(s, id, rec) && s.use
    requires Z <= maxN && maxN + Z <= Capacity(s) && id in m && Unhindered(s, maxN)
    ensures Writable(WithRec(s, id, rec), id, maxN)
    ensures var (s', ok) := WriteAndMaintain(WithRec(s, id, rec), id, maxN);
            ok && Safe(s', maxN) && Tracks(s', m[id := m[id].(now := Is(rec), recs := {rec})]) && s'.book == s.book
  {
    hide Base, Ready, Referenced, Spare, WalWrite, Persisted, WriteAndMaintain, ShortWritten, Writable, Tracks,
        Granting;
    var s2 := WithRec(s, id, rec);
    RecIsReady(s, id, rec, Z, maxN);
    ReadyMeans(s2, Z, maxN);
    ShortWrites(s2, id, maxN);
    WithRecRoom(s, id, rec);
    SameRoomTwice(s, s2, WalWrite(s2, id).0);
    SameRoomUnhindered(s, WalWrite(s2, id).0, maxN);
    RecTracks(s, id, rec, m);
    UpdateTracks(s2, WalWrite(s2, id).0, id, m);
    Maintained(s2, id, m[id := m[id].(now := Is(rec), recs := {rec})], maxN);
  }

  lemma WithRecRoom(s: Log, id: u64, rec: JobRec)
    requires id in s.jobs && s.use
    ensures SameRoom(s, WithRec(s, id, rec)) && WithRec(s, id, rec).book == s.book
  {
  }

  lemma UpdateExecutes(s: Log, id: u64, rec: JobRec, m: Ledger, maxN: nat)
    requires Safe(s, maxN) && Tracks(s, m) && NewRecord(s, id, rec) && id in m
    ensures Updatable(s, id, rec, maxN)
    ensures var (s', ok) := ReserveAndUpdate(s, id, rec, maxN);
            && Safe(s', maxN) && s'.book == s.book
            && (ok ==> Tracks(s', m[id := m[id].(now := Is(rec), recs := {rec})]))
            && (!ok ==> Tracks(s', m))
  {
    hide Base, Ready, Reserve, Referenced, Usable, Capacity, Steady, Spare, Persisted, WriteAndMaintain, Writable,
        Tracks, NewRecord, WithRec, SameRoom, Unhindered;
    SteadyMeans(s, maxN);
    ReserveReady(s, Z, maxN);
    var (s1, z) := Reserve(s, Z);
    ReadyIsSteady(s, s1, z, maxN);
    SameRoomUnhindered(s, s1, maxN);
    SameJobsTrack(s, s1, m);
    NewRecordStays(s, s1, id, rec);
    if z > 0 {
      UpdateWritten(s1, id, rec, m, maxN);
    }
  }

  lemma NewRecordStays(s: Log, s': Log, id: u64, rec: JobRec)
    requires NewRecord(s, id, rec) && s'.jobs == s.jobs
    ensures NewRecord(s', id, rec) && id in s'.jobs
  {
  }

  lemma WithRecCapacity(s: Log, id: u64, rec: JobRec)
    requires id in s.jobs
    ensures Capacity(WithRec(s, id, rec)) == Capacity(s) && WithRec(s, id, rec).use == s.use
  {
  }

  lemma RecTracks(s: Log, id: u64, rec: JobRec, m: Ledger)
    requires Tracks(s, m) && IsLogged(s, id)
    ensures var s' := WithRec(s, id, rec);
            && (forall k :: k in m <==> IsLogged(s', k))
            && (forall k :: k in m && k != id ==> TracksJob(s'.jobs[k], m[k]))
            && s'.jobs[id].tube == m[id].tube && s'.jobs[id].body == m[id].body
            && s'.jobs[id].logged in m[id].recs
  {
    assert id in m && TracksJob(s.jobs[id], m[id]);
    assert forall k :: IsLogged(WithRec(s, id, rec), k) <==> IsLogged(s, k);
  }

  lemma TouchExecutes(s: Log, id: u64, rec: JobRec, m: Ledger, maxN: nat)
    requires Safe(s, maxN) && Tracks(s, m) && NewRecord(s, id, rec)
    ensures id in m && Safe(WithRec(s, id, rec), maxN)
    ensures Tracks(WithRec(s, id, rec), m[id := m[id].(now := Is(rec), recs := m[id].recs + {rec})])
  {
    assert id in m;
    hide Base, Spare, Persisted, Tracks, Granting;
    RecIsReady(s, id, rec, 0, maxN);
    WithRecCapacity(s, id, rec);
    WithRecRoom(s, id, rec);
    SameRoomUnhindered(s, WithRec(s, id, rec), maxN);
    TouchTracks(s, id, rec, m);
  }

  lemma TouchTracks(s: Log, id: u64, rec: JobRec, m: Ledger)
    requires Tracks(s, m) && IsLogged(s, id)
    ensures id in m && Tracks(WithRec(s, id, rec), m[id := m[id].(now := Is(rec), recs := m[id].recs + {rec})])
  {
    var s', m' := WithRec(s, id, rec), m[id := m[id].(now := Is(rec), recs := m[id].recs + {rec})];
    RecTracks(s, id, rec, m);
    forall k | k in m'
      ensures TracksJob(s'.jobs[k], m'[k])
    {
      assert k != id ==> TracksJob(s.jobs[k], m[k]);
    }
  }

  // ---------- Deleting ----------

  lemma ForgetKeeps(s: Log, id: u64, maxN: nat)
    requires Steady(s, maxN) && !IsLogged(s, id)
    ensures Steady(Forget(s, id), maxN) && SameRoom(s, Forget(s, id))
  {
    hide Base, Persisted, Sum, Shape;
    ForgetBase(s, id, maxN);
    ForgetPersisted(s, id);
    SameSpace(s, Forget(s, id), 0, maxN);
  }

  lemma ForgetPersisted(s: Log, id: u64)
    requires !IsLogged(s, id)
    ensures Persisted(Forget(s, id)) == Persisted(s)
  {
  }

  lemma ForgetLinked(s: Log, id: u64)
    requires Linked(s) && !IsLogged(s, id)
    ensures Linked(Forget(s, id))
  {
    var s' := Forget(s, id);
    assert Files(s') == Files(s);
    forall k | k in s'.jobs
      ensures JobLinked(s', k)
    {
      assert JobLinked(s, k);
    }
    forall i | 0 <= i < |Files(s')|
      ensures FileLinked(s', Files(s')[i])
    {
      assert FileLinked(s, Files(s)[i]);
      assert id !in Files(s)[i].jobs;
    }
  }

  lemma ForgetFits(s: Log, id: u64, maxN: nat)
    requires JobsFit(s, {}, maxN)
    ensures JobsFit(Forget(s, id), {}, maxN)
  {
    var s' := Forget(s, id);
    forall k | k in s'.jobs
      ensures JobFits(s'.book, k, s'.jobs[k], k in {}, maxN)
    {
      assert JobFits(s.book, k, s.jobs[k], k in {}, maxN);
    }
  }

  lemma ForgetConsistent(s: Log, id: u64)
    requires Consistent(s, {}) && !IsLogged(s, id)
    ensures Consistent(Forget(s, id), {})
  {
    ForgetPersisted(s, id);
    assert Files(Forget(s, id)) == Files(s);
    hide Persisted, Tame;
  }

  lemma ForgetBase(s: Log, id: u64, maxN: nat)
    requires Base(s, {}, maxN) && !IsLogged(s, id)
    ensures Base(Forget(s, id), {}, maxN)
  {
    hide Linked, JobsFit, Persisted, Numbered, Counted, Written, Recoverable, HeadHeld, Files, Consistent;
    ForgetLinked(s, id);
    ForgetFits(s, id, maxN);
    ForgetPersisted(s, id);
    ForgetConsistent(s, id);
    SameFilesSameReplay(s, Forget(s, id));
  }

  lemma DeleteTracks(s: Log, s': Log, id: u64, m: Ledger)
    requires Tracks(s, m) && id in s'.jobs && s'.jobs[id].home == Nowhere
    requires OthersSame(s, s', id)
    ensures Tracks(s', m - {id})
  {
    forall k
      ensures k in m - {id} <==> IsLogged(s', k)
    {
      assert k in m <==> IsLogged(s, k);
    }
    forall k | k in m - {id}
      ensures TracksJob(s'.jobs[k], (m - {id})[k])
    {
      assert TracksJob(s.jobs[k], m[k]);
    }
  }

  lemma ForgetTracks(s: Log, id: u64, m: Ledger)
    requires Tracks(s, m) && id !in m
    ensures Tracks(Forget(s, id), m) && !IsLogged(s, id)
  {
    assert id in m <==> IsLogged(s, id);
    assert forall k :: k != id ==> (IsLogged(Forget(s, id), k) <==> IsLogged(s, k));
    forall k | k in m
      ensures TracksJob(Forget(s, id).jobs[k], m[k])
    {
      assert TracksJob(s.jobs[k], m[k]);
    }
  }

  // A delete always finds its space, so it is never refused.
  lemma DeleteExecutes(s: Log, id: u64, m: Ledger, maxN: nat)
    requires Safe(s, maxN) && Tracks(s, m) && IsLogged(s, id)
    ensures Writable(Marked(s, id), id, maxN)
    ensures var (s', ok) := WriteAndForget(Marked(s, id), id, maxN);
            ok && Safe(s', maxN) && Tracks(s', m - {id}) && s'.book == s.book
  {
    hide Base, Ready, Referenced, Spare, WalWrite, Persisted, WriteAndMaintain, Writable, Tracks, Capacity, Refreshed,
        Granting, Steady, SameRoom, Unhindered;
    var s1 := Marked(s, id);
    MarkedIsReady(s, id, maxN);
    DeleteWrites(s1, id, maxN);
    var s2 := WalWrite(s1, id).0;
    SteadyMeans(s, maxN);
    SameRoomTwice(s, s1, s2);
    ReadyIsSteady(s, s2, 0, maxN);
    SameRoomUnhindered(s, s2, maxN);
    DeleteTracks(s, s2, id, m);
    Maintained(s1, id, m - {id}, maxN);
    var s3 := WriteAndMaintain(s1, id, maxN).0;
    ForgetTracks(s3, id, m - {id});
    ForgetKeeps(s3, id, maxN);
    SameRoomUnhindered(s3, Forget(s3, id), maxN);
  }

  lemma MarkedIsReady(s: Log, id: u64, maxN: nat)
    requires Steady(s, maxN) && IsLogged(s, id)
    ensures var s1 := Marked(s, id);
            && Base(s1, {id}, maxN) && Spare(s1, 0, maxN) && s1.resv == Z * |Persisted(s1)|
            && SameRoom(s, s1) && s1.use && Z <= maxN && maxN + Z <= Capacity(s1)
            && Referenced(s1) && s1.book == s.book
  {
    hide Base, Persisted, Spare;
    ReadyMeans(s, 0, maxN);
    JobIdMatches(s, id, maxN);
    SetAside(s, id, maxN);
    TouchKeeps(s, id, s.jobs[id].rec.(state := INVALID), {id}, maxN);
    SameSpace(s, Marked(s, id), 0, maxN);
    OpenFilesReferenced(Marked(s, id), {id}, maxN);
  }

  lemma JobIdMatches(s: Log, id: u64, maxN: nat)
    requires Base(s, {}, maxN) && id in s.jobs
    ensures s.jobs[id].rec.id == id
  {
    assert JobFits(s.book, id, s.jobs[id], id in {}, maxN);
  }

  // ---------- Runs ----------

  lemma ValidIsLogged(s: Log, id: u64, m: Ledger)
    requires Tracks(s, m)
    ensures id in m <==> IsLogged(s, id)
  {
  }

  // The put of a job, once it is among the jobs the server knows.
  lemma PutIsReady(s: Log, id: u64, j: Job, m: Ledger, maxN: nat)
    requires Safe(s, maxN) && Tracks(s, m) && id !in s.jobs && j.home == Nowhere
    requires JobFits(s.book, id, j, false, maxN) && LiveState(j.rec.state)
    ensures var s0 := WithJob(s, id, j);
            && Safe(s0, maxN) && Tracks(s0, m) && id in s0.jobs && s0.jobs[id] == j && s0.book == s.book
            && FullSize(j.tube, j.body) + Z <= maxN
  {
    hide Steady, SameRoom, Unhindered;
    FreshIsSteady(s, id, j, maxN);
    SameRoomUnhindered(s, WithJob(s, id, j), maxN);
    FreshTracks(s, id, j, m);
  }

  lemma FreshTracks(s: Log, id: u64, j: Job, m: Ledger)
    requires Tracks(s, m) && id !in s.jobs && j.home == Nowhere
    ensures Tracks(WithJob(s, id, j), m)
  {
    assert forall k :: IsLogged(WithJob(s, id, j), k) <==> IsLogged(s, k);
    forall k | k in m
      ensures TracksJob(WithJob(s, id, j).jobs[k], m[k])
    {
      assert IsLogged(s, k) && TracksJob(s.jobs[k], m[k]);
    }
  }

  /** One command. The log is in order again afterwards, and holds what the client was told:
      whether or not the file system granted the files that were asked for. */
  lemma CommandExecutes(s: Log, cmd: Command, m: Ledger, maxN: nat)
    requires Safe(s, maxN) && Tracks(s, m) && Valid(s, cmd, maxN)
    ensures Executable(s, cmd, maxN)
    ensures var (s', ok) := Execute(s, cmd, maxN);
            Safe(s', maxN) && Tracks(s', Expect(m, cmd, ok)) && s'.book == Booked(s.book, cmd, ok)
  {
    hide Safe, Tracks, Reservable, ReserveAndWrite, Updatable, ReserveAndUpdate, Writable, WriteAndForget, WithRec,
        WithJob, JobFits;
    match cmd
    case Put(id, tube, body, rec) =>
      var j := Job(tube, body, rec, rec, Nowhere, 0);
      PutIsReady(s, id, j, m, maxN);
      PutExecutes(WithJob(s, id, j), id, FullSize(tube, body) + Z, m, maxN);
    case Update(id, rec) =>
      ValidIsLogged(s, id, m);
      UpdateExecutes(s, id, rec, m, maxN);
    case Touch(id, rec) =>
      ValidIsLogged(s, id, m);
      TouchExecutes(s, id, rec, m, maxN);
      TouchedBook(s, id, rec);
    case Delete(id) =>
      DeleteExecutes(s, id, m, maxN);
  }

  lemma TouchedBook(s: Log, id: u64, rec: JobRec)
    requires id in s.jobs
    ensures WithRec(s, id, rec).book == s.book
  {
  }

  // What the log itself knows of its jobs.
  ghost function LedgerOf(s: Log): Ledger {
    map id | id in s.jobs && s.jobs[id].home.In? ::
      Known(s.jobs[id].tube, s.jobs[id].body, Is(s.jobs[id].rec), {s.jobs[id].rec, s.jobs[id].logged})
  }

  lemma LedgerTracks(s: Log)
    ensures Tracks(s, LedgerOf(s))
  {
  }

  // Every command can be carried out, and the next one after it.
  lemma CommandIsSafe(s: Log, cmd: Command, maxN: nat)
    requires Safe(s, maxN) && Valid(s, cmd, maxN)
    ensures Executable(s, cmd, maxN)
    ensures var (s', ok) := Execute(s, cmd, maxN);
            Safe(s', maxN) && s'.book == Booked(s.book, cmd, ok)
  {
    hide Safe, Tracks, Executable, Execute, LedgerOf;
    LedgerTracks(s);
    CommandExecutes(s, cmd, LedgerOf(s), maxN);
  }

  // One command of a server in order, as far as its log goes.
  ghost function Served(s: Log, cmd: Command, maxN: nat): (r: (Log, bool))
    requires Safe(s, maxN) && Valid(s, cmd, maxN)
    ensures Safe(r.0, maxN) && r.0.book == Booked(s.book, cmd, r.1)
  {
    hide Safe, Valid, Executable, Execute, Booked;
    CommandIsSafe(s, cmd, maxN);
    Execute(s, cmd, maxN)
  }

  // Every command is one the server would accept in the state it finds.
  ghost predicate Admissible(s: Log, cmds: seq<Command>, maxN: nat)
    requires Safe(s, maxN)
    decreases |cmds|
  {
    cmds == [] || (Valid(s, cmds[0], maxN) && Admissible(Served(s, cmds[0], maxN).0, cmds[1..], maxN))
  }

  ghost function Run(s: Log, cmds: seq<Command>, maxN: nat): (s': Log)
    requires Safe(s, maxN) && Admissible(s, cmds, maxN)
    ensures Safe(s', maxN)
    decreases |cmds|
  {
    if cmds == [] then s else Run(Served(s, cmds[0], maxN).0, cmds[1..], maxN)
  }

  ghost function ExpectAll(s: Log, m: Ledger, cmds: seq<Command>, maxN: nat): Ledger
    requires Safe(s, maxN) && Admissible(s, cmds, maxN)
    decreases |cmds|
  {
    if cmds == [] then m
    else
      var (s', ok) := Served(s, cmds[0], maxN);
      ExpectAll(s', Expect(m, cmds[0], ok), cmds[1..], maxN)
  }

  /** Every run, in ample files whatever the file system grants or refuses on the way, and in
      smaller ones when it refuses nothing: after any commands the log is in order, holds exactly
      what the clients were told, and provides for every delete to come. */
  lemma {:induction false} RunKeeps(s: Log, cmds: seq<Command>, m: Ledger, maxN: nat)
    requires Safe(s, maxN) && Tracks(s, m) && Admissible(s, cmds, maxN)
    ensures Safe(Run(s, cmds, maxN), maxN) && DeletesProvided(Run(s, cmds, maxN))
    ensures Tracks(Run(s, cmds, maxN), ExpectAll(s, m, cmds, maxN))
    decreases |cmds|
  {
    hide Steady, Unhindered, Tracks, Execute, Executable, Valid, Expect, DeletesProvided, Booked;
    if cmds == [] {
      SteadyProvides(s, maxN);
    } else {
      CommandExecutes(s, cmds[0], m, maxN);
      var (s', ok) := Served(s, cmds[0], maxN);
      RunKeeps(s', cmds[1..], Expect(m, cmds[0], ok), maxN);
    }
  }

  // ---------- A new log ----------

  // The log start-up makes in an empty directory, when the file system grants the first file.
  function NewLog(fileSize: nat, answers: seq<bool>): Log {
    MakeNextFile(EmptyLog(fileSize, answers)).0
  }

  predicate FirstGranted(answers: seq<bool>) {
    answers == [] || answers[0]
  }

  // As Unhindered, before there is a log.
  ghost predicate UnhinderedFrom(fileSize: nat, answers: seq<bool>, maxN: nat) {
    Unhindered(EmptyLog(fileSize, answers), maxN)
  }

  lemma NothingToReplay(q: nat)
    ensures var segs := [Segment(q, [])];
            Replay.Replay(segs) == map[] && Tame(segs)
  {
    var segs := [Segment(q, [])];
    assert segs[..0] == [] && ReplayFrom(map[], segs[..0]) == map[] && TameFrom(map[], segs[..0]);
    assert ApplyAll(map[], q, []) == map[] && TameAll(map[], q, []);
  }

  // One file, nothing written yet.
  ghost predicate OneBlankFile(s: Log) {
    && s.past == [] && |s.live| == 1 && s.jobs == map[] && s.book == map[] && s.alive == 0 && s.nfile == 1
    && var f := s.live[0];
       && f.open && f.refs == 1 && f.jobs == [] && f.recs == [] && f.seqNo < s.next
       && WORD + f.free + f.resv == s.fileSize <= f.size
  }

  lemma OneBlankFileReplays(s: Log)
    requires OneBlankFile(s)
    ensures Persisted(s) == map[] && Consistent(s, {}) && Files(s) == s.live
  {
    hide Replay.Replay, Tame;
    var f := s.live[0];
    assert Files(s) == [f] && s.live == [f];
    assert SegmentsOf(Files(s)) == [Segment(f.seqNo, [])];
    NothingToReplay(f.seqNo);
    assert Persisted(s) == map[];
  }

  lemma OneBlankFileCounted(s: Log)
    requires OneBlankFile(s) && Files(s) == s.live
    ensures Numbered(s) && Counted(s) && Written(s)
  {
    hide Files, Registered;
    assert RecsSize([]) == 0;
  }

  lemma OneBlankFileLinked(s: Log, maxN: nat)
    requires OneBlankFile(s) && Files(s) == s.live
    ensures Linked(s) && JobsFit(s, {}, maxN)
  {
    hide Files, JobFits, JobLinked;
  }

  lemma OneBlankFileIsBase(s: Log, maxN: nat)
    requires OneBlankFile(s)
    ensures Base(s, {}, maxN) && Persisted(s) == map[]
  {
    OneBlankFileReplays(s);
    OneBlankFileCounted(s);
    OneBlankFileLinked(s, maxN);
    hide Consistent, Persisted, Files, Numbered, Counted, Written, Linked, JobsFit;
  }

  lemma NewLogIsBase(fileSize: nat, answers: seq<bool>, maxN: nat)
    requires FirstGranted(answers)
    ensures Base(NewLog(fileSize, answers), {}, maxN) && Persisted(NewLog(fileSize, answers)) == map[]
  {
    hide Base, Persisted;
    OneBlankFileIsBase(NewLog(fileSize, answers), maxN);
  }

  lemma NewLogIsSteady(fileSize: nat, answers: seq<bool>, maxN: nat)
    requires FirstGranted(answers) && Z <= maxN && maxN + Z <= fileSize - WORD
    ensures Steady(NewLog(fileSize, answers), maxN) && Tracks(NewLog(fileSize, answers), map[])
    ensures UnhinderedFrom(fileSize, answers, maxN) ==> Safe(NewLog(fileSize, answers), maxN)
    ensures NewLog(fileSize, answers).book == map[]
  {
    NewLogIsBase(fileSize, answers, maxN);
    hide Base, Persisted;
    var s := NewLog(fileSize, answers);
    assert s.live[1..] == [] && Sum(s.live) == s.live[0].resv + Sum(s.live[1..]);
    assert |Persisted(s)| == 0;
    assert AlignedAt(s.live, 0, 0, 0);
  }
}
