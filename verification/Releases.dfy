/** What releases do to the reserve of the log. A release that delays the job reserves a short record
    and writes none; one that does not writes a short record that nothing was reserved for. So the
    reserve drifts away from one delete record for every job, and a delete finds its space exactly
    as long as something is left. */
module Releases {
  import opened Records
  import opened Replay
  import opened WalState
  import opened Linking
  import opened Space
  import opened Upkeep
  import opened Writing
  import opened Commands
  import opened Runs

  /** As between commands, but that d delete records more than one for every job are reserved, or
      that many fewer. */
  ghost predicate Drifting(s: Log, maxN: nat, d: int) {
    && s.use && Z <= maxN && maxN + Z <= Capacity(s) && Base(s, {}, maxN) && Spare(s, 0, maxN)
    && s.resv == Z * (|Persisted(s)| + d)
  }

  lemma SteadyDriftsNot(s: Log, maxN: nat)
    ensures Steady(s, maxN) <==> Drifting(s, maxN, 0)
  {
  }

  // The record the job has afterwards, and if it is delayed.
  datatype Release = Release(id: u64, rec: JobRec, delayed: bool)

  // What one release does, before the log is maintained.
  ghost function Released(s: Log, r: Release): Log
    requires r.id in s.jobs && s.use && Usable(s) && Capacity(s) >= 2 * Z - 1
  {
    if r.delayed then
      var (s', z) := Reserve(s, Z);
      if z <= 0 then s' else WithRec(s', r.id, r.rec)
    else
      WalWrite(WithRec(s, r.id, r.rec), r.id).0
  }

  ghost predicate Releasable(s: Log, r: Release) {
    NewRecord(s, r.id, r.rec) && (r.delayed || s.resv >= Z)
  }

  function Step(r: Release): int {
    if r.delayed then 1 else -1
  }

  lemma DriftingMeans(s: Log, maxN: nat, d: int)
    requires Drifting(s, maxN, d)
    ensures s.use && Base(s, {}, maxN) && Spare(s, 0, maxN) && Usable(s) && Capacity(s) >= 2 * Z - 1
    ensures Shape(s, maxN) && Aligned(s.live, 0, 0) && s.resv == Sum(s.live) && s.live != []
    ensures Z <= maxN && maxN + Z <= Capacity(s) && s.resv == Z * (|Persisted(s)| + d)
  {
  }

  // ---------- A delayed job ----------

  lemma DelayedDrifts(s: Log, r: Release, maxN: nat, d: int)
    requires Drifting(s, maxN, d) && Releasable(s, r) && r.delayed && Granting(s)
    ensures Usable(s) && Capacity(s) >= 2 * Z - 1
    ensures Drifting(Released(s, r), maxN, d + 1) && Granting(Released(s, r))
  {
    hide Base, Reserve, Persisted, Sum, Recoverable, Shape, Aligned, Granting, Usable;
    DriftingMeans(s, maxN, d);
    ReserveKeeps(s, Z, maxN);
    ReserveKeepsBase(s, Z, {}, maxN);
    ReserveKeepsJobs(s, Z);
    GrantedReserves(s, Z);
    var s1 := Reserve(s, Z).0;
    RecordIsOver(s1);
    DriftWithRec(s1, r.id, r.rec, maxN, d + 1);
  }

  // A delete record more in the current file leaves it a multiple.
  lemma RecordIsOver(s: Log)
    requires Aligned(s.live, 0, Z)
    ensures Aligned(s.live, 0, 0)
  {
    forall i | 0 <= i < |s.live|
      ensures AlignedAt(s.live, i, 0, 0)
    {
      assert AlignedAt(s.live, i, 0, Z);
    }
  }

  lemma DriftWithRec(s: Log, id: u64, rec: JobRec, maxN: nat, d: int)
    requires Drifting(s, maxN, d) && NewRecord(s, id, rec)
    ensures Drifting(WithRec(s, id, rec), maxN, d) && (Granting(s) ==> Granting(WithRec(s, id, rec)))
    ensures WithRec(s, id, rec).resv == s.resv && id in WithRec(s, id, rec).jobs
    ensures WithRec(s, id, rec).jobs[id].home.In? && LiveState(WithRec(s, id, rec).jobs[id].rec.state)
  {
    hide Base, Persisted, Spare;
    TouchKeeps(s, id, rec, {}, maxN);
    SameSpace(s, WithRec(s, id, rec), 0, maxN);
  }

  // ---------- A job that is not delayed ----------

  lemma WritesShortIn(s: Log, id: u64)
    requires id in s.jobs && s.use && Referenced(s) && s.jobs[id].home.In? && s.jobs[id].rec.state != INVALID
    requires s.live[0].resv > 0 || UseNext(s).1
    requires var s0 := ToWriteIn(s); s0.live != [] && Quiet(s, s0)
    ensures var s1 := ShortWritten(ToWriteIn(s), id);
            WalWrite(s, id) == (s1.(nrec := s1.nrec + 1), true)
  {
    hide UseNext;
  }

  // The file the record goes to holds it.
  lemma NextForShort(s: Log, maxN: nat, d: int)
    requires Drifting(s, maxN, d) && s.resv >= Z
    ensures s.live != []
    ensures var s0 := ToWriteIn(s);
            && Drifting(s0, maxN, d) && s0.live[0].resv >= Z && Quiet(s, s0) && (s.live[0].resv > 0 || UseNext(s).1)
  {
    hide Base, Spare, UseNext, Recoverable, Persisted;
    DriftingMeans(s, maxN, d);
    FirstIsMultiple(s, maxN);
    if s.live[0].resv == 0 {
      NextFileHoldsOne(s, maxN);
      NextSpare(s, maxN);
      UseNextKeepsBase(s, {}, maxN);
      SameJobsPersist(s, UseNext(s).0);
    }
  }

  lemma ShortDrifts(s: Log, id: u64, maxN: nat, d: int)
    requires Drifting(s, maxN, d) && id in s.jobs && s.jobs[id].home.In? && LiveState(s.jobs[id].rec.state)
    requires s.live[0].resv >= Z
    ensures Drifting(ShortWritten(s, id), maxN, d - 1) && (Granting(s) ==> Granting(ShortWritten(s, id)))
  {
    hide Base, Persisted, Spent, Spare, ShortWritten, Referenced, Granting;
    DriftingMeans(s, maxN, d);
    OpenFilesReferenced(s, {}, maxN);
    IsPersisted(s, id);
    UpdateKeeps(s, id, maxN);
    ShortSpends(s, id);
    SpentKeeps(s, ShortWritten(s, id), 0, Z, maxN);
    SpentResv(s, ShortWritten(s, id), Z);
    CountSame(Persisted(s), id, ShortEntry(s.jobs[id]));
  }

  lemma CountedDrifts(s: Log, s': Log, maxN: nat, d: int)
    requires Drifting(s, maxN, d) && s' == s.(nrec := s'.nrec)
    ensures Drifting(s', maxN, d) && (Granting(s) ==> Granting(s'))
  {
    hide Base, Spare, Persisted, Recoverable, OnlySpaceDiffers;
    CountersOnly(s, s');
    SpaceKeepsBase(s, s', {}, maxN);
    SameSpace(s, s', 0, maxN);
    SameJobsPersist(s, s');
  }

  lemma WriteDrifts(s: Log, id: u64, maxN: nat, d: int)
    requires Drifting(s, maxN, d) && id in s.jobs && s.jobs[id].home.In? && LiveState(s.jobs[id].rec.state)
    requires s.resv >= Z
    ensures Referenced(s) && Drifting(WalWrite(s, id).0, maxN, d - 1)
    ensures Granting(s) ==> Granting(WalWrite(s, id).0)
  {
    hide Drifting, Usable, Capacity, Granting, WalWrite, ToWriteIn, ShortWritten, UseNext, Base, Spare;
    DriftingMeans(s, maxN, d);
    NextForShort(s, maxN, d);
    var s1 := ToWriteIn(s);
    DriftingMeans(s1, maxN, d);
    OpenFilesReferenced(s, {}, maxN);
    WritesShortIn(s, id);
    ShortDrifts(s1, id, maxN, d);
    var s2 := ShortWritten(s1, id);
    CountedDrifts(s2, s2.(nrec := s2.nrec + 1), maxN, d - 1);
  }

  lemma AtOnceDrifts(s: Log, r: Release, maxN: nat, d: int)
    requires Drifting(s, maxN, d) && Releasable(s, r) && !r.delayed
    ensures Usable(s) && Capacity(s) >= 2 * Z - 1
    ensures Drifting(Released(s, r), maxN, d - 1) && (Granting(s) ==> Granting(Released(s, r)))
  {
    hide Drifting, Usable, Capacity, Granting, WalWrite, Referenced, WithRec;
    DriftingMeans(s, maxN, d);
    DriftWithRec(s, r.id, r.rec, maxN, d);
    WriteDrifts(WithRec(s, r.id, r.rec), r.id, maxN, d);
  }

  // ---------- Releases, one after another ----------

  ghost predicate AllReleasable(s: Log, rs: seq<Release>)
    decreases |rs|
  {
    rs == [] ||
    (&& s.use && Usable(s) && Capacity(s) >= 2 * Z - 1 && Releasable(s, rs[0])
     && AllReleasable(Released(s, rs[0]), rs[1..]))
  }

  ghost function ReleasedAll(s: Log, rs: seq<Release>): Log
    requires AllReleasable(s, rs)
    decreases |rs|
  {
    if rs == [] then s else ReleasedAll(Released(s, rs[0]), rs[1..])
  }

  function Steps(rs: seq<Release>): int {
    if rs == [] then 0 else Step(rs[0]) + Steps(rs[1..])
  }

  /** The ledger of any releases of logged jobs, as long as there is something left to write with:
      what is reserved is a delete record for every job, and one more for every release that delayed
      its job, and one less for every release that did not. */
  lemma {:induction false} ReleasesDrift(s: Log, rs: seq<Release>, maxN: nat, d: int)
    requires Drifting(s, maxN, d) && Granting(s) && AllReleasable(s, rs)
    ensures Drifting(ReleasedAll(s, rs), maxN, d + Steps(rs))
    decreases |rs|
  {
    hide Drifting, Released, Granting;
    if rs != [] {
      OneDrifts(s, rs[0], maxN, d);
      ReleasesDrift(Released(s, rs[0]), rs[1..], maxN, d + Step(rs[0]));
    }
  }

  // The same from a log between commands.
  lemma LedgerOfReleases(s: Log, rs: seq<Release>, maxN: nat)
    requires Steady(s, maxN) && Granting(s) && AllReleasable(s, rs)
    ensures var s' := ReleasedAll(s, rs);
            s'.resv == Z * (|Persisted(s')| + Steps(rs))
  {
    hide AllReleasable, ReleasedAll, Persisted, Granting, Steady;
    SteadyDriftsNot(s, maxN);
    ReleasesDrift(s, rs, maxN, 0);
  }

  lemma OneDrifts(s: Log, r: Release, maxN: nat, d: int)
    requires Drifting(s, maxN, d) && Granting(s) && Releasable(s, r)
    ensures Usable(s) && Capacity(s) >= 2 * Z - 1
    ensures Drifting(Released(s, r), maxN, d + Step(r)) && Granting(Released(s, r))
  {
    hide Drifting, Released, Releasable, Granting;
    if r.delayed {
      DelayedDrifts(s, r, maxN, d);
    } else {
      AtOnceDrifts(s, r, maxN, d);
    }
  }

  // ---------- Deleting after releases ----------

  lemma MarkedDrifts(s: Log, id: u64, maxN: nat, d: int)
    requires Drifting(s, maxN, d) && IsLogged(s, id)
    ensures var s1 := Marked(s, id);
            && Base(s1, {id}, maxN) && Spare(s1, 0, maxN) && s1.resv == s.resv && s1.use && Referenced(s1)
            && Capacity(s1) == Capacity(s) && id in s1.jobs && s1.jobs[id].home.In? && s1.jobs[id].rec.state == INVALID
            && Persisted(s1) == Persisted(s)
  {
    hide Base, Persisted, Spare;
    JobIdMatches(s, id, maxN);
    SetAside(s, id, maxN);
    TouchKeeps(s, id, s.jobs[id].rec.(state := INVALID), {id}, maxN);
    SameSpace(s, Marked(s, id), 0, maxN);
    OpenFilesReferenced(Marked(s, id), {id}, maxN);
  }

  // Whatever it finds, a delete that is written takes a record from what is reserved.
  lemma WrittenTakes(s: Log, id: u64)
    requires id in s.jobs && s.use && Referenced(s) && s.jobs[id].home.In?
    ensures WalWrite(s, id).1 ==> WalWrite(s, id).0.resv == s.resv - Z
    ensures !WalWrite(s, id).1 ==> !WalWrite(s, id).0.use
  {
    hide Gc, DropJob, Closed;
  }

  lemma DeleteWithSpace(s: Log, id: u64, maxN: nat, d: int)
    requires Drifting(s, maxN, d) && IsLogged(s, id) && s.resv >= Z
    ensures Referenced(Marked(s, id))
    ensures var (s', ok) := WalWrite(Marked(s, id), id);
            ok && Drifting(s', maxN, d)
  {
    hide Base, Persisted, Spare, ShortWritten, FileRmJob, UseNext, WalWrite, Referenced, ToWriteIn, Granting, Marked;
    MarkedDrifts(s, id, maxN, d);
    var s1 := Marked(s, id);
    SpareIsHeld(s1, 0, maxN);
    DeleteFits(s1, id, maxN);
    var s0 := ToWriteIn(s1);
    SpareIsHeld(s0, 0, maxN);
    SameJobsPersist(s1, s0);
    DeleteIsDone(s0, id, maxN);
    WritesDelete(s1, id);
    IsPersisted(s, id);
    CountMinusOne(Persisted(s), id);
    var s2 := FileRmJob(ShortWritten(s0, id), s1.jobs[id].home.seqNo, id);
    DoneDrifts(s0, s2, id, maxN, d, |Persisted(s)|);
    CountedDrifts(s2, s2.(nrec := s2.nrec + 1), maxN, d);
  }

  lemma DoneDrifts(s: Log, s': Log, id: u64, maxN: nat, d: int, k: nat)
    requires DeleteDone(s, s', id, maxN) && s.resv == Z * (k + d) && |Persisted(s) - {id}| == k - 1
    requires Z <= maxN && maxN + Z <= Capacity(s)
    ensures Drifting(s', maxN, d)
  {
    hide Base, Persisted, Spare;
  }

  /** After releases a delete finds its space, and leaves the log in order, exactly as long as a
      delete record is reserved for any job at all. Else the log is given up, or owes bytes. */
  lemma DeleteFindsSpaceExactlyWhenReserved(s: Log, id: u64, maxN: nat, d: int)
    requires Drifting(s, maxN, d) && IsLogged(s, id)
    ensures Referenced(Marked(s, id))
    ensures var (s', ok) := WalWrite(Marked(s, id), id);
            && (ok && Drifting(s', maxN, d) <==> s.resv >= Z)
            && (s.resv < Z ==> !s'.use || s'.resv < 0)
  {
    hide Base, Persisted, WalWrite, Referenced, Marked, Drifting, Spare;
    MarkedDrifts(s, id, maxN, d);
    if s.resv >= Z {
      DeleteWithSpace(s, id, maxN, d);
    } else {
      WrittenTakes(Marked(s, id), id);
      if Drifting(WalWrite(Marked(s, id), id).0, maxN, d) {
        NoneOwed(WalWrite(Marked(s, id), id).0, maxN, d);
      }
    }
  }

  /** When nothing is reserved and no file is ahead, the delete is not written and the log is given
      up, so that the job stays in it for the next start. */
  lemma DeleteGivesUpLog(s: Log, id: u64, maxN: nat, d: int)
    requires Drifting(s, maxN, d) && IsLogged(s, id) && s.resv < Z && |s.live| == 1
    ensures Referenced(Marked(s, id))
    ensures var (s', ok) := WalWrite(Marked(s, id), id);
            !ok && !s'.use && IsLogged(s', id)
  {
    hide Base, Persisted, Spare, WalWrite, Referenced, Marked, Drifting, Sum;
    MarkedDrifts(s, id, maxN, d);
    var s1 := Marked(s, id);
    FirstIsMultiple(s1, maxN);
    SpareIsHeld(s1, 0, maxN);
    OnlyFile(s, s1, id);
    GivenUp(s1, id);
  }

  lemma OnlyFile(s: Log, s1: Log, id: u64)
    requires id in s.jobs && s1 == Marked(s, id) && |s.live| == 1
    ensures |s1.live| == 1 && Sum(s1.live) == s1.live[0].resv
  {
    assert s1.live[1..] == [] && Sum(s1.live) == s1.live[0].resv + Sum(s1.live[1..]);
  }

  lemma GivenUp(s: Log, id: u64)
    requires id in s.jobs && s.use && Referenced(s) && s.jobs[id].home.In? && |s.live| == 1 && s.live[0].resv <= 0
    ensures var (s', ok) := WalWrite(s, id);
            !ok && !s'.use && IsLogged(s', id)
  {
    hide Gc;
  }

  lemma NoneOwed(s: Log, maxN: nat, d: int)
    requires Drifting(s, maxN, d)
    ensures s.resv >= 0
  {
    hide Base, Persisted;
    SumNotNegative(s.live);
  }

  lemma {:induction false} SumNotNegative(live: seq<File>)
    requires forall i :: 0 <= i < |live| ==> live[i].resv >= 0
    ensures Sum(live) >= 0
  {
    if live != [] {
      SumNotNegative(live[1..]);
    }
  }
}
