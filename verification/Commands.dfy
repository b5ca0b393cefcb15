/** What the server does to the log for one client command, compaction included, and the
    state the log is in between commands. */
module Commands {
  import opened Records
  import opened Replay
  import opened WalState
  import opened Linking
  import opened Space
  import opened Upkeep
  import opened Writing

  /** Between commands: the invariant of files and jobs holds, every reserve is a multiple
      of the delete record, and what is reserved is one delete record for every job a
      restart would recover. maxN bounds the requests; a file holds one of them and a delete
      record. */
  ghost predicate Steady(s: Log, maxN: nat) {
    s.use && Z <= maxN && maxN + Z <= Capacity(s) && Ready(s, 0, maxN)
  }

  // No request for a file will be refused, or files are so large that a refusal does no harm.
  ghost predicate Unhindered(s: Log, maxN: nat) {
    Granting(s) || Ample(Capacity(s), maxN)
  }

  // The log can be written to, whatever the file system answers.
  ghost predicate Safe(s: Log, maxN: nat) {
    Steady(s, maxN) && Unhindered(s, maxN)
  }

  // Space is to be had as before.
  ghost predicate SameRoom(s: Log, s': Log) {
    s'.use && Capacity(s') == Capacity(s) && (Granting(s) ==> Granting(s'))
  }

  lemma SafeIsSteady(s: Log, maxN: nat)
    requires Safe(s, maxN)
    ensures Steady(s, maxN) && Unhindered(s, maxN)
  {
  }

  lemma SameRoomUnhindered(s: Log, s': Log, maxN: nat)
    requires SameRoom(s, s') && Unhindered(s, maxN)
    ensures Unhindered(s', maxN)
  {
  }

  lemma SameRoomTwice(s: Log, s1: Log, s2: Log)
    requires SameRoom(s, s1) && SameRoom(s1, s2)
    ensures SameRoom(s, s2)
  {
  }

  // n bytes more than that are reserved, in the current file.
  ghost predicate Ready(s: Log, n: nat, maxN: nat) {
    && Base(s, {}, maxN) && Spare(s, n, maxN)
    && s.resv == Z * |Persisted(s)| + n
  }

  ghost predicate Spare(s: Log, n: nat, maxN: nat) {
    && Shape(s, maxN) && Aligned(s.live, 0, n) && s.live[0].resv >= n
    && s.resv == Sum(s.live)
  }

  // ---------- Reserving for a command ----------

  /** A reservation between commands. When it is granted, exactly what was asked for is reserved
      beside the delete records, in files of any size. When it is refused and files are ample,
      nothing is. */
  lemma ReserveReady(s: Log, n: nat, maxN: nat)
    requires Steady(s, maxN) && Z <= n <= maxN
    ensures var (s', z) := Reserve(s, n);
            && (z == n || z == 0) && (z == n || Unhindered(s, maxN) ==> Ready(s', z, maxN))
            && Persisted(s') == Persisted(s) && SameRoom(s, s')
  {
    hide Base, Reserve, Persisted, Sum, Recoverable, Granting;
    ReserveKeeps(s, n, maxN);
    ReserveKeepsBase(s, n, {}, maxN);
    ReserveKeepsJobs(s, n);
    if Granting(s) {
      GrantedReserves(s, n);
    } else if Ample(Capacity(s), maxN) {
      ReserveFailsCleanly(s, n, maxN);
    }
  }

  // A refusal that leaves the reserves in order leaves the log in order.
  lemma RefusedIsReady(s: Log, n: nat, maxN: nat)
    requires Steady(s, maxN) && Z <= n <= maxN
    requires var (s', z) := Reserve(s, n); z == 0 && Shape(s', maxN) && Aligned(s'.live, 0, 0)
    ensures Steady(Reserve(s, n).0, maxN)
  {
    ReserveKeeps(s, n, maxN);
    ReserveKeepsBase(s, n, {}, maxN);
    ReserveKeepsJobs(s, n);
    hide Base, Reserve, Persisted, Sum, Recoverable;
  }

  // ---------- Spending a reserve ----------

  // l bytes of the current file's reserve are spent; lists, records and counts may differ.
  ghost predicate Spent(s: Log, s': Log, l: nat) {
    && s.live != [] && |s'.live| == |s.live| && Capacity(s') == Capacity(s)
    && s'.resv == s.resv - l
    && (forall i :: 0 <= i < |s.live| ==>
          && s'.live[i].free == s.live[i].free && s'.live[i].refs > 0
          && s'.live[i].resv == s.live[i].resv - if i == 0 then l else 0)
  }

  lemma {:induction false} SumSame(a: seq<File>, b: seq<File>)
    requires |a| == |b| && forall i :: 0 <= i < |a| ==> b[i].resv == a[i].resv
    ensures Sum(b) == Sum(a)
  {
    if a != [] {
      SumSame(a[1..], b[1..]);
    }
  }

  lemma SpentKeeps(s: Log, s': Log, n: nat, l: nat, maxN: nat)
    requires Spare(s, n, maxN) && Spent(s, s', l) && l <= s.live[0].resv
    requires ((n as int) - (l as int)) % Z == 0
    ensures Spare(s', 0, maxN)
  {
    SpentAligned(s, s', n, l);
    SpentShape(s, s', n, l, maxN);
    SumSame(s.live[1..], s'.live[1..]);
  }

  lemma SpentAligned(s: Log, s': Log, n: nat, l: nat)
    requires Aligned(s.live, 0, n) && Spent(s, s', l)
    requires ((n as int) - (l as int)) % Z == 0
    ensures Aligned(s'.live, 0, 0)
  {
    forall i | 0 <= i < |s'.live|
      ensures AlignedAt(s'.live, i, 0, 0)
    {
      assert AlignedAt(s.live, i, 0, n);
    }
  }

  lemma SpentShape(s: Log, s': Log, n: nat, l: nat, maxN: nat)
    requires Shape(s, maxN) && Spent(s, s', l) && l <= s.live[0].resv
    ensures Shape(s', maxN)
  {
    forall i | 0 < i < Last(s')
      ensures Crowded(s'.live[i], maxN)
    {
      assert Crowded(s.live[i], maxN);
    }
  }

  // ---------- Writing what was reserved ----------

  lemma CountersOnly(s: Log, s': Log)
    requires s' == s.(nrec := s'.nrec, nmig := s'.nmig)
    ensures OnlySpaceDiffers(s, s')
  {
  }

  lemma SameSpace(s: Log, s': Log, n: nat, maxN: nat)
    requires Spare(s, n, maxN) && s'.live == s.live && s'.resv == s.resv && s'.fileSize == s.fileSize
    ensures Spare(s', n, maxN)
  {
    forall i | 0 < i < |s'.live| - 1
      ensures Crowded(s'.live[i], maxN)
    {
      assert Crowded(s.live[i], maxN);
    }
  }

  lemma CountersDoNotMatter(s: Log, s': Log, n: nat, maxN: nat)
    requires Ready(s, n, maxN) && s' == s.(nrec := s'.nrec, nmig := s'.nmig)
    ensures Ready(s', n, maxN) && Persisted(s') == Persisted(s)
  {
    hide Base, Spare, Persisted, Recoverable, OnlySpaceDiffers;
    CountersOnly(s, s');
    SpaceKeepsBase(s, s', {}, maxN);
    SameSpace(s, s', n, maxN);
    SameJobsPersist(s, s');
  }

  lemma CountPlusOne(m: Store, id: u64, e: Entry)
    requires id !in m
    ensures |m[id := e]| == |m| + 1
  {
    assert m[id := e].Keys == m.Keys + {id};
  }

  lemma CountMinusOne(m: Store, id: u64)
    requires id in m
    ensures |m - {id}| == |m| - 1
  {
    assert (m - {id}).Keys == m.Keys - {id};
  }

  lemma OpenFilesReferenced(s: Log, skip: set<u64>, maxN: nat)
    requires Base(s, skip, maxN)
    ensures s.live != [] && Referenced(s)
  {
    forall i | 0 <= i < |s.live|
      ensures s.live[i].refs > 0
    {
      assert LiveFile(s.live[i]);
    }
  }

  lemma FullSpends(s: Log, id: u64)
    requires id in s.jobs && s.live != [] && Referenced(s)
    ensures Spent(s, WriteFull(s, id), FullSize(s.jobs[id].tube, s.jobs[id].body))
    ensures s.use ==> SameRoom(s, WriteFull(s, id))
  {
  }

  // A full record of a job in no file spends its own size.
  lemma WriteFullSpends(s: Log, id: u64, maxN: nat)
    requires id in s.jobs && s.jobs[id].home == Nowhere && LiveState(s.jobs[id].rec.state)
    requires Base(s, {id}, maxN)
    ensures s.live != []
    ensures var s', j := WriteFull(s, id), s.jobs[id];
            && Base(s', {}, maxN) && Spent(s, s', FullSize(j.tube, j.body))
            && Persisted(s') == Persisted(s)[id := Entry(j.tube, Recovered(j.rec), j.body, s.live[0].seqNo,
                FullSize(j.tube, j.body))]
            && id !in Persisted(s) && s'.book == s.book[id := Deed(j.tube, j.body)] && (s.use ==> SameRoom(s, s'))
  {
    hide Base, Persisted, WriteFull, Spent, SameRoom;
    BaseKnows(s, id, {id}, maxN);
    FullAppended(s, id);
    FullKeeps(s, id, maxN);
    OpenFilesReferenced(s, {id}, maxN);
    FullSpends(s, id);
  }

  lemma WritesFull(s: Log, id: u64)
    requires id in s.jobs && s.use && Referenced(s) && s.live[0].resv > 0 && s.jobs[id].home == Nowhere
    ensures var s1 := WriteFull(s, id);
            WalWrite(s, id) == (s1.(nrec := s1.nrec + 1), true)
  {
    hide WriteFull;
  }

  lemma WritesShort(s: Log, id: u64)
    requires id in s.jobs && s.use && Referenced(s) && s.live[0].resv > 0
    requires s.jobs[id].home.In? && s.jobs[id].rec.state != INVALID
    ensures var s1 := ShortWritten(s, id);
            WalWrite(s, id) == (s1.(nrec := s1.nrec + 1), true)
  {
  }

  ghost function FullEntry(s: Log, id: u64): Entry
    requires id in s.jobs && s.live != []
  {
    var j := s.jobs[id];
    Entry(j.tube, Recovered(j.rec), j.body, s.live[0].seqNo, FullSize(j.tube, j.body))
  }

  lemma BaseKnows(s: Log, id: u64, skip: set<u64>, maxN: nat)
    requires Base(s, skip, maxN) && id in s.jobs
    ensures Known(s, id) && s.live != [] && (s.jobs[id].home.In? ==> id in s.book)
  {
    assert JobFits(s.book, id, s.jobs[id], id in skip, maxN);
  }

  // The log after job id has been written in full into the current file.
  ghost predicate FullDone(s: Log, s': Log, id: u64, maxN: nat)
    requires id in s.jobs && s.live != []
  {
    && Ready(s', 0, maxN) && SameRoom(s, s') && s'.jobs == WriteFull(s, id).jobs
    && s'.book == s.book[id := Deed(s.jobs[id].tube, s.jobs[id].body)]
    && Persisted(s') == Persisted(s)[id := FullEntry(s, id)]
  }

  lemma FullIsReady(s: Log, id: u64, n: nat, maxN: nat)
    requires id in s.jobs && s.jobs[id].home == Nowhere && LiveState(s.jobs[id].rec.state) && s.use
    requires Base(s, {id}, maxN) && Spare(s, n, maxN)
    requires var l := FullSize(s.jobs[id].tube, s.jobs[id].body);
             (n == l || n == l + Z) && s.resv == Z * (|Persisted(s)| + 1) + l
    ensures FullDone(s, WriteFull(s, id), id, maxN)
  {
    hide Base, Persisted, Spent, Shape, Sum, Aligned, SameRoom;
    var j := s.jobs[id];
    var l := FullSize(j.tube, j.body);
    WriteFullSpends(s, id, maxN);
    SpentKeeps(s, WriteFull(s, id), n, l, maxN);
    CountPlusOne(Persisted(s), id, FullEntry(s, id));
    SpentResv(s, WriteFull(s, id), l);
  }

  lemma SpentResv(s: Log, s': Log, l: nat)
    requires Spent(s, s', l)
    ensures s'.resv == s.resv - l && Capacity(s') == Capacity(s)
  {
  }

  /** Writing in full a job that is in no file: a new one, with its size and a delete record
      reserved, or one that compaction moves, with just its size reserved. */
  lemma FullWrites(s: Log, id: u64, n: nat, maxN: nat)
    requires id in s.jobs && s.jobs[id].home == Nowhere && LiveState(s.jobs[id].rec.state) && s.use
    requires Base(s, {id}, maxN) && Spare(s, n, maxN)
    requires var l := FullSize(s.jobs[id].tube, s.jobs[id].body);
             (n == l || n == l + Z) && s.resv == Z * (|Persisted(s)| + 1) + l
    ensures Referenced(s) && WalWrite(s, id).1 && FullDone(s, WalWrite(s, id).0, id, maxN)
  {
    hide Base, Spare, WriteFull, Persisted, Ready, WalWrite, Referenced, Granting;
    FullIsReady(s, id, n, maxN);
    OpenFilesReferenced(s, {id}, maxN);
    SpareIsHeld(s, n, maxN);
    WritesFull(s, id);
    var s1 := WriteFull(s, id);
    CountersDoNotMatter(s1, s1.(nrec := s1.nrec + 1), 0, maxN);
  }

  lemma SpareIsHeld(s: Log, n: nat, maxN: nat)
    requires Spare(s, n, maxN)
    ensures s.live != [] && s.live[0].resv >= n && s.resv == Sum(s.live)
  {
  }

  lemma ReadyMeans(s: Log, n: nat, maxN: nat)
    requires Ready(s, n, maxN)
    ensures Base(s, {}, maxN) && Spare(s, n, maxN) && s.resv == Z * |Persisted(s)| + n
    ensures s.live != [] && Referenced(s) && s.live[0].resv >= n
  {
    OpenFilesReferenced(s, {}, maxN);
  }

  lemma IsPersisted(s: Log, id: u64)
    requires id in s.jobs && s.jobs[id].home.In?
    ensures id in Persisted(s) && Persisted(s)[id] == EntryOf(s.jobs[id])
  {
  }

  ghost function ShortEntry(j: Job): Entry
    requires j.home.In?
  {
    EntryOf(j).(rec := Recovered(j.rec), used := j.used + Z)
  }

  ghost predicate ShortDone(s: Log, s': Log, id: u64, maxN: nat)
    requires id in s.jobs && s.jobs[id].home.In? && s.live != []
  {
    && Ready(s', 0, maxN) && SameRoom(s, s') && s'.jobs == ShortWritten(s, id).jobs && s'.book == s.book
    && Persisted(s') == Persisted(s)[id := ShortEntry(s.jobs[id])]
  }

  lemma ShortSpends(s: Log, id: u64)
    requires id in s.jobs && s.live != [] && Referenced(s)
    ensures Spent(s, ShortWritten(s, id), Z)
    ensures (s.use ==> SameRoom(s, ShortWritten(s, id))) && ShortWritten(s, id).book == s.book
  {
  }

  lemma ShortIsReady(s: Log, id: u64, maxN: nat)
    requires id in s.jobs && s.jobs[id].home.In? && LiveState(s.jobs[id].rec.state) && s.use
    requires Ready(s, Z, maxN)
    ensures s.live != [] && ShortDone(s, ShortWritten(s, id), id, maxN)
  {
    hide Base, Persisted, Spent, Spare, ShortWritten, Referenced, SameRoom;
    ReadyMeans(s, Z, maxN);
    IsPersisted(s, id);
    SpareIsHeld(s, Z, maxN);
    UpdateKeeps(s, id, maxN);
    ShortAppended(s, id);
    ShortSpends(s, id);
    SpentKeeps(s, ShortWritten(s, id), Z, Z, maxN);
    SpentResv(s, ShortWritten(s, id), Z);
    ShortUses(s, id);
    CountSame(Persisted(s), id, ShortEntry(s.jobs[id]));
  }

  lemma ShortUses(s: Log, id: u64)
    requires id in s.jobs && s.live != []
    ensures ShortWritten(s, id).use == s.use
  {
  }

  lemma CountSame(m: Store, id: u64, e: Entry)
    requires id in m
    ensures |m[id := e]| == |m|
  {
    assert m[id := e].Keys == m.Keys;
  }

  /** Updating a logged job, a short record being reserved. */
  lemma ShortWrites(s: Log, id: u64, maxN: nat)
    requires id in s.jobs && s.jobs[id].home.In? && LiveState(s.jobs[id].rec.state) && s.use
    requires Ready(s, Z, maxN)
    ensures Referenced(s) && WalWrite(s, id).1 && ShortDone(s, WalWrite(s, id).0, id, maxN)
  {
    hide Base, Spare, ShortWritten, Persisted, Ready, WalWrite, Referenced, Granting;
    ReadyMeans(s, Z, maxN);
    ShortIsReady(s, id, maxN);
    WritesShort(s, id);
    var s1 := ShortWritten(s, id);
    CountersDoNotMatter(s1, s1.(nrec := s1.nrec + 1), 0, maxN);
  }

  // ---------- Deleting ----------

  /** The file after a current file with nothing reserved in it holds a delete record, if
      anything is reserved at all. */
  lemma NextFileHoldsOne(s: Log, maxN: nat)
    requires Spare(s, 0, maxN) && s.live[0].resv == 0 && s.resv >= Z && Z <= maxN && maxN + Z <= Capacity(s)
    ensures |s.live| > 1 && s.live[1].resv >= Z
  {
    assert s.resv == s.live[0].resv + Sum(s.live[1..]);
    if |s.live| > 1 {
      assert AlignedAt(s.live, 1, 0, 0);
      if |s.live| == 2 {
        assert s.live[1..][1..] == [];
        assert Sum(s.live[1..]) == s.live[1].resv + Sum(s.live[1..][1..]);
      } else {
        BetweenHoldsOne(s, 1, maxN);
      }
    }
  }

  /** Every file strictly between the current one and the tail holds a delete record. */
  lemma BetweenHoldsOne(s: Log, i: nat, maxN: nat)
    requires Spare(s, 0, maxN) && Z <= maxN && maxN + Z <= Capacity(s) && 0 < i < Last(s)
    ensures s.live[i].resv >= Z
  {
    assert AlignedAt(s.live, i, 0, 0);
    BetweenHolds(s, i, maxN);
  }

  // Between commands a delete record is reserved for every job; every file between the current
  // one and the tail holds one, and so does the current file or the one after it, if there is
  // any job; and none of this is asked for twice.
  ghost predicate DeletesProvided(s: Log) {
    && s.live != [] && s.resv == Z * |Persisted(s)| && s.resv == Sum(s.live)
    && (forall i :: 0 <= i < |s.live| ==> s.live[i].resv >= 0 && s.live[i].resv % Z == 0)
    && (forall i :: 0 < i < Last(s) ==> s.live[i].resv >= Z)
    && (Persisted(s) != map[] && s.live[0].resv == 0 ==> |s.live| > 1 && s.live[1].resv >= Z)
  }

  lemma SteadyProvides(s: Log, maxN: nat)
    requires Steady(s, maxN)
    ensures DeletesProvided(s)
  {
    hide Base, Persisted, Sum;
    forall i | 0 <= i < |s.live|
      ensures s.live[i].resv >= 0 && s.live[i].resv % Z == 0 && (0 < i < Last(s) ==> s.live[i].resv >= Z)
    {
      assert AlignedAt(s.live, i, 0, 0);
      if 0 < i < Last(s) {
        BetweenHoldsOne(s, i, maxN);
      }
    }
    if Persisted(s) != map[] && s.live[0].resv == 0 {
      NotEmpty(Persisted(s));
      NextFileHoldsOne(s, maxN);
    }
  }

  lemma NotEmpty(m: Store)
    requires m != map[]
    ensures |m| >= 1
  {
    var id :| id in m;
    assert id in m.Keys;
  }

  lemma NextSpare(s: Log, maxN: nat)
    requires Spare(s, 0, maxN) && |s.live| > 1 && s.live[0].resv == 0
    ensures Spare(UseNext(s).0, 0, maxN)
  {
    UseNextKeepsShape(s, maxN);
    var s' := UseNext(s).0;
    forall i | 0 <= i < |s'.live|
      ensures AlignedAt(s'.live, i, 0, 0)
    {
      assert AlignedAt(s.live, i + 1, 0, 0);
    }
    assert AlignedAt(s'.live, 0, 0, 0);
  }

  /** Space for the delete record of a logged job is there without a new reservation, after
      going on to the next file at most once. */
  lemma DeleteFits(s: Log, id: u64, maxN: nat)
    requires Base(s, {id}, maxN) && Spare(s, 0, maxN) && s.resv >= Z && Z <= maxN && maxN + Z <= Capacity(s)
    ensures var s0 := ToWriteIn(s);
            && Base(s0, {id}, maxN) && Spare(s0, 0, maxN) && s0.live[0].resv >= Z && Quiet(s, s0)
            && (s.live[0].resv > 0 || UseNext(s).1)
  {
    hide Base, Spare, UseNext, Recoverable;
    SpareIsHeld(s, 0, maxN);
    FirstIsMultiple(s, maxN);
    if s.live[0].resv == 0 {
      NextFileHoldsOne(s, maxN);
      NextSpare(s, maxN);
      UseNextKeepsBase(s, {id}, maxN);
    }
  }

  lemma FirstIsMultiple(s: Log, maxN: nat)
    requires Spare(s, 0, maxN)
    ensures s.live[0].resv >= 0 && s.live[0].resv % Z == 0 && s.live[0].free >= 0
  {
    assert AlignedAt(s.live, 0, 0, 0);
  }

  lemma DropSpends(s: Log, s1: Log, s': Log, q: nat, id: u64)
    requires Spent(s, s1, Z) && s'.live == DropJob(s1.live, q, id) && s'.live != [] && Referenced(s')
    requires s'.resv == s1.resv && s'.fileSize == s1.fileSize
    ensures Spent(s, s', Z)
  {
  }

  lemma RmJobQuiet(s: Log, q: nat, id: u64)
    requires id in s.jobs
    ensures var s' := FileRmJob(s, q, id);
            && s'.resv == s.resv && s'.fileSize == s.fileSize && s'.use == s.use && s'.book == s.book
            && (Granting(s) ==> Granting(s')) && s'.nrec == s.nrec && s'.nmig == s.nmig
  {
  }

  // A logged job's delete record and its unlinking, written into the current file.
  ghost predicate DeleteDone(s: Log, s': Log, id: u64, maxN: nat) {
    && Base(s', {}, maxN) && Spare(s', 0, maxN) && s'.resv == s.resv - Z && Persisted(s') == Persisted(s) - {id}
    && id in s'.jobs && s'.jobs[id].home == Nowhere && SameRoom(s, s') && s'.book == s.book
  }

  lemma DeleteIsDone(s: Log, id: u64, maxN: nat)
    requires id in s.jobs && s.jobs[id].home.In? && s.jobs[id].rec.state == INVALID
    requires Base(s, {id}, maxN) && Spare(s, 0, maxN) && s.live[0].resv >= Z && s.use
    ensures DeleteDone(s, FileRmJob(ShortWritten(s, id), s.jobs[id].home.seqNo, id), id, maxN)
  {
    hide Base, Persisted, Spent, Spare, ShortWritten, Referenced, FileRmJob, DropJob, Granting;
    OpenFilesReferenced(s, {id}, maxN);
    var q := s.jobs[id].home.seqNo;
    var s1 := ShortWritten(s, id);
    ShortAppended(s, id);
    var s' := FileRmJob(s1, q, id);
    ShortSpends(s, id);
    SpentResv(s, s1, Z);
    ShortUses(s, id);
    RmJobQuiet(s1, q, id);
    DeleteKeeps(s, id, maxN);
    OpenFilesReferenced(s', {}, maxN);
    DropSpends(s, s1, s', q, id);
    SpentKeeps(s, s', 0, Z, maxN);
  }

  lemma DeleteIsReady(s: Log, id: u64, maxN: nat)
    requires id in s.jobs && s.jobs[id].home.In? && s.jobs[id].rec.state == INVALID
    requires Base(s, {id}, maxN) && Spare(s, 0, maxN) && s.resv == Z * |Persisted(s)|
    requires s.live[0].resv >= Z && s.use
    ensures var s' := FileRmJob(ShortWritten(s, id), s.jobs[id].home.seqNo, id);
            && Ready(s', 0, maxN) && Persisted(s') == Persisted(s) - {id}
            && id in s'.jobs && s'.jobs[id].home == Nowhere && SameRoom(s, s') && s'.book == s.book
  {
    hide Base, Persisted, Spare, ShortWritten, FileRmJob, Granting;
    IsPersisted(s, id);
    DeleteIsDone(s, id, maxN);
    CountMinusOne(Persisted(s), id);
  }

  lemma WritesDelete(s: Log, id: u64)
    requires id in s.jobs && s.use && Referenced(s) && s.jobs[id].home.In? && s.jobs[id].rec.state == INVALID
    requires s.live[0].resv > 0 || UseNext(s).1
    requires var s0 := ToWriteIn(s); s0.live != [] && Quiet(s, s0)
    ensures var s1 := FileRmJob(ShortWritten(ToWriteIn(s), id), s.jobs[id].home.seqNo, id);
            WalWrite(s, id) == (s1.(nrec := s1.nrec + 1), true)
  {
    hide FileRmJob, UseNext;
  }

  /** Deleting a logged job never fails for want of space, and gives back its share of the
      reserve. */
  lemma DeleteWrites(s: Log, id: u64, maxN: nat)
    requires id in s.jobs && s.jobs[id].home.In? && s.jobs[id].rec.state == INVALID && s.use
    requires Base(s, {id}, maxN) && Spare(s, 0, maxN) && s.resv == Z * |Persisted(s)|
    requires Z <= maxN && maxN + Z <= Capacity(s)
    ensures Referenced(s)
    ensures var (s', ok) := WalWrite(s, id);
            && ok && Ready(s', 0, maxN) && Persisted(s') == Persisted(s) - {id}
            && id in s'.jobs && s'.jobs[id].home == Nowhere && SameRoom(s, s') && s'.book == s.book
            && OthersSame(s, s', id)
  {
    hide Base, Persisted, Spare, ShortWritten, FileRmJob, Ready, UseNext, WalWrite, Referenced, ToWriteIn, Granting;
    OpenFilesReferenced(s, {id}, maxN);
    IsPersisted(s, id);
    CountMinusOne(Persisted(s), id);
    DeleteFits(s, id, maxN);
    var s0 := ToWriteIn(s);
    SpareIsHeld(s0, 0, maxN);
    SameJobsPersist(s, s0);
    DeleteIsReady(s0, id, maxN);
    WritesDelete(s, id);
    var s1 := FileRmJob(ShortWritten(s0, id), s.jobs[id].home.seqNo, id);
    CountersDoNotMatter(s1, s1.(nrec := s1.nrec + 1), 0, maxN);
    ShortAppended(s0, id);
    RmJobLeavesOthers(ShortWritten(s0, id), s.jobs[id].home.seqNo, id);
  }

  ghost predicate OthersSame(s: Log, s': Log, id: u64) {
    forall k :: k != id ==> (k in s'.jobs <==> k in s.jobs) && (k in s.jobs ==> s'.jobs[k] == s.jobs[k])
  }

  lemma RmJobLeavesOthers(s: Log, q: nat, id: u64)
    requires id in s.jobs
    ensures OthersSame(s, FileRmJob(s, q, id), id)
  {
  }

  // ---------- Compaction ----------

  // A head file that is not current holds a job, and a movable one: the warning the source
  // gives when the head holds no job is never given.
  lemma HeadHoldsAJob(s: Log, maxN: nat)
    requires Base(s, {}, maxN) && s.past != []
    ensures s.past[0].jobs != []
    ensures var id := s.past[0].jobs[0];
            && id in s.jobs && s.jobs[id].home == In(s.past[0].seqNo)
            && s.jobs[id].rec.bodySize == |s.jobs[id].body| && LiveState(s.jobs[id].rec.state)
            && FullSize(s.jobs[id].tube, s.jobs[id].body) + Z <= maxN
  {
    assert PastFile(s.past[0]);
    assert Files(s)[0] == s.past[0];
    assert FileLinked(s, Files(s)[0]);
    var id := s.past[0].jobs[0];
    assert id in s.past[0].jobs;
    assert JobFits(s.book, id, s.jobs[id], id in {}, maxN);
  }

  lemma SteadyMeans(s: Log, maxN: nat)
    requires Steady(s, maxN)
    ensures s.use && Base(s, {}, maxN) && HeadHeld(s) && Spare(s, 0, maxN)
    ensures Usable(s) && Capacity(s) >= 2 * Z - 1 && maxN + Z <= Capacity(s)
    ensures s.resv == Z * |Persisted(s)| && Z <= maxN
  {
  }

  // Compaction unlinks the head's oldest job, after reserving for its new record.
  lemma MoveUnlinks(s: Log, id: u64, n: nat, maxN: nat)
    requires id in s.jobs && s.jobs[id].home.In? && s.use && Ready(s, n, maxN)
    requires n == FullSize(s.jobs[id].tube, s.jobs[id].body)
    ensures var s' := FileRmJob(s, s.jobs[id].home.seqNo, id);
            && Base(s', {id}, maxN) && Spare(s', n, maxN) && SameRoom(s, s') && s'.book == s.book
            && Referenced(s') && s'.resv == Z * (|Persisted(s')| + 1) + n
            && Persisted(s') == Persisted(s) - {id}
            && s'.jobs == s.jobs[id := s.jobs[id].(home := Nowhere, used := 0)]
  {
    hide Base, Persisted, FileRmJob, DropJob, Spare, Granting;
    var q := s.jobs[id].home.seqNo;
    var s' := FileRmJob(s, q, id);
    ReadyMeans(s, n, maxN);
    SetAside(s, id, maxN);
    RmJobKeeps(s, id, maxN);
    RmJobQuiet(s, q, id);
    IsPersisted(s, id);
    UnlinkedLeavesOthers(s, s', id);
    CountMinusOne(Persisted(s), id);
    OpenFilesReferenced(s', {id}, maxN);
    DropKeepsSpare(s, s', q, id, n, maxN);
  }

  lemma DropKeepsSpare(s: Log, s': Log, q: nat, id: u64, n: nat, maxN: nat)
    requires Spare(s, n, maxN) && s'.live == DropJob(s.live, q, id) && Referenced(s')
    requires s'.resv == s.resv && s'.fileSize == s.fileSize
    ensures Spare(s', n, maxN)
  {
    forall i | 0 <= i < |s'.live|
      ensures AlignedAt(s'.live, i, 0, n) && (0 < i < Last(s') ==> Crowded(s'.live[i], maxN))
    {
      assert AlignedAt(s.live, i, 0, n);
    }
    SumSame(s.live, s'.live);
  }

  // Unlinks a job from the head file and writes it into the current one.
  ghost function Relocate(s: Log, id: u64): (s': Log)
    requires id in s.jobs && s.past != [] && s.use && Referenced(FileRmJob(s, s.past[0].seqNo, id))
  {
    var s' := FileRmJob(s, s.past[0].seqNo, id);
    WalWrite(s'.(nmig := s'.nmig + 1), id).0
  }

  // What MoveOne relies on; the log between commands has it.
  ghost predicate Movable(s: Log) {
    && s.use && Usable(s) && Capacity(s) >= 2 * Z - 1
    && (|s.past| >= 2 && s.past[0].jobs != [] ==>
          var id := s.past[0].jobs[0];
          && id in s.jobs && RoomFor(s.jobs[id]) >= 0
          && var (s1, z) := Reserve(s, RoomFor(s.jobs[id]));
             z > 0 ==> s1.past != [] && Referenced(FileRmJob(s1, s1.past[0].seqNo, id)))
  }

  /** Moves the oldest job of the head file into the current file by writing it there anew.
      Nothing happens when the head is the current file or the one before it. */
  ghost function MoveOne(s: Log): (s': Log)
    requires Movable(s)
  {
    if |s.past| < 2 || s.past[0].jobs == [] then s
    else
      var id := s.past[0].jobs[0];
      var (s1, z) := Reserve(s, RoomFor(s.jobs[id]));
      if z <= 0 then s1 else Relocate(s1, id)
  }

  // The jobs after compaction: the same ones; some have been written anew as they are.
  ghost predicate Refreshed(s: Log, s': Log) {
    && s'.jobs.Keys == s.jobs.Keys && s'.book == s.book
    && forall id :: id in s.jobs ==> RefreshedJob(s.jobs[id], s'.jobs[id])
  }

  predicate RefreshedJob(j: Job, j': Job) {
    && j'.tube == j.tube && j'.body == j.body && j'.rec == j.rec
    && (j'.logged == j.logged || j'.logged == j.rec)
    && (j'.home.In? <==> j.home.In?)
  }

  lemma RelocateKeeps(s: Log, id: u64, n: nat, maxN: nat)
    requires id in s.jobs && s.jobs[id].home.In? && s.use && Ready(s, n, maxN) && LiveState(s.jobs[id].rec.state)
    requires n == FullSize(s.jobs[id].tube, s.jobs[id].body) && Z <= maxN && maxN + Z <= Capacity(s)
    requires s.past != [] && s.jobs[id].home == In(s.past[0].seqNo)
    ensures Referenced(FileRmJob(s, s.past[0].seqNo, id))
    ensures Steady(Relocate(s, id), maxN) && Refreshed(s, Relocate(s, id)) && SameRoom(s, Relocate(s, id))
  {
    hide Base, Persisted, FileRmJob, Spare, Ready, WriteFull, WalWrite, Referenced, Granting;
    ReadyMeans(s, n, maxN);
    BaseKnows(s, id, {}, maxN);
    MoveUnlinks(s, id, n, maxN);
    var s1 := FileRmJob(s, s.past[0].seqNo, id);
    var s2 := s1.(nmig := s1.nmig + 1);
    NmigDoesNotMatter(s1, s2, {id}, n, maxN);
    OpenFilesReferenced(s2, {id}, maxN);
    FullWrites(s2, id, n, maxN);
    FullAppended(s2, id);
  }

  lemma MoveOneKeeps(s: Log, maxN: nat)
    requires Safe(s, maxN)
    ensures Movable(s) && Safe(MoveOne(s), maxN) && Refreshed(s, MoveOne(s))
  {
    hide Base, Ready, Reserve, Relocate, FileRmJob, Referenced, Usable, Capacity, Steady, Unhindered, SameRoom;
    SteadyMeans(s, maxN);
    if |s.past| >= 2 {
      HeadHoldsAJob(s, maxN);
      var id := s.past[0].jobs[0];
      var n := RoomFor(s.jobs[id]);
      ReserveReady(s, n, maxN);
      var (s1, z) := Reserve(s, n);
      HeadStillHeld(s, maxN);
      ReadyIsSteady(s, s1, z, maxN);
      SameRoomUnhindered(s, s1, maxN);
      if z > 0 {
        RelocateKeeps(s1, id, n, maxN);
        SameRoomUnhindered(s1, Relocate(s1, id), maxN);
      }
    }
  }

  // Steadiness is what is left of readiness when nothing is reserved.
  lemma ReadyIsSteady(s: Log, s': Log, z: int, maxN: nat)
    requires Steady(s, maxN) && SameRoom(s, s')
    ensures z == 0 && Ready(s', 0, maxN) ==> Steady(s', maxN)
    ensures s'.use && Z <= maxN && maxN + Z <= Capacity(s')
  {
  }

  lemma HeadStillHeld(s: Log, maxN: nat)
    requires Base(s, {}, maxN) && s.past != []
    ensures s.past[0].refs > 0
  {
  }

  lemma NmigDoesNotMatter(s: Log, s': Log, skip: set<u64>, n: nat, maxN: nat)
    requires Base(s, skip, maxN) && Spare(s, n, maxN) && s' == s.(nmig := s'.nmig)
    ensures Base(s', skip, maxN) && Spare(s', n, maxN) && Persisted(s') == Persisted(s)
    ensures (Referenced(s) ==> Referenced(s')) && (s.use ==> SameRoom(s, s'))
  {
    hide Base, Spare, Persisted, Recoverable, OnlySpaceDiffers;
    CountersOnly(s, s');
    SpaceKeepsBase(s, s', skip, maxN);
    SameSpace(s, s', n, maxN);
    SameJobsPersist(s, s');
  }

  function TruncDiv(n: int, d: int): int
    requires d > 0
  {
    if n >= 0 then n / d else -((-n) / d)
  }

  // How many times over the bytes of the log could hold the bytes in use or promised.
  function Ratio(s: Log): int {
    var d := s.alive + s.resv;
    if d <= 0 then 0 else TruncDiv(s.nfile * s.fileSize - d, d)
  }

  ghost function CompactTimes(s: Log, r: int, maxN: nat): Log
    requires Safe(s, maxN)
    decreases r
  {
    if r < 2 then s
    else
      MoveOneKeeps(s, maxN);
      CompactTimes(MoveOne(s), r - 1, maxN)
  }

  // The maintenance run after every write.
  ghost function WalMain(s: Log, maxN: nat): Log
    requires Safe(s, maxN)
  {
    CompactTimes(s, Ratio(s), maxN)
  }

  // With no file but one before the current one compaction has nothing to do.
  lemma {:induction false} NothingToMove(s: Log, r: int, maxN: nat)
    requires Safe(s, maxN) && |s.past| < 2
    ensures CompactTimes(s, r, maxN) == s
    decreases r
  {
    hide Safe;
    if r >= 2 {
      MoveOneKeeps(s, maxN);
      NothingToMove(s, r - 1, maxN);
    }
  }

  lemma RefreshedTwice(s: Log, s1: Log, s2: Log)
    requires Refreshed(s, s1) && Refreshed(s1, s2)
    ensures Refreshed(s, s2)
  {
    forall id | id in s.jobs
      ensures RefreshedJob(s.jobs[id], s2.jobs[id])
    {
      assert RefreshedJob(s.jobs[id], s1.jobs[id]) && RefreshedJob(s1.jobs[id], s2.jobs[id]);
    }
  }

  /** Compaction, however often it moves a job and whatever the file system refuses, loses
      no job and changes none in memory; a job it has moved is now logged as it is. */
  lemma {:induction false} CompactKeeps(s: Log, r: int, maxN: nat)
    requires Safe(s, maxN)
    ensures Safe(CompactTimes(s, r, maxN), maxN) && Refreshed(s, CompactTimes(s, r, maxN))
    decreases r
  {
    hide Safe, MoveOne;
    if r >= 2 {
      MoveOneKeeps(s, maxN);
      CompactKeeps(MoveOne(s), r - 1, maxN);
      RefreshedTwice(s, MoveOne(s), CompactTimes(s, r, maxN));
    }
  }
}
