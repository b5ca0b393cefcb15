/** Starting again from the files on disk. */
module Restart {
  import opened Records
  import opened Replay
  import opened Codec
  import opened WalState
  import opened Linking
  import opened Commands
  import opened Runs
  import Space
  import Writing

  // A file as start-up finds it.
  datatype Image = Image(seqNo: nat, bytes: Bytes)

  ghost predicate LongEnough(f: File) {
    f.size >= WORD + RecsSize(f.recs)
  }

  ghost function ImageOf(f: File): Image
    requires LongEnough(f)
  {
    Image(f.seqNo, FileImage(f.recs, f.size - WORD - RecsSize(f.recs)))
  }

  ghost function Images(fs: seq<File>): seq<Image>
    requires forall f :: f in fs ==> LongEnough(f)
  {
    seq(|fs|, i requires 0 <= i < |fs| => assert fs[i] in fs; ImageOf(fs[i]))
  }

  // Start-up reads the files oldest first into an empty store.
  function ReadLog(cfg: Config, images: seq<Image>): Reading {
    if images == [] then Done(map[])
    else
      var last := images[|images| - 1];
      match ReadLog(cfg, images[..|images| - 1])
      case Done(m) => ReadFile(cfg, m, last.seqNo, last.bytes)
      case other => other
  }

  lemma ImagesFront(fs: seq<File>)
    requires fs != [] && forall f :: f in fs ==> LongEnough(f)
    ensures var n := |fs| - 1;
            && (forall f :: f in fs[..n] ==> LongEnough(f)) && fs[n] in fs
            && |Images(fs)| == |fs| && Images(fs)[..n] == Images(fs[..n]) && Images(fs)[n] == ImageOf(fs[n])
  {
    assert fs[|fs| - 1] in fs;
  }

  // What start-up makes of the records of all files, oldest first.
  function ReadOffLog(cfg: Config, segs: seq<Segment>): Reading {
    if segs == [] then Done(map[])
    else
      var last := segs[|segs| - 1];
      match ReadOffLog(cfg, segs[..|segs| - 1])
      case Done(m) => ReadOff(cfg, m, last.seqNo, last.recs)
      case other => other
  }

  lemma ImageReadsOff(cfg: Config, m: Store, f: File)
    requires LongEnough(f) && forall r :: r in f.recs ==> WellFormed(r)
    ensures ReadFile(cfg, m, f.seqNo, ImageOf(f).bytes) == ReadOff(cfg, m, f.seqNo, f.recs)
  {
    hide ReadFile, ReadOff, WellFormed, FileImage;
    FileReadsOff(cfg, m, f.seqNo, f.recs, f.size - WORD - RecsSize(f.recs));
  }

  lemma EmptyImages()
    ensures Images([]) == []
  {
  }

  /** Reading the bytes of all files, oldest first, is reading off their records, whatever limits
      the next start has. */
  lemma {:induction false} ReadLogReadsOff(cfg: Config, fs: seq<File>)
    requires forall f :: f in fs ==> LongEnough(f) && forall r :: r in f.recs ==> WellFormed(r)
    ensures ReadLog(cfg, Images(fs)) == ReadOffLog(cfg, SegmentsOf(fs))
  {
    hide ReadFile, ReadOff, WellFormed, FileImage, Images, LongEnough;
    if fs == [] {
      EmptyImages();
    } else {
      var n := |fs| - 1;
      var front, f := fs[..n], fs[n];
      assert f in fs && forall g :: g in front ==> g in fs;
      ReadLogReadsOff(cfg, front);
      ImagesFront(fs);
      assert SegmentsOf(fs)[..n] == SegmentsOf(front);
      match ReadOffLog(cfg, SegmentsOf(front))
      case Done(m) => ImageReadsOff(cfg, m, f);
      case other =>
    }
  }

  // ---------- Jobs within the limits, and jobs that are not ----------

  // Every job the book has is within the limits of the next start.
  ghost predicate AllWithin(cfg: Config, book: map<u64, Deed>) {
    forall id :: id in book ==> WithinLimits(cfg, book[id])
  }

  ghost predicate AllRegistered(book: map<u64, Deed>, segs: seq<Segment>) {
    forall i, r :: 0 <= i < |segs| && r in segs[i].recs ==> Registered(book, r)
  }

  // The records start-up may refuse are of jobs within the limits.
  predicate RecWithin(cfg: Config, r: Rec) {
    r.Full? ==> WithinLimits(cfg, Deed(r.tube, r.body))
  }

  // Every full record in the files is of a job within the limits.
  ghost predicate DiskWithin(cfg: Config, segs: seq<Segment>) {
    forall i, r :: 0 <= i < |segs| && r in segs[i].recs ==> RecWithin(cfg, r)
  }

  lemma BookCoversDisk(cfg: Config, book: map<u64, Deed>, segs: seq<Segment>)
    requires AllWithin(cfg, book) && AllRegistered(book, segs)
    ensures DiskWithin(cfg, segs)
  {
    forall i, r | 0 <= i < |segs| && r in segs[i].recs
      ensures RecWithin(cfg, r)
    {
      assert Registered(book, r);
    }
  }

  lemma {:induction false} WithinIsTaken(cfg: Config, m: Store, file: nat, rs: seq<Rec>)
    requires forall r :: r in rs ==> RecWithin(cfg, r)
    ensures ReadOff(cfg, m, file, rs) == Done(ApplyAll(m, file, rs))
    decreases |rs|
  {
    hide ApplyRec;
    if rs == [] {
    } else {
      var r, tail := rs[0], rs[1..];
      assert r in rs && RecWithin(cfg, r) && forall r' :: r' in tail ==> r' in rs;
      assert rs == [r] + tail;
      ApplyAllCons(m, file, r, tail);
      WithinIsTaken(cfg, ApplyRec(m, file, r), file, tail);
    }
  }

  /** When all jobs that have a full record on disk are within the limits, start-up recovers what a
      replay gives. */
  lemma {:induction false} ReadOffIsReplay(cfg: Config, segs: seq<Segment>)
    requires DiskWithin(cfg, segs)
    ensures ReadOffLog(cfg, segs) == Done(Replay.Replay(segs))
  {
    hide ReadOff, ApplyAll, RecWithin;
    if segs != [] {
      var n := |segs| - 1;
      ReadOffIsReplay(cfg, segs[..n]);
      assert forall r :: r in segs[n].recs ==> RecWithin(cfg, r);
      WithinIsTaken(cfg, Replay.Replay(segs[..n]), segs[n].seqNo, segs[n].recs);
    }
  }

  // The files without what stands behind the first record that start-up refuses in each.
  function Cut(cfg: Config, segs: seq<Segment>): (cut: seq<Segment>)
    ensures |cut| == |segs|
  {
    if segs == [] then []
    else
      var n := |segs| - 1;
      var front, last := Cut(cfg, segs[..n]), segs[n];
      front + [Segment(last.seqNo, last.recs[..Accepted(cfg, Replay.Replay(front), last.seqNo, last.recs)])]
  }

  ghost predicate DiskInKnownTubes(cfg: Config, segs: seq<Segment>) {
    forall i :: 0 <= i < |segs| ==> InKnownTubes(cfg, segs[i].recs)
  }

  /** In known tubes start-up recovers exactly what a replay gives of each file's records before
      the first that it refuses. */
  lemma {:induction false} ReadsUpToRefused(cfg: Config, segs: seq<Segment>)
    requires DiskInKnownTubes(cfg, segs)
    ensures ReadOffLog(cfg, segs) == Done(Replay.Replay(Cut(cfg, segs)))
  {
    hide ReadOff, ApplyAll, Accepted, InKnownTubes;
    if segs != [] {
      var n := |segs| - 1;
      var front, last := segs[..n], segs[n];
      ReadsUpToRefused(cfg, front);
      var m, cut := Replay.Replay(Cut(cfg, front)), Cut(cfg, segs);
      RecoversUpToFirstRefused(cfg, m, last.seqNo, last.recs);
      assert cut[..n] == Cut(cfg, front);
    }
  }

  lemma {:induction false} NeverTaken(cfg: Config, m: Store, file: nat, rs: seq<Rec>, book: map<u64, Deed>, id: u64)
    requires id in book && !WithinLimits(cfg, book[id]) && id !in m && forall r :: r in rs ==> Registered(book, r)
    ensures ReadOff(cfg, m, file, rs).Done? ==> id !in ReadOff(cfg, m, file, rs).store
    decreases |rs|
  {
    if rs != [] && !Refused(cfg, m, rs[0]) && !Stumbles(cfg, m, rs[0]) {
      assert rs[0] in rs && Registered(book, rs[0]) && forall r :: r in rs[1..] ==> r in rs;
      NeverTaken(cfg, ApplyRec(m, file, rs[0]), file, rs[1..], book, id);
    }
  }

  /** A job outside the limits is never recovered, wherever its records stand. */
  lemma {:induction false} OutsideIsNotRecovered(cfg: Config, segs: seq<Segment>, book: map<u64, Deed>, id: u64)
    requires id in book && !WithinLimits(cfg, book[id]) && AllRegistered(book, segs)
    ensures !Recovers(ReadOffLog(cfg, segs), id)
  {
    hide ReadOff, WithinLimits, Registered;
    if segs != [] {
      var n := |segs| - 1;
      OutsideIsNotRecovered(cfg, segs[..n], book, id);
      assert forall r :: r in segs[n].recs ==> Registered(book, r);
      match ReadOffLog(cfg, segs[..n])
      case Done(m) => NeverTaken(cfg, m, segs[n].seqNo, segs[n].recs, book, id);
      case other =>
    }
  }

  // ---------- Starting again between two commands ----------

  lemma FileIsLong(s: Log, i: nat, maxN: nat)
    requires Counted(s) && Written(s) && Space.Shape(s, maxN) && i < |Files(s)|
    ensures LongEnough(Files(s)[i]) && forall r :: r in Files(s)[i].recs ==> Registered(s.book, r)
  {
    assert FileWritten(s.book, s.fileSize, Files(s)[i]);
    if i < |s.past| {
      assert PastFile(s.past[i]);
    } else {
      assert Files(s)[i] == s.live[i - |s.past|];
    }
  }

  ghost predicate AllLong(s: Log) {
    forall f :: f in Files(s) ==> LongEnough(f)
  }

  // What start-up reads off the disk.
  ghost function Found(cfg: Config, s: Log): Reading
    requires AllLong(s)
  {
    ReadLog(cfg, Images(Files(s)))
  }

  lemma SteadyFilesReadable(s: Log, maxN: nat)
    requires Steady(s, maxN)
    ensures AllLong(s) && AllRegistered(s.book, SegmentsOf(Files(s)))
    ensures forall f :: f in Files(s) ==> forall r :: r in f.recs ==> WellFormed(r)
    ensures Recoverable(s) == Persisted(s)
  {
    Writing.ConsistentMeansEqual(s);
    assert Counted(s) && Written(s) && Space.Shape(s, maxN);
    forall i | 0 <= i < |Files(s)|
      ensures LongEnough(Files(s)[i]) && forall r :: r in Files(s)[i].recs ==> Registered(s.book, r)
    {
      hide Counted, Written, Space.Shape;
      FileIsLong(s, i, maxN);
    }
  }

  // What start-up finds is what it makes of the records.
  lemma FoundIsReadOff(cfg: Config, s: Log, maxN: nat)
    requires Steady(s, maxN)
    ensures AllLong(s) && Found(cfg, s) == ReadOffLog(cfg, SegmentsOf(Files(s)))
  {
    hide Steady, AllRegistered, WellFormed, LongEnough, ReadLog, Images;
    SteadyFilesReadable(s, maxN);
    ReadLogReadsOff(cfg, Files(s));
  }

  /** Recovery, to the byte: reading the files as they are on disk between two commands, the
      current file with its unwritten space included, gives back every logged job with its
      tube, its record as last written (a reservation read back as ready), its body, the
      file that holds its latest full record, and the bytes it uses; and no other job. All jobs
      with a full record still on disk must be within the limits of the start. */
  lemma RestartRecovers(cfg: Config, s: Log, maxN: nat)
    requires Steady(s, maxN) && DiskWithin(cfg, SegmentsOf(Files(s)))
    ensures AllLong(s) && Found(cfg, s) == Done(Persisted(s))
    ensures s.alive == SumUsed(Persisted(s))
  {
    SteadyFilesReadable(s, maxN);
    FoundIsReadOff(cfg, s, maxN);
    ReadOffIsReplay(cfg, SegmentsOf(Files(s)));
  }

  // The jobs ever put are more than enough.
  lemma WithinOnDisk(cfg: Config, s: Log, maxN: nat)
    requires Steady(s, maxN) && AllWithin(cfg, s.book)
    ensures DiskWithin(cfg, SegmentsOf(Files(s)))
  {
    hide Steady, AllWithin, AllRegistered, DiskWithin;
    SteadyFilesReadable(s, maxN);
    BookCoversDisk(cfg, s.book, SegmentsOf(Files(s)));
  }

  /** In known tubes a start finds every job exactly when what it does not come to in the files,
      because it stands behind a record it refuses, makes no difference to a replay. */
  lemma CompleteExactlyWhen(cfg: Config, s: Log, maxN: nat)
    requires Steady(s, maxN) && DiskInKnownTubes(cfg, SegmentsOf(Files(s)))
    ensures var segs := SegmentsOf(Files(s));
            Complete(cfg, s) <==> Replay.Replay(Cut(cfg, segs)) == Replay.Replay(segs)
  {
    SteadyFilesReadable(s, maxN);
    FoundIsReadOff(cfg, s, maxN);
    hide Steady, ReadOffLog, DiskInKnownTubes, Found, Cut;
    ReadsUpToRefused(cfg, SegmentsOf(Files(s)));
  }

  /** A logged job outside the limits of the start is not among what the start finds, if it does
      not panic. */
  lemma RestartLoses(cfg: Config, s: Log, id: u64, maxN: nat)
    requires Steady(s, maxN) && IsLogged(s, id)
    requires !WithinLimits(cfg, Deed(s.jobs[id].tube, s.jobs[id].body))
    ensures AllLong(s) && !Recovers(Found(cfg, s), id) && id in Persisted(s)
  {
    SteadyFilesReadable(s, maxN);
    FoundIsReadOff(cfg, s, maxN);
    Commands.BaseKnows(s, id, {}, maxN);
    OutsideIsNotRecovered(cfg, SegmentsOf(Files(s)), s.book, id);
  }

  // ---------- Starting again after a run ----------

  // What a restart reads back of a job the clients know.
  ghost predicate ReadsBack(e: Entry, k: Known) {
    && e.tube == k.tube && e.body == k.body
    && exists rec :: rec in k.recs && e.rec == if rec.state == RESERVED then rec.(state := READY) else rec
  }

  // The start gives back exactly the jobs of m.
  ghost predicate GivesBack(reading: Reading, m: Ledger) {
    && reading.Done? && reading.store.Keys == m.Keys
    && forall id :: id in m ==> ReadsBack(reading.store[id], m[id])
  }

  // Every put that was confirmed is within the limits of the next start.
  ghost predicate PutsWithin(cfg: Config, s: Log, cmds: seq<Command>, maxN: nat)
    requires Safe(s, maxN) && Admissible(s, cmds, maxN)
    decreases |cmds|
  {
    cmds == [] ||
    (var (s', ok) := Served(s, cmds[0], maxN);
     && (cmds[0].Put? && ok ==> WithinLimits(cfg, Deed(cmds[0].tube, cmds[0].body)))
     && PutsWithin(cfg, s', cmds[1..], maxN))
  }

  lemma {:induction false} RunStaysWithin(cfg: Config, s: Log, cmds: seq<Command>, maxN: nat)
    requires Safe(s, maxN) && Admissible(s, cmds, maxN) && AllWithin(cfg, s.book) && PutsWithin(cfg, s, cmds, maxN)
    ensures AllWithin(cfg, Run(s, cmds, maxN).book)
    decreases |cmds|
  {
    hide Safe, Served, WithinLimits, Valid;
    if cmds != [] {
      var (s', ok) := Served(s, cmds[0], maxN);
      StepStays(s, cmds[0], maxN);
      RunStaysWithin(cfg, s', cmds[1..], maxN);
    }
  }

  lemma StepStays(s: Log, cmd: Command, maxN: nat)
    requires Safe(s, maxN) && Valid(s, cmd, maxN)
    ensures var (s', ok) := Served(s, cmd, maxN);
            Safe(s', maxN) && s'.book == if cmd.Put? && ok then s.book[cmd.id := Deed(cmd.tube, cmd.body)] else s.book
  {
    hide Safe, Served, Valid;
  }

  /** The main theorem of the log. Start from a log in order and run any commands: in ample files
      with whatever the file system refuses, in smaller ones when it refuses nothing. Then a
      start whose limits every confirmed put is within recovers exactly the jobs whose put was
      confirmed and whose delete was not asked for, each with the tube and body it was put with,
      and with a record it has had since it was last written for a client. When the record was
      not changed in memory since, that is the record last written. */
  lemma RunThenRestart(cfg: Config, s: Log, cmds: seq<Command>, m: Ledger, maxN: nat)
    requires Safe(s, maxN) && Tracks(s, m) && Admissible(s, cmds, maxN)
    requires AllWithin(cfg, s.book) && PutsWithin(cfg, s, cmds, maxN)
    ensures var s' := Run(s, cmds, maxN);
            AllLong(s') && GivesBack(Found(cfg, s'), ExpectAll(s, m, cmds, maxN))
  {
    var s', m' := Run(s, cmds, maxN), ExpectAll(s, m, cmds, maxN);
    hide Steady, Unhindered, Tracks, Run, ExpectAll, Persisted, ReadLog, LongEnough, Admissible, PutsWithin;
    RunKeeps(s, cmds, m, maxN);
    RunStaysWithin(cfg, s, cmds, maxN);
    WithinOnDisk(cfg, s', maxN);
    RestartRecovers(cfg, s', maxN);
    TrackedReadsBack(s', m');
  }

  /** The same from an empty directory: whatever is done after the first start, the next one
      recovers exactly the jobs that were put and not deleted. */
  lemma FirstRunThenRestart(cfg: Config, fileSize: nat, answers: seq<bool>, cmds: seq<Command>, maxN: nat)
    requires FirstGranted(answers) && Z <= maxN && maxN + Z <= fileSize - WORD
    requires UnhinderedFrom(fileSize, answers, maxN)
    requires Safe(NewLog(fileSize, answers), maxN) ==>
               && Admissible(NewLog(fileSize, answers), cmds, maxN)
               && PutsWithin(cfg, NewLog(fileSize, answers), cmds, maxN)
    ensures var s := NewLog(fileSize, answers);
            && Safe(s, maxN) && Admissible(s, cmds, maxN)
            && AllLong(Run(s, cmds, maxN)) && GivesBack(Found(cfg, Run(s, cmds, maxN)), ExpectAll(s, map[], cmds, maxN))
  {
    hide Steady, Unhindered, Tracks, Run, ExpectAll, ReadLog, LongEnough, Admissible, PutsWithin, NewLog;
    NewLogIsSteady(fileSize, answers, maxN);
    RunThenRestart(cfg, NewLog(fileSize, answers), cmds, map[], maxN);
  }

  lemma TrackedReadsBack(s: Log, m: Ledger)
    requires Tracks(s, m)
    ensures Persisted(s).Keys == m.Keys
    ensures forall id :: id in m ==> ReadsBack(Persisted(s)[id], m[id])
  {
    forall id
      ensures id in Persisted(s) <==> id in m
    {
      assert id in m <==> IsLogged(s, id);
    }
    forall id | id in m
      ensures ReadsBack(Persisted(s)[id], m[id])
    {
      assert TracksJob(s.jobs[id], m[id]);
    }
  }

  // ---------- Exactly when ----------

  // A start at this point would find every job.
  ghost predicate Complete(cfg: Config, s: Log) {
    AllLong(s) && Found(cfg, s) == Done(Persisted(s))
  }

  // A start at any point of the run, before or after any command, would find every job.
  ghost predicate AlwaysComplete(cfg: Config, s: Log, cmds: seq<Command>, maxN: nat)
    requires Safe(s, maxN) && Admissible(s, cmds, maxN)
    decreases |cmds|
  {
    Complete(cfg, s) && (cmds != [] ==> AlwaysComplete(cfg, Served(s, cmds[0], maxN).0, cmds[1..], maxN))
  }

  // A confirmed put has put the job into the log.
  lemma PutIsLogged(s: Log, cmd: Command, maxN: nat)
    requires Safe(s, maxN) && Valid(s, cmd, maxN) && cmd.Put? && Served(s, cmd, maxN).1
    ensures var s' := Served(s, cmd, maxN).0;
            IsLogged(s', cmd.id) && s'.jobs[cmd.id].tube == cmd.tube && s'.jobs[cmd.id].body == cmd.body
  {
    hide Safe, Valid, Execute, Executable, LedgerOf;
    LedgerTracks(s);
    CommandExecutes(s, cmd, LedgerOf(s), maxN);
    var s', m' := Served(s, cmd, maxN).0, Expect(LedgerOf(s), cmd, true);
    assert cmd.id in m' && TracksJob(s'.jobs[cmd.id], m'[cmd.id]);
  }

  lemma StepCompleteExactly(cfg: Config, s: Log, cmd: Command, maxN: nat)
    requires Safe(s, maxN) && Valid(s, cmd, maxN) && AllWithin(cfg, s.book)
    ensures var (s', ok) := Served(s, cmd, maxN);
            Complete(cfg, s') <==> (cmd.Put? && ok ==> WithinLimits(cfg, Deed(cmd.tube, cmd.body)))
  {
    hide Steady, Served, WithinLimits, Valid, Persisted, Found, LongEnough, DiskWithin;
    StepStays(s, cmd, maxN);
    var (s', ok) := Served(s, cmd, maxN);
    if cmd.Put? && ok && !WithinLimits(cfg, Deed(cmd.tube, cmd.body)) {
      PutIsLogged(s, cmd, maxN);
      RestartLoses(cfg, s', cmd.id, maxN);
    } else {
      WithinOnDisk(cfg, s', maxN);
      RestartRecovers(cfg, s', maxN);
    }
  }

  /** A start at any point of a run would find every job then in the log if and only if every
      confirmed put of the run is within the limits of the start: its tube exists then, and its
      body, with the two bytes that put adds, is not over the size limit. */
  lemma {:induction false} AlwaysCompleteExactlyWithinLimits(cfg: Config, s: Log, cmds: seq<Command>, maxN: nat)
    requires Safe(s, maxN) && Admissible(s, cmds, maxN) && AllWithin(cfg, s.book)
    ensures AlwaysComplete(cfg, s, cmds, maxN) <==> PutsWithin(cfg, s, cmds, maxN)
    decreases |cmds|
  {
    hide Steady, Unhindered, Served, Valid, Complete, WithinLimits;
    CompleteWithin(cfg, s, maxN);
    if cmds != [] {
      var (s', ok) := Served(s, cmds[0], maxN);
      StepStays(s, cmds[0], maxN);
      StepCompleteExactly(cfg, s, cmds[0], maxN);
      if AllWithin(cfg, s'.book) {
        AlwaysCompleteExactlyWithinLimits(cfg, s', cmds[1..], maxN);
      }
    }
  }

  lemma CompleteWithin(cfg: Config, s: Log, maxN: nat)
    requires Steady(s, maxN) && AllWithin(cfg, s.book)
    ensures Complete(cfg, s)
  {
    hide Steady;
    WithinOnDisk(cfg, s, maxN);
    RestartRecovers(cfg, s, maxN);
  }
}
