/** The write-ahead log in memory: objects that are changed in place. Every method is proved
    to take the abstract log st exactly where the function of the same name in WalState
    takes it. */
module Wal {
  import opened Records
  import Codec
  import S = WalState
  import opened Steps

  // A job. The dictionary of all jobs holds these, and a change of a job is a change of the
  // dictionary.
  datatype Job = Job(tube: Bytes, body: Bytes, rec: JobRec, file: File?, used: nat)

  class File {
    const seqNo: nat
    var next: File?
    var refs: int
    var isWOpen: bool
    var free: int
    var resv: int
    var size: int
    var jobs: seq<u64>   // the file's job list, oldest first
    var data: Bytes      // what has been written

    // A file just opened for writing: space allocated, version written.
    constructor (seqNo: nat, refs: int, free: int, size: int)
      ensures this.seqNo == seqNo && this.refs == refs && this.free == free && this.size == size
      ensures next == null && isWOpen && resv == 0 && jobs == [] && data == Version()
    {
      this.seqNo, this.refs, this.free, this.size := seqNo, refs, free, size;
      next, isWOpen, resv, jobs := null, true, 0, [];
      data := Version();
    }
  }

  function Version(): Bytes {
    Codec.EncodeLength(Codec.WAL_VERSION)
  }

  ghost function WrittenBytes(recs: seq<Rec>): Bytes {
    Version() + Codec.EncodeRecs(recs)
  }

  lemma NothingWritten()
    ensures WrittenBytes([]) == Version()
  {
    hide Version;
    assert Version() + [] == Version();
  }

  lemma OneMoreWritten(recs: seq<Rec>, r: Rec)
    ensures WrittenBytes(recs + [r]) == WrittenBytes(recs) + Codec.EncodeRec(r)
  {
    assert (recs + [r])[..|recs|] == recs;
  }

  lemma FullPieces(b: Bytes, tube: Bytes, job: JobRec, body: Bytes)
    ensures b + Codec.EncodeLength(|tube|) + tube + Codec.EncodeJob(job) + body
         == b + Codec.EncodeRec(Full(tube, job, body))
  {
    hide Codec.EncodeLength, Codec.EncodeJob;
  }

  // ---------- The objects and the abstract files ----------

  ghost predicate FileMatches(f: File, v: S.File)
    reads f`refs, f`isWOpen, f`free, f`resv, f`size, f`jobs, f`data
  {
    && f.seqNo == v.seqNo && f.refs == v.refs && f.isWOpen == v.open
    && f.free == v.free && f.resv == v.resv && f.size == v.size
    && f.jobs == v.jobs && f.data == WrittenBytes(v.recs)
  }

  ghost predicate FilesMatch(files: seq<File>, vs: seq<S.File>)
    reads files`refs, files`isWOpen, files`free, files`resv, files`size, files`jobs, files`data
  {
    |files| == |vs| && forall i :: 0 <= i < |vs| ==> FileMatches(files[i], vs[i])
  }

  // All the files but f match.
  ghost predicate OthersMatch(files: seq<File>, vs: seq<S.File>, f: File)
    reads (set g | g in files && g != f)`refs, (set g | g in files && g != f)`isWOpen
    reads (set g | g in files && g != f)`free, (set g | g in files && g != f)`resv
    reads (set g | g in files && g != f)`size, (set g | g in files && g != f)`jobs, (set g | g in files && g != f)`data
  {
    |files| == |vs| && forall i :: 0 <= i < |vs| && files[i] != f ==> FileMatches(files[i], vs[i])
  }

  ghost predicate Distinct(files: seq<File>) {
    forall i, j :: 0 <= i < j < |files| ==> files[i] != files[j]
  }

  // The linked list from head to tail is the sequence.
  ghost predicate Chained(files: seq<File>, head: File?, tail: File?)
    reads files`next
  {
    && Distinct(files)
    && (forall i :: 0 <= i < |files| - 1 ==> files[i].next == files[i + 1])
    && (if files == [] then head == null && tail == null
        else head == files[0] && tail == files[|files| - 1] && files[|files| - 1].next == null)
  }

  lemma MatchWithoutHead(files: seq<File>, vs: seq<S.File>)
    requires FilesMatch(files, vs) && files != []
    ensures FilesMatch(files[1..], vs[1..]) && FileMatches(files[0], vs[0])
  {
    hide FileMatches;
  }

  lemma ChainWithoutHead(files: seq<File>, head: File?, tail: File?)
    requires Chained(files, head, tail) && files != []
    ensures Chained(files[1..], files[0].next, if tail == files[0] then files[0].next else tail)
  {
  }

  lemma MatchWithLast(files: seq<File>, vs: seq<S.File>, f: File, v: S.File)
    requires FilesMatch(files, vs) && FileMatches(f, v)
    ensures FilesMatch(files + [f], vs + [v])
  {
    hide FileMatches;
  }

  // ---------- Jobs and file numbers ----------

  // No two files ever made have the same number.
  ghost predicate NumbersApart(files: seq<File>, everyFile: set<File>, next: nat) {
    && (forall f :: f in files ==> f in everyFile)
    && (forall f :: f in everyFile ==> f.seqNo < next)
    && (forall f, g :: f in everyFile && g in everyFile && f.seqNo == g.seqNo ==> f == g)
  }

  lemma NumberTaken(files: seq<File>, everyFile: set<File>, next: nat, f: File)
    requires NumbersApart(files, everyFile, next) && f.seqNo == next
    ensures NumbersApart(files + [f], everyFile + {f}, next + 1)
  {
  }

  lemma NumbersOfTail(files: seq<File>, everyFile: set<File>, next: nat)
    requires NumbersApart(files, everyFile, next) && files != []
    ensures NumbersApart(files[1..], everyFile, next)
  {
  }

  ghost predicate JobMatches(j: Job, v: S.Job) {
    && j.tube == v.tube && j.body == v.body && j.rec == v.rec && j.used == v.used
    && v.home == if j.file == null then S.Nowhere else S.In(j.file.seqNo)
  }

  ghost predicate JobsMatch(jobs: map<u64, Job>, vs: map<u64, S.Job>) {
    jobs.Keys == vs.Keys && forall id :: id in vs ==> JobMatches(jobs[id], vs[id])
  }

  ghost predicate HomesKnown(jobs: map<u64, Job>, everyFile: set<File>) {
    forall id :: id in jobs && jobs[id].file != null ==> jobs[id].file in everyFile
  }

  lemma MoreFilesKnown(jobs: map<u64, Job>, everyFile: set<File>, f: File)
    requires HomesKnown(jobs, everyFile)
    ensures HomesKnown(jobs, everyFile + {f})
  {
  }

  lemma JobSet(jobs: map<u64, Job>, vs: map<u64, S.Job>, everyFile: set<File>, id: u64, j: Job, v: S.Job)
    requires JobsMatch(jobs, vs) && HomesKnown(jobs, everyFile)
    requires JobMatches(j, v) && (j.file != null ==> j.file in everyFile)
    ensures JobsMatch(jobs[id := j], vs[id := v]) && HomesKnown(jobs[id := j], everyFile)
  {
  }

  lemma FileEntered(s: S.Log, v: S.File)
    ensures S.Files(s.(live := s.live + [v], next := s.next + 1, nfile := s.nfile + 1)) == S.Files(s) + [v]
  {
  }

  class Wal {
    const fileSize: nat
    var use: bool
    var head: File?
    var cur: File?
    var tail: File?
    var nFile: int
    var nextSeq: nat
    var resv: int
    var alive: int
    var nRec: nat
    var nMig: nat
    var allJobs: map<u64, Job>
    var answers: seq<bool>   // what the file system will say to the coming requests

    ghost var files: seq<File>
    ghost var everyFile: set<File>
    ghost var st: S.Log

    // ---------- The objects and the abstract log ----------

    ghost predicate ScalarsMatch(s: S.Log)
      reads this`use, this`nFile, this`nextSeq, this`resv, this`alive, this`nRec, this`nMig, this`answers
    {
      && fileSize == s.fileSize && use == s.use && nFile == s.nfile && nextSeq == s.next
      && resv == s.resv && alive == s.alive && nRec == s.nrec && nMig == s.nmig && answers == s.answers
    }

    ghost predicate Rep()
      reads this, files
    {
      && ScalarsMatch(st) && FilesMatch(files, S.Files(st)) && Chained(files, head, tail)
      && NumbersApart(files, everyFile, nextSeq) && RepJobs(st.jobs)
    }

    ghost predicate RepJobs(jobs: map<u64, S.Job>)
      reads this`everyFile, this`allJobs
    {
      JobsMatch(allJobs, jobs) && HomesKnown(allJobs, everyFile)
    }

    // What Rep says of the files, apart from the contents of file f.
    ghost predicate RepBut(f: File)
      reads this`st, this`files, this`head, this`tail, this`everyFile, this`nextSeq, files`next
      reads set g | g in files && g != f
    {
      && OthersMatch(files, S.Files(st), f) && Chained(files, head, tail)
      && NumbersApart(files, everyFile, nextSeq)
    }

    // Cur is the file after the closed ones.
    ghost predicate CurrentKnown()
      reads this`st, this`files, this`cur
    {
      st.live != [] && |st.past| < |files| && cur == files[|st.past|]
    }

    // The log of a server that finds no files.
    constructor (fileSize: nat, answers: seq<bool>)
      ensures Rep() && st == S.EmptyLog(fileSize, answers) && files == []
    {
      this.fileSize, this.answers := fileSize, answers;
      use, head, cur, tail := true, null, null, null;
      nFile, nextSeq, resv, alive, nRec, nMig := 0, 1, 0, 0, 0, 0;
      allJobs := map[];
      files, everyFile := [], {};
      st := S.EmptyLog(fileSize, answers);
    }

    // Start-up, there being no files to read: the first file is made, and is the current one.
    method WalInit() returns (made: bool)
      requires Rep() && st.past == [] && st.live == []
      modifies this, files
      ensures Rep() && (st, made) == S.MakeNextFile(old(st))
      ensures made ==> CurrentKnown()
    {
      hide FileMatches, Chained, NumbersApart, JobsMatch, HomesKnown;
      made := MakeNextFile();
      if made {
        TailIsCurrent();
        cur := tail;
      }
    }

    lemma TailIsCurrent()
      requires Rep() && st.past == [] && |st.live| == 1
      ensures |files| == 1 && tail == files[0]
    {
    }

    // ---------- Adding a file ----------

    // Adds f to the linked list, updating tail and head as necessary.
    method FileAdd(f: File)
      requires Chained(files, head, tail) && f !in files && f.next == null
      modifies this`tail, this`head, this`nFile, this`files, files`next
      ensures files == old(files) + [f] && nFile == old(nFile) + 1 && Chained(files, head, tail)
    {
      if tail != null {
        tail.next := f;
      }
      tail := f;
      if head == null {
        head := f;
      }
      nFile := nFile + 1;
      files := files + [f];
    }

    // Lists a newly opened file, which takes the next number.
    method EnterFile(f: File)
      requires Rep() && f !in everyFile && f.seqNo == nextSeq && f.next == null
      requires FileMatches(f, S.NewFile(st))
      modifies this`tail, this`head, this`nFile, this`nextSeq, this`files, this`everyFile, this`st, files`next
      ensures Rep() && files == old(files) + [f]
      ensures st == old(st).(live := old(st).live + [S.NewFile(old(st))], next := old(st).next + 1,
          nfile := old(st).nfile + 1)
    {
      hide FileMatches, FilesMatch, Chained, NumbersApart, JobsMatch, HomesKnown, S.NewFile, S.Granting, S.Quiet,
          S.Files, S.Capacity, Rep;
      RepParts();
      ghost var vs, v := S.Files(st), S.NewFile(st);
      NotListed(f);
      MatchWithLast(files, vs, f, v);
      NumberTaken(files, everyFile, nextSeq, f);
      MoreFilesKnown(allJobs, everyFile, f);
      FileEntered(st, v);
      ghost var s := st.(live := st.live + [v], next := st.next + 1, nfile := st.nfile + 1);
      FileAdd(f);
      nextSeq := nextSeq + 1;
      everyFile := everyFile + {f};
      st := s;
      RepWhole();
    }

    lemma RepWhole()
      requires ScalarsMatch(st) && FilesMatch(files, S.Files(st)) && Chained(files, head, tail)
      requires NumbersApart(files, everyFile, nextSeq) && JobsMatch(allJobs, st.jobs) && HomesKnown(allJobs, everyFile)
      ensures Rep()
    {
    }

    lemma RepParts()
      requires Rep()
      ensures ScalarsMatch(st) && FilesMatch(files, S.Files(st)) && Chained(files, head, tail)
      ensures NumbersApart(files, everyFile, nextSeq) && JobsMatch(allJobs, st.jobs) && HomesKnown(allJobs, everyFile)
    {
    }

    lemma NotListed(f: File)
      requires NumbersApart(files, everyFile, nextSeq) && f !in everyFile
      ensures f !in files
    {
    }

    method MakeNextFile() returns (made: bool)
      requires Rep()
      modifies this`answers, this`tail, this`head, this`nFile, this`nextSeq, this`files, this`everyFile, this`st,
          files`next
      ensures Rep() && (st, made) == S.MakeNextFile(old(st)) && st.past == old(st).past
      ensures old(files) <= files && forall k :: 0 <= k < |files| ==> files[k] in old(files) || fresh(files[k])
      ensures old(CurrentKnown()) ==> CurrentKnown()
    {
      hide WrittenBytes, Version, FilesMatch, Chained, NumbersApart, JobsMatch, HomesKnown, S.Allocated, S.Granting,
          S.Quiet;
      made := answers == [] || answers[0];
      answers := if answers == [] then [] else answers[1..];
      st := st.(answers := answers);
      if made {
        var f := new File(nextSeq, 1, fileSize - WORD, S.Allocated(fileSize));
        NothingWritten();
        EnterFile(f);
      }
    }

    // ---------- Dropping and closing files ----------

    // Takes the head file, which nothing refers to, off the list.
    method DropHead()
      requires Rep() && head != null && head.refs <= 0
      modifies this`head, this`tail, this`nFile, this`files, this`st
      ensures Rep() && |old(files)| > 0 && files == old(files)[1..]
      ensures S.Files(old(st)) != [] && S.Files(old(st))[0].refs <= 0 && st == S.WithoutHead(old(st))
    {
      hide FileMatches, FilesMatch, Chained, NumbersApart, JobsMatch, HomesKnown, S.WithoutHead, S.Gc, S.Quiet, S.Files;
      HeadFacts();
      MatchWithoutHead(files, S.Files(st));
      ChainWithoutHead(files, head, tail);
      NumbersOfTail(files, everyFile, nextSeq);
      HeadDropped(st);
      var f := head;
      head := f.next;
      if tail == f {
        tail := f.next;
      }
      nFile := nFile - 1;
      files := files[1..];
      st := S.WithoutHead(st);
    }

    method WalGc()
      requires Rep()
      modifies this`head, this`tail, this`nFile, this`files, this`st
      ensures forall k :: 0 <= k < |files| ==> files[k] in old(files)
      ensures Rep() && st == S.Gc(old(st))
      ensures old(CurrentKnown()) && |st.live| == |old(st).live| ==> CurrentKnown()
    {
      hide FileMatches, FilesMatch, Chained, NumbersApart, JobsMatch, HomesKnown;
      SameCount();
      while head != null && head.refs <= 0
        invariant Rep() && S.Gc(st) == S.Gc(old(st))
        invariant |files| <= |old(files)| && files == old(files)[|old(files)| - |files|..]
        invariant |st.live| <= |old(st).live|
        decreases |files|
      {
        HeadFacts();
        HeadDropped(st);
        DropHead();
      }
      HeadIsReferenced();
      SameCount();
    }

    lemma SameCount()
      requires Rep()
      ensures |files| == |st.past| + |st.live|
    {
    }

    lemma HeadFacts()
      requires Rep() && head != null
      ensures files != [] && head == files[0] && S.Files(st) != [] && S.Files(st)[0].refs == head.refs
    {
      assert FileMatches(files[0], S.Files(st)[0]);
    }

    lemma HeadIsReferenced()
      requires Rep() && (head == null || head.refs > 0)
      ensures S.Gc(st) == st
    {
      if head != null {
        HeadFacts();
      }
    }

    // Sets a file aside to be changed: all else keeps matching whatever happens to it.
    lemma TakeOut(f: File, i: nat) returns (v: S.File)
      requires Rep() && i < |files| && f == files[i]
      ensures i < |S.Files(st)| && v == S.Files(st)[i] && FileMatches(f, v)
      ensures RepBut(f) && ScalarsMatch(st) && RepJobs(st.jobs) && |files| == |S.Files(st)|
    {
      hide FileMatches;
      v := S.Files(st)[i];
    }

    // Puts the file back as v, which makes the abstract log s.
    ghost method PutBack(f: File, i: nat, v: S.File, s: S.Log)
      requires i < |files| && f == files[i] && RepBut(f) && FileMatches(f, v)
      requires ScalarsMatch(s) && RepJobs(s.jobs)
      requires |files| == |S.Files(st)| ==> S.Files(s) == S.Files(st)[i := v]
      modifies this`st
      ensures Rep() && st == s
    {
      hide FileMatches, NumbersApart, JobsMatch, HomesKnown, S.Files;
      ghost var vs, vs' := S.Files(st), S.Files(s);
      forall k | 0 <= k < |files|
        ensures FileMatches(files[k], vs'[k])
      {
        if k != i {
          assert files[k] != f && FileMatches(files[k], vs[k]);
        }
      }
      st := s;
    }

    method FileDecRef(f: File, ghost i: nat)
      requires Rep() && i < |files| && f == files[i]
      modifies this`head, this`tail, this`nFile, this`files, this`st, f`refs
      ensures forall k :: 0 <= k < |files| ==> files[k] in old(files)
      ensures i < |S.Files(old(st))|
      ensures Rep() && st == DecRef(old(st), i)
      ensures old(CurrentKnown()) && |st.live| == |old(st).live| ==> CurrentKnown()
    {
      hide Rep, RepBut, WrittenBytes, FilesMatch, S.Gc, S.Files, SetFile;
      ghost var v := TakeOut(f, i);
      f.refs := f.refs - 1;
      PutBack(f, i, v.(refs := v.refs - 1), OneRefLess(st, i));
      if f.refs < 1 {
        WalGc();
      }
    }

    // Closes the file on disk: it is cut to what has been written.
    method Shutdown(f: File, ghost i: nat)
      requires Rep() && i < |files| && f == files[i] && f.isWOpen
      modifies this`st, f`isWOpen, f`size
      ensures Rep() && i < |S.Files(old(st))|
      ensures S.Files(old(st))[i].open && st == SetFile(old(st), i, Shut(old(st), S.Files(old(st))[i]))
    {
      hide Rep, RepBut, WrittenBytes, FilesMatch, S.Files, SetFile;
      ghost var v := TakeOut(f, i);
      if f.free > 0 {
        f.size := fileSize - f.free;
      }
      f.isWOpen := false;
      PutBack(f, i, Shut(st, v), SetFile(st, i, Shut(st, v)));
    }

    lemma ClosedAlready(f: File, i: nat)
      requires Rep() && i < |files| && f == files[i] && !f.isWOpen
      ensures i < |S.Files(st)| && CloseFile(st, i) == st && SetFile(st, i, S.Closed(st, S.Files(st)[i])) == st
    {
      var v := TakeOut(f, i);
      SetSame(st, i);
    }

    method FileWClose(f: File, ghost i: nat)
      requires Rep() && i < |files| && f == files[i]
      modifies this`head, this`tail, this`nFile, this`files, this`st, f`refs, f`isWOpen, f`size
      ensures forall k :: 0 <= k < |files| ==> files[k] in old(files)
      ensures i < |S.Files(old(st))|
      ensures Rep() && st == CloseFile(old(st), i)
      ensures old(CurrentKnown()) && |st.live| == |old(st).live| ==> CurrentKnown()
    {
      hide Rep, FileMatches, FilesMatch, S.Files, SetFile, DecRef, OneRefLess, S.Closed, CloseFile;
      if !f.isWOpen {
        ClosedAlready(f, i);
      } else {
        Shutdown(f, i);
        CloseInSteps(old(st), i);
        FileDecRef(f, i);
      }
    }

    // Makes the next file current and closes the one before it.
    method UseNext() returns (ok: bool)
      requires Rep() && CurrentKnown()
      modifies this`head, this`tail, this`cur, this`nFile, this`files, this`st, cur`refs, cur`isWOpen, cur`size
      ensures forall k :: 0 <= k < |files| ==> files[k] in old(files)
      ensures Rep() && (st, ok) == S.UseNext(old(st))
      ensures ok ==> |old(st).live| > 1 && (|st.live| == |old(st).live| - 1 ==> CurrentKnown())
      ensures !ok ==> CurrentKnown()
    {
      hide FileMatches, FilesMatch, NumbersApart, JobsMatch, HomesKnown, S.Gc, SetFile, Advanced;
      var f := cur;
      ghost var i := |st.past|;
      ghost var _ := LiveAt(0);
      if f.next == null {
        return false;
      }
      UseNextInSteps(st);
      cur := f.next;
      st := Advanced(st);
      hide Chained, S.Files, CloseFile, S.UseNext, S.Closed;
      FileWClose(f, i);
      ok := true;
    }

    // The file objects from the current one on.
    lemma LiveAt(k: nat) returns (i: nat)
      requires Rep() && k < |st.live|
      ensures i == |st.past| + k && |files| == |st.past| + |st.live| && i < |files|
      ensures files[i].refs == st.live[k].refs && files[i].free == st.live[k].free && files[i].resv == st.live[k].resv
      ensures k == S.Last(st) ==> tail == files[i] && files[i].next == null
      ensures k < S.Last(st) ==> files[i].next == files[i + 1]
    {
      hide NumbersApart, JobsMatch, HomesKnown, WrittenBytes;
      i := |st.past| + k;
      assert S.Files(st)[i] == st.live[k] && FileMatches(files[i], S.Files(st)[i]);
      if k < S.Last(st) {
        assert files[i].next == files[i + 1];
      }
    }

    // ---------- Reserving ----------

    // Moves n reserved bytes from one file to another; free space moves the other way.
    method MoveResv(to: File, from: File, n: int, ghost t: nat, ghost m: nat)
      requires Rep() && t < |st.live| && m < |st.live|
      requires |files| == |st.past| + |st.live| && to == files[|st.past| + t] && from == files[|st.past| + m]
      modifies this`st, to`resv, to`free, from`resv, from`free
      ensures Rep() && st == S.MoveResv(old(st), t, m, n)
    {
      hide Rep, RepBut, WrittenBytes, FilesMatch, RepJobs, S.Files, SetFile;
      MoveInSteps(st, t, m, n);
      ghost var i := |st.past| + m;
      ghost var v := TakeOut(from, i);
      from.resv := from.resv - n;
      from.free := from.free + n;
      PutBack(from, i, Shifted(v, -n), ShiftAt(st, i, -n));
      i := |st.past| + t;
      v := TakeOut(to, i);
      to.resv := to.resv + n;
      to.free := to.free - n;
      PutBack(to, i, Shifted(v, n), ShiftAt(st, i, n));
    }

    // Takes n free bytes of a file into the reserve, or gives -n back.
    method Grant(f: File, n: int, ghost k: nat)
      requires Rep() && k < |st.live| && |files| == |st.past| + |st.live| && f == files[|st.past| + k]
      modifies this`st, this`resv, f`resv, f`free
      ensures Rep() && st == S.Grant(old(st), k, n)
      ensures old(CurrentKnown()) ==> CurrentKnown()
    {
      hide Rep, RepBut, WrittenBytes, FilesMatch, RepJobs, SetFile;
      GrantInSteps(st, k, n);
      ghost var i := |st.past| + k;
      ghost var v := TakeOut(f, i);
      f.free := f.free - n;
      f.resv := f.resv + n;
      resv := resv + n;
      ghost var s := ShiftAt(st, i, n);
      PutBack(f, i, Shifted(v, n), s.(resv := s.resv + n));
    }

    // Makes sure that the tail has n bytes free, with a new file if need be.
    method NeedFree(n: int) returns (got: int)
      requires Rep() && st.live != []
      modifies this`answers, this`tail, this`head, this`nFile, this`nextSeq, this`files, this`everyFile, this`st,
          files`next
      ensures Rep() && (st, got) == S.NeedFree(old(st), n) && st.past == old(st).past
      ensures old(files) <= files && forall k :: 0 <= k < |files| ==> files[k] in old(files) || fresh(files[k])
      ensures old(CurrentKnown()) ==> CurrentKnown()
    {
      hide Rep, S.MakeNextFile;
      ghost var _ := LiveAt(S.Last(st));
      if tail.free >= n {
        return n;
      }
      var made := MakeNextFile();
      got := if made then n else 0;
    }

    // Moves on until n bytes are reserved in the current file.
    method MakeRoom(n: nat, ghost t0: nat) returns (ok: bool)
      requires Rep() && CurrentKnown() && Roomy(st, n, t0)
      modifies this, files
      ensures Rep() && CurrentKnown() && (st, ok) == S.MakeRoom(old(st), n, t0)
      ensures forall k :: 0 <= k < |files| ==> files[k] in old(files) || fresh(files[k])
    {
      hide Rep, S.MakeRoom, S.NeedFree, S.MoveResv, S.UseNext, S.Quiet, S.Usable;
      ghost var t := t0;
      ghost var i := LiveAt(0);
      while cur.resv < n
        invariant Rep() && CurrentKnown() && Roomy(st, n, t) && cur.resv == st.live[0].resv
        invariant S.MakeRoom(old(st), n, t0) == S.MakeRoom(st, n, t)
        invariant forall k :: 0 <= k < |files| ==> files[k] in old(files) || fresh(files[k])
        decreases t
      {
        PassInSteps(st, n, t);
        var m := cur.resv;
        var got := NeedFree(m);
        if got != m {
          return false;
        }
        i := LiveAt(0);
        i := LiveAt(S.Last(st));
        MoveResv(tail, cur, m, S.Last(st), 0);
        var _ := UseNext();
        i := LiveAt(0);
        t := t - 1;
      }
      RoomMade(st, n, t);
      ok := true;
    }

    // One step of BalanceRest, at file b.
    method Settle(b: File, n: nat, ghost k: nat) returns (ok: bool)
      requires Rep() && CurrentKnown() && S.Usable(st) && k < |st.live| && st.live[k].resv >= n
      requires S.Capacity(st) >= 2 * Z - 1 && |st.past| + k < |files| && b == files[|st.past| + k]
      modifies this, files
      ensures Rep() && CurrentKnown() && (st, ok) == S.Settle(old(st), k, n)
      ensures |st.past| == |old(st).past| && |files| >= |old(files)| && files[..|old(files)|] == old(files)
      ensures forall k :: 0 <= k < |files| ==> files[k] in old(files) || fresh(files[k])
    {
      hide Rep, S.Settle, S.NeedFree, S.MoveResv, S.Quiet, S.Usable, S.Work, ScalarsMatch;
      SettleCases(st, k, n);
      ghost var i := LiveAt(k);
      i := LiveAt(S.Last(st));
      var r := (b.resv - n) % Z;
      if r == 0 {
        return true;
      }
      var c := Z - r;
      if tail.resv >= c && b.free >= c {
        MoveResv(b, tail, c, k, S.Last(st));
        return true;
      }
      var got := NeedFree(r);
      if got != r {
        return false;
      }
      i := LiveAt(S.Last(st));
      i := LiveAt(k);
      MoveResv(tail, b, r, S.Last(st), k);
      ok := true;
    }

    // Makes the reserve of b congruent to n, and of every file after it to 0, modulo the
    // size of a delete record.
    method BalanceRest(b: File?, n: nat, ghost k: nat) returns (ok: bool)
      requires Rep() && CurrentKnown() && S.Usable(st) && k <= |st.live| && (k < |st.live| ==> st.live[k].resv >= n)
      requires S.Capacity(st) >= 2 * Z - 1
      requires |files| == |st.past| + |st.live| && b == (if k < |st.live| then files[|st.past| + k] else null)
      modifies this, files
      ensures Rep() && CurrentKnown() && (st, ok) == S.BalanceRest(old(st), k, n)
      ensures forall k :: 0 <= k < |files| ==> files[k] in old(files) || fresh(files[k])
      decreases S.Work(st, k)
    {
      hide Rep, S.Settle, S.Quiet, S.Usable, S.Work, S.BalanceRest;
      if b == null {
        NothingToSettle(st, n);
        return true;
      }
      SettleInSteps(st, k, n);
      ok := Settle(b, n, k);
      if ok {
        ghost var i := LiveAt(k);
        ok := BalanceRest(b.next, 0, k + 1);
      }
    }

    // Moves reserved bytes around until the current file can hold the next n bytes and every
    // reserve is what the delete records to come need.
    method Balance(n: nat, ghost t: nat) returns (ok: bool)
      requires Rep() && CurrentKnown() && Roomy(st, n, t) && S.Capacity(st) >= 2 * Z - 1
      modifies this, files
      ensures Rep() && CurrentKnown() && (st, ok) == S.Balance(old(st), n, t)
      ensures forall k :: 0 <= k < |files| ==> files[k] in old(files) || fresh(files[k])
    {
      hide Rep, S.MakeRoom, S.BalanceRest, S.Usable;
      ok := MakeRoom(n, t);
      if ok {
        ghost var _ := LiveAt(0);
        ok := BalanceRest(cur, n, 0);
      }
    }

    // Takes n bytes in the tail and balances; takes them back when that fails.
    method ReserveInTail(n: nat) returns (got: int)
      requires Rep() && CurrentKnown() && S.Usable(st) && S.Capacity(st) >= 2 * Z - 1
      modifies this, files
      ensures Rep() && CurrentKnown() && (st, got) == S.ReserveInTail(old(st), n)
      ensures forall k :: 0 <= k < |files| ==> files[k] in old(files) || fresh(files[k])
    {
      hide Rep, S.Balance;
      ghost var t := S.Last(st);
      ghost var i := LiveAt(t);
      Grant(tail, n, t);
      var ok := Balance(n, t);
      if !ok {
        t := S.Last(st);
        i := LiveAt(t);
        Grant(tail, -(n as int), t);
        return 0;
      }
      got := n;
    }

    method Reserve(n: nat) returns (got: int)
      requires Rep() && (use ==> CurrentKnown() && S.Usable(st) && S.Capacity(st) >= 2 * Z - 1)
      modifies this, files
      ensures Rep() && (st, got) == S.Reserve(old(st), n)
      ensures old(CurrentKnown()) ==> CurrentKnown()
      ensures forall k :: 0 <= k < |files| ==> files[k] in old(files) || fresh(files[k])
    {
      hide *;
      UseMatches();
      ReserveInSteps(st, n);
      if use {
        CurrentIs();
      }
      if !use {
        return 1;
      }
      ghost var i := LiveAt(0);
      if cur.free >= n {
        Grant(cur, n, 0);
        return n;
      }
      got := NeedFree(n);
      if got != n {
        return 0;
      }
      got := ReserveInTail(n);
    }

    lemma CurrentIs()
      requires CurrentKnown()
      ensures st.live != [] && |st.past| < |files| && cur == files[|st.past|]
    {
    }

    lemma UseMatches()
      requires Rep()
      ensures use == st.use && fileSize == st.fileSize && allJobs.Keys == st.jobs.Keys
    {
    }

    // ---------- Jobs and records ----------

    lemma JobAt(id: u64)
      requires Rep() && id in st.jobs
      ensures id in allJobs && JobMatches(allJobs[id], st.jobs[id])
      ensures allJobs[id].file != null ==> allJobs[id].file in everyFile
      ensures JobsMatch(allJobs, st.jobs) && HomesKnown(allJobs, everyFile)
    {
    }

    lemma Listed(i: nat)
      requires Rep() && i < |files|
      ensures files[i] in everyFile && i < |S.Files(st)| && files[i].seqNo == S.Files(st)[i].seqNo
      ensures OnlyOneNumbered(st, i)
    {
      assert FileMatches(files[i], S.Files(st)[i]);
      forall k | 0 <= k < |S.Files(st)| && k != i
        ensures S.Files(st)[k].seqNo != S.Files(st)[i].seqNo
      {
        assert FileMatches(files[k], S.Files(st)[k]);
        assert files[k] in files && files[i] in files && files[k] != files[i];
      }
    }

    // Two files known to the log with one number are one file.
    lemma SameNumberSameFile(f: File, g: File)
      requires Rep() && f in everyFile && g in everyFile && f.seqNo == g.seqNo
      ensures f == g
    {
    }

    // Links a job into the current file.
    method FileAddJob(f: File, id: u64)
      requires Rep() && CurrentKnown() && f == cur && id in st.jobs
      modifies this`st, this`allJobs, f`jobs, f`refs
      ensures Rep() && CurrentKnown() && st == S.FileAddJob(old(st), id) && id in st.jobs
    {
      hide Rep, RepBut, WrittenBytes, FilesMatch, JobsMatch, HomesKnown, S.FileAddJob, S.Files;
      ghost var i := |st.past|;
      AddJobInSteps(st, id);
      ghost var s := S.FileAddJob(st, id);
      JobAt(id);
      Listed(i);
      ghost var v := TakeOut(f, i);
      f.jobs := f.jobs + [id];
      f.refs := f.refs + 1;
      JobSet(allJobs, st.jobs, everyFile, id, allJobs[id].(file := f), s.jobs[id]);
      allJobs := allJobs[id := allJobs[id].(file := f)];
      PutBack(f, i, LinkFront(st, id), s);
    }

    // Unlinks a job from its file.
    method FileRmJob(f: File?, id: u64, ghost i: nat)
      requires Rep() && id in st.jobs && (f != null ==> i < |files| && f == files[i])
      modifies this`head, this`tail, this`nFile, this`files, this`st, this`alive, this`allJobs
      modifies (if f == null then {} else {f})`jobs, (if f == null then {} else {f})`refs
      ensures Rep() && st == if f == null then old(st) else S.FileRmJob(old(st), f.seqNo, id)
      ensures old(CurrentKnown()) && |st.live| == |old(st).live| ==> CurrentKnown()
      ensures forall k :: 0 <= k < |files| ==> files[k] in old(files)
    {
      hide Rep, RepBut, WrittenBytes, FilesMatch, JobsMatch, HomesKnown, S.FileRmJob, S.Files, DecRef, UnlinkedAt,
          S.Without, OnlyOneNumbered, S.Granting, S.Quiet, S.Gc;
      if f == null {
        return;
      }
      JobAt(id);
      Listed(i);
      if f != allJobs[id].file {
        NotItsHome(f, id);
        return;
      }
      RmJobInSteps(st, i, id);
      ghost var s := UnlinkedAt(st, i, id);
      ghost var v := TakeOut(f, i);
      f.jobs := S.Without(f.jobs, id);
      var j := allJobs[id];
      JobSet(allJobs, st.jobs, everyFile, id, j.(file := null, used := 0), s.jobs[id]);
      alive := alive - j.used;
      allJobs := allJobs[id := j.(file := null, used := 0)];
      PutBack(f, i, v.(jobs := S.Without(v.jobs, id)), s);
      FileDecRef(f, i);
    }

    lemma NotItsHome(f: File, id: u64)
      requires Rep() && id in st.jobs && f in everyFile && id in allJobs && f != allJobs[id].file
      ensures S.FileRmJob(st, f.seqNo, id) == st
    {
      JobAt(id);
      var g := allJobs[id].file;
      if g != null && g.seqNo == f.seqNo {
        assert false;
      }
    }

    // Appends one value to a file, paid for by its reserve.
    method FileWrite(f: File, id: u64, value: Bytes)
      requires id in allJobs
      modifies this`resv, this`alive, this`allJobs, f`data, f`resv
      ensures f.data == old(f.data) + value && f.resv == old(f.resv) - |value|
      ensures resv == old(resv) - |value| && alive == old(alive) + |value|
      ensures var j := old(allJobs)[id]; allJobs == old(allJobs)[id := j.(used := j.used + |value|)]
    {
      f.data := f.data + value;
      var l := |value|;
      resv := resv - l;
      f.resv := f.resv - l;
      allJobs := allJobs[id := allJobs[id].(used := allJobs[id].used + l)];
      alive := alive + l;
    }

    // The current file with record r appended is the current file of the abstract log.
    ghost method RecordWritten(f: File, id: u64, r: Rec, before: map<u64, Job>, v: S.File)
      requires CurrentKnown() && f == cur && RepBut(f) && |files| == |S.Files(st)|
      requires v == S.Files(st)[|st.past|] && id in st.jobs
      requires JobsMatch(before, st.jobs) && HomesKnown(before, everyFile) && id in before
      requires var l, j := RecSize(r), before[id];
               && allJobs == before[id := j.(used := j.used + l)] && JobMatches(j, st.jobs[id])
               && FileMatches(f, v.(recs := v.recs + [r], resv := v.resv - l))
               && ScalarsMatch(st.(resv := st.resv - l, alive := st.alive + l))
      modifies this`st
      ensures Rep() && CurrentKnown() && st == S.WriteRec(old(st), id, r)
    {
      hide RepBut, FileMatches, JobsMatch, HomesKnown, FilesMatch, S.WriteRec, S.Files;
      ghost var i, s, j, l := |st.past|, S.WriteRec(st, id, r), before[id], RecSize(r);
      WriteRecInSteps(st, id, r);
      HomeKnown(before, id);
      JobSet(before, st.jobs, everyFile, id, j.(used := j.used + l), s.jobs[id]);
      PutBack(f, i, v.(recs := v.recs + [r], resv := v.resv - l), s);
    }

    lemma HomeKnown(jobs: map<u64, Job>, id: u64)
      requires HomesKnown(jobs, everyFile) && id in jobs
      ensures jobs[id].file != null ==> jobs[id].file in everyFile
    {
    }

    // Writes the job record alone. A deleted job leaves its file.
    method WriteShortRec(f: File, id: u64)
      requires Rep() && CurrentKnown() && f == cur && id in st.jobs
      modifies this`st, this`resv, this`alive, this`allJobs, f`data, f`resv
      ensures Rep() && CurrentKnown() && st == S.WriteRec(old(st), id, Short(old(st).jobs[id].rec))
      ensures id in allJobs && id in old(allJobs) && allJobs[id].file == old(allJobs)[id].file
    {
      hide Rep, RepBut, WrittenBytes, FilesMatch, JobsMatch, HomesKnown, S.WriteRec, S.Files, Codec.EncodeJob,
          Codec.EncodeLength;
      JobAt(id);
      ghost var before, r := allJobs, Short(allJobs[id].rec);
      ghost var v := TakeOut(f, |st.past|);
      OneMoreWritten(v.recs, r);
      FileWrite(f, id, Codec.EncodeLength(0));
      FileWrite(f, id, Codec.EncodeJob(allJobs[id].rec));
      RecordWritten(f, id, r, before, v);
    }

    method FileWrJobShort(f: File, id: u64)
      requires Rep() && CurrentKnown() && f == cur && id in st.jobs && HomeListed(st, id)
      modifies this, files
      ensures Rep() && st == S.WriteShort(old(st), id)
      ensures |st.live| == |old(st).live| ==> CurrentKnown()
      ensures forall k :: 0 <= k < |files| ==> files[k] in old(files)
    {
      hide Rep, JobsMatch, HomesKnown, S.WriteRec, S.WriteShort, S.FileRmJob, S.Files;
      WriteShortInSteps(st, id);
      ghost var h := WhereListed(id);
      WriteShortRec(f, id);
      JobAt(id);
      if allJobs[id].rec.state == INVALID {
        FileRmJob(allJobs[id].file, id, h);
      }
    }

    lemma WhereListed(id: u64) returns (h: nat)
      requires Rep() && id in st.jobs && HomeListed(st, id)
      ensures id in allJobs && (allJobs[id].file != null ==> h < |files| && allJobs[id].file == files[h])
    {
      JobAt(id);
      h := 0;
      if st.jobs[id].home.In? {
        h :| 0 <= h < |S.Files(st)| && S.Files(st)[h].seqNo == st.jobs[id].home.seqNo;
        Listed(h);
        SameNumberSameFile(allJobs[id].file, files[h]);
      }
    }

    // The four parts of a full record: length of the tube name, tube name, job record, body.
    method FileWriteParts(f: File, id: u64)
      requires id in allJobs
      modifies this`resv, this`alive, this`allJobs, f`data, f`resv
      ensures var j := old(allJobs)[id];
              var l, r := FullSize(j.tube, j.body), Full(j.tube, j.rec, j.body);
              && f.data == old(f.data) + Codec.EncodeRec(r) && f.resv == old(f.resv) - l
              && resv == old(resv) - l && alive == old(alive) + l
              && allJobs == old(allJobs)[id := j.(used := j.used + l)]
    {
      hide Codec.EncodeJob, Codec.EncodeLength, Codec.EncodeRec;
      var j := allJobs[id];
      FullPieces(f.data, j.tube, j.rec, j.body);
      FileWrite(f, id, Codec.EncodeLength(|j.tube|));
      FileWrite(f, id, j.tube);
      FileWrite(f, id, Codec.EncodeJob(j.rec));
      FileWrite(f, id, j.body);
    }

    method WriteFullRec(f: File, id: u64)
      requires Rep() && CurrentKnown() && f == cur && id in st.jobs
      modifies this`st, this`resv, this`alive, this`allJobs, f`data, f`resv
      ensures Rep() && CurrentKnown()
      ensures var j := old(st).jobs[id]; st == S.WriteRec(old(st), id, Full(j.tube, j.rec, j.body))
    {
      hide Rep, RepBut, WrittenBytes, FilesMatch, JobsMatch, HomesKnown, S.WriteRec, S.Files, Codec.EncodeJob,
          Codec.EncodeLength, Codec.EncodeRec, S.Capacity;
      JobAt(id);
      ghost var j := allJobs[id];
      ghost var before, r := allJobs, Full(j.tube, j.rec, j.body);
      ghost var v := TakeOut(f, |st.past|);
      OneMoreWritten(v.recs, r);
      FileWriteParts(f, id);
      RecordWritten(f, id, r, before, v);
    }

    // Writes everything about a job, which the file then holds.
    method FileWrJobFull(f: File, id: u64)
      requires Rep() && CurrentKnown() && f == cur && id in st.jobs
      modifies this`st, this`resv, this`alive, this`allJobs, f`data, f`resv, f`jobs, f`refs
      ensures Rep() && CurrentKnown() && st == S.WriteFull(old(st), id)
    {
      hide Rep, CurrentKnown, S.WriteRec, S.FileAddJob;
      CurrentIs();
      AddJobInSteps(st, id);
      FileAddJob(f, id);
      WriteFullRec(f, id);
    }

    // Goes on to the next file when nothing is reserved in the current one.
    method Advance() returns (ok: bool)
      requires Rep() && CurrentKnown() && S.Referenced(st)
      modifies this`head, this`tail, this`cur, this`nFile, this`files, this`st, cur`refs, cur`isWOpen, cur`size
      ensures Rep() && CurrentKnown()
      ensures ok == HasRoom(old(st)) && st == if ok then S.ToWriteIn(old(st)) else old(st)
      ensures forall k :: 0 <= k < |files| ==> files[k] in old(files)
    {
      hide Rep, CurrentKnown;
      CurrentIs();
      ghost var _ := LiveAt(0);
      ok := cur.resv > 0;
      if !ok {
        ok := UseNext();
      }
    }

    method WriteRecord(id: u64)
      requires Rep() && CurrentKnown() && id in st.jobs && HomeListed(st, id)
      modifies this, files
      ensures Rep() && st == if old(st).jobs[id].home.In? then S.WriteShort(old(st), id) else S.WriteFull(old(st), id)
      ensures |st.live| == |old(st).live| ==> CurrentKnown()
      ensures forall k :: 0 <= k < |files| ==> files[k] in old(files)
    {
      hide Rep, HomeListed, JobsMatch, HomesKnown, S.WriteShort, S.WriteFull, CurrentKnown;
      JobAt(id);
      CurrentIs();
      if allJobs[id].file != null {
        FileWrJobShort(cur, id);
      } else {
        FileWrJobFull(cur, id);
      }
    }

    method CountWrite(ok: bool)
      requires Rep()
      modifies this`use, this`nRec, this`st
      ensures Rep() && st == old(st).(use := if ok then old(st).use else false, nrec := old(st).nrec + 1)
      ensures old(CurrentKnown()) ==> CurrentKnown()
    {
      hide FileMatches, FilesMatch, Chained, NumbersApart, JobsMatch, HomesKnown;
      if !ok {
        use := false;
      }
      nRec := nRec + 1;
      st := st.(use := use, nrec := nRec);
    }

    /** Writes the record of a job: a short one when a file holds the job, else a full one.
        When nothing is reserved in the current file the next one is used; when there is
        none, the log is given up. */
    method WalWrite(id: u64) returns (ok: bool)
      requires Rep() && id in st.jobs && (use ==> CurrentKnown() && S.Referenced(st))
      requires st.use && st.live != [] && id in S.ToWriteIn(st).jobs ==> HomeListed(S.ToWriteIn(st), id)
      modifies this, files
      ensures Rep() && (st, ok) == S.WalWrite(old(st), id)
      ensures old(st).use && ok && old(st).live != [] && |st.live| == |S.ToWriteIn(old(st)).live| ==> CurrentKnown()
      ensures forall k :: 0 <= k < |files| ==> files[k] in old(files)
    {
      hide *;
      UseMatches();
      WalWriteInSteps(st, id);
      if !use {
        return true;
      }
      CurrentIs();
      ok := Advance();
      if ok {
        WriteRecord(id);
      } else {
        CurrentIs();
        CloseCurrentInSteps(st);
        FileWClose(cur, |st.past|);
      }
      CountWrite(ok);
    }

    // Space for a new job: its full record and, later, its delete record.
    method WalResvPut(id: u64) returns (got: int)
      requires Rep() && id in st.jobs && st.jobs[id].rec.bodySize >= 0
      requires use ==> CurrentKnown() && S.Usable(st) && S.Capacity(st) >= 2 * Z - 1
      modifies this, files
      ensures Rep() && (st, got) == S.Reserve(old(st), S.RoomFor(old(st).jobs[id]) + Z)
      ensures old(CurrentKnown()) ==> CurrentKnown()
      ensures forall k :: 0 <= k < |files| ==> files[k] in old(files) || fresh(files[k])
    {
      hide Rep, CurrentKnown, S.Reserve, S.Usable, JobsMatch, HomesKnown;
      JobAt(id);
      var j := allJobs[id];
      var z := WORD + |j.tube| + REC_SIZE + j.rec.bodySize;
      z := z + (WORD + REC_SIZE);
      got := Reserve(z);
    }

    // Space for one more record of a job that is in the log.
    method WalResvUpdate() returns (got: int)
      requires Rep() && (use ==> CurrentKnown() && S.Usable(st) && S.Capacity(st) >= 2 * Z - 1)
      modifies this, files
      ensures Rep() && (st, got) == S.Reserve(old(st), Z)
      ensures old(CurrentKnown()) ==> CurrentKnown()
      ensures forall k :: 0 <= k < |files| ==> files[k] in old(files) || fresh(files[k])
    {
      hide Rep, CurrentKnown, S.Reserve, S.Usable;
      got := Reserve(WORD + REC_SIZE);
    }

    // Space for a job's full record in another file.
    method WalResvMigrate(id: u64) returns (got: int)
      requires Rep() && id in st.jobs && st.jobs[id].rec.bodySize >= 0
      requires use ==> CurrentKnown() && S.Usable(st) && S.Capacity(st) >= 2 * Z - 1
      modifies this, files
      ensures Rep() && (st, got) == S.Reserve(old(st), S.RoomFor(old(st).jobs[id]))
      ensures old(CurrentKnown()) ==> CurrentKnown()
      ensures forall k :: 0 <= k < |files| ==> files[k] in old(files) || fresh(files[k])
    {
      hide Rep, CurrentKnown, S.Reserve, S.Usable, JobsMatch, HomesKnown;
      JobAt(id);
      var j := allJobs[id];
      got := Reserve(WORD + |j.tube| + REC_SIZE + j.rec.bodySize);
    }

    // ---------- The dictionary of jobs, and the counters ----------

    // Changes a job in memory, or adds one; which file holds it is not changed by this.
    method SetJob(id: u64, j: Job, ghost v: S.Job)
      requires Rep() && JobMatches(j, v) && (j.file != null ==> j.file in everyFile)
      modifies this`allJobs, this`st
      ensures Rep() && st == old(st).(jobs := old(st).jobs[id := v])
      ensures old(CurrentKnown()) ==> CurrentKnown()
    {
      hide FileMatches, FilesMatch, Chained, NumbersApart, JobsMatch, HomesKnown;
      JobSet(allJobs, st.jobs, everyFile, id, j, v);
      allJobs := allJobs[id := j];
      st := st.(jobs := st.jobs[id := v]);
    }

    method JobFree(id: u64)
      requires Rep()
      modifies this`allJobs, this`st
      ensures Rep() && st == old(st).(jobs := old(st).jobs - {id})
      ensures old(CurrentKnown()) ==> CurrentKnown()
    {
      hide FileMatches, FilesMatch, Chained, NumbersApart;
      allJobs := allJobs - {id};
      st := st.(jobs := st.jobs - {id});
    }

    method CountMove()
      requires Rep()
      modifies this`nMig, this`st
      ensures Rep() && st == old(st).(nmig := old(st).nmig + 1)
      ensures old(CurrentKnown()) ==> CurrentKnown()
    {
      hide FileMatches, FilesMatch, Chained, NumbersApart, JobsMatch, HomesKnown;
      nMig := nMig + 1;
      st := st.(nmig := nMig);
    }

    lemma HeadAndCurrent()
      requires Rep() && CurrentKnown()
      ensures head != null && files != [] && head == files[0]
      ensures (head == cur || head.next == cur) <==> |st.past| < 2
      ensures st.past != [] ==> head.seqNo == st.past[0].seqNo && head.jobs == st.past[0].jobs
    {
      hide NumbersApart, JobsMatch, HomesKnown, WrittenBytes;
      assert |files| == |st.past| + |st.live|;
      assert FileMatches(files[0], S.Files(st)[0]);
      if |files| > 1 {
        assert files[0].next == files[1];
      }
    }
  }
}
