/** The write-ahead log as a value: what each operation of the log does to the files,
    the space accounting and the jobs' links into the files. The classes in Wal.dfy are
    proved to do exactly this in place; Space.dfy, Upkeep.dfy, Writing.dfy, Commands.dfy and
    Runs.dfy prove what it is for. */
module WalState {
  import opened Records

  // One log file. jobs lists the jobs whose latest full record is here, oldest first.
  // size is the length of the file on disk.
  datatype File = File(seqNo: nat, refs: int, open: bool, free: int, resv: int, size: int,
                       jobs: seq<u64>, recs: seq<Rec>)

  datatype Home = Nowhere | In(seqNo: nat)

  // A job as the log sees it: logged is the job record last written for it, rec the
  // current one in memory.
  datatype Job = Job(tube: Bytes, body: Bytes, rec: JobRec, logged: JobRec, home: Home, used: nat)

  // past ++ live is the file list, live[0] the current file, so Head is the first file
  // of past ++ live and Tail the last one. answers says, for each coming attempt to create
  // a file, whether the file system grants it; when none is left it grants everything.
  // book is history, which no operation looks at: the tube and body every job was given that
  // has ever been linked into a file.
  datatype Log = Log(book: map<u64, Deed>, fileSize: nat, use: bool, past: seq<File>, live: seq<File>, next: nat,
                     resv: int, alive: int, nfile: int, nrec: nat, nmig: nat,
                     jobs: map<u64, Job>, answers: seq<bool>)

  function Files(s: Log): seq<File> {
    s.past + s.live
  }

  function Capacity(s: Log): int {
    s.fileSize - WORD
  }

  function Last(s: Log): nat
    requires s.live != []
  {
    |s.live| - 1
  }

  // A head file that is needed stays the head.
  predicate HeadStays(s: Log, s': Log) {
    s.past != [] && s.past[0].refs > 0 ==> s'.past != [] && s'.past[0] == s.past[0]
  }

  // Only the files and the space accounting differ: no job, no record, no byte in use.
  predicate Quiet(s: Log, s': Log) {
    && s'.jobs == s.jobs && s'.fileSize == s.fileSize && s'.use == s.use && s'.book == s.book
    && s'.resv == s.resv && s'.alive == s.alive && s'.nrec == s.nrec && s'.nmig == s.nmig
    && HeadStays(s, s') && (Granting(s) ==> Granting(s'))
  }

  // The file system refuses nothing from now on.
  predicate Granting(s: Log) {
    forall i :: 0 <= i < |s.answers| ==> s.answers[i]
  }

  // ---------- Files ----------

  // Space is allocated in whole blocks of 4096 bytes.
  function Allocated(fileSize: nat): nat {
    (fileSize + 4095) / 4096 * 4096
  }

  function NewFile(s: Log): File {
    File(s.next, 1, true, Capacity(s), 0, Allocated(s.fileSize), [], [])
  }

  function MakeNextFile(s: Log): (r: (Log, bool))
    ensures Quiet(s, r.0) && |r.0.live| >= |s.live|
  {
    var answers := if s.answers == [] then [] else s.answers[1..];
    if s.answers == [] || s.answers[0] then
      (s.(answers := answers, live := s.live + [NewFile(s)], next := s.next + 1, nfile := s.nfile + 1), true)
    else (s.(answers := answers), false)
  }

  function WithoutHead(s: Log): Log
    requires Files(s) != []
  {
    if s.past != [] then s.(past := s.past[1..], nfile := s.nfile - 1)
    else s.(live := s.live[1..], nfile := s.nfile - 1)
  }

  // The log of a server that finds no files.
  function EmptyLog(fileSize: nat, answers: seq<bool>): Log {
    Log(map[], fileSize, true, [], [], 1, 0, 0, 0, 0, 0, map[], answers)
  }

  // Drops head files that nothing refers to.
  function Gc(s: Log): (r: Log)
    ensures Quiet(s, r)
    ensures s.live != [] && s.live[0].refs > 0 ==> r.live == s.live
    ensures r.answers == s.answers
    decreases |s.past| + |s.live|
  {
    if s.past != [] then
      if s.past[0].refs <= 0 then Gc(s.(past := s.past[1..], nfile := s.nfile - 1)) else s
    else if s.live != [] && s.live[0].refs <= 0 then Gc(s.(live := s.live[1..], nfile := s.nfile - 1))
    else s
  }

  // A closed file is cut to the bytes written, unless nothing is free in it.
  function Closed(s: Log, f: File): File {
    if f.open then
      f.(open := false, refs := f.refs - 1, size := if f.free > 0 then s.fileSize - f.free else f.size)
    else f
  }

  // Makes the next file current and closes the one before it.
  function UseNext(s: Log): (r: (Log, bool))
    requires s.live != []
    ensures Quiet(s, r.0)
    ensures |s.live| > 1 && s.live[1].refs > 0 ==> r.0.live == s.live[1..]
  {
    if |s.live| == 1 then (s, false)
    else
      var f := Closed(s, s.live[0]);
      var s' := s.(past := s.past + [f], live := s.live[1..]);
      (if s.live[0].open && f.refs < 1 then Gc(s') else s', true)
  }

  // ---------- Reservations ----------

  // Takes n free bytes of a file into the reserve (or gives -n back).
  function Grant(s: Log, i: int, n: int): (s': Log)
    requires 0 <= i < |s.live|
    ensures |s'.live| == |s.live|
    ensures forall k :: 0 <= k < |s.live| ==> s'.live[k].refs == s.live[k].refs && s'.live[k].seqNo == s.live[k].seqNo
  {
    var f := s.live[i];
    s.(live := s.live[i := f.(free := f.free - n, resv := f.resv + n)], resv := s.resv + n)
  }

  // Moves n reserved bytes from one file to another; free space moves the other way.
  function MoveResv(s: Log, to: nat, from: nat, n: int): (s': Log)
    requires to < |s.live| && from < |s.live|
    ensures |s'.live| == |s.live| && Quiet(s, s')
  {
    var f := s.live[from];
    var live := s.live[from := f.(free := f.free + n, resv := f.resv - n)];
    var t := live[to];
    s.(live := live[to := t.(free := t.free - n, resv := t.resv + n)])
  }

  function NeedFree(s: Log, n: int): (r: (Log, int))
    requires s.live != []
    ensures Quiet(s, r.0) && |r.0.live| >= |s.live|
    ensures forall i :: 0 <= i < |s.live| ==> r.0.live[i] == s.live[i]
    ensures r.0.live == s.live || (r.0.live == s.live + [NewFile(s)] && s.live[Last(s)].free < n)
  {
    if s.live[Last(s)].free >= n then (s, n)
    else
      var (s', made) := MakeNextFile(s);
      (s', if made then n else 0)
  }

  // Every file from the current one on is referred to.
  predicate Referenced(s: Log) {
    s.live != [] && forall i :: 0 <= i < |s.live| ==> s.live[i].refs > 0
  }

  predicate Usable(s: Log) {
    Referenced(s) && forall i :: 0 <= i < |s.live| ==> s.live[i].resv >= 0
  }

  // One pass of the loop that brings the reserve of the current file up to n: all of its
  // reserve goes to the tail, and the next file becomes current.
  function Pass(s: Log): (r: (Log, bool))
    requires Usable(s)
    ensures Quiet(s, r.0) && (!r.1 ==> r.0.live != [])
    ensures r.1 && |s.live| > 1 ==>
              && Usable(r.0) && |r.0.live| >= |s.live| - 1
              && forall i :: 1 <= i < |s.live| ==> r.0.live[i - 1].resv >= s.live[i].resv
  {
    hide NeedFree, UseNext;
    var m := s.live[0].resv;
    var (s1, got) := NeedFree(s, m);
    if got != m then (s1, false) else (UseNext(MoveResv(s1, Last(s1), 0, m)).0, true)
  }

  // The loop. It ends because file t, ahead of the current one or equal to it, holds a
  // reserve of n from the start and is only ever added to.
  function MakeRoom(s: Log, n: int, t: nat): (r: (Log, bool))
    requires Usable(s) && t < |s.live| && s.live[t].resv >= n
    ensures Quiet(s, r.0) && r.0.live != []
    ensures r.1 ==> Usable(r.0) && r.0.live[0].resv >= n
    decreases t
  {
    if s.live[0].resv >= n then (s, true)
    else
      var (s', ok) := Pass(s);
      if ok then MakeRoom(s', n, t - 1) else (s', false)
  }

  // What the reserve of a file holds over a request, modulo the size of a delete record.
  // The reserve is at least the request, so no sign question arises.
  function Excess(resv: int, n: int): (r: nat)
    ensures r < Z
  {
    (resv - n) % Z
  }

  // One step of the walk from the current file to the tail: makes the reserve of file i
  // congruent to n modulo the size of a delete record, taking from the tail what is
  // missing or giving the tail what is over.
  function Settle(s: Log, i: nat, n: nat): (r: (Log, bool))
    requires Usable(s) && i < |s.live| && s.live[i].resv >= n && Capacity(s) >= 2 * Z - 1
    ensures Quiet(s, r.0) && |r.0.live| >= |s.live|
    ensures r.1 ==> Usable(r.0) && Work(r.0, i + 1) < Work(s, i)
  {
    hide NeedFree, Excess;
    var r := Excess(s.live[i].resv, n);
    var c := Z - r;
    if r == 0 then (s, true)
    else if s.live[Last(s)].resv >= c && s.live[i].free >= c then (MoveResv(s, i, Last(s), c), true)
    else
      var (s1, got) := NeedFree(s, r);
      if got != r then (s1, false) else (MoveResv(s1, Last(s1), i, r), true)
  }

  // Bounds the walk, which may append a file at any step: an appended file has so much
  // free space that the next append is at least one step further away.
  ghost function Work(s: Log, i: nat): nat
    requires s.live != [] && i <= |s.live|
  {
    2 * (|s.live| - i) + if s.live[Last(s)].free < Z then 1 else 0
  }

  // From file i to the tail: makes the reserve of file i congruent to n, and of every
  // later file to 0.
  function BalanceRest(s: Log, i: nat, n: nat): (r: (Log, bool))
    requires Usable(s) && i <= |s.live| && (i < |s.live| ==> s.live[i].resv >= n)
    requires Capacity(s) >= 2 * Z - 1
    ensures Quiet(s, r.0) && r.0.live != []
    decreases Work(s, i)
  {
    if i == |s.live| then (s, true)
    else
      var (s', ok) := Settle(s, i, n);
      if ok then BalanceRest(s', i + 1, 0) else (s', false)
  }

  function Balance(s: Log, n: nat, t: nat): (r: (Log, bool))
    requires Usable(s) && t < |s.live| && s.live[t].resv >= n && Capacity(s) >= 2 * Z - 1
    ensures Quiet(s, r.0) && r.0.live != []
  {
    var (s', ok) := MakeRoom(s, n, t);
    if ok then BalanceRest(s', 0, n) else (s', false)
  }

  // Takes n bytes in the tail, then balances; takes them back when that fails, from what is
  // then the tail.
  function ReserveInTail(s: Log, n: nat): (r: (Log, int))
    requires Usable(s) && Capacity(s) >= 2 * Z - 1
    ensures r.0.jobs == s.jobs && r.0.fileSize == s.fileSize && r.0.use == s.use && r.0.book == s.book
    ensures r.0.alive == s.alive && r.0.nrec == s.nrec && r.0.nmig == s.nmig && HeadStays(s, r.0)
    ensures Granting(s) ==> Granting(r.0)
  {
    var (s', ok) := Balance(Grant(s, Last(s), n), n, Last(s));
    if ok then (s', n) else (Grant(s', Last(s'), -(n as int)), 0)
  }

  /** Reserves n bytes for records to come; the result is n, or 0 when no space could be
      had (1 when the log is not in use). */
  function Reserve(s: Log, n: nat): (r: (Log, int))
    requires s.use ==> Usable(s) && Capacity(s) >= 2 * Z - 1
    ensures r.0.jobs == s.jobs && r.0.fileSize == s.fileSize && r.0.use == s.use && r.0.book == s.book
    ensures r.0.alive == s.alive && r.0.nrec == s.nrec && r.0.nmig == s.nmig && HeadStays(s, r.0)
    ensures Granting(s) ==> Granting(r.0)
  {
    if !s.use then (s, 1)
    else if s.live[0].free >= n then (Grant(s, 0, n), n)
    else
      var (s1, got) := NeedFree(s, n);
      if got != n then (s1, 0) else ReserveInTail(s1, n)
  }

  // ---------- Records ----------

  // The space a full record of a job takes.
  function RoomFor(j: Job): int {
    WORD + |j.tube| + REC_SIZE + j.rec.bodySize
  }

  predicate Unreferenced(s: Log, q: nat) {
    exists f :: f in Files(s) && f.seqNo == q && f.refs < 1
  }

  function Without(ids: seq<u64>, id: u64): seq<u64> {
    if ids == [] then [] else if ids[0] == id then ids[1..] else [ids[0]] + Without(ids[1..], id)
  }

  function DropJob(fs: seq<File>, q: nat, id: u64): seq<File> {
    seq(|fs|, i requires 0 <= i < |fs| =>
      if fs[i].seqNo == q then fs[i].(jobs := Without(fs[i].jobs, id), refs := fs[i].refs - 1) else fs[i])
  }

  function Unlinked(s: Log, q: nat, id: u64): Log
    requires id in s.jobs
  {
    s.(past := DropJob(s.past, q, id), live := DropJob(s.live, q, id),
       jobs := s.jobs[id := s.jobs[id].(home := Nowhere, used := 0)], alive := s.alive - s.jobs[id].used)
  }

  // Unlinks a job from its file; a file left without references may be collected.
  function FileRmJob(s: Log, q: nat, id: u64): (s': Log)
    requires id in s.jobs
    ensures s'.jobs.Keys == s.jobs.Keys && s'.book == s.book && (Granting(s) ==> Granting(s'))
  {
    var j := s.jobs[id];
    if j.home != In(q) then s
    else
      var s' := Unlinked(s, q, id);
      if Unreferenced(s', q) then Gc(s') else s'
  }

  // Links a job into the current file.
  function FileAddJob(s: Log, id: u64): Log
    requires id in s.jobs && s.live != []
  {
    var f, j := s.live[0], s.jobs[id];
    s.(live := s.live[0 := f.(jobs := f.jobs + [id], refs := f.refs + 1)],
       jobs := s.jobs[id := j.(home := In(f.seqNo))], book := s.book[id := Deed(j.tube, j.body)])
  }

  // Puts one record of job id into the current file, paid for by its reserve.
  function WriteRec(s: Log, id: u64, r: Rec): Log
    requires id in s.jobs && s.live != []
  {
    var f, j, l := s.live[0], s.jobs[id], RecSize(r);
    s.(live := s.live[0 := f.(recs := f.recs + [r], resv := f.resv - l)],
       resv := s.resv - l, alive := s.alive + l,
       jobs := s.jobs[id := j.(used := j.used + l, logged := j.rec)])
  }

  function WriteFull(s: Log, id: u64): Log
    requires id in s.jobs && s.live != []
  {
    var j := s.jobs[id];
    WriteRec(FileAddJob(s, id), id, Full(j.tube, j.rec, j.body))
  }

  function WriteShort(s: Log, id: u64): Log
    requires id in s.jobs && s.live != []
  {
    var j := s.jobs[id];
    var s' := WriteRec(s, id, Short(j.rec));
    if j.rec.state == INVALID && j.home.In? then FileRmJob(s', j.home.seqNo, id) else s'
  }

  // The file the next record goes to: the current one, or the one after it when nothing is
  // reserved in the current one.
  function ToWriteIn(s: Log): Log
    requires s.live != []
  {
    if s.live[0].resv > 0 then s else UseNext(s).0
  }

  function CloseCurrent(s: Log): Log
    requires s.live != []
  {
    var f := Closed(s, s.live[0]);
    var s' := s.(live := s.live[0 := f]);
    if s.live[0].open && f.refs < 1 then Gc(s') else s'
  }

  /** Writes the current record of a job: a short one when the job has a full record in
      some file, else a full one. When the current file has no reserve left the next file
      is used; when there is none the log is given up. */
  function WalWrite(s: Log, id: u64): (r: (Log, bool))
    requires id in s.jobs && (s.use ==> Referenced(s))
    ensures Granting(s) ==> Granting(r.0)
  {
    if !s.use then (s, true)
    else
      var (s1, ok) := if s.live[0].resv > 0 then (s, true) else UseNext(s);
      if ok then
        var s2 := if s1.jobs[id].home.In? then WriteShort(s1, id) else WriteFull(s1, id);
        (s2.(nrec := s2.nrec + 1), true)
      else
        var s2 := CloseCurrent(s);
        (s2.(use := false, nrec := s2.nrec + 1), false)
  }
}
