/** The byte format of a log file and the reader that start-up runs over it.
    A file is an 8-byte version word followed by records; the space allocated for a
    file but not written yet reads as zero bytes. */
module Codec {
  import opened Records
  import opened Replay

  const WAL_VERSION: nat := 7
  const LEGACY_VERSION: nat := 5

  // ---------- Little-endian numbers ----------

  function Pow256(k: nat): (p: nat)
    ensures p > 0
  {
    if k == 0 then 1 else 256 * Pow256(k - 1)
  }

  function ToLittleEndian(n: nat, k: nat): (b: Bytes)
    ensures |b| == k
  {
    if k == 0 then [] else [n % 256] + ToLittleEndian(n / 256, k - 1)
  }

  function FromLittleEndian(b: Bytes): (n: nat)
    ensures n < Pow256(|b|)
  {
    if b == [] then 0 else b[0] + 256 * FromLittleEndian(b[1..])
  }

  lemma {:induction false} LittleEndianRoundTrip(n: nat, k: nat)
    requires n < Pow256(k)
    ensures FromLittleEndian(ToLittleEndian(n, k)) == n
  {
    if k > 0 {
      LittleEndianRoundTrip(n / 256, k - 1);
      assert ToLittleEndian(n, k)[1..] == ToLittleEndian(n / 256, k - 1);
    }
  }

  lemma Pow256Values()
    ensures Pow256(1) == 0x100
    ensures Pow256(4) == 0x1_0000_0000
    ensures Pow256(8) == 0x1_0000_0000_0000_0000
  {
    assert Pow256(2) == 0x1_0000;
    assert Pow256(4) == 256 * Pow256(3);
    assert Pow256(6) == 256 * Pow256(5) && Pow256(5) == 256 * Pow256(4);
    assert Pow256(8) == 256 * Pow256(7) && Pow256(7) == 256 * Pow256(6);
  }

  // Two's complement.
  function Unsigned(i: i64): u64 {
    if i < 0 then i + 0x1_0000_0000_0000_0000 else i
  }

  function Signed(u: u64): i64 {
    if u < 0x8000_0000_0000_0000 then u else u - 0x1_0000_0000_0000_0000
  }

  // A length or version, written as a 64-bit word.
  function EncodeLength(n: nat): (b: Bytes)
    ensures |b| == WORD
  {
    ToLittleEndian(n, WORD)
  }

  function DecodeWord(b: Bytes): i64
    requires |b| == WORD
  {
    Pow256Values();
    Signed(FromLittleEndian(b))
  }

  lemma LengthRoundTrip(n: nat)
    requires n < 0x8000_0000_0000_0000
    ensures DecodeWord(EncodeLength(n)) == n
  {
    Pow256Values();
    LittleEndianRoundTrip(n, WORD);
  }

  // ---------- The packed job record ----------

  const WIDTHS: seq<nat> := [8, 4, 8, 8, 8, 8, 8, 4, 4, 4, 4, 4, 1]

  function Total(widths: seq<nat>): nat {
    if widths == [] then 0 else widths[0] + Total(widths[1..])
  }

  ghost predicate Fits(widths: seq<nat>, vals: seq<nat>) {
    |vals| == |widths| && forall i :: 0 <= i < |vals| ==> vals[i] < Pow256(widths[i])
  }

  function EncodeFields(widths: seq<nat>, vals: seq<nat>): (b: Bytes)
    requires |vals| == |widths|
    ensures |b| == Total(widths)
  {
    if widths == [] then []
    else ToLittleEndian(vals[0], widths[0]) + EncodeFields(widths[1..], vals[1..])
  }

  function DecodeFields(widths: seq<nat>, b: Bytes): (vals: seq<nat>)
    requires |b| == Total(widths)
    ensures Fits(widths, vals)
  {
    if widths == [] then []
    else [FromLittleEndian(b[..widths[0]])] + DecodeFields(widths[1..], b[widths[0]..])
  }

  lemma {:induction false} FieldsRoundTrip(widths: seq<nat>, vals: seq<nat>)
    requires Fits(widths, vals)
    ensures DecodeFields(widths, EncodeFields(widths, vals)) == vals
  {
    if widths != [] {
      var head, rest := ToLittleEndian(vals[0], widths[0]), EncodeFields(widths[1..], vals[1..]);
      LittleEndianRoundTrip(vals[0], widths[0]);
      FieldsRoundTrip(widths[1..], vals[1..]);
      assert (head + rest)[..widths[0]] == head;
      assert (head + rest)[widths[0]..] == rest;
    }
  }

  lemma WidthsTotal()
    ensures Total(WIDTHS) == REC_SIZE
  {
    assert WIDTHS[1..] == [4, 8, 8, 8, 8, 8, 4, 4, 4, 4, 4, 1];
    assert WIDTHS[1..][1..][1..][1..] == [8, 8, 8, 4, 4, 4, 4, 4, 1];
    assert Total([8, 8, 8, 4, 4, 4, 4, 4, 1]) == 24 + Total([4, 4, 4, 4, 4, 1]);
  }

  function FieldsOf(j: JobRec): seq<nat> {
    [j.id, j.pri, Unsigned(j.delay), Unsigned(j.ttr), Unsigned(j.bodySize), Unsigned(j.createAt),
     Unsigned(j.deadlineAt), j.reserveCt, j.timeoutCt, j.releaseCt, j.buryCt, j.kickCt, j.state]
  }

  function JobOf(f: seq<nat>): JobRec
    requires Fits(WIDTHS, f)
  {
    Pow256Values();
    JobRec(f[0], f[1], Signed(f[2]), Signed(f[3]), Signed(f[4]), Signed(f[5]), Signed(f[6]),
           f[7], f[8], f[9], f[10], f[11], f[12])
  }

  function EncodeJob(j: JobRec): (b: Bytes)
    ensures |b| == REC_SIZE
  {
    WidthsTotal();
    EncodeFields(WIDTHS, FieldsOf(j))
  }

  function DecodeJob(b: Bytes): JobRec
    requires |b| == REC_SIZE
  {
    WidthsTotal();
    JobOf(DecodeFields(WIDTHS, b))
  }

  lemma FieldsFit(j: JobRec)
    ensures Fits(WIDTHS, FieldsOf(j))
  {
    Pow256Values();
  }

  lemma JobOfFields(j: JobRec)
    requires Fits(WIDTHS, FieldsOf(j))
    ensures JobOf(FieldsOf(j)) == j
  {
  }

  lemma JobRoundTrip(j: JobRec)
    ensures DecodeJob(EncodeJob(j)) == j
  {
    FieldsFit(j);
    WidthsTotal();
    FieldsRoundTrip(WIDTHS, FieldsOf(j));
    JobOfFields(j);
  }

  // ---------- Writing ----------

  function EncodeRec(r: Rec): (b: Bytes)
    ensures |b| == RecSize(r)
  {
    match r
    case Short(job) => EncodeLength(0) + EncodeJob(job)
    case Full(tube, job, body) => EncodeLength(|tube|) + tube + EncodeJob(job) + body
  }

  function EncodeRecs(rs: seq<Rec>): (b: Bytes)
    ensures |b| == RecsSize(rs)
  {
    if rs == [] then [] else EncodeRecs(rs[..|rs| - 1]) + EncodeRec(rs[|rs| - 1])
  }

  function Zeros(k: nat): Bytes {
    seq(k, _ => 0)
  }

  // A log file: version, records, and whatever is left of the allocated space.
  function FileImage(rs: seq<Rec>, unwritten: nat): Bytes {
    EncodeLength(WAL_VERSION) + EncodeRecs(rs) + Zeros(unwritten)
  }

  // ---------- Reading ----------

  // Go on with the remaining bytes; stop reading this file; or a run-time panic.
  datatype Step = Continue(store: Store, rest: Bytes) | Halt(store: Store) | Panic

  /** Reads one record, as the start-up reader does it on arbitrary bytes. */
  function ReadRec(cfg: Config, m: Store, file: nat, b: Bytes): (s: Step)
    ensures s.Continue? ==> |s.rest| < |b|
  {
    if |b| < WORD then Halt(m)
    else
      var nameLen := DecodeWord(b[..WORD]);
      var b1 := b[WORD..];
      if nameLen >= MAX_TUBE_NAME then Halt(m)
      // the error returned for a negative length is nil, so the caller reads on
      else if nameLen < 0 then Continue(m, b1)
      else if |b1| < nameLen + REC_SIZE then Halt(m)
      else
        ReadNamed(cfg, m, file, b1[..nameLen], DecodeJob(b1[nameLen..nameLen + REC_SIZE]),
                  b1[nameLen + REC_SIZE..])
  }

  function ReadNamed(cfg: Config, m: Store, file: nat, tube: Bytes, job: JobRec, rest: Bytes): (s: Step)
    ensures s.Continue? ==> |s.rest| <= |rest|
  {
    if job.id == 0 then Halt(m)
    else if job.id !in m && tube == [] then Continue(m, rest)
    else if job.state == INVALID then Continue(m - {job.id}, rest)
    else if !LiveState(job.state) then Halt(m - {job.id})
    else if job.id !in m && job.bodySize > cfg.maxJobSize then Halt(m)
    else if job.id !in m && tube !in cfg.tubes then Panic
    else if tube == [] then Continue(ApplyRec(m, file, Short(job)), rest)
    else if job.bodySize < 0 then Panic
    else if |rest| < job.bodySize then Halt(m - {job.id})
    else Continue(ApplyRec(m, file, Full(tube, job, rest[..job.bodySize])), rest[job.bodySize..])
  }

  // A file in the legacy format goes to another reader, which is not part of this model.
  datatype Reading = Done(store: Store) | Panicked | Legacy

  function ReadRecs(cfg: Config, m: Store, file: nat, b: Bytes): Reading
    decreases |b|
  {
    match ReadRec(cfg, m, file, b)
    case Panic => Panicked
    case Halt(m') => Done(m')
    case Continue(m', rest) => ReadRecs(cfg, m', file, rest)
  }

  function ReadFile(cfg: Config, m: Store, file: nat, b: Bytes): Reading {
    if |b| < WORD then Done(m)
    else
      var version := DecodeWord(b[..WORD]);
      if version == WAL_VERSION then ReadRecs(cfg, m, file, b[WORD..])
      else if version == LEGACY_VERSION then Legacy
      else Done(m)
  }

  // ---------- What the server writes is what start-up reads ----------

  // Reading the front part of a record, whatever follows it.
  lemma ReadHeader(cfg: Config, m: Store, file: nat, tube: Bytes, job: JobRec, rest: Bytes)
    requires |tube| < MAX_TUBE_NAME
    ensures ReadRec(cfg, m, file, EncodeLength(|tube|) + (tube + (EncodeJob(job) + rest)))
         == ReadNamed(cfg, m, file, tube, job, rest)
  {
    hide EncodeLength, EncodeJob, DecodeWord, DecodeJob;
    var len, j := EncodeLength(|tube|), EncodeJob(job);
    var b1 := tube + (j + rest);
    var b := len + b1;
    LengthRoundTrip(|tube|);
    JobRoundTrip(job);
    assert b[..WORD] == len;
    assert b[WORD..] == b1;
    assert b1[..|tube|] == tube;
    assert b1[|tube|..|tube| + REC_SIZE] == j;
    assert b1[|tube| + REC_SIZE..] == rest;
  }

  lemma Regroup(a: Bytes, b: Bytes, c: Bytes, d: Bytes, e: Bytes)
    ensures a + b + c + d + e == a + (b + (c + (d + e)))
  {
    assert a + b + c + d + e == a + b + c + (d + e);
    assert a + b + c + (d + e) == a + b + (c + (d + e));
  }

  // The reader takes the record: a job it has not seen is within the limit and has a tube.
  predicate Taken(cfg: Config, m: Store, r: Rec) {
    WellFormed(r) && (r.Full? && r.job.id !in m ==> WithinLimits(cfg, Deed(r.tube, r.body)))
  }

  lemma ReadOne(cfg: Config, m: Store, file: nat, r: Rec, rest: Bytes)
    requires Taken(cfg, m, r)
    ensures ReadRec(cfg, m, file, EncodeRec(r) + rest) == Continue(ApplyRec(m, file, r), rest)
  {
    hide EncodeLength, EncodeJob, ReadRec;
    match r
    case Full(tube, job, body) =>
      ReadHeader(cfg, m, file, tube, job, body + rest);
      Regroup(EncodeLength(|tube|), tube, EncodeJob(job), body, rest);
      ReadBody(cfg, m, file, tube, job, body, rest);
    case Short(job) =>
      ReadHeader(cfg, m, file, [], job, rest);
      assert [] + (EncodeJob(job) + rest) == EncodeJob(job) + rest;
      assert EncodeRec(r) + rest == EncodeLength(0) + (EncodeJob(job) + rest);
  }

  lemma ReadBody(cfg: Config, m: Store, file: nat, tube: Bytes, job: JobRec, body: Bytes, rest: Bytes)
    requires Taken(cfg, m, Full(tube, job, body))
    ensures ReadNamed(cfg, m, file, tube, job, body + rest)
         == Continue(ApplyRec(m, file, Full(tube, job, body)), rest)
  {
    hide ApplyRec;
    assert (body + rest)[..|body|] == body;
    assert (body + rest)[|body|..] == rest;
  }

  lemma {:induction false} EncodeRecsCons(r: Rec, rs: seq<Rec>)
    ensures EncodeRecs([r] + rs) == EncodeRec(r) + EncodeRecs(rs)
  {
    hide EncodeRec;
    var e := EncodeRec(r);
    if rs == [] {
      assert [r] + rs == [r];
      assert [r][..0] == [];
      assert EncodeRecs([r]) == [] + e;
    } else {
      var n := |rs| - 1;
      EncodeRecsCons(r, rs[..n]);
      assert ([r] + rs)[..n + 1] == [r] + rs[..n];
      var f, l := EncodeRecs(rs[..n]), EncodeRec(rs[n]);
      assert (e + f) + l == e + (f + l);
    }
  }

  lemma FromZeros(k: nat)
    ensures FromLittleEndian(Zeros(k)) == 0
  {
    if k > 0 {
      FromZeros(k - 1);
      assert Zeros(k)[1..] == Zeros(k - 1);
    }
  }

  lemma DecodeZeros()
    ensures DecodeWord(Zeros(WORD)) == 0
    ensures DecodeJob(Zeros(REC_SIZE)).id == 0
  {
    FromZeros(WORD);
    WidthsTotal();
    var vals := DecodeFields(WIDTHS, Zeros(REC_SIZE));
    assert Zeros(REC_SIZE)[..WIDTHS[0]] == Zeros(WORD);
    assert vals[0] == 0;
  }

  // Unwritten space ends the reading: too few bytes are left, or the job id is zero.
  lemma ReadZeros(cfg: Config, m: Store, file: nat, k: nat)
    ensures ReadRec(cfg, m, file, Zeros(k)) == Halt(m)
  {
    hide DecodeWord, DecodeJob;
    DecodeZeros();
    if k >= WORD {
      assert Zeros(k)[..WORD] == Zeros(WORD);
      if k >= Z {
        assert Zeros(k)[WORD..][0..REC_SIZE] == Zeros(REC_SIZE);
      }
    }
  }

  /** Reading acceptable records has exactly their effect, in order, and leaves the reader
      at the first byte after them, whatever the bytes after them are. */
  lemma {:induction false} ReadRecsPrefix(cfg: Config, m: Store, file: nat, rs: seq<Rec>, rest: Bytes)
    requires forall r :: r in rs ==> Acceptable(cfg, r)
    ensures ReadRecs(cfg, m, file, EncodeRecs(rs) + rest) == ReadRecs(cfg, ApplyAll(m, file, rs), file, rest)
    decreases |rs|
  {
    hide EncodeRec, ReadRec, ApplyRec;
    if rs == [] {
      assert EncodeRecs(rs) + rest == rest;
    } else {
      var r, tail := rs[0], rs[1..];
      assert rs == [r] + tail;
      EncodeRecsCons(r, tail);
      ApplyAllCons(m, file, r, tail);
      var after := EncodeRecs(tail) + rest;
      assert EncodeRecs(rs) + rest == EncodeRec(r) + after;
      assert r in rs;
      ReadOne(cfg, m, file, r, after);
      ReadRecsPrefix(cfg, ApplyRec(m, file, r), file, tail, rest);
    }
  }

  lemma ReadFileStart(cfg: Config, m: Store, file: nat, rs: seq<Rec>, k: nat)
    ensures ReadFile(cfg, m, file, FileImage(rs, k)) == ReadRecs(cfg, m, file, EncodeRecs(rs) + Zeros(k))
  {
    hide EncodeLength, EncodeRecs, ReadRecs, DecodeWord;
    var b := FileImage(rs, k);
    LengthRoundTrip(WAL_VERSION);
    assert b[..WORD] == EncodeLength(WAL_VERSION);
    assert b[WORD..] == EncodeRecs(rs) + Zeros(k);
  }

  /** Byte-level round trip: reading back a file of acceptable records, with any amount of
      unwritten space at its end, recovers exactly what those records say. */
  lemma ReadFileRoundTrip(cfg: Config, m: Store, file: nat, rs: seq<Rec>, k: nat)
    requires forall r :: r in rs ==> Acceptable(cfg, r)
    ensures ReadFile(cfg, m, file, FileImage(rs, k)) == Done(ApplyAll(m, file, rs))
  {
    ReadFileStart(cfg, m, file, rs, k);
    ReadRecsPrefix(cfg, m, file, rs, Zeros(k));
    ReadZeros(cfg, ApplyAll(m, file, rs), file, k);
  }

  // ---------- Where recovery falls short ----------

  // The put command checks the size the client gives, then stores the body with the two
  // line-end bytes added to it; the reader compares the stored size with the same limit.
  predicate PutAccepts(cfg: Config, clientSize: nat) {
    clientSize <= cfg.maxJobSize
  }

  // The reader refuses the record of a job it has not seen that is over the size limit, and
  // stops reading the file; else, when the job's tube does not exist, it dereferences nil.
  predicate Refused(cfg: Config, m: Store, r: Rec) {
    r.Full? && r.job.id !in m && |r.body| > cfg.maxJobSize
  }

  predicate Stumbles(cfg: Config, m: Store, r: Rec) {
    r.Full? && r.job.id !in m && |r.body| <= cfg.maxJobSize && r.tube !in cfg.tubes
  }

  // What start-up makes of a file of well-formed records.
  function ReadOff(cfg: Config, m: Store, file: nat, rs: seq<Rec>): Reading
    decreases |rs|
  {
    if rs == [] || Refused(cfg, m, rs[0]) then Done(m)
    else if Stumbles(cfg, m, rs[0]) then Panicked
    else ReadOff(cfg, ApplyRec(m, file, rs[0]), file, rs[1..])
  }

  // Every record is taken.
  predicate AllTaken(cfg: Config, m: Store, file: nat, rs: seq<Rec>)
    decreases |rs|
  {
    rs == [] ||
    (!Refused(cfg, m, rs[0]) && !Stumbles(cfg, m, rs[0]) && AllTaken(cfg, ApplyRec(m, file, rs[0]), file, rs[1..]))
  }

  lemma ReadRefused(cfg: Config, m: Store, file: nat, r: Rec, rest: Bytes)
    requires WellFormed(r) && (Refused(cfg, m, r) || Stumbles(cfg, m, r))
    ensures ReadRec(cfg, m, file, EncodeRec(r) + rest) == if Refused(cfg, m, r) then Halt(m) else Panic
  {
    hide EncodeLength, EncodeJob, ReadRec;
    ReadHeader(cfg, m, file, r.tube, r.job, r.body + rest);
    Regroup(EncodeLength(|r.tube|), r.tube, EncodeJob(r.job), r.body, rest);
  }

  /** Reading any well-formed records, whatever bytes follow them: when all are taken the reader
      goes on after them; else it ends as ReadOff says. */
  lemma {:induction false} ReadsOff(cfg: Config, m: Store, file: nat, rs: seq<Rec>, rest: Bytes)
    requires forall r :: r in rs ==> WellFormed(r)
    ensures ReadRecs(cfg, m, file, EncodeRecs(rs) + rest) ==
            if AllTaken(cfg, m, file, rs) then ReadRecs(cfg, ApplyAll(m, file, rs), file, rest)
            else ReadOff(cfg, m, file, rs)
    decreases |rs|
  {
    hide EncodeRec, ReadRec, ApplyRec, WellFormed, Refused, Stumbles;
    if rs == [] {
      assert EncodeRecs(rs) + rest == rest;
    } else {
      var r, tail := rs[0], rs[1..];
      assert rs == [r] + tail;
      EncodeRecsCons(r, tail);
      ApplyAllCons(m, file, r, tail);
      var after := EncodeRecs(tail) + rest;
      assert EncodeRecs(rs) + rest == EncodeRec(r) + after;
      if Refused(cfg, m, r) || Stumbles(cfg, m, r) {
        ReadRefused(cfg, m, file, r, after);
      } else {
        NotRefusedIsTaken(cfg, m, r);
        ReadOne(cfg, m, file, r, after);
        ReadsOff(cfg, ApplyRec(m, file, r), file, tail, rest);
      }
    }
  }

  lemma NotRefusedIsTaken(cfg: Config, m: Store, r: Rec)
    requires WellFormed(r) && !Refused(cfg, m, r) && !Stumbles(cfg, m, r)
    ensures Taken(cfg, m, r)
  {
  }

  lemma {:induction false} AllTakenReads(cfg: Config, m: Store, file: nat, rs: seq<Rec>)
    requires AllTaken(cfg, m, file, rs)
    ensures ReadOff(cfg, m, file, rs) == Done(ApplyAll(m, file, rs))
    decreases |rs|
  {
    hide ApplyRec, Refused, Stumbles;
    if rs != [] {
      assert rs == [rs[0]] + rs[1..];
      ApplyAllCons(m, file, rs[0], rs[1..]);
      AllTakenReads(cfg, ApplyRec(m, file, rs[0]), file, rs[1..]);
    }
  }

  /** What start-up makes of the bytes of a file of well-formed records, whatever their sizes and
      tubes, is exactly what ReadOff makes of the records. */
  lemma FileReadsOff(cfg: Config, m: Store, file: nat, rs: seq<Rec>, k: nat)
    requires forall r :: r in rs ==> WellFormed(r)
    ensures ReadFile(cfg, m, file, FileImage(rs, k)) == ReadOff(cfg, m, file, rs)
  {
    hide EncodeRecs, ReadRecs, FileImage, ReadFile, ApplyAll, ReadOff, AllTaken, WellFormed;
    ReadFileStart(cfg, m, file, rs, k);
    ReadsOff(cfg, m, file, rs, Zeros(k));
    if AllTaken(cfg, m, file, rs) {
      AllTakenReads(cfg, m, file, rs);
      ReadZerosEnds(cfg, ApplyAll(m, file, rs), file, k);
    }
  }

  lemma ReadZerosEnds(cfg: Config, m: Store, file: nat, k: nat)
    ensures ReadRecs(cfg, m, file, Zeros(k)) == Done(m)
  {
    ReadZeros(cfg, m, file, k);
  }

  // The record at place i is refused, those before it having had their effect.
  predicate RefusedAt(cfg: Config, m: Store, file: nat, rs: seq<Rec>, i: nat) {
    i < |rs| && Refused(cfg, ApplyAll(m, file, rs[..i]), rs[i])
  }

  // How many records stand before the first that is refused.
  function Accepted(cfg: Config, m: Store, file: nat, rs: seq<Rec>): (n: nat)
    ensures n <= |rs|
    decreases |rs|
  {
    if rs == [] || Refused(cfg, m, rs[0]) then 0 else 1 + Accepted(cfg, ApplyRec(m, file, rs[0]), file, rs[1..])
  }

  lemma {:induction false} AcceptedIsFirst(cfg: Config, m: Store, file: nat, rs: seq<Rec>)
    ensures var n := Accepted(cfg, m, file, rs);
            && (n < |rs| ==> RefusedAt(cfg, m, file, rs, n))
            && forall i :: 0 <= i < n ==> !RefusedAt(cfg, m, file, rs, i)
    decreases |rs|
  {
    hide ApplyRec, Refused;
    assert rs[..0] == [] && ApplyAll(m, file, []) == m;
    if rs != [] && !Refused(cfg, m, rs[0]) {
      var m', tail := ApplyRec(m, file, rs[0]), rs[1..];
      AcceptedIsFirst(cfg, m', file, tail);
      forall i: nat | i < |tail|
        ensures RefusedAt(cfg, m, file, rs, i + 1) <==> RefusedAt(cfg, m', file, tail, i)
      {
        assert rs[..i + 1] == [rs[0]] + tail[..i];
        ApplyAllCons(m, file, rs[0], tail[..i]);
      }
      var n := Accepted(cfg, m', file, tail);
      assert n < |tail| ==> RefusedAt(cfg, m, file, rs, n + 1);
      forall i: nat | i < n + 1
        ensures !RefusedAt(cfg, m, file, rs, i)
      {
        if i > 0 {
          assert !RefusedAt(cfg, m', file, tail, i - 1);
        }
      }
    }
  }

  /** The full record of a job the reader has not seen, over the size limit, ends the
      reading of its file: neither that job nor anything after it is recovered. */
  lemma OversizedRecordEndsTheFile(cfg: Config, m: Store, file: nat, rs: seq<Rec>, r: Rec, rest: Bytes)
    requires forall r' :: r' in rs ==> Acceptable(cfg, r')
    requires r.Full? && WellFormed(r) && r.job.bodySize > cfg.maxJobSize
    requires r.job.id !in ApplyAll(m, file, rs)
    ensures ReadRecs(cfg, m, file, EncodeRecs(rs) + (EncodeRec(r) + rest)) == Done(ApplyAll(m, file, rs))
  {
    hide EncodeRec, ReadRec, ApplyAll, EncodeRecs;
    ReadRecsPrefix(cfg, m, file, rs, EncodeRec(r) + rest);
    ReadRefused(cfg, ApplyAll(m, file, rs), file, r, rest);
  }

  predicate Recovers(reading: Reading, id: u64) {
    reading.Done? && id in reading.store
  }

  predicate InKnownTubes(cfg: Config, rs: seq<Rec>) {
    forall r :: r in rs && r.Full? ==> r.tube in cfg.tubes
  }

  /** A file of well-formed records in tubes that exist: start-up recovers exactly what the
      records before the first refused one say. */
  lemma {:induction false} RecoversUpToFirstRefused(cfg: Config, m: Store, file: nat, rs: seq<Rec>)
    requires InKnownTubes(cfg, rs)
    ensures ReadOff(cfg, m, file, rs) == Done(ApplyAll(m, file, rs[..Accepted(cfg, m, file, rs)]))
    decreases |rs|
  {
    hide ApplyRec;
    var n := Accepted(cfg, m, file, rs);
    assert rs[..0] == [] && ApplyAll(m, file, []) == m;
    if n > 0 {
      var r, tail := rs[0], rs[1..];
      assert r in rs && forall r' :: r' in tail ==> r' in rs;
      RecoversUpToFirstRefused(cfg, ApplyRec(m, file, r), file, tail);
      assert rs[..n] == [r] + tail[..n - 1];
      ApplyAllCons(m, file, r, tail[..n - 1]);
    }
  }

  // The put of a job wrote the only full record of it in the file.
  predicate OnlyPut(m: Store, rs: seq<Rec>, i: nat) {
    i < |rs| && rs[i].Full? && rs[i].job.id !in m &&
    forall j :: 0 <= j < |rs| && j != i && rs[j].Full? ==> rs[j].job.id != rs[i].job.id
  }

  predicate Deletes(r: Rec, id: u64) {
    r.job.id == id && r.job.state == INVALID
  }

  // A job is in the store exactly from its full record on, up to a delete record of it.
  lemma {:induction false} StoredFromPutToDelete(m: Store, file: nat, rs: seq<Rec>, i: nat, n: nat)
    requires OnlyPut(m, rs, i) && n <= |rs| && forall r :: r in rs ==> WellFormed(r)
    ensures rs[i].job.id in ApplyAll(m, file, rs[..n]) <==>
            i < n && forall j :: i < j < n ==> !Deletes(rs[j], rs[i].job.id)
  {
    if n > 0 {
      StoredFromPutToDelete(m, file, rs, i, n - 1);
      assert rs[..n][..n - 1] == rs[..n - 1] && rs[n - 1] in rs;
      assert i < n - 1 ==> (Deletes(rs[n - 1], rs[i].job.id) ==> exists j :: i < j < n && Deletes(rs[j], rs[i].job.id));
    }
  }

  /** A job that put accepted, in any file of well-formed records in tubes that exist. It comes
      back at the next start exactly when its size is at least two below the limit, no record
      before its own is refused, and no delete record of it stands before the first refused
      one. So the last two sizes that put accepts are lost, with everything after them. */
  lemma PutIsRecoveredExactlyWhen(cfg: Config, m: Store, file: nat, rs: seq<Rec>, i: nat, clientSize: nat, k: nat)
    requires (forall r :: r in rs ==> WellFormed(r)) && InKnownTubes(cfg, rs) && OnlyPut(m, rs, i)
    requires PutAccepts(cfg, clientSize) && rs[i].job.bodySize == clientSize + 2
    ensures Recovers(ReadFile(cfg, m, file, FileImage(rs, k)), rs[i].job.id) <==>
            && clientSize + 2 <= cfg.maxJobSize
            && (forall j: nat :: j < i ==> !RefusedAt(cfg, m, file, rs, j))
            && (forall j: nat :: i < j < |rs| && Deletes(rs[j], rs[i].job.id) ==>
                  exists h: nat :: i < h < j && RefusedAt(cfg, m, file, rs, h))
  {
    hide ReadFile, FileImage, ReadOff, ApplyAll, Accepted;
    var n, id := Accepted(cfg, m, file, rs), rs[i].job.id;
    FileReadsOff(cfg, m, file, rs, k);
    RecoversUpToFirstRefused(cfg, m, file, rs);
    AcceptedIsFirst(cfg, m, file, rs);
    StoredFromPutToDelete(m, file, rs, i, n);
    StoredFromPutToDelete(m, file, rs, i, i);
    assert rs[i] in rs;
    assert RefusedAt(cfg, m, file, rs, i) <==> clientSize + 2 > cfg.maxJobSize;
    forall j: nat | i < j < |rs| && Deletes(rs[j], id)
      ensures j >= n > i <==> n > i && exists h: nat :: i < h < j && RefusedAt(cfg, m, file, rs, h)
    {
      assert n > i && j >= n ==> rs[j].Short?;
    }
  }

  /** The full record of a job the reader has not seen that names a tube it does not know
      makes it dereference nil: start-up panics. */
  lemma UnknownTubePanics(cfg: Config, m: Store, file: nat, r: Rec, rest: Bytes)
    requires r.Full? && WellFormed(r) && r.job.bodySize <= cfg.maxJobSize
    requires r.job.id !in m && r.tube !in cfg.tubes
    ensures ReadRecs(cfg, m, file, EncodeRec(r) + rest) == Panicked
  {
    hide EncodeRec, ReadRec, ApplyRec;
    ReadRefused(cfg, m, file, r, rest);
  }

  lemma {:induction false} PanicsExactlyOnStumbling(cfg: Config, m: Store, file: nat, rs: seq<Rec>)
    ensures ReadOff(cfg, m, file, rs) == Panicked <==>
            exists i: nat :: i < Accepted(cfg, m, file, rs) && Stumbles(cfg, ApplyAll(m, file, rs[..i]), rs[i])
    decreases |rs|
  {
    hide ApplyRec, Stumbles, Refused;
    assert rs[..0] == [] && ApplyAll(m, file, []) == m;
    if rs != [] && !Refused(cfg, m, rs[0]) {
      var m', tail, n := ApplyRec(m, file, rs[0]), rs[1..], Accepted(cfg, ApplyRec(m, file, rs[0]), file, rs[1..]);
      if Stumbles(cfg, m, rs[0]) {
        assert 0 < Accepted(cfg, m, file, rs) && Stumbles(cfg, ApplyAll(m, file, rs[..0]), rs[0]);
      } else {
        PanicsExactlyOnStumbling(cfg, m', file, tail);
        forall i: nat | i < n
          ensures Stumbles(cfg, ApplyAll(m, file, rs[..i + 1]), rs[i + 1]) <==>
              Stumbles(cfg, ApplyAll(m', file, tail[..i]), tail[i])
        {
          assert rs[..i + 1] == [rs[0]] + tail[..i];
          ApplyAllCons(m, file, rs[0], tail[..i]);
        }
        if i: nat :| i < n && Stumbles(cfg, ApplyAll(m', file, tail[..i]), tail[i]) {
          assert i + 1 < n + 1 && Stumbles(cfg, ApplyAll(m, file, rs[..i + 1]), rs[i + 1]);
        }
        if i: nat :| i < n + 1 && Stumbles(cfg, ApplyAll(m, file, rs[..i]), rs[i]) {
          assert i > 0;
          assert Stumbles(cfg, ApplyAll(m', file, tail[..i - 1]), tail[i - 1]);
        }
      }
    }
  }

  /** Reading a file of well-formed records panics exactly when, before the first record that is
      refused, a job turns up for the first time with a tube that does not exist yet. */
  lemma PanicsExactlyOnUnknownTube(cfg: Config, m: Store, file: nat, rs: seq<Rec>, k: nat)
    requires forall r :: r in rs ==> WellFormed(r)
    ensures ReadFile(cfg, m, file, FileImage(rs, k)) == Panicked <==>
            exists i: nat :: i < Accepted(cfg, m, file, rs) && Stumbles(cfg, ApplyAll(m, file, rs[..i]), rs[i])
  {
    hide ReadFile, FileImage, ReadOff, ApplyAll, Accepted, Stumbles;
    FileReadsOff(cfg, m, file, rs, k);
    PanicsExactlyOnStumbling(cfg, m, file, rs);
  }

  // ---------- A header that is rejected ----------

  // The reader finds the length of the tube name out of range.
  predicate HeaderRejected(b: Bytes) {
    |b| >= WORD && (DecodeWord(b[..WORD]) < 0 || DecodeWord(b[..WORD]) >= MAX_TUBE_NAME)
  }

  /** A header whose name length is out of range ends the reading of the file if and only if the
      length is not negative: for a negative one the error returned is nil, and the reader goes
      on after the word. */
  lemma RejectedHeaderEndsUnlessNegative(cfg: Config, m: Store, file: nat, b: Bytes)
    requires HeaderRejected(b)
    ensures ReadRec(cfg, m, file, b) == Halt(m) <==> DecodeWord(b[..WORD]) >= 0
    ensures DecodeWord(b[..WORD]) < 0 ==> ReadRec(cfg, m, file, b) == Continue(m, b[WORD..])
  {
    hide DecodeWord;
  }

  /** So a word that reads as a negative number may stand anywhere between the records of a file:
      the reader makes of the file what it makes of it without the word. */
  lemma StrayWordIsSkipped(cfg: Config, m: Store, file: nat, rs: seq<Rec>, w: Bytes, rs': seq<Rec>, k: nat)
    requires forall r :: r in rs + rs' ==> WellFormed(r)
    requires |w| == WORD && DecodeWord(w) < 0
    ensures ReadRecs(cfg, m, file, EncodeRecs(rs) + (w + (EncodeRecs(rs') + Zeros(k))))
         == ReadOff(cfg, m, file, rs + rs')
  {
    hide EncodeRecs, ReadRecs, ReadOff, AllTaken, ApplyAll, WellFormed, DecodeWord;
    var rest := EncodeRecs(rs') + Zeros(k);
    assert forall r :: r in rs || r in rs' ==> r in rs + rs';
    ReadsOff(cfg, m, file, rs, w + rest);
    ReadOffSplit(cfg, m, file, rs, rs');
    if AllTaken(cfg, m, file, rs) {
      var m' := ApplyAll(m, file, rs);
      SkipWord(cfg, m', file, w, rest);
      ReadsOff(cfg, m', file, rs', Zeros(k));
      if AllTaken(cfg, m', file, rs') {
        AllTakenReads(cfg, m', file, rs');
        ReadZerosEnds(cfg, ApplyAll(m', file, rs'), file, k);
      }
    }
  }

  lemma SkipWord(cfg: Config, m: Store, file: nat, w: Bytes, rest: Bytes)
    requires |w| == WORD && DecodeWord(w) < 0
    ensures ReadRecs(cfg, m, file, w + rest) == ReadRecs(cfg, m, file, rest)
  {
    hide DecodeWord, ReadRec;
    assert (w + rest)[..WORD] == w && (w + rest)[WORD..] == rest;
    RejectedHeaderEndsUnlessNegative(cfg, m, file, w + rest);
  }

  lemma {:induction false} ReadOffSplit(cfg: Config, m: Store, file: nat, rs: seq<Rec>, rs': seq<Rec>)
    ensures ReadOff(cfg, m, file, rs + rs') ==
            if AllTaken(cfg, m, file, rs) then ReadOff(cfg, ApplyAll(m, file, rs), file, rs')
            else ReadOff(cfg, m, file, rs)
    decreases |rs|
  {
    hide ApplyRec, Refused, Stumbles;
    if rs == [] {
      assert rs + rs' == rs';
    } else {
      var r, tail := rs[0], rs[1..];
      assert rs == [r] + tail && (rs + rs')[0] == r && (rs + rs')[1..] == tail + rs';
      ApplyAllCons(m, file, r, tail);
      ReadOffSplit(cfg, ApplyRec(m, file, r), file, tail, rs');
    }
  }
}
