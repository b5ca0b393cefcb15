/** What the write-ahead log stores: the persistent job record, the two kinds of
    log record, and their sizes on disk. */
module Records {
  type u8 = n: nat | n < 0x100
  type u32 = n: nat | n < 0x1_0000_0000
  type u64 = n: nat | n < 0x1_0000_0000_0000_0000
  type i64 = n: int | -0x8000_0000_0000_0000 <= n < 0x8000_0000_0000_0000

  type Bytes = seq<u8>

  const WORD: nat := 8          // a 64-bit length or version word
  const REC_SIZE: nat := 73     // the packed job record
  const Z: nat := 81            // a short (update or delete) record: WORD + REC_SIZE
  const MAX_TUBE_NAME: nat := 201

  const INVALID: u8 := 0
  const READY: u8 := 1
  const RESERVED: u8 := 2
  const BURIED: u8 := 3
  const DELAYED: u8 := 4

  datatype JobRec = JobRec(
    id: u64, pri: u32, delay: i64, ttr: i64, bodySize: i64, createAt: i64, deadlineAt: i64,
    reserveCt: u32, timeoutCt: u32, releaseCt: u32, buryCt: u32, kickCt: u32, state: u8)

  // A full record carries the tube name and the body; a short record only the job record.
  datatype Rec = Full(tube: Bytes, job: JobRec, body: Bytes) | Short(job: JobRec)

  function FullSize(tube: Bytes, body: Bytes): nat {
    WORD + |tube| + REC_SIZE + |body|
  }

  function RecSize(r: Rec): nat {
    match r
    case Full(tube, _, body) => FullSize(tube, body)
    case Short(_) => Z
  }

  function RecsSize(rs: seq<Rec>): nat {
    if rs == [] then 0 else RecsSize(rs[..|rs| - 1]) + RecSize(rs[|rs| - 1])
  }

  predicate LiveState(state: u8) {
    state == READY || state == RESERVED || state == BURIED || state == DELAYED
  }

  // A reservation does not survive a restart: the job is read back as ready.
  function Recovered(j: JobRec): JobRec {
    if j.state == RESERVED then j.(state := READY) else j
  }

  // The name and body of a job that a client may put.
  predicate WellNamed(tube: Bytes) {
    0 < |tube| < MAX_TUBE_NAME
  }

  // Records the server writes.
  predicate WellFormed(r: Rec) {
    && r.job.id > 0
    && match r
       case Full(tube, job, body) => WellNamed(tube) && LiveState(job.state) && job.bodySize == |body|
       case Short(job) => LiveState(job.state) || job.state == INVALID
  }

  // What a job was put with. Ids are given once, so an id stands for its job for good.
  datatype Deed = Deed(tube: Bytes, body: Bytes)

  // The record is one of a log in which ids stand for what the book says.
  predicate Registered(book: map<u64, Deed>, r: Rec) {
    WellFormed(r) && (r.Full? ==> r.job.id in book && book[r.job.id] == Deed(r.tube, r.body))
  }

  // What start-up knows besides the log: the largest body it accepts and the tubes
  // that exist.
  datatype Config = Config(maxJobSize: i64, tubes: set<Bytes>)

  // Start-up accepts the job: its tube exists and its body is not over the limit.
  predicate WithinLimits(cfg: Config, d: Deed) {
    d.tube in cfg.tubes && |d.body| <= cfg.maxJobSize
  }

  predicate Acceptable(cfg: Config, r: Rec) {
    WellFormed(r) && (r.Full? ==> WithinLimits(cfg, Deed(r.tube, r.body)))
  }
}
