/** Runs in which the file system answers command by command. A turn is a command together with the
    answers the requests for files get while it is carried out; so every log a server can come to,
    refusals included, is reached by turns from a new one. */
module Turns {
  import opened Records
  import opened WalState
  import opened Linking
  import opened Space
  import opened Upkeep
  import opened Commands
  import opened Runs

  datatype Turn = Turn(cmd: Command, answers: seq<bool>)

  function Facing(s: Log, answers: seq<bool>): Log {
    s.(answers := answers)
  }

  // A body ends in the two bytes that end its line.
  predicate Real(cmd: Command) {
    cmd.Put? ==> |cmd.body| >= 2
  }

  ghost predicate Allowed(s: Log, turn: Turn, maxN: nat) {
    Real(turn.cmd) && Valid(s, turn.cmd, maxN) && Executable(Facing(s, turn.answers), turn.cmd, maxN)
  }

  ghost function Next(s: Log, turn: Turn, maxN: nat): Log
    requires Allowed(s, turn, maxN)
  {
    Execute(Facing(s, turn.answers), turn.cmd, maxN).0
  }

  // Every command is one the server would accept in the state it finds.
  ghost predicate Lawful(s: Log, turns: seq<Turn>, maxN: nat)
    decreases |turns|
  {
    turns == [] || (Allowed(s, turns[0], maxN) && Lawful(Next(s, turns[0], maxN), turns[1..], maxN))
  }

  ghost function After(s: Log, turns: seq<Turn>, maxN: nat): Log
    requires Lawful(s, turns, maxN)
    decreases |turns|
  {
    if turns == [] then s else After(Next(s, turns[0], maxN), turns[1..], maxN)
  }

  lemma {:induction false} OneAfterAnother(s: Log, a: seq<Turn>, b: seq<Turn>, maxN: nat)
    requires Lawful(s, a, maxN) && Lawful(After(s, a, maxN), b, maxN)
    ensures Lawful(s, a + b, maxN) && After(s, a + b, maxN) == After(After(s, a, maxN), b, maxN)
    decreases |a|
  {
    hide Allowed, Next;
    if a == [] {
      assert a + b == b;
    } else {
      OneAfterAnother(Next(s, a[0], maxN), a[1..], b, maxN);
      assert (a + b)[0] == a[0] && (a + b)[1..] == a[1..] + b;
    }
  }

  lemma OneTurn(s: Log, turn: Turn, maxN: nat)
    requires Allowed(s, turn, maxN)
    ensures Lawful(s, [turn], maxN) && After(s, [turn], maxN) == Next(s, turn, maxN)
  {
    assert [turn][1..] == [];
  }

  // ---------- What the answers to come do not change ----------

  lemma FacingSteady(s: Log, answers: seq<bool>, maxN: nat)
    requires Steady(s, maxN)
    ensures Steady(Facing(s, answers), maxN)
  {
    hide Base, Spare, Persisted;
    AnswersDoNotMatter(s, Facing(s, answers), {}, maxN);
    SameSpace(s, Facing(s, answers), 0, maxN);
    SameJobsPersist(s, Facing(s, answers));
  }

  lemma FacingValid(s: Log, answers: seq<bool>, cmd: Command, maxN: nat)
    requires Valid(s, cmd, maxN)
    ensures Valid(Facing(s, answers), cmd, maxN)
  {
  }

  // ---------- The file size stays ----------

  lemma WriteKeepsSize(s: Log, id: u64)
    requires id in s.jobs && (s.use ==> Referenced(s))
    ensures WalWrite(s, id).0.fileSize == s.fileSize
  {
    hide Gc, DropJob, Closed;
  }

  lemma MoveOneKeepsSize(s: Log)
    requires Movable(s)
    ensures MoveOne(s).fileSize == s.fileSize
  {
    hide Reserve, WalWrite, Capacity, Gc, DropJob;
    if |s.past| >= 2 && s.past[0].jobs != [] {
      var id := s.past[0].jobs[0];
      var (s1, z) := Reserve(s, RoomFor(s.jobs[id]));
      if z > 0 {
        var s2 := FileRmJob(s1, s1.past[0].seqNo, id);
        WriteKeepsSize(s2.(nmig := s2.nmig + 1), id);
      }
    }
  }

  lemma {:induction false} CompactKeepsSize(s: Log, r: int, maxN: nat)
    requires Safe(s, maxN)
    ensures CompactTimes(s, r, maxN).fileSize == s.fileSize
    decreases r
  {
    hide Safe, MoveOne, Movable;
    if r >= 2 {
      MoveOneKeeps(s, maxN);
      MoveOneKeepsSize(s);
      CompactKeepsSize(MoveOne(s), r - 1, maxN);
    }
  }

  lemma MaintainedSize(s: Log, id: u64, maxN: nat)
    requires Writable(s, id, maxN)
    ensures WriteAndMaintain(s, id, maxN).0.fileSize == s.fileSize
  {
    hide WalWrite, Safe, Referenced, CompactTimes;
    WriteKeepsSize(s, id);
    var (s', ok) := WalWrite(s, id);
    if ok {
      CompactKeepsSize(s', Ratio(s'), maxN);
    }
  }

  lemma CommandKeepsSize(s: Log, cmd: Command, maxN: nat)
    requires Executable(s, cmd, maxN)
    ensures Execute(s, cmd, maxN).0.fileSize == s.fileSize
  {
    hide Writable, WriteAndMaintain, Reserve, Usable, Capacity;
    match cmd
    case Put(id, tube, body, rec) =>
      var s1 := WithJob(s, id, Job(tube, body, rec, rec, Nowhere, 0));
      var (s2, z) := Reserve(s1, FullSize(tube, body) + Z);
      if z > 0 {
        MaintainedSize(s2, id, maxN);
      }
    case Update(id, rec) =>
      var (s2, z) := Reserve(s, Z);
      if z > 0 {
        MaintainedSize(WithRec(s2, id, rec), id, maxN);
      }
    case Touch(id, rec) =>
    case Delete(id) =>
      MaintainedSize(Marked(s, id), id, maxN);
  }

  // ---------- Turns that keep the log in order ----------

  /** In ample files, and when nothing is refused, a turn leaves the log in order. */
  lemma TurnKeeps(s: Log, turn: Turn, maxN: nat)
    requires Steady(s, maxN) && Real(turn.cmd) && Valid(s, turn.cmd, maxN)
    requires Unhindered(Facing(s, turn.answers), maxN)
    ensures Allowed(s, turn, maxN) && Steady(Next(s, turn, maxN), maxN) && Next(s, turn, maxN).fileSize == s.fileSize
  {
    hide Steady, Valid, Executable, Execute, Unhindered;
    FacingSteady(s, turn.answers, maxN);
    FacingValid(s, turn.answers, turn.cmd, maxN);
    CommandIsSafe(Facing(s, turn.answers), turn.cmd, maxN);
    CommandKeepsSize(Facing(s, turn.answers), turn.cmd, maxN);
  }

  lemma {:induction false} TurnsKeep(s: Log, turns: seq<Turn>, maxN: nat)
    requires Steady(s, maxN) && Ample(Capacity(s), maxN) && Lawful(s, turns, maxN)
    ensures Steady(After(s, turns, maxN), maxN) && After(s, turns, maxN).fileSize == s.fileSize
    decreases |turns|
  {
    hide Steady, Valid, Executable, Execute, Ample;
    if turns != [] {
      TurnKeeps(s, turns[0], maxN);
      TurnsKeep(Next(s, turns[0], maxN), turns[1..], maxN);
    }
  }
}
