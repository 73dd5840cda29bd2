/**
 * Numbers that are committed and never executed.  The committed callback fires on the (2F+1)-th commit only
 * (`pbft/transaction_state.go`); once a collector holds more, and what it started was lost on a store that did not
 * have the batch yet (`pbft/store.go`), nothing makes it fire again.
 */
module StuckNumbers {
  import opened Messages
  import opened VoteCollector
  import opened StoreModel
  import opened StoreRuns
  import opened TransactionStates
  import opened Replicas
  import opened Systems
  import opened PreparedQuorum
  import opened FirstView
  import opened Freeze
  import opened CrashFaults
  import opened CrashRuns
  import opened StableAgreement

  /** The collector is past its quorum, and nothing is flagged. */
  ghost predicate Passed(f: nat, cell: Cell) {
    !cell.votes.committed && |cell.votes.commits| > 2 * f + 1
  }

  /** Whatever r knew of n's quorum is spent, n has no executable entry, and no collector for n is to come. */
  ghost predicate Stuck(w: World, q: string, r: Replica, n: int) {
    && Lookup(r.store.committed, n).None? && CommittedTask(n) !in r.tasks
    && (forall ref: nat | ref < |r.cells| && r.cells[ref].seqNo == n :: Passed(w.F(), r.cells[ref]))
    && (n in r.txns || n <= StableNumber(r.store)) && (IsPrimary(w.At(q), r) ==> n <= r.lastSeq)
  }

  // ---------- One collector ----------

  lemma CommitStaysPassed(f: nat, cell: Cell, v: Vote)
    requires Passed(f, cell)
    ensures Passed(f, CommitCell(cell, f, v))
  {
    InsertCard(cell.votes.commits, v);
  }

  lemma PrePrepareStaysPassed(w: World, log: seq<ClientRequest>, cell: Cell, pp: PrePrepare)
    requires Passed(w.F(), cell) && VotesFit(w, log, cell) && PrePrepareFits(w, log, pp) && pp.seqNo == cell.seqNo
    requires forall k | k in cell.votes.commits :: cell.votes.commits[k].seqNo == cell.seqNo
    ensures Passed(w.F(), PrePrepareCell(cell, w.F(), pp))
  {
    assert Matching(cell.votes.commits, pp.digest) == cell.votes.commits;
  }

  // ---------- Handlers ----------

  lemma CellChangeStaysStuck(w: World, q: string, r: Replica, n: int, ref: nat, cell: Cell)
    requires Stuck(w, q, r, n) && ref < |r.cells| && cell.seqNo == r.cells[ref].seqNo
    requires Passed(w.F(), r.cells[ref]) ==> Passed(w.F(), cell)
    ensures Stuck(w, q, r.(cells := r.cells[ref := cell]), n)
  {
  }

  lemma WithCellStaysStuck(w: World, q: string, r: Replica, n: int, m: int)
    requires Stuck(w, q, r, n) && (m == n ==> n in r.txns)
    ensures Stuck(w, q, WithCell(r, m), n)
  {
  }

  lemma SpawnStaysStuck(w: World, q: string, r: Replica, n: int, t: Task)
    requires Stuck(w, q, r, n) && t != CommittedTask(n)
    ensures Stuck(w, q, Spawn(r, t), n)
  {
  }

  lemma ClientStaysStuck(w: World, q: string, r: Replica, n: int, req: ClientRequest)
    requires Stuck(w, q, r, n)
    ensures Stuck(w, q, HandleClient(w.At(q), r, req).replica, n)
  {
  }

  lemma PrePrepareRequestStaysStuck(w: World, q: string, r: Replica, n: int, pp: PrePrepare, batch: Batch)
    requires Stuck(w, q, r, n)
    ensures Stuck(w, q, HandlePrePrepare(w.At(q), r, pp, batch).replica, n)
  {
    if HandlePrePrepare(w.At(q), r, pp, batch).sent != [] {
      var r0 := r.(inProgress := r.inProgress + {pp.seqNo});
      WithCellStaysStuck(w, q, r0, n, pp.seqNo);
    }
  }

  lemma VoteStaysStuck(w: World, q: string, r: Replica, n: int, v: Vote)
    requires Stuck(w, q, r, n)
    ensures Stuck(w, q, HandlePrepare(w.At(q), r, v).replica, n) && Stuck(w, q, HandleCommit(w.At(q), r, v).replica, n)
  {
    if InWindow(w.At(q), r, v.seqNo) {
      WithCellStaysStuck(w, q, r, n, v.seqNo);
      var r1 := WithCell(r, v.seqNo);
      SpawnStaysStuck(w, q, r1, n, AddPrepareTask(r1.txns[v.seqNo], v));
      SpawnStaysStuck(w, q, r1, n, AddCommitTask(r1.txns[v.seqNo], v));
    }
  }

  lemma CheckpointStaysStuck(w: World, q: string, r: Replica, n: int, c: Checkpoint)
    requires Stuck(w, q, r, n)
    ensures Stuck(w, q, HandleCheckpoint(w.At(q), r, c).replica, n)
  {
  }

  /** Executing other numbers stops before n, or is past it. */
  lemma CommitStaysStuck(s: StoreState, n: int, m: int, id: string, interval: Positive)
    requires Lookup(s.committed, n).None? && m != n
    ensures var s' := Commit(s, m, id, interval).0;
            && Lookup(s'.committed, n).None? && s'.lastStable == s.lastStable
            && !(s.lastApplied < n <= s'.lastApplied)
  {
    DrainStopsAtTheGap(MarkCommitted(s, m), id, interval);
  }

  lemma CommittedStaysStuck(w: World, q: string, r: Replica, n: int, m: int)
    requires Stuck(w, q, r, n) && m != n
    ensures Stuck(w, q, HandleCommitted(w.At(q), r, m).replica, n)
  {
    CommittedTasks(w.At(q), r, m);
    CommitStaysStuck(r.store, n, m, q, w.interval);
  }

  lemma CheckStaysStuck(w: World, q: string, r: Replica, n: int, ref: nat)
    requires Stuck(w, q, r, n) && ref < |r.cells| && r.cells[ref].checks > 0
    requires r.cells[ref].votes.preprepare.Some? ==> r.cells[ref].votes.preprepare.value.seqNo == r.cells[ref].seqNo
    ensures Stuck(w, q, CheckCell(w.At(q), r, ref), n)
  {
    var c, cell := Check(r.cells[ref].votes, q), r.cells[ref];
    CellChangeStaysStuck(w, q, r, n, ref, cell.(votes := c.votes, checks := cell.checks - 1));
  }

  lemma AddStaysPassed(w: World, q: string, log: seq<ClientRequest>, sent: set<Message>, cell: Cell, t: Task)
    requires Passed(w.F(), cell) && VotesFit(w, log, cell) && CellOk(w, sent, cell)
    ensures t.AddPrePrepareTask? && PrePrepareFits(w, log, t.preprepare) && t.preprepare.seqNo == cell.seqNo ==>
              Passed(w.F(), PrePrepareCell(cell, w.F(), t.preprepare))
    ensures t.AddPrepareTask? ==> Passed(w.F(), PrepareCell(cell, w.F(), t.vote))
    ensures t.AddCommitTask? ==> Passed(w.F(), CommitCell(cell, w.F(), t.vote))
  {
    if t.AddPrePrepareTask? && PrePrepareFits(w, log, t.preprepare) && t.preprepare.seqNo == cell.seqNo {
      PrePrepareStaysPassed(w, log, cell, t.preprepare);
    } else if t.AddCommitTask? {
      CommitStaysPassed(w.F(), cell, t.vote);
    }
  }

  lemma AddStaysStuck(w: World, q: string, log: seq<ClientRequest>, sent: set<Message>, r: Replica, n: int, t: Task)
    requires Stuck(w, q, r, n) && HasRef(t) && t.ref < |r.cells|
    requires VotesFit(w, log, r.cells[t.ref]) && CellOk(w, sent, r.cells[t.ref]) && TaskFits(w, q, log, r.cells, t)
    requires t.AddPrePrepareTask? ==> t.preprepare.seqNo == r.cells[t.ref].seqNo
    ensures Stuck(w, q, Perform(w.At(q), r, t).replica, n)
  {
    var cell := r.cells[t.ref];
    if Passed(w.F(), cell) {
      AddStaysPassed(w, q, log, sent, cell, t);
    }
    match t
    case AddPrePrepareTask(ref, pp) => CellChangeStaysStuck(w, q, r, n, ref, PrePrepareCell(cell, w.F(), pp));
    case AddPrepareTask(ref, v) => CellChangeStaysStuck(w, q, r, n, ref, PrepareCell(cell, w.F(), v));
    case AddCommitTask(ref, v) => CellChangeStaysStuck(w, q, r, n, ref, CommitCell(cell, w.F(), v));
    case AddToStoreTask(_, _) =>
  }

  lemma FewerTasksStayStuck(w: World, q: string, r: Replica, n: int, t: Task)
    requires Stuck(w, q, r, n)
    ensures Stuck(w, q, r.(tasks := r.tasks - multiset{t}), n)
  {
  }

  lemma OtherTaskStaysStuck(w: World, q: string, r: Replica, n: int, t: Task)
    requires Stuck(w, q, r, n) && !HasRef(t) && t != CommittedTask(n)
    ensures Stuck(w, q, Perform(w.At(q), r, t).replica, n)
  {
    match t
    case PreparedTask(v) => SpawnStaysStuck(w, q, r, n, HandleCommitTask(v));
    case HandleCommitTask(v) => VoteStaysStuck(w, q, r, n, v);
    case CommittedTask(m) => CommittedStaysStuck(w, q, r, n, m);
    case CheckpointTask(c) => CheckpointStaysStuck(w, q, r, n, c);
    case ClientTask(req) => ClientStaysStuck(w, q, r, n, req);
    case VoteTask(_) =>
  }

  // ---------- Steps ----------

  lemma TaskStaysStuck(w: World, q: string, log: seq<ClientRequest>, s: System, n: int, t: Task)
    requires Surviving(w, log, s) && q in s.nodes && Stuck(w, q, s.nodes[q], n) && t in s.nodes[q].tasks
    requires HasRef(t) ==> t.ref < |s.nodes[q].cells|
    ensures Stuck(w, q, Perform(w.At(q), s.nodes[q].(tasks := s.nodes[q].tasks - multiset{t}), t).replica, n)
  {
    var r := s.nodes[q];
    var r' := r.(tasks := r.tasks - multiset{t});
    FewerTasksStayStuck(w, q, r, n, t);
    if HasRef(t) {
      CellOfReplica(w, log, s, q, t.ref);
      TaskIsFit(w, q, log, r, t);
      assert TaskOk(w, s.sent, q, PreparedNow(w, s), r.cells, t);
      AddStaysStuck(w, q, log, s.sent, r', n, t);
    } else {
      OtherTaskStaysStuck(w, q, r', n, t);
    }
  }

  lemma RunCheckStaysStuck(w: World, log: seq<ClientRequest>, s: System, q: string, n: int, ref: nat)
    requires Surviving(w, log, s) && q in s.nodes && Stuck(w, q, s.nodes[q], n)
    requires ref < |s.nodes[q].cells| && s.nodes[q].cells[ref].checks > 0
    ensures Stuck(w, q, CheckCell(w.At(q), s.nodes[q], ref), n)
  {
    CellOfReplica(w, log, s, q, ref);
    CheckStaysStuck(w, q, s.nodes[q], n, ref);
  }

  lemma MessageStaysStuck(w: World, q: string, r: Replica, n: int, input: Input)
    requires Stuck(w, q, r, n)
    requires input.OnPrePrepare? || input.OnPrepare? || input.OnCommit? || input.OnCheckpoint?
    ensures Stuck(w, q, Step(w.At(q), r, input).replica, n)
  {
    match input
    case OnPrePrepare(pp, batch) => PrePrepareRequestStaysStuck(w, q, r, n, pp, batch);
    case OnPrepare(v) => VoteStaysStuck(w, q, r, n, v);
    case OnCommit(v) => VoteStaysStuck(w, q, r, n, v);
    case OnCheckpoint(c) => CheckpointStaysStuck(w, q, r, n, c);
  }

  lemma OtherInputStaysStuck(w: World, q: string, r: Replica, n: int, input: Input)
    requires Stuck(w, q, r, n) && !Resets(r, input)
    requires input.Client? || input.OnStatusRequest? || input.OnStatus? || input.Timeout? || input.CastVote?
    ensures Stuck(w, q, Step(w.At(q), r, input).replica, n)
  {
    match input
    case Client(req) => ClientStaysStuck(w, q, r, n, req);
    case Timeout(view) => SpawnStaysStuck(w, q, r.(inViewChange := true), n, VoteTask(view));
    case CastVote(vc) => FewerTasksStayStuck(w, q, r, n, VoteTask(vc.newView));
    case _ =>
  }

  lemma StepStaysStuck(w: World, log: seq<ClientRequest>, s: System, q: string, n: int, input: Input)
    requires Surviving(w, log, s) && Enabled(w, s, Action(q, input)) && Stuck(w, q, s.nodes[q], n)
    requires !Resets(s.nodes[q], input)
    ensures Stuck(w, q, Step(w.At(q), s.nodes[q], input).replica, n)
  {
    if input.RunTask? {
      TaskStaysStuck(w, q, log, s, n, input.task);
    } else if input.RunCheck? {
      RunCheckStaysStuck(w, log, s, q, n, input.ref);
    } else if input.OnPrePrepare? || input.OnPrepare? || input.OnCommit? || input.OnCheckpoint? {
      MessageStaysStuck(w, q, s.nodes[q], n, input);
    } else {
      OtherInputStaysStuck(w, q, s.nodes[q], n, input);
    }
  }

  // ---------- Runs ----------

  ghost predicate StuckAfter(w: World, run: seq<Action>, q: string, n: int) {
    q in After(w, run).nodes && Stuck(w, q, After(w, run).nodes[q], n)
  }

  lemma LastStaysStuck(w: World, run: seq<Action>, q: string, n: int)
    requires run != [] && CrashRun(w, run[..|run| - 1]) && StuckAfter(w, run[..|run| - 1], q, n)
    requires var s, a := After(w, run[..|run| - 1]), run[|run| - 1];
             HonestInput(w, s, a) && (a.who == q ==> !InstallsStatus(s, a))
    ensures StuckAfter(w, run, q, n)
  {
    var before, a := run[..|run| - 1], run[|run| - 1];
    if a.who == q && Enabled(w, After(w, before), a) {
      CrashRunsSurvive(w, before);
      assert a == Action(q, a.input);
      StepStaysStuck(w, Log(w, before), After(w, before), q, n, a.input);
    }
  }

  /** In a crash run, a stuck number stays so until its replica installs a status response. */
  lemma {:induction false} StuckStays(w: World, run: seq<Action>, i: nat, q: string, n: int)
    requires CrashRun(w, run) && i <= |run| && StuckAfter(w, run[..i], q, n) && NotResetSince(w, run, i, q)
    ensures StuckAfter(w, run, q, n)
  {
    if i == |run| {
      assert run[..i] == run;
    } else {
      assert run[..|run| - 1][..i] == run[..i];
      CrashRunWithoutLast(w, run);
      NotResetBefore(w, run, i, q);
      StuckStays(w, run[..|run| - 1], i, q, n);
      LastStaysStuck(w, run, q, n);
    }
  }

  /** So the replica does not execute the number in the meantime. */
  lemma {:induction false} StuckIsNeverExecuted(w: World, run: seq<Action>, i: nat, q: string, n: int, j: nat,
                                                from: int, to: int, out: Output)
    requires CrashRun(w, run) && i <= j < |run| && StuckAfter(w, run[..i], q, n) && NotResetSince(w, run, i, q)
    requires ExecutesAt(w, run, j, q, from, to, out)
    ensures !(from < n <= to)
  {
    var before := run[..j];
    assert before[..i] == run[..i];
    CrashRunPrefix(w, run, j);
    NotResetInPrefix(w, run, i, j, q);
    StuckStays(w, before, i, q, n);
    CommitStaysStuck(StoreOf(w, before, q), n, run[j].input.task.seqNo, q, w.interval);
  }

  /** A crash run that continues `run`, in which q installs no further status response. */
  ghost predicate GoesOnUnreset(w: World, run: seq<Action>, run': seq<Action>, q: string) {
    CrashRun(w, run') && run <= run' && NotResetSince(w, run', |run|, q)
  }

  /** In no such run q executes number n after `run`. */
  ghost predicate NeverExecutes(w: World, run: seq<Action>, q: string, n: int) {
    forall run', j: nat, from, to, out |
      GoesOnUnreset(w, run, run', q) && |run| <= j && ExecutesAt(w, run', j, q, from, to, out) :: !(from < n <= to)
  }

  /** So, however a crash run goes on while the replica installs no status response: it never executes the number. */
  lemma {:induction false} StuckForGood(w: World, run: seq<Action>, q: string, n: int)
    requires StuckAfter(w, run, q, n)
    ensures NeverExecutes(w, run, q, n)
  {
    forall run', j: nat, from, to, out |
      GoesOnUnreset(w, run, run', q) && |run| <= j && ExecutesAt(w, run', j, q, from, to, out)
      ensures !(from < n <= to)
    {
      assert run'[..|run|] == run;
      StuckIsNeverExecuted(w, run', |run|, q, n, j, from, to, out);
    }
  }
}
