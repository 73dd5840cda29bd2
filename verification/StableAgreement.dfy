/**
 * Replicated-log agreement across stable checkpoints: when a replica jumps to one, by 2F+1 checkpoint votes or by a
 * status response, the values it then has are those of the numbers it then counts as applied exactly under a
 * condition on where it stood.  While all jumps meet it, every number is executed with the log's request, answered as
 * in a replay of the log.  As the digest is the value of the empty key, this concerns logs that use that key only.
 */
module StableAgreement {
  import opened Messages
  import opened StoreModel
  import opened StoreRuns
  import opened Replicas
  import opened Systems
  import opened FirstView
  import opened StateTransfer
  import opened Agreement

  // ---------- One store ----------

  /** The values are those of the log's numbers up to the applied one. */
  ghost predicate Right(log: seq<ClientRequest>, s: StoreState) {
    0 <= s.lastApplied <= |log| && SameValues(s.values, ValuesAfter(BatchesOf(log), s.lastApplied))
  }

  ghost predicate Filed(s: StoreState) {
    forall n | n in s.committed && s.committed[n].Some? :: n in s.requests
  }

  ghost predicate Sound(log: seq<ClientRequest>, s: StoreState) {
    StoreFits(log, s) && Filed(s) && Right(log, s)
  }

  /** The store with the values a replay gives it, which cannot be told apart from a right one. */
  function Corrected(log: seq<ClientRequest>, s: StoreState): StoreState
    requires s.lastApplied >= 0
  {
    s.(values := ValuesAfter(BatchesOf(log), s.lastApplied))
  }

  lemma CorrectedReplays(log: seq<ClientRequest>, s: StoreState)
    requires Sound(log, s)
    ensures Replays(log, Corrected(log, s)) && Alike(s, Corrected(log, s))
  {
  }

  lemma CommitOfSound(log: seq<ClientRequest>, s: StoreState, n: int, id: string, interval: Positive)
    requires Sound(log, s)
    ensures var (s', out) := Commit(s, n, id, interval);
            && Filed(s') && Right(log, s') && s.lastApplied <= s'.lastApplied
            && Join(Transcript(BatchesOf(log), s.lastApplied, id, interval), out)
               == Transcript(BatchesOf(log), s'.lastApplied, id, interval)
  {
    var t := Corrected(log, s);
    CorrectedReplays(log, s);
    AlikeDrains(MarkCommitted(s, n), MarkCommitted(t, n), id, interval);
    Agreement.CommitReplays(log, t, n, id, interval);
    DrainStopsAtTheGap(MarkCommitted(s, n), id, interval);
  }

  // ---------- Jumps ----------

  /** How a step takes a store to a checkpoint: by 2F+1 votes, or by a status response. */
  datatype Jump = NoJump | Voted(proof: Proof) | Reported(proof: Proof)

  /** The checkpoint is one of the log. */
  ghost predicate Genuine(log: seq<ClientRequest>, jump: Jump) {
    jump.NoJump? || (var c := jump.proof[0];
                     0 <= c.seqNo <= |log| && c.digest == Digest(ValuesAfter(BatchesOf(log), c.seqNo)))
  }

  /** Where a store has to stand for the jump to leave it right. */
  ghost predicate Exact(log: seq<ClientRequest>, s: StoreState, jump: Jump) {
    match jump
    case NoJump => true
    case Voted(proof) =>
      (if HasStaleEntry(s, proof[0].seqNo) then s.lastApplied <= proof[0].seqNo else proof[0].seqNo <= s.lastApplied)
      || SameDigest(log, s.lastApplied, proof[0].seqNo)
    case Reported(proof) => proof[0].seqNo <= s.lastApplied || SameDigest(log, s.lastApplied, proof[0].seqNo)
  }

  predicate SameDigest(log: seq<ClientRequest>, k: int, n: int) {
    0 <= k && 0 <= n && Digest(ValuesAfter(BatchesOf(log), k)) == Digest(ValuesAfter(BatchesOf(log), n))
  }

  /** What the jump makes of the store. */
  ghost predicate Jumped(s: StoreState, s': StoreState, jump: Jump) {
    match jump
    case NoJump => s'.values == s.values && s'.lastApplied == s.lastApplied
    case Voted(proof) =>
      StableNumber(s) < proof[0].seqNo && exists unstable :: s' == Stabilize(s.(unstable := unstable), proof)
    case Reported(proof) => s' == UpdateLastStable(s, proof)
  }

  lemma VotedIsRightIff(log: seq<ClientRequest>, s: StoreState, proof: Proof)
    requires Sound(log, s) && OnEmptyKey(BatchesOf(log)) && Genuine(log, Voted(proof))
    requires StableNumber(s) < proof[0].seqNo
    ensures Right(log, Stabilize(s, proof)) <==> Exact(log, s, Voted(proof))
  {
    var b, t, k := BatchesOf(log), Corrected(log, s), proof[0].seqNo;
    CorrectedReplays(log, s);
    StateTransferIsExactIff(b, t, proof);
    assert SameValues(Stabilize(s, proof).values, Stabilize(t, proof).values);
  }

  lemma ReportedIsRightIff(log: seq<ClientRequest>, s: StoreState, proof: Proof)
    requires Sound(log, s) && OnEmptyKey(BatchesOf(log)) && Genuine(log, Reported(proof))
    ensures Right(log, UpdateLastStable(s, proof)) <==> Exact(log, s, Reported(proof))
  {
    var b, k := BatchesOf(log), proof[0].seqNo;
    ReplayStaysOnEmptyKey(b, k);
    ReplayStaysOnEmptyKey(b, s.lastApplied);
    SameDigestSameValues(ValuesAfter(b, k), ValuesAfter(b, s.lastApplied));
  }

  lemma VotedWithOthers(log: seq<ClientRequest>, s: StoreState, s': StoreState, proof: Proof)
    requires Sound(log, s) && OnEmptyKey(BatchesOf(log)) && Genuine(log, Voted(proof)) && Jumped(s, s', Voted(proof))
    ensures (Right(log, s') <==> Exact(log, s, Voted(proof))) && 0 <= s'.lastApplied <= |log|
  {
    var unstable :| s' == Stabilize(s.(unstable := unstable), proof);
    VotedIsRightIff(log, s.(unstable := unstable), proof);
  }

  /** The step leaves the store right exactly if the jump, if any, is exact. */
  lemma {:induction false} JumpIsRightIff(log: seq<ClientRequest>, s: StoreState, s': StoreState, jump: Jump)
    requires Sound(log, s) && OnEmptyKey(BatchesOf(log)) && Genuine(log, jump) && Jumped(s, s', jump)
    ensures Right(log, s') <==> Exact(log, s, jump)
    ensures 0 <= s'.lastApplied <= |log|
  {
    match jump
    case NoJump =>
    case Voted(proof) =>
      VotedWithOthers(log, s, s', proof);
    case Reported(proof) => ReportedIsRightIff(log, s, proof);
  }

  // ---------- Steps of a replica ----------

  /** The checkpoint vote that the input delivers. */
  function VoteIn(input: Input): Option<Checkpoint> {
    match input
    case OnCheckpoint(c) => Some(c)
    case RunTask(CheckpointTask(c)) => Some(c)
    case _ => None
  }

  function VoteJump(s: StoreState, f: nat, c: Checkpoint): Jump {
    if c.seqNo < StableNumber(s) then NoJump
    else
      var proof := AddVote(s, c).unstable[IdOf(c)];
      if |proof| == 2 * f + 1 && StableNumber(s) < proof[0].seqNo then Voted(proof) else NoJump
  }

  function JumpOf(f: nat, r: Replica, input: Input): Jump {
    if VoteIn(input).Some? then VoteJump(r.store, f, VoteIn(input).value)
    else if input.OnStatus? && Installs(r, input.lastStable, input.proof) && input.lastStable > StableNumber(r.store)
    then Reported(input.proof)
    else NoJump
  }

  predicate Executes(input: Input) {
    input.RunTask? && input.task.CommittedTask?
  }

  lemma VoteMovesStore(s: StoreState, f: nat, c: Checkpoint)
    requires Filed(s)
    ensures Filed(AddCheckpoint(s, f, c).0) && Jumped(s, AddCheckpoint(s, f, c).0, VoteJump(s, f, c))
  {
    if c.seqNo >= StableNumber(s) {
      var voted := AddVote(s, c);
      var unstable := voted.unstable;
      assert voted == s.(unstable := unstable);
      if VoteJump(s, f, c).Voted? {
        assert AddCheckpoint(s, f, c).0 == Stabilize(s.(unstable := unstable), voted.unstable[IdOf(c)]);
      }
    }
  }

  lemma AddMovesStore(s: StoreState, n: int, batch: Batch)
    requires Filed(s)
    ensures Filed(AddRequests(s, n, batch)) && Jumped(s, AddRequests(s, n, batch), NoJump)
  {
  }

  lemma OtherTasksKeepStore(cfg: Config, r: Replica, t: Task)
    requires !t.CommittedTask? && !t.CheckpointTask? && !t.AddToStoreTask? && (HasRef(t) ==> t.ref < |r.cells|)
    ensures Perform(cfg, r, t).replica.store == r.store
  {
  }

  lemma FilingMovesStore(cfg: Config, r: Replica, t: Task)
    requires Filed(r.store) && t.AddToStoreTask? && t.ref < |r.cells|
    ensures var store' := Perform(cfg, r, t).replica.store; Filed(store') && Jumped(r.store, store', NoJump)
  {
    if r.cells[t.ref].votes.preprepare.Some? {
      AddMovesStore(r.store, r.cells[t.ref].votes.preprepare.value.seqNo, t.batch);
    }
  }

  lemma TaskMovesStore(cfg: Config, r: Replica, t: Task)
    requires Filed(r.store) && !t.CommittedTask? && (HasRef(t) ==> t.ref < |r.cells|)
    ensures var store' := Perform(cfg, r, t).replica.store;
            Filed(store') && Jumped(r.store, store', JumpOf(cfg.F(), r, RunTask(t)))
  {
    if t.CheckpointTask? {
      VoteMovesStore(r.store, cfg.F(), t.checkpoint);
    } else if t.AddToStoreTask? {
      FilingMovesStore(cfg, r, t);
    } else {
      OtherTasksKeepStore(cfg, r, t);
    }
  }

  lemma StatusMovesStore(cfg: Config, r: Replica, k: int, proof: seq<Checkpoint>)
    requires Filed(r.store)
    ensures var store' := HandleStatus(cfg, r, k, proof).replica.store;
            Filed(store') && Jumped(r.store, store', JumpOf(cfg.F(), r, OnStatus(k, proof)))
  {
  }

  /** Every step but an execution moves the store as its jump says. */
  lemma StepMovesStore(cfg: Config, r: Replica, input: Input)
    requires Filed(r.store) && Ready(cfg, r, input) && !Executes(input) && !input.OnNewView?
    ensures var store' := Step(cfg, r, input).replica.store;
            Filed(store') && Jumped(r.store, store', JumpOf(cfg.F(), r, input))
  {
    if input.OnCheckpoint? {
      VoteMovesStore(r.store, cfg.F(), input.checkpoint);
    } else if input.OnPrePrepare? {
      AddMovesStore(r.store, input.preprepare.seqNo, input.batch);
    } else if input.OnStatus? {
      StatusMovesStore(cfg, r, input.lastStable, input.proof);
    } else if input.RunTask? {
      TaskMovesStore(cfg, r.(tasks := r.tasks - multiset{input.task}), input.task);
    } else {
      OtherInputsKeepStore(cfg, r, input);
    }
  }

  // ---------- Runs ----------

  ghost function StoreOf(w: World, run: seq<Action>, q: string): StoreState
    requires q in After(w, run).nodes
  {
    After(w, run).nodes[q].store
  }

  /** The jump q makes by taking action a after the run. */
  ghost function JumpBy(w: World, run: seq<Action>, a: Action, q: string): Jump
    requires q in After(w, run).nodes
  {
    if a.who == q && Enabled(w, After(w, run), a) then JumpOf(w.F(), After(w, run).nodes[q], a.input) else NoJump
  }

  ghost predicate IsRight(w: World, run: seq<Action>, q: string) {
    q in After(w, run).nodes && Right(Log(w, run), StoreOf(w, run, q))
  }

  ghost predicate IsFiled(w: World, run: seq<Action>, q: string) {
    q in After(w, run).nodes && Filed(StoreOf(w, run, q))
  }

  lemma RightInLongerLog(log: seq<ClientRequest>, more: seq<ClientRequest>, s: StoreState)
    requires 0 <= s.lastApplied <= |log|
    ensures Right(log + more, s) <==> Right(log, s)
  {
    LongerLog(log, more, s.lastApplied, "", 1);
  }

  lemma OneAction(w: World, run: seq<Action>, a: Action)
    ensures After(w, run + [a]) == Act(w, After(w, run), a)
    ensures Log(w, run + [a])
         == if Enabled(w, After(w, run), a)
            then Log(w, run) + Logged(Step(w.At(a.who), After(w, run).nodes[a.who], a.input).sent)
            else Log(w, run)
  {
    assert (run + [a])[..|run|] == run;
  }

  lemma CommitStaysFiled(s: StoreState, n: int, id: string, interval: Positive)
    requires Filed(s)
    ensures Filed(Commit(s, n, id, interval).0)
  {
    DrainStopsAtTheGap(MarkCommitted(s, n), id, interval);
  }

  lemma OwnStoreStaysFiled(w: World, run: seq<Action>, a: Action)
    requires IsFiled(w, run, a.who) && Enabled(w, After(w, run), a) && !a.input.OnNewView?
    ensures Filed(Step(w.At(a.who), After(w, run).nodes[a.who], a.input).replica.store)
  {
    var r := After(w, run).nodes[a.who];
    if Executes(a.input) {
      CommitStaysFiled(r.store, a.input.task.seqNo, a.who, w.interval);
      CommittedStore(w, a.who, r, a.input.task.seqNo);
    } else {
      StepMovesStore(w.At(a.who), r, a.input);
    }
  }

  /** One action: q's store is right afterwards exactly if the jump it made, if any, was exact. */
  lemma ActionIsRightIff(w: World, run: seq<Action>, a: Action, q: string)
    requires SystemFits(w, Log(w, run), After(w, run)) && !a.input.OnNewView?
    requires IsFiled(w, run, q) && IsRight(w, run, q) && OnEmptyKey(BatchesOf(Log(w, run)))
    requires Genuine(Log(w, run), JumpBy(w, run, a, q))
    ensures IsRight(w, run + [a], q) <==> Exact(Log(w, run), StoreOf(w, run, q), JumpBy(w, run, a, q))
    ensures IsFiled(w, run + [a], q)
  {
    OneAction(w, run, a);
    var s, log := After(w, run), Log(w, run);
    if Enabled(w, s, a) {
      if a.who == q {
        OwnStepIsRightIff(w, run, a);
      } else {
        RightInLongerLog(log, Logged(Step(w.At(a.who), s.nodes[a.who], a.input).sent), s.nodes[q].store);
      }
    }
  }

  lemma OwnStepIsRightIff(w: World, run: seq<Action>, a: Action)
    requires SystemFits(w, Log(w, run), After(w, run)) && !a.input.OnNewView? && Enabled(w, After(w, run), a)
    requires IsFiled(w, run, a.who) && IsRight(w, run, a.who) && OnEmptyKey(BatchesOf(Log(w, run)))
    requires Genuine(Log(w, run), JumpBy(w, run, a, a.who))
    ensures var o := Step(w.At(a.who), After(w, run).nodes[a.who], a.input);
            && Filed(o.replica.store)
            && (Right(Log(w, run) + Logged(o.sent), o.replica.store)
                <==> Exact(Log(w, run), StoreOf(w, run, a.who), JumpBy(w, run, a, a.who)))
  {
    var o := Step(w.At(a.who), After(w, run).nodes[a.who], a.input);
    OwnStoreStaysFiled(w, run, a);
    OwnStoreIsRightIff(w, run, a);
    RightInLongerLog(Log(w, run), Logged(o.sent), o.replica.store);
  }

  lemma OwnStoreIsRightIff(w: World, run: seq<Action>, a: Action)
    requires SystemFits(w, Log(w, run), After(w, run)) && !a.input.OnNewView? && Enabled(w, After(w, run), a)
    requires IsFiled(w, run, a.who) && IsRight(w, run, a.who) && OnEmptyKey(BatchesOf(Log(w, run)))
    requires Genuine(Log(w, run), JumpBy(w, run, a, a.who))
    ensures var log, s := Log(w, run), StoreOf(w, run, a.who);
            var s' := Step(w.At(a.who), After(w, run).nodes[a.who], a.input).replica.store;
            && (Right(log, s') <==> Exact(log, s, JumpBy(w, run, a, a.who)))
            && 0 <= s'.lastApplied <= |log|
  {
    var log, r := Log(w, run), After(w, run).nodes[a.who];
    if Executes(a.input) {
      CommitOfSound(log, r.store, a.input.task.seqNo, a.who, w.interval);
      CommittedStore(w, a.who, r, a.input.task.seqNo);
    } else {
      StepMovesStore(w.At(a.who), r, a.input);
      JumpIsRightIff(log, r.store, Step(w.At(a.who), r, a.input).replica.store, JumpBy(w, run, a, a.who));
    }
  }

  // ---------- Whole runs ----------

  /** What q jumps to by the action is a checkpoint of the log. */
  ghost predicate GenuineAt(w: World, run: seq<Action>, a: Action, q: string) {
    q in After(w, run).nodes && Genuine(Log(w, run), JumpBy(w, run, a, q))
  }

  /** q stands where it has to for the jump it makes by the action, if any. */
  ghost predicate ExactAt(w: World, run: seq<Action>, a: Action, q: string) {
    q in After(w, run).nodes && Exact(Log(w, run), StoreOf(w, run, q), JumpBy(w, run, a, q))
  }

  ghost predicate AllGenuine(w: World, run: seq<Action>, q: string) {
    forall i | 0 <= i < |run| :: GenuineAt(w, run[..i], run[i], q)
  }

  ghost predicate AllExact(w: World, run: seq<Action>, q: string) {
    forall i | 0 <= i < |run| :: ExactAt(w, run[..i], run[i], q)
  }

  ghost predicate AlwaysRight(w: World, run: seq<Action>, q: string) {
    forall i | 0 <= i <= |run| :: IsRight(w, run[..i], q)
  }

  ghost predicate UsesEmptyKey(w: World, run: seq<Action>) {
    forall i | 0 <= i < |Log(w, run)| :: Log(w, run)[i].operation.key == ""
  }

  lemma EmptyKeyBatches(w: World, run: seq<Action>, i: nat)
    requires UsesEmptyKey(w, run) && i <= |run|
    ensures OnEmptyKey(BatchesOf(Log(w, run[..i]))) && UsesEmptyKey(w, run[..i])
  {
    LogGrowsWithRun(w, run, i);
  }

  lemma PrefixesOfRun(run: seq<Action>, i: nat)
    requires run != [] && i <= |run| - 1
    ensures run[..|run| - 1][..i] == run[..i]
  {
  }

  lemma LastGenuine(w: World, run: seq<Action>, q: string)
    requires run != []
    ensures var before := run[..|run| - 1];
            AllGenuine(w, run, q) <==> AllGenuine(w, before, q) && GenuineAt(w, before, run[|run| - 1], q)
  {
    var before := run[..|run| - 1];
    if AllGenuine(w, run, q) {
      forall i | 0 <= i < |before| ensures GenuineAt(w, before[..i], before[i], q) {
        PrefixesOfRun(run, i);
      }
      assert GenuineAt(w, run[..|run| - 1], run[|run| - 1], q);
    }
    if AllGenuine(w, before, q) && GenuineAt(w, before, run[|run| - 1], q) {
      forall i | 0 <= i < |run| ensures GenuineAt(w, run[..i], run[i], q) {
        if i < |before| {
          PrefixesOfRun(run, i);
          assert GenuineAt(w, before[..i], before[i], q);
        }
      }
    }
  }

  lemma LastExact(w: World, run: seq<Action>, q: string)
    requires run != []
    ensures var before := run[..|run| - 1];
            AllExact(w, run, q) <==> AllExact(w, before, q) && ExactAt(w, before, run[|run| - 1], q)
  {
    var before := run[..|run| - 1];
    if AllExact(w, run, q) {
      forall i | 0 <= i < |before| ensures ExactAt(w, before[..i], before[i], q) {
        PrefixesOfRun(run, i);
      }
      assert ExactAt(w, run[..|run| - 1], run[|run| - 1], q);
    }
    if AllExact(w, before, q) && ExactAt(w, before, run[|run| - 1], q) {
      forall i | 0 <= i < |run| ensures ExactAt(w, run[..i], run[i], q) {
        if i < |before| {
          PrefixesOfRun(run, i);
          assert ExactAt(w, before[..i], before[i], q);
        }
      }
    }
  }

  lemma LastRight(w: World, run: seq<Action>, q: string)
    requires run != []
    ensures AlwaysRight(w, run, q) <==> AlwaysRight(w, run[..|run| - 1], q) && IsRight(w, run, q)
  {
    var before := run[..|run| - 1];
    if AlwaysRight(w, run, q) {
      forall i | 0 <= i <= |before| ensures IsRight(w, before[..i], q) {
        PrefixesOfRun(run, i);
      }
      assert run[..|run|] == run;
    }
    if AlwaysRight(w, before, q) && IsRight(w, run, q) {
      forall i | 0 <= i <= |run| ensures IsRight(w, run[..i], q) {
        if i < |run| {
          PrefixesOfRun(run, i);
        } else {
          assert run[..i] == run;
        }
      }
    }
  }

  lemma PrefixInFirstView(w: World, run: seq<Action>, i: nat)
    requires FirstViewRun(w, run) && i <= |run|
    ensures FirstViewRun(w, run[..i])
  {
    assert forall j | 0 <= j < i :: run[..i][..j] == run[..j];
  }

  lemma LastInFirstView(w: World, run: seq<Action>)
    requires run != [] && FirstViewRun(w, run)
    ensures var before, a := run[..|run| - 1], run[|run| - 1];
            before + [a] == run && FirstViewRun(w, before) && StaysInFirstView(w, After(w, before), a)
  {
    PrefixInFirstView(w, run, |run| - 1);
  }

  lemma {:induction false} RunsAreFiled(w: World, run: seq<Action>, q: string)
    requires FirstViewRun(w, run) && q in w.Correct()
    ensures IsFiled(w, run, q)
  {
    if run != [] {
      var before, a := run[..|run| - 1], run[|run| - 1];
      LastInFirstView(w, run);
      RunsAreFiled(w, before, q);
      OneAction(w, before, a);
      if a.who == q && Enabled(w, After(w, before), a) {
        OwnStoreStaysFiled(w, before, a);
      }
    }
  }

  /**
   * In a run under one correct primary on the empty key: if what q jumps to are checkpoints of the log, q's values
   * are at all times those of the numbers it counts as applied, exactly if it stands where it has to at each jump.
   */
  lemma {:induction false} RightIffExact(w: World, run: seq<Action>, q: string)
    requires FirstViewRun(w, run) && q in w.Correct() && UsesEmptyKey(w, run) && AllGenuine(w, run, q)
    ensures AlwaysRight(w, run, q) <==> AllExact(w, run, q)
  {
    if run != [] {
      var before, a := run[..|run| - 1], run[|run| - 1];
      LastInFirstView(w, run);
      LastGenuine(w, run, q);
      LastExact(w, run, q);
      LastRight(w, run, q);
      EmptyKeyBatches(w, run, |before|);
      RightIffExact(w, before, q);
      LastIsRightIff(w, before, a, q);
    }
  }

  lemma LastIsRightIff(w: World, before: seq<Action>, a: Action, q: string)
    requires FirstViewRun(w, before) && StaysInFirstView(w, After(w, before), a) && q in w.Correct()
    requires OnEmptyKey(BatchesOf(Log(w, before))) && GenuineAt(w, before, a, q)
    ensures AlwaysRight(w, before, q) ==> (IsRight(w, before + [a], q) <==> ExactAt(w, before, a, q))
  {
    if AlwaysRight(w, before, q) {
      assert before[..|before|] == before;
      RunsFit(w, before);
      RunsAreFiled(w, before, q);
      ActionIsRightIff(w, before, a, q);
    }
  }

  // ---------- Executions ----------

  /** At the i-th action of the run, q executes the numbers after `from` up to `to`, and returns `out`. */
  ghost predicate ExecutesAt(w: World, run: seq<Action>, i: nat, q: string, from: int, to: int, out: Output) {
    && i < |run| && run[i].who == q && Executes(run[i].input) && Enabled(w, After(w, run[..i]), run[i])
    && var s := StoreOf(w, run[..i], q);
       && from == s.lastApplied && to == Commit(s, run[i].input.task.seqNo, q, w.interval).0.lastApplied
       && out == Commit(s, run[i].input.task.seqNo, q, w.interval).1
  }

  /** The requests of these numbers, each with its result in a replay, and the checkpoints due among them. */
  ghost predicate IsSliceOf(out: Output, log: seq<ClientRequest>, from: int, to: int, id: string, interval: Positive) {
    && 0 <= from <= to <= |log| && out.requests == log[from..to]
    && |Results(log)| == |log| && out.results == Results(log)[from..to]
    && CheckpointsOf(BatchesOf(log), Multiples(from, interval), id) + out.checkpoints
       == CheckpointsOf(BatchesOf(log), Multiples(to, interval), id)
  }

  lemma SliceOfTranscript(log: seq<ClientRequest>, from: nat, to: nat, out: Output, id: string, interval: Positive)
    requires from <= to <= |log|
    requires Join(Transcript(BatchesOf(log), from, id, interval), out) == Transcript(BatchesOf(log), to, id, interval)
    ensures IsSliceOf(out, log, from, to, id, interval)
  {
    TranscriptOfLog(log, from, id, interval);
    TranscriptOfLog(log, to, id, interval);
    Rest(log, from, to, out.requests);
    Rest(Results(log), from, to, out.results);
  }

  lemma Rest<T>(s: seq<T>, from: nat, to: nat, rest: seq<T>)
    requires from <= to <= |s| && s[..from] + rest == s[..to]
    ensures rest == s[from..to]
  {
    assert rest == (s[..from] + rest)[from..];
  }

  /** `out` takes a transcript of the log from one number to another. */
  ghost predicate Continues(out: Output, log: seq<ClientRequest>, from: int, to: int, id: string, interval: Positive) {
    && 0 <= from <= to <= |log|
    && Join(Transcript(BatchesOf(log), from, id, interval), out) == Transcript(BatchesOf(log), to, id, interval)
  }

  lemma NextExecution(w: World, run: seq<Action>, q: string, n: int)
    requires FirstViewRun(w, run) && q in w.Correct() && UsesEmptyKey(w, run)
    requires AllGenuine(w, run, q) && AllExact(w, run, q)
    ensures q in After(w, run).nodes
    ensures var s := StoreOf(w, run, q);
            var (s', out) := Commit(s, n, q, w.interval);
            Continues(out, Log(w, run), s.lastApplied, s'.lastApplied, q, w.interval)
  {
    RightIffExact(w, run, q);
    assert run[..|run|] == run && IsRight(w, run, q);
    RunsFit(w, run);
    RunsAreFiled(w, run, q);
    CommitOfSound(Log(w, run), StoreOf(w, run, q), n, q, w.interval);
  }

  lemma ContinuesInLongerLog(out: Output, log: seq<ClientRequest>, log': seq<ClientRequest>, from: int, to: int,
                             id: string, interval: Positive)
    requires Continues(out, log, from, to, id, interval) && log <= log'
    ensures IsSliceOf(out, log', from, to, id, interval)
  {
    var more := log'[|log|..];
    assert log + more == log';
    LongerLog(log, more, from, id, interval);
    LongerLog(log, more, to, id, interval);
    SliceOfTranscript(log', from, to, out, id, interval);
  }

  lemma PrefixIsExact(w: World, run: seq<Action>, i: nat, q: string)
    requires AllGenuine(w, run, q) && AllExact(w, run, q) && i <= |run|
    ensures AllGenuine(w, run[..i], q) && AllExact(w, run[..i], q)
  {
    assert forall j | 0 <= j < i :: run[..i][..j] == run[..j] && run[..i][j] == run[j];
  }

  /** While q jumps to checkpoints of the log, and exactly, what it executes is the log's, answered as in a replay. */
  lemma {:induction false} ExecutesTheLog(w: World, run: seq<Action>, i: nat, q: string, from: int, to: int,
                                          out: Output)
    requires FirstViewRun(w, run) && q in w.Correct() && UsesEmptyKey(w, run)
    requires ExecutesAt(w, run, i, q, from, to, out) && AllGenuine(w, run[..i], q) && AllExact(w, run[..i], q)
    ensures IsSliceOf(out, Log(w, run), from, to, q, w.interval)
  {
    PrefixInFirstView(w, run, i);
    EmptyKeyBatches(w, run, i);
    NextExecution(w, run[..i], q, run[i].input.task.seqNo);
    LogGrowsWithRun(w, run, i);
    ContinuesInLongerLog(out, Log(w, run[..i]), Log(w, run), from, to, q, w.interval);
  }

  lemma AnswerInSlice(out: Output, log: seq<ClientRequest>, from: int, to: int, id: string, interval: Positive, n: int)
    requires IsSliceOf(out, log, from, to, id, interval) && from < n <= to
    ensures 0 <= from && 1 <= n <= |log| && |out.requests| == |out.results| == to - from
    ensures |Results(log)| == |log|
    ensures out.requests[n - 1 - from] == log[n - 1] && out.results[n - 1 - from] == Results(log)[n - 1]
  {
  }

  /** So two replicas that execute the same number execute the same request, and answer it alike. */
  lemma {:induction false} SameNumberSameAnswer(w: World, run: seq<Action>, n: int,
                                                i: nat, q: string, from: int, to: int, out: Output,
                                                i': nat, q': string, from': int, to': int, out': Output)
    requires FirstViewRun(w, run) && UsesEmptyKey(w, run) && q in w.Correct() && q' in w.Correct()
    requires ExecutesAt(w, run, i, q, from, to, out) && AllGenuine(w, run[..i], q) && AllExact(w, run[..i], q)
    requires ExecutesAt(w, run, i', q', from', to', out') && AllGenuine(w, run[..i'], q') && AllExact(w, run[..i'], q')
    requires from < n <= to && from' < n <= to'
    ensures 0 <= from && 0 <= from' && 1 <= n <= |Log(w, run)|
    ensures |out.requests| == |out.results| == to - from && |out'.requests| == |out'.results| == to' - from'
    ensures out.requests[n - 1 - from] == out'.requests[n - 1 - from'] == Log(w, run)[n - 1]
    ensures out.results[n - 1 - from] == out'.results[n - 1 - from']
  {
    ExecutesTheLog(w, run, i, q, from, to, out);
    ExecutesTheLog(w, run, i', q', from', to', out');
    AnswerInSlice(out, Log(w, run), from, to, q, w.interval, n);
    AnswerInSlice(out', Log(w, run), from', to', q', w.interval, n);
  }

  lemma StepNeverGoesBack(cfg: Config, r: Replica, input: Input)
    requires Ready(cfg, r, input) && Filed(r.store) && !input.OnNewView?
    ensures r.store.lastApplied <= Step(cfg, r, input).replica.store.lastApplied
  {
    if Executes(input) {
      DrainStopsAtTheGap(MarkCommitted(r.store, input.task.seqNo), cfg.id, cfg.interval);
    } else {
      StepMovesStore(cfg, r, input);
    }
  }

  lemma ActionNeverGoesBack(w: World, run: seq<Action>, a: Action, q: string)
    requires IsFiled(w, run, q) && StaysInFirstView(w, After(w, run), a)
    ensures q in After(w, run + [a]).nodes
    ensures StoreOf(w, run, q).lastApplied <= StoreOf(w, run + [a], q).lastApplied
  {
    OneAction(w, run, a);
    if a.who == q && Enabled(w, After(w, run), a) {
      StepNeverGoesBack(w.At(q), After(w, run).nodes[q], a.input);
    }
  }

  lemma {:induction false} AppliedNeverGoesBack(w: World, run: seq<Action>, i: nat, q: string)
    requires FirstViewRun(w, run) && q in w.Correct() && i <= |run|
    ensures q in After(w, run[..i]).nodes && q in After(w, run).nodes
    ensures StoreOf(w, run[..i], q).lastApplied <= StoreOf(w, run, q).lastApplied
  {
    RunsAreFiled(w, run, q);
    if i == |run| {
      assert run[..i] == run;
    } else {
      var before := run[..|run| - 1];
      assert before[..i] == run[..i];
      LastInFirstView(w, run);
      RunsAreFiled(w, before, q);
      AppliedNeverGoesBack(w, before, i, q);
      ActionNeverGoesBack(w, before, run[|run| - 1], q);
    }
  }

  lemma ExecutionApplies(w: World, run: seq<Action>, i: nat, q: string, from: int, to: int, out: Output)
    requires ExecutesAt(w, run, i, q, from, to, out)
    ensures from <= to && q in After(w, run[..i + 1]).nodes && StoreOf(w, run[..i + 1], q).lastApplied == to
  {
    assert run[..i + 1] == run[..i] + [run[i]];
    OneAction(w, run[..i], run[i]);
    CommittedStore(w, q, After(w, run[..i]).nodes[q], run[i].input.task.seqNo);
    DrainStopsAtTheGap(MarkCommitted(StoreOf(w, run[..i], q), run[i].input.task.seqNo), q, w.interval);
  }

  /** And no replica executes a number twice, exact jumps or not. */
  lemma {:induction false} NoNumberTwice(w: World, run: seq<Action>, q: string,
                                         i: nat, from: int, to: int, out: Output,
                                         i': nat, from': int, to': int, out': Output)
    requires FirstViewRun(w, run) && q in w.Correct() && i < i'
    requires ExecutesAt(w, run, i, q, from, to, out) && ExecutesAt(w, run, i', q, from', to', out')
    ensures from <= to <= from' <= to'
  {
    ExecutionApplies(w, run, i, q, from, to, out);
    ExecutionApplies(w, run, i', q, from', to', out');
    PrefixInFirstView(w, run, i');
    assert run[..i'][..i + 1] == run[..i + 1];
    AppliedNeverGoesBack(w, run[..i'], i + 1, q);
  }
}
