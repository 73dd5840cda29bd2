/**
 * Where nobody lies, every checkpoint that is voted for, proved or reported is one of the log, as long as every
 * replica's values are right; so they stay right exactly if every replica stands where it has to at each jump.
 */
module HonestCheckpoints {
  import opened Messages
  import opened StoreModel
  import opened StoreRuns
  import opened Replicas
  import opened Systems
  import opened FirstView
  import opened CrashFaults
  import opened CrashRuns
  import opened Agreement
  import opened StableAgreement

  predicate OfTheLog(log: seq<ClientRequest>, c: Checkpoint) {
    0 <= c.seqNo <= |log| && c.digest == Digest(ValuesAfter(BatchesOf(log), c.seqNo))
  }

  predicate AllOfTheLog(log: seq<ClientRequest>, cs: seq<Checkpoint>) {
    forall c | c in cs :: OfTheLog(log, c)
  }

  ghost predicate StoreGenuine(log: seq<ClientRequest>, s: StoreState) {
    AllOfTheLog(log, ProofOf(s)) && forall id | id in s.unstable :: AllOfTheLog(log, s.unstable[id])
  }

  ghost predicate TasksGenuine(log: seq<ClientRequest>, tasks: multiset<Task>) {
    forall t | t in tasks && t.CheckpointTask? :: OfTheLog(log, t.checkpoint)
  }

  ghost predicate ReplicaGenuine(log: seq<ClientRequest>, r: Replica) {
    StoreGenuine(log, r.store) && TasksGenuine(log, r.tasks)
  }

  ghost predicate MessageGenuine(log: seq<ClientRequest>, m: Message) {
    (m.MsgCheckpoint? ==> OfTheLog(log, m.checkpoint)) && (m.MsgStatus? ==> AllOfTheLog(log, m.proof))
  }

  ghost predicate SystemGenuine(log: seq<ClientRequest>, s: System) {
    (forall q | q in s.nodes :: ReplicaGenuine(log, s.nodes[q])) && (forall m | m in s.sent :: MessageGenuine(log, m))
  }

  // ---------- A longer log ----------

  lemma OfLongerLog(log: seq<ClientRequest>, more: seq<ClientRequest>, c: Checkpoint)
    requires OfTheLog(log, c)
    ensures OfTheLog(log + more, c)
  {
    LongerLog(log, more, c.seqNo, "", 1);
  }

  lemma AllOfLongerLog(log: seq<ClientRequest>, more: seq<ClientRequest>, cs: seq<Checkpoint>)
    requires AllOfTheLog(log, cs)
    ensures AllOfTheLog(log + more, cs)
  {
    forall c | c in cs ensures OfTheLog(log + more, c) {
      OfLongerLog(log, more, c);
    }
  }

  lemma ReplicaInLongerLog(log: seq<ClientRequest>, more: seq<ClientRequest>, r: Replica)
    requires ReplicaGenuine(log, r)
    ensures ReplicaGenuine(log + more, r)
  {
    AllOfLongerLog(log, more, ProofOf(r.store));
    forall id | id in r.store.unstable ensures AllOfTheLog(log + more, r.store.unstable[id]) {
      AllOfLongerLog(log, more, r.store.unstable[id]);
    }
    forall t | t in r.tasks && t.CheckpointTask? ensures OfTheLog(log + more, t.checkpoint) {
      OfLongerLog(log, more, t.checkpoint);
    }
  }

  lemma MessageInLongerLog(log: seq<ClientRequest>, more: seq<ClientRequest>, m: Message)
    requires MessageGenuine(log, m)
    ensures MessageGenuine(log + more, m)
  {
    if m.MsgCheckpoint? {
      OfLongerLog(log, more, m.checkpoint);
    } else if m.MsgStatus? {
      AllOfLongerLog(log, more, m.proof);
    }
  }

  // ---------- Steps ----------

  lemma VoteStaysGenuine(log: seq<ClientRequest>, s: StoreState, f: nat, c: Checkpoint)
    requires StoreGenuine(log, s) && OfTheLog(log, c)
    ensures StoreGenuine(log, AddCheckpoint(s, f, c).0)
  {
    if c.seqNo >= StableNumber(s) {
      var voted := AddVote(s, c);
      assert AllOfTheLog(log, voted.unstable[IdOf(c)]);
    }
  }

  lemma {:induction false} CheckpointsOfTheLog(log: seq<ClientRequest>, numbers: seq<nat>, id: string)
    requires forall i | 0 <= i < |numbers| :: numbers[i] <= |log|
    ensures AllOfTheLog(log, CheckpointsOf(BatchesOf(log), numbers, id))
  {
    if numbers != [] {
      CheckpointsOfTheLog(log, numbers[..|numbers| - 1], id);
    }
  }

  /** A sound store takes its checkpoints of the log. */
  lemma CommitTakesGenuine(log: seq<ClientRequest>, s: StoreState, n: int, id: string, interval: Positive)
    requires Sound(log, s)
    ensures AllOfTheLog(log, Commit(s, n, id, interval).1.checkpoints)
  {
    var (s', out) := Commit(s, n, id, interval);
    CommitOfSound(log, s, n, id, interval);
    CheckpointsAreExact(BatchesOf(log), s'.lastApplied, id, interval);
    MultiplesAreExact(s'.lastApplied, interval, 0);
    var all := Transcript(BatchesOf(log), s'.lastApplied, id, interval).checkpoints;
    CheckpointsOfTheLog(log, Multiples(s'.lastApplied, interval), id);
    assert forall c | c in out.checkpoints :: c in all;
  }

  lemma CommitStaysGenuine(log: seq<ClientRequest>, s: StoreState, n: int, id: string, interval: Positive)
    requires StoreGenuine(log, s)
    ensures StoreGenuine(log, Commit(s, n, id, interval).0)
  {
    DrainStopsAtTheGap(MarkCommitted(s, n), id, interval);
  }

  lemma InViewStaysGenuine(log: seq<ClientRequest>, cs: seq<Checkpoint>, view: int)
    requires AllOfTheLog(log, cs)
    ensures AllOfTheLog(log, InView(cs, view))
  {
    forall c | c in InView(cs, view) ensures OfTheLog(log, c) {
      var i :| 0 <= i < |cs| && InView(cs, view)[i] == c;
      assert cs[i] in cs;
    }
  }

  lemma {:induction false} CheckpointTasksGenuine(log: seq<ClientRequest>, cs: seq<Checkpoint>)
    requires AllOfTheLog(log, cs)
    ensures TasksGenuine(log, CheckpointTasks(cs))
  {
    if cs != [] {
      CheckpointTasksGenuine(log, cs[..|cs| - 1]);
    }
  }

  ghost predicate AllMessagesGenuine(log: seq<ClientRequest>, sent: seq<Message>) {
    forall m | m in sent :: MessageGenuine(log, m)
  }

  lemma ExecutionSendsGenuine(cfg: Config, log: seq<ClientRequest>, r: Replica, n: int)
    requires Sound(log, r.store)
    ensures AllMessagesGenuine(log, HandleCommitted(cfg, r, n).sent)
  {
    var out := Commit(r.store, n, cfg.id, cfg.interval).1;
    CommitTakesGenuine(log, r.store, n, cfg.id, cfg.interval);
    InViewStaysGenuine(log, out.checkpoints, r.view);
    assert forall m | m in Announcements(InView(out.checkpoints, r.view)) :: MessageGenuine(log, m);
    assert forall m | m in Replies(cfg, r.view, out) :: MessageGenuine(log, m);
  }

  lemma ExecutionStaysGenuine(cfg: Config, log: seq<ClientRequest>, r: Replica, n: int)
    requires ReplicaGenuine(log, r) && Sound(log, r.store)
    ensures ReplicaGenuine(log, HandleCommitted(cfg, r, n).replica)
  {
    var out := Commit(r.store, n, cfg.id, cfg.interval).1;
    CommitStaysGenuine(log, r.store, n, cfg.id, cfg.interval);
    CommitTakesGenuine(log, r.store, n, cfg.id, cfg.interval);
    InViewStaysGenuine(log, out.checkpoints, r.view);
    CheckpointTasksGenuine(log, InView(out.checkpoints, r.view));
    PlainTasks(r.pending, []);
  }

  /** No checkpoint is new. */
  ghost predicate KeepsCheckpoints(r: Replica, r': Replica) {
    && r'.store.unstable == r.store.unstable && r'.store.lastStable == r.store.lastStable
    && forall t | t in r'.tasks && t.CheckpointTask? :: t in r.tasks
  }

  predicate SaysNoCheckpoint(sent: seq<Message>) {
    forall m | m in sent :: !m.MsgCheckpoint? && !m.MsgStatus?
  }

  lemma KeptStaysGenuine(log: seq<ClientRequest>, r: Replica, r': Replica)
    requires ReplicaGenuine(log, r) && KeepsCheckpoints(r, r')
    ensures ReplicaGenuine(log, r')
  {
  }

  lemma CheckpointStaysGenuine(cfg: Config, log: seq<ClientRequest>, r: Replica, c: Checkpoint)
    requires ReplicaGenuine(log, r) && OfTheLog(log, c)
    ensures ReplicaGenuine(log, HandleCheckpoint(cfg, r, c).replica)
  {
    VoteStaysGenuine(log, r.store, cfg.F(), c);
  }

  lemma StatusStaysGenuine(cfg: Config, log: seq<ClientRequest>, r: Replica, k: int, proof: seq<Checkpoint>)
    requires ReplicaGenuine(log, r) && AllOfTheLog(log, proof)
    ensures ReplicaGenuine(log, HandleStatus(cfg, r, k, proof).replica)
  {
  }

  lemma PrePrepareKeepsCheckpoints(cfg: Config, r: Replica, pp: PrePrepare, batch: Batch)
    ensures var o := HandlePrePrepare(cfg, r, pp, batch); KeepsCheckpoints(r, o.replica) && SaysNoCheckpoint(o.sent)
  {
    var o := HandlePrePrepare(cfg, r, pp, batch);
    if o.sent != [] {
      var r1, own := WithCell(r, pp.seqNo), Vote(pp.view, pp.seqNo, pp.digest, cfg.id);
      var ref := r1.txns[pp.seqNo];
      assert o.replica.tasks == r.tasks + multiset{AddPrePrepareTask(ref, pp)} + multiset{AddPrepareTask(ref, own)};
    }
  }

  lemma VoteKeepsCheckpoints(cfg: Config, r: Replica, v: Vote)
    ensures KeepsCheckpoints(r, HandlePrepare(cfg, r, v).replica) && SaysNoCheckpoint(HandlePrepare(cfg, r, v).sent)
    ensures KeepsCheckpoints(r, HandleCommit(cfg, r, v).replica) && SaysNoCheckpoint(HandleCommit(cfg, r, v).sent)
  {
  }

  lemma ClientKeepsCheckpoints(cfg: Config, r: Replica, req: ClientRequest)
    ensures var o := HandleClient(cfg, r, req); KeepsCheckpoints(r, o.replica) && SaysNoCheckpoint(o.sent)
  {
  }

  lemma CheckKeepsCheckpoints(cfg: Config, r: Replica, ref: nat)
    requires ref < |r.cells| && r.cells[ref].checks > 0
    ensures KeepsCheckpoints(r, CheckCell(cfg, r, ref))
  {
  }

  lemma OtherTasksKeepCheckpoints(cfg: Config, r: Replica, t: Task)
    requires !t.CommittedTask? && !t.CheckpointTask? && (HasRef(t) ==> t.ref < |r.cells|)
    ensures KeepsCheckpoints(r, Perform(cfg, r, t).replica)
    ensures SaysNoCheckpoint(Perform(cfg, r, t).sent)
  {
    match t
    case ClientTask(req) => ClientKeepsCheckpoints(cfg, r, req);
    case HandleCommitTask(v) => VoteKeepsCheckpoints(cfg, r, v);
    case _ =>
  }

  lemma TaskStaysGenuine(cfg: Config, log: seq<ClientRequest>, r: Replica, t: Task)
    requires ReplicaGenuine(log, r) && Sound(log, r.store) && (HasRef(t) ==> t.ref < |r.cells|)
    requires t.CheckpointTask? ==> OfTheLog(log, t.checkpoint)
    ensures var o := Perform(cfg, r, t); ReplicaGenuine(log, o.replica) && AllMessagesGenuine(log, o.sent)
  {
    if t.CommittedTask? {
      ExecutionStaysGenuine(cfg, log, r, t.seqNo);
      ExecutionSendsGenuine(cfg, log, r, t.seqNo);
    } else if t.CheckpointTask? {
      CheckpointStaysGenuine(cfg, log, r, t.checkpoint);
    } else {
      OtherTasksKeepCheckpoints(cfg, r, t);
      KeptStaysGenuine(log, r, Perform(cfg, r, t).replica);
    }
  }

  lemma OtherInputsKeepCheckpoints(cfg: Config, r: Replica, input: Input)
    requires !input.OnCheckpoint? && !input.OnStatus? && !input.OnStatusRequest? && !input.OnNewView? && !input.RunTask?
    requires Ready(cfg, r, input)
    ensures var o := Step(cfg, r, input); KeepsCheckpoints(r, o.replica) && SaysNoCheckpoint(o.sent)
  {
    match input
    case Client(req) => ClientKeepsCheckpoints(cfg, r, req);
    case OnPrePrepare(pp, batch) => PrePrepareKeepsCheckpoints(cfg, r, pp, batch);
    case OnPrepare(v) => VoteKeepsCheckpoints(cfg, r, v);
    case OnCommit(v) => VoteKeepsCheckpoints(cfg, r, v);
    case RunCheck(ref) => CheckKeepsCheckpoints(cfg, r, ref);
    case Timeout(_) =>
    case CastVote(_) =>
  }

  lemma StepStaysGenuine(w: World, log: seq<ClientRequest>, s: System, a: Action)
    requires SystemGenuine(log, s) && Enabled(w, s, a) && HonestMessage(s, a) && Sound(log, s.nodes[a.who].store)
    ensures var o := Step(w.At(a.who), s.nodes[a.who], a.input);
            ReplicaGenuine(log, o.replica) && AllMessagesGenuine(log, o.sent)
  {
    var cfg, r, input := w.At(a.who), s.nodes[a.who], a.input;
    if input.OnCheckpoint? {
      assert MessageGenuine(log, MsgCheckpoint(input.checkpoint));
      CheckpointStaysGenuine(cfg, log, r, input.checkpoint);
    } else if input.OnStatus? {
      assert MessageGenuine(log, MsgStatus(a.who, input.lastStable, input.proof));
      StatusStaysGenuine(cfg, log, r, input.lastStable, input.proof);
    } else if input.RunTask? {
      var r' := r.(tasks := r.tasks - multiset{input.task});
      KeptStaysGenuine(log, r, r');
      TaskStaysGenuine(cfg, log, r', input.task);
    } else if !input.OnStatusRequest? {
      OtherInputsKeepCheckpoints(cfg, r, input);
      KeptStaysGenuine(log, r, Step(cfg, r, input).replica);
    }
  }

  lemma ActStaysGenuine(w: World, run: seq<Action>, a: Action)
    requires SystemGenuine(Log(w, run), After(w, run)) && HonestMessage(After(w, run), a)
    requires a.who in After(w, run).nodes ==> Sound(Log(w, run), After(w, run).nodes[a.who].store)
    ensures SystemGenuine(Log(w, run + [a]), After(w, run + [a]))
  {
    OneAction(w, run, a);
    var s, log := After(w, run), Log(w, run);
    if Enabled(w, s, a) {
      var o := Step(w.At(a.who), s.nodes[a.who], a.input);
      StepStaysGenuine(w, log, s, a);
      GenuineAfter(log, Logged(o.sent), s, a.who, o);
    }
  }

  lemma GenuineAfter(log: seq<ClientRequest>, more: seq<ClientRequest>, s: System, q: string, o: Outcome)
    requires SystemGenuine(log, s) && ReplicaGenuine(log, o.replica) && AllMessagesGenuine(log, o.sent)
    ensures SystemGenuine(log + more, System(s.nodes[q := o.replica], s.sent + SetOf(o.sent)))
  {
    var s' := System(s.nodes[q := o.replica], s.sent + SetOf(o.sent));
    forall k | k in s'.nodes ensures ReplicaGenuine(log + more, s'.nodes[k]) {
      ReplicaInLongerLog(log, more, s'.nodes[k]);
    }
    forall m | m in s'.sent ensures MessageGenuine(log + more, m) {
      MessageInLongerLog(log, more, m);
    }
  }

  // ---------- Jumps ----------

  lemma VoteJumpIsGenuine(log: seq<ClientRequest>, s: StoreState, f: nat, c: Checkpoint)
    requires StoreGenuine(log, s) && OfTheLog(log, c)
    ensures Genuine(log, VoteJump(s, f, c))
  {
    if c.seqNo >= StableNumber(s) {
      var proof := AddVote(s, c).unstable[IdOf(c)];
      assert AllOfTheLog(log, proof) && proof[0] in proof;
    }
  }

  lemma JumpIsGenuine(w: World, run: seq<Action>, a: Action, q: string)
    requires SystemGenuine(Log(w, run), After(w, run)) && HonestMessage(After(w, run), a) && q in After(w, run).nodes
    ensures Genuine(Log(w, run), JumpBy(w, run, a, q))
  {
    var s, log := After(w, run), Log(w, run);
    if a.who == q && Enabled(w, s, a) {
      if VoteIn(a.input).Some? {
        assert a.input.OnCheckpoint? ==> MessageGenuine(log, MsgCheckpoint(a.input.checkpoint));
        VoteJumpIsGenuine(log, s.nodes[q].store, w.F(), VoteIn(a.input).value);
      } else if JumpBy(w, run, a, q).Reported? {
        assert MessageGenuine(log, MsgStatus(q, a.input.lastStable, a.input.proof));
        assert a.input.proof[0] in a.input.proof;
      }
    }
  }

  // ---------- Runs ----------

  ghost predicate EveryoneRight(w: World, run: seq<Action>) {
    forall q | q in w.Correct() :: AlwaysRight(w, run, q)
  }

  ghost predicate EveryoneExact(w: World, run: seq<Action>) {
    forall q | q in w.Correct() :: AllExact(w, run, q)
  }

  ghost predicate EveryoneGenuine(w: World, run: seq<Action>) {
    forall q | q in w.Correct() :: AllGenuine(w, run, q)
  }

  lemma HonestPrefix(w: World, run: seq<Action>)
    requires CrashRun(w, run) && run != []
    ensures CrashRun(w, run[..|run| - 1]) && HonestMessage(After(w, run[..|run| - 1]), run[|run| - 1])
  {
    CrashRunWithoutLast(w, run);
  }

  lemma LastOfEveryone(w: World, run: seq<Action>)
    requires run != []
    ensures var before, a := run[..|run| - 1], run[|run| - 1];
            && (EveryoneRight(w, run) ==> EveryoneRight(w, before))
            && (EveryoneExact(w, run) ==> EveryoneExact(w, before))
            && (EveryoneGenuine(w, run) <==> EveryoneGenuine(w, before)
                                             && forall q | q in w.Correct() :: GenuineAt(w, before, a, q))
  {
    var before, a := run[..|run| - 1], run[|run| - 1];
    forall q | q in w.Correct()
      ensures AlwaysRight(w, run, q) ==> AlwaysRight(w, before, q)
      ensures AllExact(w, run, q) ==> AllExact(w, before, q)
      ensures AllGenuine(w, run, q) <==> AllGenuine(w, before, q) && GenuineAt(w, before, a, q)
    {
      LastGenuine(w, run, q);
      LastExact(w, run, q);
      LastRight(w, run, q);
    }
  }

  lemma CorrectAreNodes(w: World, run: seq<Action>)
    requires CrashRun(w, run)
    ensures After(w, run).nodes.Keys == w.Correct()
  {
    CrashRunsSurvive(w, run);
  }

  lemma EveryoneIsSound(w: World, run: seq<Action>)
    requires CrashRun(w, run) && EveryoneRight(w, run)
    ensures forall q | q in After(w, run).nodes :: Sound(Log(w, run), After(w, run).nodes[q].store)
  {
    CorrectAreNodes(w, run);
    CrashRunsStayInFirstView(w, run);
    RunsFit(w, run);
    forall q | q in After(w, run).nodes ensures Sound(Log(w, run), After(w, run).nodes[q].store) {
      RunsAreFiled(w, run, q);
      assert AlwaysRight(w, run, q) && run[..|run|] == run;
    }
  }

  lemma LastStaysGenuine(w: World, run: seq<Action>)
    requires CrashRun(w, run) && run != [] && EveryoneRight(w, run[..|run| - 1])
    requires SystemGenuine(Log(w, run[..|run| - 1]), After(w, run[..|run| - 1]))
    ensures SystemGenuine(Log(w, run), After(w, run))
  {
    var before, a := run[..|run| - 1], run[|run| - 1];
    HonestPrefix(w, run);
    EveryoneIsSound(w, before);
    ActStaysGenuine(w, before, a);
    assert before + [a] == run;
  }

  /** While everyone's values are right, all checkpoints there are belong to the log. */
  lemma {:induction false} RightRunsAreGenuine(w: World, run: seq<Action>)
    requires CrashRun(w, run) && EveryoneRight(w, run)
    ensures SystemGenuine(Log(w, run), After(w, run))
  {
    if run != [] {
      HonestPrefix(w, run);
      LastOfEveryone(w, run);
      RightRunsAreGenuine(w, run[..|run| - 1]);
      LastStaysGenuine(w, run);
    }
  }

  lemma LastJumpsAreGenuine(w: World, run: seq<Action>)
    requires CrashRun(w, run) && run != []
    requires EveryoneRight(w, run[..|run| - 1]) && EveryoneGenuine(w, run[..|run| - 1])
    ensures EveryoneGenuine(w, run)
  {
    var before, a := run[..|run| - 1], run[|run| - 1];
    HonestPrefix(w, run);
    LastOfEveryone(w, run);
    RightRunsAreGenuine(w, before);
    CorrectAreNodes(w, before);
    forall q | q in w.Correct() ensures GenuineAt(w, before, a, q) {
      JumpIsGenuine(w, before, a, q);
    }
  }

  lemma {:induction false} RightRunsJumpGenuinely(w: World, run: seq<Action>)
    requires CrashRun(w, run) && EveryoneRight(w, run)
    ensures EveryoneGenuine(w, run)
  {
    if run != [] {
      HonestPrefix(w, run);
      LastOfEveryone(w, run);
      RightRunsJumpGenuinely(w, run[..|run| - 1]);
      LastJumpsAreGenuine(w, run);
    }
  }

  lemma GenuineRightIffExact(w: World, run: seq<Action>)
    requires CrashRun(w, run) && UsesEmptyKey(w, run) && EveryoneGenuine(w, run)
    ensures EveryoneRight(w, run) <==> EveryoneExact(w, run)
  {
    CrashRunsStayInFirstView(w, run);
    forall q | q in w.Correct() ensures AlwaysRight(w, run, q) <==> AllExact(w, run, q) {
      RightIffExact(w, run, q);
    }
  }

  lemma LastExactIsGenuine(w: World, run: seq<Action>)
    requires CrashRun(w, run) && UsesEmptyKey(w, run) && run != []
    requires EveryoneExact(w, run[..|run| - 1]) && EveryoneGenuine(w, run[..|run| - 1])
    ensures EveryoneGenuine(w, run)
  {
    HonestPrefix(w, run);
    EmptyKeyBatches(w, run, |run| - 1);
    GenuineRightIffExact(w, run[..|run| - 1]);
    LastJumpsAreGenuine(w, run);
  }

  lemma EmptyKeyBefore(w: World, run: seq<Action>)
    requires UsesEmptyKey(w, run) && run != []
    ensures UsesEmptyKey(w, run[..|run| - 1])
  {
    EmptyKeyBatches(w, run, |run| - 1);
  }

  lemma ExactBefore(w: World, run: seq<Action>)
    requires EveryoneExact(w, run) && run != []
    ensures EveryoneExact(w, run[..|run| - 1])
  {
    LastOfEveryone(w, run);
  }

  lemma {:induction false} ExactRunsAreGenuine(w: World, run: seq<Action>)
    requires CrashRun(w, run) && UsesEmptyKey(w, run) && EveryoneExact(w, run)
    ensures EveryoneGenuine(w, run)
  {
    if run != [] {
      HonestPrefix(w, run);
      EmptyKeyBefore(w, run);
      ExactBefore(w, run);
      ExactRunsAreGenuine(w, run[..|run| - 1]);
      LastExactIsGenuine(w, run);
    }
  }

  /**
   * In a run without liars on the empty key, all replicas' values are at all times those of the numbers they count as
   * applied, exactly if every replica stands where it has to at each of its jumps.
   */
  lemma {:induction false} EveryoneRightIffExact(w: World, run: seq<Action>)
    requires CrashRun(w, run) && UsesEmptyKey(w, run)
    ensures EveryoneRight(w, run) <==> EveryoneExact(w, run)
  {
    if EveryoneRight(w, run) {
      RightRunsJumpGenuinely(w, run);
      GenuineRightIffExact(w, run);
    }
    if EveryoneExact(w, run) {
      ExactRunsAreGenuine(w, run);
      GenuineRightIffExact(w, run);
    }
  }

  /** And then all that is executed is the log's, answered as in a replay. */
  lemma {:induction false} EveryoneExecutesTheLog(w: World, run: seq<Action>, i: nat, q: string, from: int, to: int,
                                                  out: Output)
    requires CrashRun(w, run) && UsesEmptyKey(w, run) && EveryoneExact(w, run) && q in w.Correct()
    requires ExecutesAt(w, run, i, q, from, to, out)
    ensures IsSliceOf(out, Log(w, run), from, to, q, w.interval)
  {
    CrashRunsStayInFirstView(w, run);
    ExactRunsAreGenuine(w, run);
    PrefixIsExact(w, run, i, q);
    ExecutesTheLog(w, run, i, q, from, to, out);
  }
}
