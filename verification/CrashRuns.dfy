/**
 * The whole system in a crash run: every broadcast commit is backed by a certificate its sender still holds,
 * everything that is sent or held agrees with the first primary's log, and every vote was cast.
 */
module CrashRuns {
  import opened Messages
  import opened VoteCollector
  import opened TransactionStates
  import opened Replicas
  import opened Systems
  import opened PreparedQuorum
  import opened FirstView
  import opened CrashFaults
  import opened Freeze
  import opened KeptCollectors

  // ---------- What is true of the whole system ----------

  ghost predicate PreparedAt(w: World, r: Replica, n: int) {
    exists i: int :: 0 <= i < |r.cells| && r.cells[i].seqNo == n && IsComplete(r.cells[i], w.F())
  }

  /** The commits whose sender now holds its certificate for their number. */
  ghost function PreparedNow(w: World, s: System): iset<Vote> {
    iset c: Vote | c.replica in s.nodes && PreparedAt(w, s.nodes[c.replica], c.seqNo)
  }

  ghost predicate Surviving(w: World, log: seq<ClientRequest>, s: System) {
    && SystemOk(w, s, PreparedNow(w, s)) && SystemFits(w, log, s)
    && (forall q | q in s.nodes :: Honest(w, log, s.nodes[q]))
    && (forall m | m in s.sent :: MessageFits(w, log, m))
  }

  // ---------- Steps ----------

  lemma DeliveryMoves(w: World, q: string, log: seq<ClientRequest>, s: System, r: Replica, input: Input)
    requires Honest(w, log, r) && SentFits(w, log, s.sent) && forall m | m in s.sent :: MessageFits(w, log, m)
    requires Authentic(w, s.sent, input) && HonestMessage(s, Action(q, input)) && w.byz == {}
    requires input.OnPrePrepare? || input.OnPrepare? || input.OnCommit? || input.OnCheckpoint? || input.OnStatus?
    ensures var o := Step(w.At(q), r, input);
            && Moves(w, log, r, o.replica) && Logged(o.sent) == []
            && forall m | m in o.sent :: MessageFits(w, log, m)
  {
    match input
    case OnPrePrepare(pp, batch) => PrePrepareMoves(w, q, log, r, pp, batch);
    case OnPrepare(v) => assert MessageFits(w, log, MsgPrepare(v)); VoteMoves(w, q, log, r, v);
    case OnCommit(v) => assert MessageFits(w, log, MsgCommit(v)); VoteMoves(w, q, log, r, v);
    case OnCheckpoint(c) => assert MessageFits(w, log, MsgCheckpoint(c)); CheckpointMoves(w, q, log, r, c);
    case OnStatus(k, proof) => assert MessageFits(w, log, MsgStatus(q, k, proof)); StatusMoves(w, q, log, r, k, proof);
  }

  lemma ReplicaIsSound(w: World, log: seq<ClientRequest>, s: System, q: string)
    requires q in s.nodes && Surviving(w, log, s)
    ensures Honest(w, log, s.nodes[q]) && NodeFits(w, q, log, s.nodes[q]) && RefsOk(s.nodes[q])
  {
    assert NodeOk(w, s.sent, q, PreparedNow(w, s), s.nodes[q]);
  }

  lemma OwnInputMoves(w: World, q: string, log: seq<ClientRequest>, r: Replica, input: Input)
    requires Honest(w, log, r) && CellsFit(w, log, r.cells) && Ready(w.At(q), r, input)
    requires input.OnStatusRequest? || input.Timeout? || input.RunCheck?
    ensures var o := Step(w.At(q), r, input);
            && Moves(w, log, r, o.replica) && Logged(o.sent) == []
            && forall m | m in o.sent :: MessageFits(w, log, m)
  {
    match input
    case OnStatusRequest(from) => StatusRequestFits(w, log, r, from);
    case Timeout(view) => TimeoutMoves(w, log, r, view);
    case RunCheck(ref) => CheckMoves(w, q, log, r, ref);
  }

  lemma ClientInputMoves(w: World, q: string, log: seq<ClientRequest>, r: Replica, req: ClientRequest)
    requires Honest(w, log, r) && NodeFits(w, q, log, r) && RefsOk(r)
    ensures var o := Step(w.At(q), r, Client(req));
            && Moves(w, log + Logged(o.sent), r, o.replica)
            && forall m | m in o.sent :: MessageFits(w, log + Logged(o.sent), m)
  {
    ClientMoves(w, q, log, r, req);
  }

  lemma MessageMoves(w: World, q: string, log: seq<ClientRequest>, s: System, input: Input)
    requires q in s.nodes && Surviving(w, log, s) && Enabled(w, s, Action(q, input))
    requires HonestInput(w, s, Action(q, input))
    requires w.byz == {} && !input.RunTask? && !input.CastVote? && !input.Client?
    ensures var o := Step(w.At(q), s.nodes[q], input);
            && Moves(w, log, s.nodes[q], o.replica) && Logged(o.sent) == []
            && forall m | m in o.sent :: MessageFits(w, log, m)
  {
    ReplicaIsSound(w, log, s, q);
    if input.OnPrePrepare? || input.OnPrepare? || input.OnCommit? || input.OnCheckpoint? || input.OnStatus? {
      DeliveryMoves(w, q, log, s, s.nodes[q], input);
    } else {
      OwnInputMoves(w, q, log, s.nodes[q], input);
    }
  }

  lemma TimeoutMoves(w: World, log: seq<ClientRequest>, r: Replica, newView: int)
    requires Honest(w, log, r)
    ensures Moves(w, log, r, HandleTimeout(r, newView).replica)
  {
    var r1 := r.(inViewChange := true);
    forall t | t in r1.tasks ensures TaskHonest(w, log, r1, t) {
      assert TaskHonest(w, log, r, t);
    }
    SpawnMoves(w, log, r1, VoteTask(newView));
  }

  lemma FewerTasksFit(w: World, q: string, log: seq<ClientRequest>, r: Replica, t: Task)
    requires NodeFits(w, q, log, r)
    ensures NodeFits(w, q, log, r.(tasks := r.tasks - multiset{t}))
  {
  }

  lemma CollectingMoves(w: World, q: string, log: seq<ClientRequest>, sent: set<Message>, r: Replica, t: Task)
    requires Honest(w, log, r) && NodeFits(w, q, log, r) && CellsOk(w, sent, r.cells)
    requires t in r.tasks && HasRef(t) && t.ref < |r.cells|
    requires t.AddPrePrepareTask? ==> t.preprepare.seqNo == r.cells[t.ref].seqNo
    ensures var o := Step(w.At(q), r, RunTask(t)); Moves(w, log, r, o.replica) && o.sent == []
  {
    var r' := r.(tasks := r.tasks - multiset{t});
    TaskIsFit(w, q, log, r, t);
    TaskRemovedMoves(w, log, r, t);
    CollectorTaskMoves(w, q, log, sent, r', t);
    RunsTask(w.At(q), r, t);
  }

  lemma TaskIsFit(w: World, q: string, log: seq<ClientRequest>, r: Replica, t: Task)
    requires Honest(w, log, r) && NodeFits(w, q, log, r) && t in r.tasks
    ensures TaskHonest(w, log, r, t) && TaskFits(w, q, log, r.cells, t)
  {
  }

  lemma RunsTask(cfg: Config, r: Replica, t: Task)
    requires t in r.tasks && HasRef(t) && t.ref < |r.cells|
    ensures Step(cfg, r, RunTask(t)) == Perform(cfg, r.(tasks := r.tasks - multiset{t}), t)
  {
  }

  lemma TaskMoves(w: World, q: string, log: seq<ClientRequest>, s: System, t: Task)
    requires q in s.nodes && Surviving(w, log, s) && Enabled(w, s, Action(q, RunTask(t)))
    ensures var o := Step(w.At(q), s.nodes[q], RunTask(t));
            && Moves(w, log + Logged(o.sent), s.nodes[q], o.replica)
            && forall m | m in o.sent :: MessageFits(w, log + Logged(o.sent), m)
  {
    var r := s.nodes[q];
    assert log + [] == log && NodeFits(w, q, log, r) && NodeOk(w, s.sent, q, PreparedNow(w, s), r);
    if HasRef(t) {
      assert TaskOk(w, s.sent, q, PreparedNow(w, s), r.cells, t);
      CollectingMoves(w, q, log, s.sent, r, t);
    } else {
      assert TaskHonest(w, log, r, t);
      TaskRemovedMoves(w, log, r, t);
      FewerTasksFit(w, q, log, r, t);
      OtherTaskMoves(w, q, log, r.(tasks := r.tasks - multiset{t}), t);
    }
  }

  lemma StepMoves(w: World, log: seq<ClientRequest>, s: System, a: Action)
    requires Surviving(w, log, s) && Enabled(w, s, a) && HonestInput(w, s, a) && w.byz == {}
    ensures var o := Step(w.At(a.who), s.nodes[a.who], a.input);
            && Moves(w, log + Logged(o.sent), s.nodes[a.who], o.replica)
            && forall m | m in o.sent :: MessageFits(w, log + Logged(o.sent), m)
  {
    assert a == Action(a.who, a.input) && log + [] == log;
    match a.input
    case RunTask(t) => TaskMoves(w, a.who, log, s, t);
    case CastVote(vc) =>
      TaskRemovedMoves(w, log, s.nodes[a.who], VoteTask(vc.newView));
    case Client(req) =>
      ReplicaIsSound(w, log, s, a.who);
      ClientInputMoves(w, a.who, log, s.nodes[a.who], req);
    case _ => MessageMoves(w, a.who, log, s, a.input);
  }

  lemma PreparedStays(w: World, r: Replica, r': Replica, n: int)
    requires PreparedAt(w, r, n) && Advances(w, r.cells, r'.cells)
    ensures PreparedAt(w, r', n)
  {
    var i :| 0 <= i < |r.cells| && r.cells[i].seqNo == n && IsComplete(r.cells[i], w.F());
    assert CellAdvances(w, r.cells[i], r'.cells[i]);
  }

  lemma PreparedStaysNow(w: World, s: System, q: string, r': Replica, sent: set<Message>)
    requires q in s.nodes && Advances(w, s.nodes[q].cells, r'.cells)
    ensures PreparedNow(w, s) <= PreparedNow(w, System(s.nodes[q := r'], sent))
  {
    forall c | c in PreparedNow(w, s) ensures c in PreparedNow(w, System(s.nodes[q := r'], sent)) {
      if c.replica == q {
        PreparedStays(w, s.nodes[q], r', c.seqNo);
      }
    }
  }

  lemma HeldIsPrepared(w: World, log: seq<ClientRequest>, s: System, c: Vote)
    requires Surviving(w, log, s) && HoldsNow(w, s, c)
    ensures c in PreparedNow(w, s)
  {
    var r := s.nodes[c.replica];
    var i :| 0 <= i < |r.cells| && Holds(w, s.sent, r.cells[i].votes, c);
    assert CellOk(w, s.sent, r.cells[i]);
    assert r.cells[i].seqNo == c.seqNo && IsComplete(r.cells[i], w.F());
  }

  lemma PreparedGrows(w: World, log: seq<ClientRequest>, s: System, a: Action)
    requires Surviving(w, log, s) && HonestInput(w, s, a) && w.byz == {}
    ensures PreparedNow(w, s) <= PreparedNow(w, Act(w, s, a))
  {
    var s' := Act(w, s, a);
    if Enabled(w, s, a) {
      StepMoves(w, log, s, a);
      PreparedStaysNow(w, s, a.who, s'.nodes[a.who], s'.sent);
    }
  }

  lemma TasksCastNoVote(cfg: Config, r: Replica, t: Task)
    requires HasRef(t) ==> t.ref < |r.cells|
    ensures forall m | m in Perform(cfg, r, t).sent :: !m.MsgViewChange?
  {
    if t.CommittedTask? {
      CommittedSends(cfg, r, t.seqNo);
    }
  }

  lemma {:induction false} InstallSendsPrepares(cfg: Config, r: Replica, pps: seq<PrePrepare>)
    ensures forall m | m in Install(cfg, r, pps).sent :: m.MsgPrepare?
  {
    if pps != [] {
      InstallSendsPrepares(cfg, r, pps[..|pps| - 1]);
    }
  }

  lemma NewViewCastsNoVote(cfg: Config, r: Replica, nv: NewView)
    requires HandleNewView(cfg, r, nv).Some?
    ensures forall m | m in HandleNewView(cfg, r, nv).value.sent :: m.MsgPrepare?
  {
    InstallSendsPrepares(cfg, EnterView(r, nv.newView, FirstNumber(nv), nv.replica), nv.preprepares);
  }

  lemma OnlyCastVoteVotes(cfg: Config, r: Replica, input: Input, vc: ViewChange)
    requires MsgViewChange(vc) in Step(cfg, r, input).sent
    ensures input == CastVote(vc) && Ready(cfg, r, input)
  {
    if Ready(cfg, r, input) && input.OnNewView? {
      NewViewCastsNoVote(cfg, r, input.newView);
    }
    if Ready(cfg, r, input) && input.RunTask? {
      TasksCastNoVote(cfg, r.(tasks := r.tasks - multiset{input.task}), input.task);
    }
  }

  lemma OthersStayHonest(w: World, log: seq<ClientRequest>, s: System, a: Action)
    requires Surviving(w, log, s) && Enabled(w, s, a) && HonestInput(w, s, a) && w.byz == {}
    ensures var log' := log + Logged(Step(w.At(a.who), s.nodes[a.who], a.input).sent);
            && (forall q | q in Act(w, s, a).nodes :: Honest(w, log', Act(w, s, a).nodes[q]))
            && (forall m | m in Act(w, s, a).sent :: MessageFits(w, log', m))
  {
    var s' := Act(w, s, a);
    var more := Logged(Step(w.At(a.who), s.nodes[a.who], a.input).sent);
    StepMoves(w, log, s, a);
    forall q | q in s'.nodes ensures Honest(w, log + more, s'.nodes[q]) {
      if q != a.who {
        HonestLongerLog(w, log, more, s.nodes[q]);
      }
    }
    forall m | m in s'.sent ensures MessageFits(w, log + more, m) {
      if m in s.sent {
        assert MessageFits(w, log, m);
      }
    }
  }

  /** The proofs in honest status responses are of the first view. */
  lemma HonestStays(w: World, log: seq<ClientRequest>, s: System, a: Action)
    requires Surviving(w, log, s) && HonestInput(w, s, a)
    ensures StaysInFirstView(w, s, a)
  {
    if a.input.OnStatus? {
      assert MessageFits(w, log, MsgStatus(a.who, a.input.lastStable, a.input.proof));
      FirstViewProof(log, a.input.proof);
    }
  }

  lemma ActSurvives(w: World, log: seq<ClientRequest>, s: System, a: Action)
    requires Surviving(w, log, s) && HonestInput(w, s, a) && w.byz == {}
    ensures Surviving(w, if Enabled(w, s, a)
                         then log + Logged(Step(w.At(a.who), s.nodes[a.who], a.input).sent)
                         else log,
                      Act(w, s, a))
  {
    var s' := Act(w, s, a);
    PreparedGrows(w, log, s, a);
    forall c | HoldsNow(w, s, c) ensures c in PreparedNow(w, s') {
      HeldIsPrepared(w, log, s, c);
    }
    ActOk(w, s, a, PreparedNow(w, s), PreparedNow(w, s'));
    HonestStays(w, log, s, a);
    ActFits(w, s, a, log);
    if Enabled(w, s, a) {
      OthersStayHonest(w, log, s, a);
    }
  }

  lemma CrashRunWithoutLast(w: World, run: seq<Action>)
    requires CrashRun(w, run) && run != []
    ensures var before := run[..|run| - 1];
            CrashRun(w, before) && HonestInput(w, After(w, before), run[|run| - 1])
  {
    var before := run[..|run| - 1];
    assert forall i | 0 <= i < |before| :: before[..i] == run[..i];
    assert run[..|before|] == before;
  }

  lemma {:induction false} CrashRunsSurvive(w: World, run: seq<Action>)
    requires CrashRun(w, run)
    ensures Surviving(w, Log(w, run), After(w, run))
  {
    if run != [] {
      CrashRunWithoutLast(w, run);
      CrashRunsSurvive(w, run[..|run| - 1]);
      ActSurvives(w, Log(w, run[..|run| - 1]), After(w, run[..|run| - 1]), run[|run| - 1]);
    }
  }

  lemma CrashRunPrefix(w: World, run: seq<Action>, i: nat)
    requires CrashRun(w, run) && i <= |run|
    ensures CrashRun(w, run[..i])
  {
    assert forall j | 0 <= j < i :: run[..i][..j] == run[..j];
  }

  lemma CrashRunsStayInFirstView(w: World, run: seq<Action>)
    requires CrashRun(w, run)
    ensures FirstViewRun(w, run)
  {
    forall i | 0 <= i < |run| ensures StaysInFirstView(w, After(w, run[..i]), run[i]) {
      CrashRunPrefix(w, run, i);
      CrashRunsSurvive(w, run[..i]);
      HonestStays(w, Log(w, run[..i]), After(w, run[..i]), run[i]);
    }
  }

  // ---------- Commits ----------

  /** At the i-th action of the run, q's committed callback fires for number n. */
  ghost predicate CommitsAt(w: World, run: seq<Action>, i: nat, q: string, n: int) {
    && i < |run| && run[i].who == q && run[i].input.RunCheck?
    && var s, ref := After(w, run[..i]), run[i].input.ref;
       && Enabled(w, s, run[i]) && Check(s.nodes[q].cells[ref].votes, q).decided == Some(n)
  }

  lemma {:induction false} SentStays(w: World, run: seq<Action>, i: nat)
    requires i <= |run|
    ensures After(w, run[..i]).sent <= After(w, run).sent
  {
    if i == |run| {
      assert run[..i] == run;
    } else {
      var before := run[..|run| - 1];
      SentStays(w, before, i);
      assert before[..i] == run[..i];
    }
  }

  ghost predicate SaidCommitted(sent: set<Message>, k: string, n: int) {
    exists c :: MsgCommit(c) in sent && c.replica == k && c.seqNo == n
  }

  lemma CommittersOfCell(w: World, sent: set<Message>, cell: Cell, q: string)
    requires CellOk(w, sent, cell) && w.byz == {} && Check(cell.votes, q).decided.Some?
    ensures cell.votes.preprepare.Some? && Check(cell.votes, q).decided.value == cell.votes.preprepare.value.seqNo
    ensures |cell.votes.commits.Keys| >= 2 * w.F() + 1
    ensures forall k | k in cell.votes.commits.Keys :: SaidCommitted(sent, k, cell.votes.preprepare.value.seqNo)
  {
    forall k | k in cell.votes.commits.Keys ensures SaidCommitted(sent, k, cell.seqNo) {
      assert Genuine(w, MsgCommit(cell.votes.commits[k]), sent, cell, k, cell.votes.commits[k]);
    }
  }

  lemma CellOfReplica(w: World, log: seq<ClientRequest>, s: System, q: string, ref: nat)
    requires Surviving(w, log, s) && q in s.nodes && ref < |s.nodes[q].cells|
    ensures CellOk(w, s.sent, s.nodes[q].cells[ref])
  {
    assert NodeOk(w, s.sent, q, PreparedNow(w, s), s.nodes[q]);
  }

  /** A fired committed callback: 2F+1 replicas said so, and each of them still holds its certificate. */
  lemma CommittersOf(w: World, log: seq<ClientRequest>, s: System, q: string, ref: nat, n: int)
      returns (committers: set<string>)
    requires Surviving(w, log, s) && w.byz == {} && q in s.nodes && ref < |s.nodes[q].cells|
    requires Check(s.nodes[q].cells[ref].votes, q).decided == Some(n)
    ensures |committers| >= 2 * w.F() + 1 && forall k | k in committers :: SaidCommitted(s.sent, k, n)
  {
    CellOfReplica(w, log, s, q, ref);
    CommittersOfCell(w, s.sent, s.nodes[q].cells[ref], q);
    committers := s.nodes[q].cells[ref].votes.commits.Keys;
  }

  /** Those who said n is committed when q did have said so at the end of the run. */
  lemma {:induction false} CommittersInRun(w: World, run: seq<Action>, i: nat, q: string, n: int)
      returns (committers: set<string>)
    requires CrashRun(w, run) && CommitsAt(w, run, i, q, n)
    ensures |committers| >= 2 * w.F() + 1 && forall k | k in committers :: SaidCommitted(After(w, run).sent, k, n)
  {
    CrashRunPrefix(w, run, i);
    CrashRunsSurvive(w, run[..i]);
    committers := CommittersOf(w, Log(w, run[..i]), After(w, run[..i]), q, run[i].input.ref, n);
    SentStays(w, run, i);
    assert forall k | k in committers :: SaidCommitted(After(w, run[..i]).sent, k, n);
  }

  /** A replica that said n is committed holds its certificate for n. */
  lemma CommitterIsPrepared(w: World, log: seq<ClientRequest>, s: System, k: string, n: int)
    requires Surviving(w, log, s) && SaidCommitted(s.sent, k, n)
    ensures k in s.nodes && PreparedAt(w, s.nodes[k], n) && 1 <= n <= |log|
  {
    var c :| MsgCommit(c) in s.sent && c.replica == k && c.seqNo == n;
    assert c in PreparedNow(w, s);
    assert MessageFits(w, log, MsgCommit(c));
  }

  // ---------- Votes ----------

  /** At the i-th action of the run, vc's sender casts the vote vc. */
  ghost predicate CastAt(w: World, run: seq<Action>, i: nat, vc: ViewChange) {
    i < |run| && run[i] == Action(vc.replica, CastVote(vc)) && Enabled(w, After(w, run[..i]), run[i])
  }

  /** The sender as it was then. */
  ghost function Caster(w: World, run: seq<Action>, i: nat, vc: ViewChange): Replica
    requires CastAt(w, run, i, vc)
  {
    After(w, run[..i]).nodes[vc.replica]
  }

  lemma {:induction false} SentVoteWasCast(w: World, run: seq<Action>, vc: ViewChange) returns (i: nat)
    requires MsgViewChange(vc) in After(w, run).sent
    ensures CastAt(w, run, i, vc)
  {
    var before, a := run[..|run| - 1], run[|run| - 1];
    var s := After(w, before);
    if MsgViewChange(vc) in s.sent {
      i := SentVoteWasCast(w, before, vc);
      assert before[..i] == run[..i];
    } else {
      OnlyCastVoteVotes(w.At(a.who), s.nodes[a.who], a.input, vc);
      i := |before|;
      assert run[..i] == before && a == Action(a.who, a.input);
    }
  }

  // ---------- Status responses ----------

  /** The i-th action of the run makes q install a status response. */
  ghost predicate ResetAt(w: World, run: seq<Action>, i: nat, q: string) {
    i < |run| && run[i].who == q && InstallsStatus(After(w, run[..i]), run[i])
  }

  ghost predicate NotResetSince(w: World, run: seq<Action>, i: nat, q: string) {
    forall j: nat | i <= j :: !ResetAt(w, run, j, q)
  }

  lemma NotResetBefore(w: World, run: seq<Action>, i: nat, q: string)
    requires run != [] && NotResetSince(w, run, i, q)
    ensures NotResetSince(w, run[..|run| - 1], i, q)
    ensures i <= |run| - 1 && run[|run| - 1].who == q ==> !InstallsStatus(After(w, run[..|run| - 1]), run[|run| - 1])
  {
    var before := run[..|run| - 1];
    forall j: nat | i <= j ensures !ResetAt(w, before, j, q) {
      if j < |before| {
        assert before[..j] == run[..j] && !ResetAt(w, run, j, q);
      }
    }
    if i <= |before| {
      assert run[..|before|] == before && !ResetAt(w, run, |before|, q);
    }
  }

  lemma NotResetInPrefix(w: World, run: seq<Action>, i: nat, j: nat, q: string)
    requires NotResetSince(w, run, i, q) && j <= |run|
    ensures NotResetSince(w, run[..j], i, q)
  {
    forall k: nat | i <= k ensures !ResetAt(w, run[..j], k, q) {
      if k < j {
        assert run[..j][..k] == run[..k] && !ResetAt(w, run, k, q);
      }
    }
  }

  /** A replica in the view change stays as frozen as it is, unless it installs a status response. */
  lemma {:induction false} FrozenSince(w: World, run: seq<Action>, i: nat, q: string)
    requires CrashRun(w, run) && i <= |run| && q in After(w, run[..i]).nodes && After(w, run[..i]).nodes[q].inViewChange
    requires NotResetSince(w, run, i, q)
    ensures q in After(w, run).nodes && StaysFrozen(After(w, run[..i]).nodes[q], After(w, run).nodes[q])
  {
    if i == |run| {
      assert run[..i] == run;
    } else {
      var before, a := run[..|run| - 1], run[|run| - 1];
      assert before[..i] == run[..i];
      CrashRunWithoutLast(w, run);
      NotResetBefore(w, run, i, q);
      FrozenSince(w, before, i, q);
      if a.who == q && Enabled(w, After(w, before), a) {
        StepStaysFrozen(w.At(q), After(w, before).nodes[q], a.input);
      }
    }
  }

  /** So what the sender of a vote completes later was, when it cast the vote, complete or about to be. */
  lemma LaterCompletedWasDue(w: World, run: seq<Action>, i: nat, q: string, ref: nat)
    requires CrashRun(w, run) && i <= |run| && q in After(w, run[..i]).nodes && After(w, run[..i]).nodes[q].inViewChange
    requires NotResetSince(w, run, i, q)
    requires q in After(w, run).nodes && ref < |After(w, run).nodes[q].cells|
    requires IsComplete(After(w, run).nodes[q].cells[ref], w.F())
    ensures var r := After(w, run[..i]).nodes[q];
            Completes(w.F(), r, ref) && r.cells[ref].seqNo == After(w, run).nodes[q].cells[ref].seqNo
  {
    FrozenSince(w, run, i, q);
    CompleteCompletes(w.F(), After(w, run).nodes[q], ref);
    NoMoreCompletes(w.F(), After(w, run[..i]).nodes[q], After(w, run).nodes[q], ref);
  }

  /** Until it installs a status response, a replica gives up a collector only when its number is stable. */
  lemma {:induction false} KeptUnlessReset(w: World, run: seq<Action>, q: string)
    requires CrashRun(w, run) && q in After(w, run).nodes && NotResetSince(w, run, 0, q)
    ensures Kept(After(w, run).nodes[q])
  {
    if run != [] {
      var before, a := run[..|run| - 1], run[|run| - 1];
      CrashRunWithoutLast(w, run);
      NotResetBefore(w, run, 0, q);
      KeptUnlessReset(w, before, q);
      if a.who == q && Enabled(w, After(w, before), a) {
        CrashRunsSurvive(w, before);
        NumberIsNew(w, Log(w, before), After(w, before), q);
        StepKeeps(w.At(q), After(w, before).nodes[q], a.input);
      }
    }
  }

  lemma NumberIsNew(w: World, log: seq<ClientRequest>, s: System, q: string)
    requires Surviving(w, log, s) && q in s.nodes
    ensures IsPrimary(w.At(q), s.nodes[q]) ==> s.nodes[q].lastSeq + 1 !in s.nodes[q].txns
  {
    ReplicaIsSound(w, log, s, q);
    NextNumberIsNew(log, s.nodes[q]);
  }
}
