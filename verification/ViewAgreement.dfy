/**
 * A view in which there is one digest per number: everything a replica holds or says for that view agrees with it,
 * and no collector of the view ever loses its certificate, through whatever other views the run goes.
 */
module ViewAgreement {
  import opened Messages
  import opened VoteCollector
  import opened TransactionStates
  import opened Replicas
  import opened Systems
  import opened PreparedQuorum
  import opened OneView
  import opened Freeze
  import opened ViewChangeRules
  import opened HonestViews

  /** The one digest of each number. */
  type Digests = int -> string

  ghost predicate PrePrepareAgrees(v: int, d: Digests, pp: PrePrepare) {
    pp.view == v ==> pp.digest == d(pp.seqNo)
  }

  ghost predicate VoteAgrees(v: int, d: Digests, x: Vote) {
    x.view == v ==> x.digest == d(x.seqNo)
  }

  /** Nobody lies, and whatever pre-prepares of view v are sent or announced have the digests d. */
  ghost predicate AgreesInView(w: World, run: seq<Action>, v: int, d: Digests) {
    && HonestRun(w, run)
    && (forall pp, batch | MsgPrePrepare(pp, batch) in After(w, run).sent :: PrePrepareAgrees(v, d, pp))
    && forall a | a in run && a.input.OnNewView? ::
         forall pp | pp in a.input.newView.preprepares :: PrePrepareAgrees(v, d, pp)
  }

  // ---------- What agrees ----------

  ghost predicate MessageAgrees(v: int, d: Digests, m: Message) {
    && (m.MsgPrePrepare? ==> PrePrepareAgrees(v, d, m.preprepare))
    && (m.MsgPrepare? ==> VoteAgrees(v, d, m.prepare))
    && (m.MsgCommit? ==> VoteAgrees(v, d, m.commit))
  }

  ghost predicate AllHave(votes: VoteMap, digest: string) {
    forall k | k in votes :: votes[k].digest == digest
  }

  ghost predicate CellAgrees(v: int, d: Digests, cell: Cell) {
    cell.view == v ==>
      && (cell.votes.preprepare.Some? ==> cell.votes.preprepare.value.digest == d(cell.seqNo))
      && AllHave(cell.votes.prepares, d(cell.seqNo)) && AllHave(cell.votes.commits, d(cell.seqNo))
  }

  ghost predicate TaskAgrees(v: int, d: Digests, t: Task) {
    match t
    case AddPrePrepareTask(_, pp) => PrePrepareAgrees(v, d, pp)
    case AddPrepareTask(_, x) => VoteAgrees(v, d, x)
    case AddCommitTask(_, x) => VoteAgrees(v, d, x)
    case PreparedTask(c) => VoteAgrees(v, d, c)
    case HandleCommitTask(c) => VoteAgrees(v, d, c)
    case _ => true
  }

  ghost predicate ReplicaAgrees(v: int, d: Digests, r: Replica) {
    && (forall i | 0 <= i < |r.cells| :: CellAgrees(v, d, r.cells[i]))
    && (forall t | t in r.tasks :: TaskAgrees(v, d, t))
  }

  ghost predicate AllAgree(v: int, d: Digests, sent: seq<Message>) {
    forall m | m in sent :: MessageAgrees(v, d, m)
  }

  ghost predicate SystemAgrees(v: int, d: Digests, s: System) {
    && (forall q | q in s.nodes :: ReplicaAgrees(v, d, s.nodes[q]))
    && (forall m | m in s.sent :: MessageAgrees(v, d, m))
  }

  // ---------- No certificate of the view is lost ----------

  ghost predicate CellAdvancesIn(f: nat, v: int, cell: Cell, cell': Cell) {
    && cell'.seqNo == cell.seqNo && cell'.view == cell.view
    && (cell.view == v && IsComplete(cell, f) ==> IsComplete(cell', f))
  }

  ghost predicate AdvancesIn(f: nat, v: int, cells: seq<Cell>, cells': seq<Cell>) {
    |cells| <= |cells'| && forall i | 0 <= i < |cells| :: CellAdvancesIn(f, v, cells[i], cells'[i])
  }

  lemma AllKept(votes: VoteMap, digest: string)
    requires AllHave(votes, digest)
    ensures Matching(votes, digest) == votes
  {
  }

  lemma PrePrepareCellAgrees(f: nat, v: int, d: Digests, cell: Cell, pp: PrePrepare)
    requires CellAgrees(v, d, cell) && pp.seqNo == cell.seqNo && pp.view == cell.view && PrePrepareAgrees(v, d, pp)
    ensures CellAgrees(v, d, PrePrepareCell(cell, f, pp)) && CellAdvancesIn(f, v, cell, PrePrepareCell(cell, f, pp))
  {
    if cell.view == v {
      AllKept(cell.votes.prepares, pp.digest);
      AllKept(cell.votes.commits, pp.digest);
    }
  }

  lemma VoteCellAgrees(f: nat, v: int, d: Digests, cell: Cell, x: Vote)
    requires CellAgrees(v, d, cell) && x.seqNo == cell.seqNo && x.view == cell.view && VoteAgrees(v, d, x)
    ensures CellAgrees(v, d, PrepareCell(cell, f, x)) && CellAdvancesIn(f, v, cell, PrepareCell(cell, f, x))
    ensures CellAgrees(v, d, CommitCell(cell, f, x)) && CellAdvancesIn(f, v, cell, CommitCell(cell, f, x))
  {
    InsertCard(cell.votes.prepares, x);
  }

  // ---------- Handlers ----------

  ghost predicate StaysAgreed(f: nat, v: int, d: Digests, r: Replica, r': Replica) {
    ReplicaAgrees(v, d, r') && AdvancesIn(f, v, r.cells, r'.cells)
  }

  lemma SpawnAgrees(v: int, d: Digests, r: Replica, t: Task)
    requires ReplicaAgrees(v, d, r) && TaskAgrees(v, d, t)
    ensures ReplicaAgrees(v, d, Spawn(r, t))
  {
  }

  /** Only tasks that say nothing of digests are new, and no collector changes. */
  ghost predicate SaysNothingNew(r: Replica, r': Replica) {
    r'.cells == r.cells && forall t | t in r'.tasks :: t in r.tasks || t.CheckpointTask? || t.ClientTask? || t.VoteTask?
  }

  lemma NothingNewAgrees(f: nat, v: int, d: Digests, r: Replica, r': Replica)
    requires ReplicaAgrees(v, d, r) && SaysNothingNew(r, r')
    ensures StaysAgreed(f, v, d, r, r')
  {
  }

  lemma WithCellAgrees(f: nat, v: int, d: Digests, r: Replica, n: int)
    requires ReplicaAgrees(v, d, r)
    ensures StaysAgreed(f, v, d, r, WithCell(r, n))
  {
  }

  lemma ClientAgrees(cfg: Config, v: int, d: Digests, r: Replica, req: ClientRequest)
    requires ReplicaAgrees(v, d, r)
    requires forall m | m in HandleClient(cfg, r, req).sent && m.MsgPrePrepare? :: PrePrepareAgrees(v, d, m.preprepare)
    ensures StaysAgreed(cfg.F(), v, d, r, HandleClient(cfg, r, req).replica)
    ensures AllAgree(v, d, HandleClient(cfg, r, req).sent)
  {
    var o := HandleClient(cfg, r, req);
    if |o.replica.cells| > |r.cells| {
      var n := r.lastSeq + 1;
      var pp := PrePrepare(r.view, n, cfg.digestOf(req));
      assert MsgPrePrepare(pp, Some([req])) in o.sent;
      PrePrepareCellAgrees(cfg.F(), v, d, Cell(n, r.view, EMPTY, 0), pp);
    }
  }

  lemma PrePrepareRequestAgrees(cfg: Config, v: int, d: Digests, r: Replica, pp: PrePrepare, batch: Batch)
    requires ReplicaAgrees(v, d, r) && PrePrepareAgrees(v, d, pp)
    ensures StaysAgreed(cfg.F(), v, d, r, HandlePrePrepare(cfg, r, pp, batch).replica)
    ensures AllAgree(v, d, HandlePrePrepare(cfg, r, pp, batch).sent)
  {
    var o := HandlePrePrepare(cfg, r, pp, batch);
    if o.sent != [] {
      var r0 := r.(inProgress := r.inProgress + {pp.seqNo});
      var r1, own := WithCell(r0, pp.seqNo), Vote(pp.view, pp.seqNo, pp.digest, cfg.id);
      var ref := r1.txns[pp.seqNo];
      WithCellAgrees(cfg.F(), v, d, r0, pp.seqNo);
      SpawnAgrees(v, d, r1, AddPrePrepareTask(ref, pp));
      SpawnAgrees(v, d, Spawn(r1, AddPrePrepareTask(ref, pp)), AddPrepareTask(ref, own));
    }
  }

  lemma VoteRequestAgrees(cfg: Config, v: int, d: Digests, r: Replica, x: Vote)
    requires ReplicaAgrees(v, d, r) && VoteAgrees(v, d, x)
    ensures StaysAgreed(cfg.F(), v, d, r, HandlePrepare(cfg, r, x).replica)
    ensures StaysAgreed(cfg.F(), v, d, r, HandleCommit(cfg, r, x).replica)
  {
    WithCellAgrees(cfg.F(), v, d, r, x.seqNo);
    var r1 := WithCell(r, x.seqNo);
    SpawnAgrees(v, d, r1, AddPrepareTask(r1.txns[x.seqNo], x));
    SpawnAgrees(v, d, r1, AddCommitTask(r1.txns[x.seqNo], x));
  }

  lemma {:induction false} InstallAgrees(cfg: Config, v: int, d: Digests, r: Replica, pps: seq<PrePrepare>)
    requires ReplicaAgrees(v, d, r) && forall pp | pp in pps :: PrePrepareAgrees(v, d, pp) && pp.view == r.view
    ensures var o := Install(cfg, r, pps);
            StaysAgreed(cfg.F(), v, d, r, o.replica) && AllAgree(v, d, o.sent) && o.replica.view == r.view
  {
    if pps != [] {
      InstallAgrees(cfg, v, d, r, pps[..|pps| - 1]);
      var pp := pps[|pps| - 1];
      var own, cell := Vote(pp.view, pp.seqNo, pp.digest, cfg.id), Cell(pp.seqNo, r.view, EMPTY, 0);
      PrePrepareCellAgrees(cfg.F(), v, d, cell, pp);
      VoteCellAgrees(cfg.F(), v, d, PrePrepareCell(cell, cfg.F(), pp), own);
    }
  }

  lemma NewViewAgrees(cfg: Config, v: int, d: Digests, r: Replica, nv: NewView)
    requires ReplicaAgrees(v, d, r) && HandleNewView(cfg, r, nv).Some? && NumbersItsOwnView(nv)
    requires forall pp | pp in nv.preprepares :: PrePrepareAgrees(v, d, pp)
    ensures var o := HandleNewView(cfg, r, nv).value;
            StaysAgreed(cfg.F(), v, d, r, o.replica) && AllAgree(v, d, o.sent)
  {
    if nv.newView >= r.view {
      InstallAgrees(cfg, v, d, EnterView(r, nv.newView, FirstNumber(nv), nv.replica), nv.preprepares);
    }
  }

  lemma CommittedAgrees(cfg: Config, v: int, d: Digests, r: Replica, n: int)
    requires ReplicaAgrees(v, d, r)
    ensures StaysAgreed(cfg.F(), v, d, r, HandleCommitted(cfg, r, n).replica)
    ensures AllAgree(v, d, HandleCommitted(cfg, r, n).sent)
  {
    CommittedTasks(cfg, r, n);
    CommittedSends(cfg, r, n);
    NothingNewAgrees(cfg.F(), v, d, r, HandleCommitted(cfg, r, n).replica);
  }

  lemma CellChangeAgrees(f: nat, v: int, d: Digests, r: Replica, ref: nat, cell: Cell)
    requires ReplicaAgrees(v, d, r) && ref < |r.cells|
    requires CellAgrees(v, d, cell) && CellAdvancesIn(f, v, r.cells[ref], cell)
    ensures StaysAgreed(f, v, d, r, r.(cells := r.cells[ref := cell]))
  {
  }

  lemma CheckAgrees(cfg: Config, v: int, d: Digests, r: Replica, ref: nat)
    requires ReplicaAgrees(v, d, r) && ref < |r.cells| && r.cells[ref].checks > 0
    requires var pp := r.cells[ref].votes.preprepare;
             pp.Some? ==> pp.value.seqNo == r.cells[ref].seqNo && pp.value.view == r.cells[ref].view
    ensures StaysAgreed(cfg.F(), v, d, r, CheckCell(cfg, r, ref))
  {
    var cell, c := r.cells[ref], Check(r.cells[ref].votes, cfg.id);
    var cell' := cell.(votes := c.votes, checks := cell.checks - 1);
    assert CellAgrees(v, d, cell) && CellAgrees(v, d, cell');
    CellChangeAgrees(cfg.F(), v, d, r, ref, cell');
    var r1 := r.(cells := r.cells[ref := cell']);
    var r2 := if c.commit.Some? then Spawn(r1, PreparedTask(c.commit.value)) else r1;
    if c.commit.Some? {
      SpawnAgrees(v, d, r1, PreparedTask(c.commit.value));
    }
    if c.decided.Some? {
      SpawnAgrees(v, d, r2, CommittedTask(c.decided.value));
    }
  }

  // ---------- Tasks ----------

  /** The vote or pre-prepare of a started `Add*` is for its collector's number and view. */
  ghost predicate BelongsTo(t: Task, cell: Cell) {
    && (t.AddPrePrepareTask? ==> t.preprepare.seqNo == cell.seqNo && t.preprepare.view == cell.view)
    && (t.AddPrepareTask? || t.AddCommitTask? ==> t.vote.seqNo == cell.seqNo && t.vote.view == cell.view)
  }

  lemma AddAgrees(cfg: Config, v: int, d: Digests, r: Replica, t: Task)
    requires ReplicaAgrees(v, d, r) && TaskAgrees(v, d, t) && HasRef(t) && t.ref < |r.cells|
    requires BelongsTo(t, r.cells[t.ref])
    ensures StaysAgreed(cfg.F(), v, d, r, Perform(cfg, r, t).replica)
  {
    var f, cell := cfg.F(), r.cells[t.ref];
    match t
    case AddPrePrepareTask(ref, pp) =>
      PrePrepareCellAgrees(f, v, d, cell, pp);
      CellChangeAgrees(f, v, d, r, ref, PrePrepareCell(cell, f, pp));
    case AddPrepareTask(ref, x) =>
      VoteCellAgrees(f, v, d, cell, x);
      CellChangeAgrees(f, v, d, r, ref, PrepareCell(cell, f, x));
    case AddCommitTask(ref, x) =>
      VoteCellAgrees(f, v, d, cell, x);
      CellChangeAgrees(f, v, d, r, ref, CommitCell(cell, f, x));
    case AddToStoreTask(_, _) => NothingNewAgrees(f, v, d, r, Perform(cfg, r, t).replica);
  }

  lemma OtherTaskAgrees(cfg: Config, v: int, d: Digests, r: Replica, t: Task)
    requires ReplicaAgrees(v, d, r) && TaskAgrees(v, d, t) && !HasRef(t)
    requires forall m | m in Perform(cfg, r, t).sent && m.MsgPrePrepare? :: PrePrepareAgrees(v, d, m.preprepare)
    ensures StaysAgreed(cfg.F(), v, d, r, Perform(cfg, r, t).replica) && AllAgree(v, d, Perform(cfg, r, t).sent)
  {
    match t
    case PreparedTask(c) => SpawnAgrees(v, d, r, HandleCommitTask(c));
    case HandleCommitTask(c) => VoteRequestAgrees(cfg, v, d, r, c);
    case CommittedTask(n) => CommittedAgrees(cfg, v, d, r, n);
    case CheckpointTask(c) => NothingNewAgrees(cfg.F(), v, d, r, HandleCheckpoint(cfg, r, c).replica);
    case ClientTask(req) => ClientAgrees(cfg, v, d, r, req);
    case VoteTask(_) => NothingNewAgrees(cfg.F(), v, d, r, r);
  }

  lemma TaskStaysAgreed(cfg: Config, v: int, d: Digests, r: Replica, t: Task)
    requires ReplicaAgrees(v, d, r) && t in r.tasks && (HasRef(t) ==> t.ref < |r.cells| && BelongsTo(t, r.cells[t.ref]))
    requires var o := Perform(cfg, r.(tasks := r.tasks - multiset{t}), t);
             forall m | m in o.sent && m.MsgPrePrepare? :: PrePrepareAgrees(v, d, m.preprepare)
    ensures var o := Perform(cfg, r.(tasks := r.tasks - multiset{t}), t);
            StaysAgreed(cfg.F(), v, d, r, o.replica) && AllAgree(v, d, o.sent)
  {
    var r' := r.(tasks := r.tasks - multiset{t});
    if HasRef(t) {
      AddAgrees(cfg, v, d, r', t);
    } else {
      OtherTaskAgrees(cfg, v, d, r', t);
    }
  }

  // ---------- Steps ----------

  /** What the input says of view v agrees. */
  ghost predicate InputAgrees(v: int, d: Digests, input: Input) {
    match input
    case OnPrePrepare(pp, _) => PrePrepareAgrees(v, d, pp)
    case OnPrepare(x) => VoteAgrees(v, d, x)
    case OnCommit(x) => VoteAgrees(v, d, x)
    case OnNewView(nv) => NumbersItsOwnView(nv) && forall pp | pp in nv.preprepares :: PrePrepareAgrees(v, d, pp)
    case _ => true
  }

  lemma MessageStaysAgreed(cfg: Config, v: int, d: Digests, r: Replica, input: Input)
    requires ReplicaAgrees(v, d, r) && InputAgrees(v, d, input) && Ready(cfg, r, input)
    requires input.OnPrePrepare? || input.OnPrepare? || input.OnCommit? || input.OnNewView?
    ensures var o := Step(cfg, r, input); StaysAgreed(cfg.F(), v, d, r, o.replica) && AllAgree(v, d, o.sent)
  {
    match input
    case OnPrePrepare(pp, batch) => PrePrepareRequestAgrees(cfg, v, d, r, pp, batch);
    case OnPrepare(x) => VoteRequestAgrees(cfg, v, d, r, x);
    case OnCommit(x) => VoteRequestAgrees(cfg, v, d, r, x);
    case OnNewView(nv) => NewViewAgrees(cfg, v, d, r, nv);
  }

  lemma SaysNothing(cfg: Config, r: Replica, input: Input)
    requires input.OnCheckpoint? || input.OnStatusRequest? || input.OnStatus? || input.Timeout? || input.CastVote?
    ensures SaysNothingNew(r, Step(cfg, r, input).replica)
    ensures forall m | m in Step(cfg, r, input).sent :: m.MsgStatus? || m.MsgViewChange?
  {
  }

  lemma OtherInputStaysAgreed(cfg: Config, v: int, d: Digests, r: Replica, input: Input)
    requires ReplicaAgrees(v, d, r) && Ready(cfg, r, input)
    requires input.OnCheckpoint? || input.OnStatusRequest? || input.OnStatus? || input.Timeout? || input.CastVote?
    ensures var o := Step(cfg, r, input); StaysAgreed(cfg.F(), v, d, r, o.replica) && AllAgree(v, d, o.sent)
  {
    SaysNothing(cfg, r, input);
    NothingNewAgrees(cfg.F(), v, d, r, Step(cfg, r, input).replica);
  }

  /** What the collectors and tasks of a replica keep in every run. */
  ghost predicate InPlaceAt(r: Replica) {
    && (forall i | 0 <= i < |r.cells| && r.cells[i].votes.preprepare.Some? ::
          r.cells[i].votes.preprepare.value.seqNo == r.cells[i].seqNo
          && r.cells[i].votes.preprepare.value.view == r.cells[i].view)
    && (forall t | t in r.tasks && HasRef(t) :: t.ref < |r.cells| && BelongsTo(t, r.cells[t.ref]))
  }

  lemma StepStaysAgreed(cfg: Config, v: int, d: Digests, r: Replica, input: Input)
    requires ReplicaAgrees(v, d, r) && InputAgrees(v, d, input) && Ready(cfg, r, input) && InPlaceAt(r)
    requires forall m | m in Step(cfg, r, input).sent && m.MsgPrePrepare? :: PrePrepareAgrees(v, d, m.preprepare)
    ensures var o := Step(cfg, r, input); StaysAgreed(cfg.F(), v, d, r, o.replica) && AllAgree(v, d, o.sent)
  {
    if input.RunTask? {
      TaskStaysAgreed(cfg, v, d, r, input.task);
    } else if input.RunCheck? {
      CheckAgrees(cfg, v, d, r, input.ref);
    } else if input.Client? {
      ClientAgrees(cfg, v, d, r, input.request);
    } else if input.OnPrePrepare? || input.OnPrepare? || input.OnCommit? || input.OnNewView? {
      MessageStaysAgreed(cfg, v, d, r, input);
    } else {
      OtherInputStaysAgreed(cfg, v, d, r, input);
    }
  }

  // ---------- Runs ----------

  lemma AnnouncedNumbersItsView(w: World, s: System, nv: NewView)
    requires CanAnnounce(w, s, nv)
    ensures NumbersItsOwnView(nv)
  {
    var votes :| WereSent(s, votes, nv.newView) && IsAnnouncement(nv, votes, nv.newView, w.F(), nv.replica);
    ReissueNumbersItsView(votes, nv.newView, w.F(), nv.preprepares);
  }

  lemma ReissueNumbersItsView(votes: Votes, view: int, f: nat, pps: seq<PrePrepare>)
    requires IsReissue(votes, view, f, pps)
    ensures forall pp | pp in pps :: pp.view == view
  {
    var minSeq, maxSeq, chosen :|
      IsRange(votes, minSeq, maxSeq) && Selects(votes, minSeq, f, chosen)
      && Reissues(view, minSeq, maxSeq, chosen, pps);
    assert forall i | 0 <= i < |pps| :: pps[i].view == view;
  }

  lemma HonestRunsMatch(w: World, run: seq<Action>)
    requires HonestRun(w, run)
    ensures MatchingRun(run)
  {
    forall a | a in run ensures MatchingViews(a.input) {
      var i :| 0 <= i < |run| && run[i] == a;
      assert HonestAction(w, After(w, run[..i]), run[i]);
      if a.input.OnNewView? {
        AnnouncedNumbersItsView(w, After(w, run[..i]), a.input.newView);
      }
    }
  }

  /** In every honest run, pre-prepares, votes and tasks are of the number and view of their collector. */
  lemma EverythingInPlace(w: World, run: seq<Action>, q: string)
    requires HonestRun(w, run) && q in After(w, run).nodes
    ensures InPlaceAt(After(w, run).nodes[q])
  {
    HonestRunsMatch(w, run);
    RunsAreInView(w, run, true, q);
    RunsAreOk(w, run);
    var r, sent := After(w, run).nodes[q], After(w, run).sent;
    assert NodeOk(w, sent, q, Held(w, run), r);
    forall i | 0 <= i < |r.cells| && r.cells[i].votes.preprepare.Some?
      ensures r.cells[i].votes.preprepare.value.seqNo == r.cells[i].seqNo
      ensures r.cells[i].votes.preprepare.value.view == r.cells[i].view
    {
      assert CellOk(w, sent, r.cells[i]) && CellInView(true, q, r.cells[i]);
    }
    forall t | t in r.tasks && HasRef(t) ensures t.ref < |r.cells| && BelongsTo(t, r.cells[t.ref]) {
      assert TaskOk(w, sent, q, Held(w, run), r.cells, t) && TaskInView(r.cells, t);
    }
  }

  lemma SentBefore(w: World, run: seq<Action>)
    requires run != []
    ensures After(w, run[..|run| - 1]).sent <= After(w, run).sent
  {
  }

  lemma AgreesBefore(w: World, run: seq<Action>, v: int, d: Digests)
    requires AgreesInView(w, run, v, d) && run != []
    ensures AgreesInView(w, run[..|run| - 1], v, d)
    ensures HonestAction(w, After(w, run[..|run| - 1]), run[|run| - 1])
    ensures After(w, run[..|run| - 1]).sent <= After(w, run).sent
  {
    HonestRunBefore(w, run);
    SentBefore(w, run);
    assert forall a | a in run[..|run| - 1] :: a in run;
  }

  lemma LastInputAgrees(w: World, run: seq<Action>, v: int, d: Digests)
    requires AgreesInView(w, run, v, d) && run != [] && SystemAgrees(v, d, After(w, run[..|run| - 1]))
    requires Authentic(w, After(w, run[..|run| - 1]).sent, run[|run| - 1].input)
    ensures InputAgrees(v, d, run[|run| - 1].input)
  {
    AgreesBefore(w, run, v, d);
    var s, a := After(w, run[..|run| - 1]), run[|run| - 1];
    match a.input
    case OnPrePrepare(pp, batch) => assert MsgPrePrepare(pp, batch) in After(w, run).sent;
    case OnPrepare(x) => assert MessageAgrees(v, d, MsgPrepare(x));
    case OnCommit(x) => assert MessageAgrees(v, d, MsgCommit(x));
    case OnNewView(nv) => AnnouncedNumbersItsView(w, s, nv); assert a in run;
    case _ =>
  }

  lemma LastStepAgrees(w: World, run: seq<Action>, v: int, d: Digests)
    requires AgreesInView(w, run, v, d) && run != [] && SystemAgrees(v, d, After(w, run[..|run| - 1]))
    requires Enabled(w, After(w, run[..|run| - 1]), run[|run| - 1])
    ensures var s, a := After(w, run[..|run| - 1]), run[|run| - 1];
            var o := Step(w.At(a.who), s.nodes[a.who], a.input);
            StaysAgreed(w.F(), v, d, s.nodes[a.who], o.replica) && AllAgree(v, d, o.sent)
  {
    var s, a := After(w, run[..|run| - 1]), run[|run| - 1];
    AgreesBefore(w, run, v, d);
    LastInputAgrees(w, run, v, d);
    EverythingInPlace(w, run[..|run| - 1], a.who);
    forall m | m in Step(w.At(a.who), s.nodes[a.who], a.input).sent && m.MsgPrePrepare?
      ensures PrePrepareAgrees(v, d, m.preprepare)
    {
      assert m in After(w, run).sent;
    }
    StepStaysAgreed(w.At(a.who), v, d, s.nodes[a.who], a.input);
  }

  lemma {:induction false} RunsAgree(w: World, run: seq<Action>, v: int, d: Digests)
    requires AgreesInView(w, run, v, d)
    ensures SystemAgrees(v, d, After(w, run))
  {
    if run != [] {
      AgreesBefore(w, run, v, d);
      RunsAgree(w, run[..|run| - 1], v, d);
      if Enabled(w, After(w, run[..|run| - 1]), run[|run| - 1]) {
        LastStepAgrees(w, run, v, d);
      }
    }
  }
}
