/**
 * When is a certificate of one view?  `HandleNewViewRequest` (`pbft/node.go`) re-installs pre-prepares of any
 * view under the view of the message, so this depends on what is in the new-view messages.
 */
module OneView {
  import opened Messages
  import opened Quorums
  import opened VoteCollector
  import opened TransactionStates
  import opened Replicas
  import opened Systems
  import opened PreparedQuorum

  /** What the receiver of a new-view message could check, and does not. */
  predicate NumbersItsOwnView(nv: NewView) {
    forall pp | pp in nv.preprepares :: pp.view == nv.newView
  }

  predicate MatchingViews(input: Input) {
    input.OnNewView? ==> NumbersItsOwnView(input.newView)
  }

  predicate MatchingRun(run: seq<Action>) {
    forall a | a in run :: MatchingViews(a.input)
  }

  // ---------- The views in one replica's collectors ----------

  /** Only q's own prepare, and its pre-prepare, can be of another view than the collector; when `strict`, neither. */
  ghost predicate CellInView(strict: bool, q: string, cell: Cell) {
    && (strict && cell.votes.preprepare.Some? ==> cell.votes.preprepare.value.view == cell.view)
    && forall k | k in cell.votes.prepares :: cell.votes.prepares[k].view == cell.view || (!strict && k == q)
  }

  ghost predicate TaskInView(cells: seq<Cell>, t: Task) {
    && (t.AddPrePrepareTask? ==> t.ref < |cells| && t.preprepare.view == cells[t.ref].view)
    && (t.AddPrepareTask? ==> t.ref < |cells| && t.vote.view == cells[t.ref].view)
  }

  ghost predicate InView(strict: bool, q: string, r: Replica) {
    && RefsOk(r) && (forall i | 0 <= i < |r.cells| :: CellInView(strict, q, r.cells[i]))
    && forall t | t in r.tasks :: TaskInView(r.cells, t)
  }

  lemma CellChangesInView(strict: bool, q: string, r: Replica, ref: nat, cell: Cell)
    requires InView(strict, q, r) && ref < |r.cells| && CellInView(strict, q, cell)
    requires cell.seqNo == r.cells[ref].seqNo && cell.view == r.cells[ref].view
    ensures InView(strict, q, r.(cells := r.cells[ref := cell]))
  {
    forall t | t in r.tasks ensures TaskInView(r.cells[ref := cell], t) {
      assert TaskInView(r.cells, t);
    }
  }

  lemma CellAddedInView(strict: bool, q: string, r: Replica, cell: Cell)
    requires InView(strict, q, r) && CellInView(strict, q, cell) && cell.view == r.view
    ensures InView(strict, q, r.(cells := r.cells + [cell], txns := r.txns[cell.seqNo := |r.cells|]))
  {
    forall t | t in r.tasks ensures TaskInView(r.cells + [cell], t) {
      assert TaskInView(r.cells, t);
    }
  }

  lemma WithCellInView(strict: bool, q: string, r: Replica, n: int)
    requires InView(strict, q, r)
    ensures var r' := WithCell(r, n);
            InView(strict, q, r') && n in r'.txns && r'.txns[n] < |r'.cells| && r'.cells[r'.txns[n]].view == r.view
  {
    if n !in r.txns {
      CellAddedInView(strict, q, r, Cell(n, r.view, EMPTY, 0));
    }
  }

  lemma SpawnInView(strict: bool, q: string, r: Replica, t: Task)
    requires InView(strict, q, r) && TaskInView(r.cells, t)
    ensures InView(strict, q, Spawn(r, t))
  {
  }

  // ---------- Handlers ----------

  lemma ClientInView(strict: bool, cfg: Config, r: Replica, req: ClientRequest)
    requires InView(strict, cfg.id, r)
    ensures InView(strict, cfg.id, HandleClient(cfg, r, req).replica)
  {
    if IsPrimary(cfg, r) && !r.inViewChange && |r.inProgress| < cfg.maxOutstanding {
      var n := r.lastSeq + 1;
      var cell := PrePrepareCell(Cell(n, r.view, EMPTY, 0), cfg.F(), PrePrepare(r.view, n, cfg.digestOf(req)));
      NumberedInView(strict, cfg.id, r.(lastSeq := n, inProgress := r.inProgress + {n}), cell, Some([req]));
    }
  }

  lemma NumberedInView(strict: bool, q: string, r: Replica, cell: Cell, batch: Batch)
    requires InView(strict, q, r) && CellInView(strict, q, cell) && cell.view == r.view
    ensures InView(strict, q, Spawn(r.(cells := r.cells + [cell], txns := r.txns[cell.seqNo := |r.cells|]),
                                    AddToStoreTask(|r.cells|, batch)))
  {
    CellAddedInView(strict, q, r, cell);
    SpawnInView(strict, q, r.(cells := r.cells + [cell], txns := r.txns[cell.seqNo := |r.cells|]),
                AddToStoreTask(|r.cells|, batch));
  }

  lemma PrePrepareInView(strict: bool, cfg: Config, r: Replica, pp: PrePrepare, batch: Batch)
    requires InView(strict, cfg.id, r)
    ensures InView(strict, cfg.id, HandlePrePrepare(cfg, r, pp, batch).replica)
  {
    var r0 := r.(inProgress := r.inProgress + {pp.seqNo});
    WithCellInView(strict, cfg.id, r0, pp.seqNo);
    var r1 := WithCell(r0, pp.seqNo);
    if pp.view == r.view {
      var r2 := Spawn(r1, AddPrePrepareTask(r1.txns[pp.seqNo], pp));
      SpawnInView(strict, cfg.id, r1, AddPrePrepareTask(r1.txns[pp.seqNo], pp));
      SpawnInView(strict, cfg.id, r2, AddPrepareTask(r1.txns[pp.seqNo], Vote(pp.view, pp.seqNo, pp.digest, cfg.id)));
    }
  }

  lemma VoteInView(strict: bool, cfg: Config, r: Replica, v: Vote)
    requires InView(strict, cfg.id, r)
    ensures InView(strict, cfg.id, HandlePrepare(cfg, r, v).replica)
    ensures InView(strict, cfg.id, HandleCommit(cfg, r, v).replica)
  {
    WithCellInView(strict, cfg.id, r, v.seqNo);
    var r1 := WithCell(r, v.seqNo);
    if v.view == r.view {
      SpawnInView(strict, cfg.id, r1, AddPrepareTask(r1.txns[v.seqNo], v));
      SpawnInView(strict, cfg.id, r1, AddCommitTask(r1.txns[v.seqNo], v));
    }
  }

  lemma {:induction false} InstallInView(strict: bool, cfg: Config, r: Replica, pps: seq<PrePrepare>)
    requires InView(strict, cfg.id, r) && (strict ==> forall pp | pp in pps :: pp.view == r.view)
    ensures var o := Install(cfg, r, pps); InView(strict, cfg.id, o.replica) && o.replica.view == r.view
  {
    if pps != [] {
      InstallInView(strict, cfg, r, pps[..|pps| - 1]);
      var before, pp := Install(cfg, r, pps[..|pps| - 1]).replica, pps[|pps| - 1];
      var own := Vote(pp.view, pp.seqNo, pp.digest, cfg.id);
      var cell := PrepareCell(PrePrepareCell(Cell(pp.seqNo, r.view, EMPTY, 0), cfg.F(), pp), cfg.F(), own);
      CellAddedInView(strict, cfg.id, before, cell);
    }
  }

  lemma NewViewInView(strict: bool, cfg: Config, r: Replica, nv: NewView)
    requires InView(strict, cfg.id, r) && HandleNewView(cfg, r, nv).Some? && (strict ==> NumbersItsOwnView(nv))
    ensures InView(strict, cfg.id, HandleNewView(cfg, r, nv).value.replica)
  {
    if nv.newView >= r.view {
      InstallInView(strict, cfg, EnterView(r, nv.newView, FirstNumber(nv), nv.replica), nv.preprepares);
    }
  }

  lemma CommittedInView(strict: bool, cfg: Config, r: Replica, n: int)
    requires InView(strict, cfg.id, r)
    ensures InView(strict, cfg.id, HandleCommitted(cfg, r, n).replica)
  {
    CommittedTasks(cfg, r, n);
  }

  lemma CheckInView(strict: bool, cfg: Config, r: Replica, ref: nat)
    requires InView(strict, cfg.id, r) && ref < |r.cells| && r.cells[ref].checks > 0
    ensures InView(strict, cfg.id, CheckCell(cfg, r, ref))
  {
    var c := Check(r.cells[ref].votes, cfg.id);
    CellChangesInView(strict, cfg.id, r, ref, r.cells[ref].(votes := c.votes, checks := r.cells[ref].checks - 1));
  }

  lemma AddInView(strict: bool, cfg: Config, r: Replica, t: Task)
    requires InView(strict, cfg.id, r) && TaskInView(r.cells, t) && HasRef(t) && t.ref < |r.cells|
    ensures InView(strict, cfg.id, Perform(cfg, r, t).replica)
  {
    var cell := r.cells[t.ref];
    assert CellInView(strict, cfg.id, cell);
    match t
    case AddPrePrepareTask(ref, pp) => CellChangesInView(strict, cfg.id, r, ref, PrePrepareCell(cell, cfg.F(), pp));
    case AddPrepareTask(ref, v) => CellChangesInView(strict, cfg.id, r, ref, PrepareCell(cell, cfg.F(), v));
    case AddCommitTask(ref, v) => CellChangesInView(strict, cfg.id, r, ref, CommitCell(cell, cfg.F(), v));
    case AddToStoreTask(_, _) =>
  }

  lemma TaskStepInView(strict: bool, cfg: Config, r: Replica, t: Task)
    requires InView(strict, cfg.id, r) && TaskInView(r.cells, t) && (HasRef(t) ==> t.ref < |r.cells|)
    ensures InView(strict, cfg.id, Perform(cfg, r, t).replica)
  {
    if HasRef(t) {
      AddInView(strict, cfg, r, t);
    } else {
      match t
      case PreparedTask(c) => SpawnInView(strict, cfg.id, r, HandleCommitTask(c));
      case HandleCommitTask(c) => VoteInView(strict, cfg, r, c);
      case CommittedTask(n) => CommittedInView(strict, cfg, r, n);
      case ClientTask(req) => ClientInView(strict, cfg, r, req);
      case _ =>
    }
  }

  lemma MessageInView(strict: bool, cfg: Config, r: Replica, input: Input)
    requires InView(strict, cfg.id, r) && Ready(cfg, r, input) && (strict ==> MatchingViews(input))
    requires !input.RunTask? && !input.CastVote?
    ensures InView(strict, cfg.id, Step(cfg, r, input).replica)
  {
    match input
    case Client(req) => ClientInView(strict, cfg, r, req);
    case OnPrePrepare(pp, batch) => PrePrepareInView(strict, cfg, r, pp, batch);
    case OnPrepare(v) => VoteInView(strict, cfg, r, v);
    case OnCommit(v) => VoteInView(strict, cfg, r, v);
    case OnNewView(nv) => NewViewInView(strict, cfg, r, nv);
    case Timeout(view) => SpawnInView(strict, cfg.id, r.(inViewChange := true), VoteTask(view));
    case RunCheck(ref) => CheckInView(strict, cfg, r, ref);
    case _ =>
  }

  lemma FewerTasksInView(strict: bool, q: string, r: Replica, t: Task)
    requires InView(strict, q, r)
    ensures InView(strict, q, r.(tasks := r.tasks - multiset{t}))
  {
  }

  lemma StepInView(strict: bool, cfg: Config, r: Replica, input: Input)
    requires InView(strict, cfg.id, r) && Ready(cfg, r, input) && (strict ==> MatchingViews(input))
    ensures InView(strict, cfg.id, Step(cfg, r, input).replica)
  {
    match input
    case RunTask(t) =>
      FewerTasksInView(strict, cfg.id, r, t);
      TaskStepInView(strict, cfg, r.(tasks := r.tasks - multiset{t}), t);
    case CastVote(vc) => FewerTasksInView(strict, cfg.id, r, VoteTask(vc.newView));
    case _ => MessageInView(strict, cfg, r, input);
  }

  lemma {:induction false} RunsAreInView(w: World, run: seq<Action>, strict: bool, q: string)
    requires q in After(w, run).nodes && (strict ==> MatchingRun(run))
    ensures InView(strict, q, After(w, run).nodes[q])
  {
    if run != [] {
      var before, a := run[..|run| - 1], run[|run| - 1];
      assert forall b | b in before :: b in run;
      RunsAreInView(w, before, strict, q);
      if a.who == q && Enabled(w, After(w, before), a) {
        assert w.At(q).id == q;
        StepInView(strict, w.At(q), After(w, before).nodes[q], a.input);
      }
    }
  }

  // ---------- Certificates of one view ----------

  ghost predicate AllOfView(votes: VoteMap, view: int) {
    forall k | k in votes :: votes[k].view == view
  }

  lemma SomebodyElse(votes: VoteMap, q: string)
    requires |votes| >= 2
    ensures exists k :: k in votes && k != q
  {
    assert |votes.Keys| == |votes|;
    if votes.Keys <= {q} {
      SubsetCard(votes.Keys, {q});
    }
  }

  /**
   * In any run, a certificate a correct replica holds is of one view, that of its pre-prepare, exactly when
   * the pre-prepare, and the replica's own prepare if it is there, are of the view the collector was
   * created in.
   */
  lemma {:induction false} CertificateIsOfOneViewIff(w: World, run: seq<Action>, q: string, ref: nat)
    requires w.F() >= 1 && q in After(w, run).nodes && ref < |After(w, run).nodes[q].cells|
    requires var votes := After(w, run).nodes[q].cells[ref].votes;
             votes.preprepare.Some? && |votes.prepares| >= 2 * w.F()
    ensures var cell := After(w, run).nodes[q].cells[ref];
            AllOfView(cell.votes.prepares, cell.votes.preprepare.value.view)
            <==> cell.votes.preprepare.value.view == cell.view
                 && (q in cell.votes.prepares ==> cell.votes.prepares[q].view == cell.view)
  {
    RunsAreInView(w, run, false, q);
    var cell := After(w, run).nodes[q].cells[ref];
    assert CellInView(false, q, cell);
    SomebodyElse(cell.votes.prepares, q);
  }

  ghost predicate HoldsInViewNow(w: World, s: System, c: Vote) {
    c.replica in s.nodes
    && exists i :: 0 <= i < |s.nodes[c.replica].cells|
                   && Holds(w, s.sent, s.nodes[c.replica].cells[i].votes, c)
                   && AllOfView(s.nodes[c.replica].cells[i].votes.prepares, c.view)
  }

  /** At some point of the run, c's sender held the certificate behind c, with prepares of c's view only. */
  ghost predicate HasHeldInView(w: World, run: seq<Action>, c: Vote) {
    HoldsInViewNow(w, After(w, run), c) || (run != [] && HasHeldInView(w, run[..|run| - 1], c))
  }

  lemma HoldsInViewWhenMatching(w: World, run: seq<Action>, c: Vote)
    requires MatchingRun(run) && HoldsNow(w, After(w, run), c)
    ensures HoldsInViewNow(w, After(w, run), c)
  {
    RunsAreInView(w, run, true, c.replica);
    var s := After(w, run);
    var i :| 0 <= i < |s.nodes[c.replica].cells| && Holds(w, s.sent, s.nodes[c.replica].cells[i].votes, c);
    assert CellInView(true, c.replica, s.nodes[c.replica].cells[i]);
  }

  lemma {:induction false} HeldInViewWhenMatching(w: World, run: seq<Action>, c: Vote)
    requires MatchingRun(run) && HasHeld(w, run, c)
    ensures HasHeldInView(w, run, c)
  {
    if HoldsNow(w, After(w, run), c) {
      HoldsInViewWhenMatching(w, run, c);
    } else {
      assert forall a | a in run[..|run| - 1] :: a in run;
      HeldInViewWhenMatching(w, run[..|run| - 1], c);
    }
  }

  ghost predicate HasHeldInViewFor(w: World, run: seq<Action>, b: string, pp: PrePrepare) {
    exists d :: (pp.digest != "" ==> d == pp.digest) && HasHeldInView(w, run, Vote(pp.view, pp.seqNo, d, b))
  }

  /**
   * When every new-view message numbers its pre-prepares with its own view: behind every execution there
   * are F+1 correct replicas that have each held a pre-prepare and 2F prepares for the executed number,
   * digest and view.
   */
  lemma {:induction false} ExecutionNeedsQuorumOfOneView(w: World, run: seq<Action>, q: string, ref: nat)
      returns (backers: set<string>)
    requires |w.byz| <= w.F() && MatchingRun(run)
    requires Enabled(w, After(w, run), Action(q, RunCheck(ref)))
    requires Check(After(w, run).nodes[q].cells[ref].votes, q).decided.Some?
    ensures After(w, run).nodes[q].cells[ref].votes.preprepare.Some?
    ensures backers <= w.Correct() && |backers| >= w.F() + 1
    ensures forall b | b in backers ::
              HasHeldInViewFor(w, run, b, After(w, run).nodes[q].cells[ref].votes.preprepare.value)
  {
    backers := ExecutionNeedsPreparedQuorum(w, run, q, ref);
    RunsAreInView(w, run, true, q);
    var cell := After(w, run).nodes[q].cells[ref];
    assert CellInView(true, q, cell);
    var pp := cell.votes.preprepare.value;
    forall b | b in backers ensures HasHeldInViewFor(w, run, b, pp) {
      assert HasHeldFor(w, run, b, cell.view, cell.seqNo, pp.digest);
      var d :| (pp.digest != "" ==> d == pp.digest) && HasHeld(w, run, Vote(cell.view, cell.seqNo, d, b));
      HeldInViewWhenMatching(w, run, Vote(cell.view, cell.seqNo, d, b));
    }
  }

  // ---------- Which executions have a quorum of one view behind them ----------

  /** The collector is of its pre-prepare's own view, and so is the own prepare in it. */
  ghost predicate InPlace(cell: Cell, q: string) {
    && cell.votes.preprepare.Some? && cell.votes.preprepare.value.view == cell.view
    && (q in cell.votes.prepares ==> cell.votes.prepares[q].view == cell.view)
  }

  ghost predicate HoldsInPlaceNow(w: World, s: System, c: Vote) {
    c.replica in s.nodes
    && exists i :: 0 <= i < |s.nodes[c.replica].cells|
                   && Holds(w, s.sent, s.nodes[c.replica].cells[i].votes, c)
                   && InPlace(s.nodes[c.replica].cells[i], c.replica)
  }

  /** At some point of the run, c's sender held the certificate behind c in a collector of c's view. */
  ghost predicate HasHeldInPlace(w: World, run: seq<Action>, c: Vote) {
    HoldsInPlaceNow(w, After(w, run), c) || (run != [] && HasHeldInPlace(w, run[..|run| - 1], c))
  }

  lemma InViewNowIffInPlace(w: World, run: seq<Action>, c: Vote)
    requires w.F() >= 1
    ensures HoldsInViewNow(w, After(w, run), c) <==> HoldsInPlaceNow(w, After(w, run), c)
  {
    var s := After(w, run);
    if c.replica in s.nodes {
      forall i: nat | i < |s.nodes[c.replica].cells| && Holds(w, s.sent, s.nodes[c.replica].cells[i].votes, c)
        ensures AllOfView(s.nodes[c.replica].cells[i].votes.prepares, c.view)
                <==> InPlace(s.nodes[c.replica].cells[i], c.replica)
      {
        CertificateIsOfOneViewIff(w, run, c.replica, i);
      }
    }
  }

  lemma {:induction false} InViewIffInPlace(w: World, run: seq<Action>, c: Vote)
    requires w.F() >= 1
    ensures HasHeldInView(w, run, c) <==> HasHeldInPlace(w, run, c)
  {
    InViewNowIffInPlace(w, run, c);
    if run != [] {
      InViewIffInPlace(w, run[..|run| - 1], c);
    }
  }

  ghost predicate HasHeldInPlaceFor(w: World, run: seq<Action>, b: string, pp: PrePrepare) {
    exists d :: (pp.digest != "" ==> d == pp.digest) && HasHeldInPlace(w, run, Vote(pp.view, pp.seqNo, d, b))
  }

  /**
   * In any run: behind every execution there are F+1 correct replicas that held certificates, whose pre-prepares are of
   * the view the executing collector was created in; and each of them held one of that view only, exactly if it held
   * one in a collector created in that view.
   */
  lemma {:induction false} ExecutionIsOfOneViewIff(w: World, run: seq<Action>, q: string, ref: nat)
      returns (backers: set<string>)
    requires w.F() >= 1 && |w.byz| <= w.F() && Enabled(w, After(w, run), Action(q, RunCheck(ref)))
    requires Check(After(w, run).nodes[q].cells[ref].votes, q).decided.Some?
    ensures var cell := After(w, run).nodes[q].cells[ref];
            && cell.votes.preprepare.Some? && backers <= w.Correct() && |backers| >= w.F() + 1
            && var pp := PrePrepare(cell.view, cell.seqNo, cell.votes.preprepare.value.digest);
               forall b | b in backers ::
                 && HasHeldFor(w, run, b, cell.view, cell.seqNo, pp.digest)
                 && (HasHeldInViewFor(w, run, b, pp) <==> HasHeldInPlaceFor(w, run, b, pp))
  {
    backers := ExecutionNeedsPreparedQuorum(w, run, q, ref);
    forall c ensures HasHeldInView(w, run, c) <==> HasHeldInPlace(w, run, c) {
      InViewIffInPlace(w, run, c);
    }
  }
}
