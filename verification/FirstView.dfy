/**
 * Runs in which one correct primary numbers all requests: nobody leaves the first view, and every
 * pre-prepare that is delivered is one the primary broadcast.  Prepares and commits may still come from
 * faulty replicas.  Everything in such a run agrees with one log, the primary's.
 */
module FirstView {
  import opened Messages
  import opened StoreModel
  import opened StoreRuns
  import opened TransactionStates
  import opened Replicas
  import opened Systems

  function Primary(w: World): string {
    w.At("").Leader(0)
  }

  /** A status response may be installed by a backup, and then must not lead to another view. */
  ghost predicate StaysInFirstView(w: World, s: System, a: Action) {
    && !a.input.OnNewView?
    && (a.input.OnPrePrepare? ==> MsgPrePrepare(a.input.preprepare, a.input.batch) in s.sent)
    && (a.input.OnStatus? && a.who in s.nodes && Installs(s.nodes[a.who], a.input.lastStable, a.input.proof) ==>
          && MaxView(a.input.proof) == 0
          && (a.who == Primary(w) ==> s.nodes[a.who].lastSeq == a.input.lastStable + 1))
  }

  ghost predicate FirstViewRun(w: World, run: seq<Action>) {
    Primary(w) !in w.byz && forall i | 0 <= i < |run| :: StaysInFirstView(w, After(w, run[..i]), run[i])
  }

  /** The requests a step of the primary gives a number to. */
  function Logged(sent: seq<Message>): seq<ClientRequest> {
    if |sent| == 1 && sent[0].MsgPrePrepare? then Contents(sent[0].batch) else []
  }

  /** The primary's log: the request of number n is at n - 1. */
  ghost function Log(w: World, run: seq<Action>): seq<ClientRequest> {
    if run == [] then []
    else
      var before, s, a := Log(w, run[..|run| - 1]), After(w, run[..|run| - 1]), run[|run| - 1];
      if Enabled(w, s, a) then before + Logged(Step(w.At(a.who), s.nodes[a.who], a.input).sent) else before
  }

  lemma {:induction false} LogGrowsWithRun(w: World, run: seq<Action>, i: nat)
    requires i <= |run|
    ensures Log(w, run[..i]) <= Log(w, run)
  {
    if i == |run| {
      assert run[..i] == run;
    } else {
      LogGrowsWithRun(w, run[..|run| - 1], i);
      assert run[..|run| - 1][..i] == run[..i];
    }
  }

  // ---------- Agreeing with the log ----------

  ghost predicate PrePrepareFits(w: World, log: seq<ClientRequest>, pp: PrePrepare) {
    pp.view == 0 && 1 <= pp.seqNo <= |log| && pp.digest == w.digestOf(log[pp.seqNo - 1])
  }

  ghost predicate BatchFits(log: seq<ClientRequest>, n: int, batch: Batch) {
    1 <= n <= |log| && batch == Some([log[n - 1]])
  }

  ghost predicate CellsFit(w: World, log: seq<ClientRequest>, cells: seq<Cell>) {
    forall i | 0 <= i < |cells| && cells[i].votes.preprepare.Some? ::
      PrePrepareFits(w, log, cells[i].votes.preprepare.value)
  }

  ghost predicate TaskFits(w: World, q: string, log: seq<ClientRequest>, cells: seq<Cell>, t: Task) {
    match t
    case AddPrePrepareTask(_, pp) => q != Primary(w) && PrePrepareFits(w, log, pp)
    case AddToStoreTask(ref, batch) =>
      q == Primary(w) && ref < |cells| && cells[ref].votes.preprepare.Some?
      && BatchFits(log, cells[ref].votes.preprepare.value.seqNo, batch)
    case _ => true
  }

  ghost predicate StoreFits(log: seq<ClientRequest>, s: StoreState) {
    && (forall n | n in s.requests :: BatchFits(log, n, s.requests[n]))
    && (forall n | n in s.committed && s.committed[n].Some? :: BatchFits(log, n, s.committed[n]))
  }

  ghost predicate NodeFits(w: World, q: string, log: seq<ClientRequest>, r: Replica) {
    && r.view == 0 && r.leader == Primary(w) && (q == Primary(w) ==> r.lastSeq == |log|)
    && CellsFit(w, log, r.cells) && StoreFits(log, r.store)
    && (forall t | t in r.tasks :: TaskFits(w, q, log, r.cells, t))
  }

  ghost predicate SentFits(w: World, log: seq<ClientRequest>, sent: set<Message>) {
    forall pp, batch | MsgPrePrepare(pp, batch) in sent :: PrePrepareFits(w, log, pp) && BatchFits(log, pp.seqNo, batch)
  }

  ghost predicate SystemFits(w: World, log: seq<ClientRequest>, s: System) {
    SentFits(w, log, s.sent) && forall q | q in s.nodes :: NodeFits(w, q, log, s.nodes[q])
  }

  // ---------- Steps ----------

  /** A longer log still fits, except that the primary's counter is to follow. */
  lemma LogGrows(w: World, q: string, log: seq<ClientRequest>, req: ClientRequest, r: Replica)
    requires NodeFits(w, q, log, r)
    ensures NodeFits(w, q, log + [req], if q == Primary(w) then r.(lastSeq := |log| + 1) else r)
  {
    forall t | t in r.tasks ensures TaskFits(w, q, log + [req], r.cells, t) {
      assert TaskFits(w, q, log, r.cells, t);
    }
  }

  /** Replacing or adding collectors, with the pre-prepares of the primary's own unchanged. */
  lemma CellsChange(w: World, q: string, log: seq<ClientRequest>, r: Replica, cells: seq<Cell>)
    requires NodeFits(w, q, log, r) && |r.cells| <= |cells| && CellsFit(w, log, cells)
    requires q == Primary(w) ==> forall i | 0 <= i < |r.cells| ::
                               cells[i].votes.preprepare == r.cells[i].votes.preprepare
    ensures NodeFits(w, q, log, r.(cells := cells))
  {
    forall t | t in r.tasks ensures TaskFits(w, q, log, cells, t) {
      assert TaskFits(w, q, log, r.cells, t);
    }
  }

  lemma WithCellFits(w: World, q: string, log: seq<ClientRequest>, r: Replica, n: int)
    requires NodeFits(w, q, log, r)
    ensures NodeFits(w, q, log, WithCell(r, n))
  {
    CellsChange(w, q, log, r, WithCell(r, n).cells);
  }

  lemma ClientFits(w: World, q: string, log: seq<ClientRequest>, r: Replica, req: ClientRequest)
    requires NodeFits(w, q, log, r)
    ensures var o := HandleClient(w.At(q), r, req);
            && NodeFits(w, q, log + Logged(o.sent), o.replica)
            && (Logged(o.sent) != [] ==>
                  q == Primary(w) && Logged(o.sent) == [req]
                  && o.sent == [MsgPrePrepare(PrePrepare(0, |log| + 1, w.digestOf(req)), Some([req]))])
            && (Logged(o.sent) == [] ==> forall m | m in o.sent :: !m.MsgPrePrepare?)
  {
    var o := HandleClient(w.At(q), r, req);
    if Logged(o.sent) == [] {
      assert log + [] == log;
    } else {
      LogGrows(w, q, log, req, r);
      CellsChange(w, q, log + [req], r.(lastSeq := |log| + 1), o.replica.cells);
    }
  }

  lemma PrePrepareStepFits(w: World, q: string, log: seq<ClientRequest>, r: Replica, pp: PrePrepare, batch: Batch)
    requires NodeFits(w, q, log, r) && PrePrepareFits(w, log, pp) && BatchFits(log, pp.seqNo, batch)
    ensures NodeFits(w, q, log, HandlePrePrepare(w.At(q), r, pp, batch).replica)
  {
    WithCellFits(w, q, log, r.(inProgress := r.inProgress + {pp.seqNo}), pp.seqNo);
  }

  lemma CommitStoreFits(log: seq<ClientRequest>, s: StoreState, n: int, id: string, interval: Positive)
    requires StoreFits(log, s)
    ensures StoreFits(log, Commit(s, n, id, interval).0)
  {
    assert StoreFits(log, MarkCommitted(s, n));
    DrainStopsAtTheGap(MarkCommitted(s, n), id, interval);
  }

  lemma CommittedFits(w: World, q: string, log: seq<ClientRequest>, r: Replica, n: int)
    requires NodeFits(w, q, log, r)
    ensures NodeFits(w, q, log, HandleCommitted(w.At(q), r, n).replica)
  {
    CommittedTasks(w.At(q), r, n);
    CommitStoreFits(log, r.store, n, q, w.interval);
  }

  lemma CheckpointFits(w: World, q: string, log: seq<ClientRequest>, r: Replica, c: Checkpoint)
    requires NodeFits(w, q, log, r)
    ensures NodeFits(w, q, log, HandleCheckpoint(w.At(q), r, c).replica)
  {
  }

  lemma CheckFits(w: World, q: string, log: seq<ClientRequest>, r: Replica, ref: nat)
    requires NodeFits(w, q, log, r) && ref < |r.cells| && r.cells[ref].checks > 0
    ensures NodeFits(w, q, log, CheckCell(w.At(q), r, ref))
  {
    var r' := CheckCell(w.At(q), r, ref);
    assert forall i | 0 <= i < |r.cells| :: r'.cells[i].votes.preprepare == r.cells[i].votes.preprepare;
    CellsChange(w, q, log, r, r'.cells);
  }

  lemma CollectorTaskFits(w: World, q: string, log: seq<ClientRequest>, r: Replica, t: Task)
    requires NodeFits(w, q, log, r) && TaskFits(w, q, log, r.cells, t) && HasRef(t) && t.ref < |r.cells|
    ensures NodeFits(w, q, log, Perform(w.At(q), r, t).replica)
  {
    if !t.AddToStoreTask? {
      CellsChange(w, q, log, r, Perform(w.At(q), r, t).replica.cells);
    }
  }

  lemma VoteStepFits(w: World, q: string, log: seq<ClientRequest>, r: Replica, v: Vote)
    requires NodeFits(w, q, log, r)
    ensures NodeFits(w, q, log, HandlePrepare(w.At(q), r, v).replica)
    ensures NodeFits(w, q, log, HandleCommit(w.At(q), r, v).replica)
  {
    WithCellFits(w, q, log, r, v.seqNo);
  }

  lemma StatusFits(w: World, q: string, log: seq<ClientRequest>, r: Replica, lastStable: int, proof: seq<Checkpoint>)
    requires NodeFits(w, q, log, r)
    requires Installs(r, lastStable, proof) ==>
               MaxView(proof) == 0 && (q == Primary(w) ==> r.lastSeq == lastStable + 1)
    ensures NodeFits(w, q, log, HandleStatus(w.At(q), r, lastStable, proof).replica)
  {
    assert w.At(q).Leader(0) == Primary(w);
  }

  lemma MessageStepFits(w: World, q: string, log: seq<ClientRequest>, r: Replica, input: Input, s: System)
    requires q in s.nodes && s.nodes[q] == r && NodeFits(w, q, log, r) && SentFits(w, log, s.sent)
    requires StaysInFirstView(w, s, Action(q, input)) && !input.RunTask? && !input.Client? && !input.RunCheck?
    ensures NodeFits(w, q, log, Step(w.At(q), r, input).replica)
  {
    if Ready(w.At(q), r, input) {
      match input
      case OnPrePrepare(pp, batch) => PrePrepareStepFits(w, q, log, r, pp, batch);
      case OnPrepare(v) => VoteStepFits(w, q, log, r, v);
      case OnCommit(v) => VoteStepFits(w, q, log, r, v);
      case OnCheckpoint(c) => CheckpointFits(w, q, log, r, c);
      case OnStatus(k, proof) => StatusFits(w, q, log, r, k, proof);
      case _ =>
    }
  }

  lemma MessagesSendNoPrePrepare(w: World, q: string, r: Replica, input: Input)
    requires !input.RunTask? && !input.Client? && !input.OnNewView?
    ensures forall m | m in Step(w.At(q), r, input).sent :: !m.MsgPrePrepare?
  {
  }

  lemma TaskStepFits(w: World, q: string, log: seq<ClientRequest>, r: Replica, t: Task)
    requires NodeFits(w, q, log, r) && TaskFits(w, q, log, r.cells, t) && (HasRef(t) ==> t.ref < |r.cells|)
    requires !t.ClientTask?
    ensures NodeFits(w, q, log, Perform(w.At(q), r, t).replica)
    ensures forall m | m in Perform(w.At(q), r, t).sent :: !m.MsgPrePrepare?
  {
    if HasRef(t) {
      CollectorTaskFits(w, q, log, r, t);
    } else {
      match t
      case HandleCommitTask(v) => VoteStepFits(w, q, log, r, v);
      case CommittedTask(n) => CommittedFits(w, q, log, r, n); CommittedSends(w.At(q), r, n);
      case CheckpointTask(c) => CheckpointFits(w, q, log, r, c);
      case _ =>
    }
  }

  /** One step: the log gains what the step numbers, and the stepping replica fits it. */
  lemma StepFits(w: World, s: System, a: Action, log: seq<ClientRequest>)
    requires SystemFits(w, log, s) && Enabled(w, s, a) && StaysInFirstView(w, s, a)
    ensures var o := Step(w.At(a.who), s.nodes[a.who], a.input);
            && NodeFits(w, a.who, log + Logged(o.sent), o.replica)
            && (Logged(o.sent) == [] ==> forall m | m in o.sent :: !m.MsgPrePrepare?)
            && (Logged(o.sent) != [] ==>
                  a.who == Primary(w) && |Logged(o.sent)| == 1
                  && o.sent == [MsgPrePrepare(PrePrepare(0, |log| + 1, w.digestOf(Logged(o.sent)[0])),
                                                Some(Logged(o.sent)))])
  {
    var q, r, input := a.who, s.nodes[a.who], a.input;
    var o := Step(w.At(q), r, input);
    if input.Client? {
      ClientFits(w, q, log, r, input.request);
    } else if input.RunTask? {
      var t := input.task;
      var r' := r.(tasks := r.tasks - multiset{t});
      assert TaskFits(w, q, log, r.cells, t) && NodeFits(w, q, log, r');
      if t.ClientTask? {
        ClientFits(w, q, log, r', t.request);
      } else {
        TaskStepFits(w, q, log, r', t);
        assert log + [] == log;
      }
    } else if input.RunCheck? {
      CheckFits(w, q, log, r, input.ref);
      assert log + [] == log;
    } else {
      MessageStepFits(w, q, log, r, input, s);
      MessagesSendNoPrePrepare(w, q, r, input);
      assert log + [] == log;
    }
  }

  /** The other replicas, and what is in the network. */
  lemma OthersFit(w: World, s: System, a: Action, log: seq<ClientRequest>, o: Outcome)
    requires SystemFits(w, log, s) && a.who in s.nodes
    requires NodeFits(w, a.who, log + Logged(o.sent), o.replica)
    requires Logged(o.sent) == [] ==> forall m | m in o.sent :: !m.MsgPrePrepare?
    requires Logged(o.sent) != [] ==>
               a.who == Primary(w) && |Logged(o.sent)| == 1
               && o.sent == [MsgPrePrepare(PrePrepare(0, |log| + 1, w.digestOf(Logged(o.sent)[0])),
                                             Some(Logged(o.sent)))]
    ensures SystemFits(w, log + Logged(o.sent), System(s.nodes[a.who := o.replica], s.sent + SetOf(o.sent)))
  {
    var log', sent' := log + Logged(o.sent), s.sent + SetOf(o.sent);
    forall pp, batch | MsgPrePrepare(pp, batch) in sent'
      ensures PrePrepareFits(w, log', pp) && BatchFits(log', pp.seqNo, batch)
    {
      if MsgPrePrepare(pp, batch) in o.sent {
        assert MsgPrePrepare(pp, batch) == o.sent[0];
        assert Logged(o.sent) == [log'[|log|]];
      }
    }
    forall q | q in s.nodes && q != a.who ensures NodeFits(w, q, log', s.nodes[q]) {
      if Logged(o.sent) == [] {
        assert log' == log;
      } else {
        LogGrows(w, q, log, Logged(o.sent)[0], s.nodes[q]);
      }
    }
  }

  lemma ActFits(w: World, s: System, a: Action, log: seq<ClientRequest>)
    requires SystemFits(w, log, s) && StaysInFirstView(w, s, a)
    ensures SystemFits(w, if Enabled(w, s, a)
                          then log + Logged(Step(w.At(a.who), s.nodes[a.who], a.input).sent)
                          else log,
                       Act(w, s, a))
  {
    if Enabled(w, s, a) {
      StepFits(w, s, a, log);
      OthersFit(w, s, a, log, Step(w.At(a.who), s.nodes[a.who], a.input));
    }
  }

  lemma {:induction false} RunsFit(w: World, run: seq<Action>)
    requires FirstViewRun(w, run)
    ensures SystemFits(w, Log(w, run), After(w, run))
  {
    if run != [] {
      var before := run[..|run| - 1];
      assert forall i | 0 <= i < |before| :: before[..i] == run[..i];
      RunsFit(w, before);
      ActFits(w, After(w, before), run[|run| - 1], Log(w, before));
    }
  }
}
