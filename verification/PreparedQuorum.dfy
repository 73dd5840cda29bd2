/**
 * In every run of the system of `pbft/node.go`, through any number of view changes, status resets and stable
 * checkpoints and whatever the primaries do: no request is executed without a prepared quorum behind it.
 */
module PreparedQuorum {
  import opened Messages
  import opened Quorums
  import opened VoteCollector
  import opened TransactionStates
  import opened Replicas
  import opened Systems

  // ---------- What a replica holds ----------

  /** A vote for the cell's number, by the replica it is filed under, which really sent it or is faulty. */
  ghost predicate Genuine(w: World, m: Message, sent: set<Message>, cell: Cell, k: string, v: Vote) {
    v.replica == k && v.seqNo == cell.seqNo && (k in w.byz || m in sent)
  }

  ghost predicate CellOk(w: World, sent: set<Message>, cell: Cell) {
    && Backed(cell.votes, w.F())
    && (cell.votes.preprepare.Some? ==> cell.votes.preprepare.value.seqNo == cell.seqNo)
    && (forall k | k in cell.votes.prepares ::
          Genuine(w, MsgPrepare(cell.votes.prepares[k]), sent, cell, k, cell.votes.prepares[k]))
    && (forall k | k in cell.votes.commits ::
          Genuine(w, MsgCommit(cell.votes.commits[k]), sent, cell, k, cell.votes.commits[k])
          && cell.votes.commits[k].view == cell.view)
  }

  ghost predicate CellsOk(w: World, sent: set<Message>, cells: seq<Cell>) {
    forall i | 0 <= i < |cells| :: CellOk(w, sent, cells[i])
  }

  /** `held` are the commits whose certificate the replica has held. */
  ghost predicate TaskOk(w: World, sent: set<Message>, q: string, held: iset<Vote>, cells: seq<Cell>, t: Task) {
    && (HasRef(t) ==> t.ref < |cells|)
    && match t
       case AddPrePrepareTask(ref, pp) => pp.seqNo == cells[ref].seqNo
       case AddPrepareTask(ref, v) => Genuine(w, MsgPrepare(v), sent, cells[ref], v.replica, v)
       case AddCommitTask(ref, v) =>
         Genuine(w, MsgCommit(v), sent, cells[ref], v.replica, v) && v.view == cells[ref].view
       case AddToStoreTask(ref, _) => cells[ref].votes.preprepare.Some?
       case PreparedTask(v) => v.replica == q && v in held
       case HandleCommitTask(v) => MsgCommit(v) in sent
       case _ => true
  }

  ghost predicate TasksOk(w: World, sent: set<Message>, q: string, held: iset<Vote>, cells: seq<Cell>,
                          tasks: multiset<Task>) {
    forall t | t in tasks :: TaskOk(w, sent, q, held, cells, t)
  }

  ghost predicate RefsOk(r: Replica) {
    forall n | n in r.txns ::
      r.txns[n] < |r.cells| && r.cells[r.txns[n]].seqNo == n && r.cells[r.txns[n]].view == r.view
  }

  ghost predicate NodeOk(w: World, sent: set<Message>, q: string, held: iset<Vote>, r: Replica) {
    RefsOk(r) && CellsOk(w, sent, r.cells) && TasksOk(w, sent, q, held, r.cells, r.tasks)
  }

  // ---------- Growing ----------

  ghost predicate SameLabel(cell: Cell, cell': Cell) {
    && cell'.seqNo == cell.seqNo && cell'.view == cell.view
    && (cell.votes.preprepare.Some? ==> cell'.votes.preprepare.Some?)
  }

  ghost predicate SameLabels(cells: seq<Cell>, cells': seq<Cell>) {
    |cells| <= |cells'| && forall i | 0 <= i < |cells| :: SameLabel(cells[i], cells'[i])
  }

  lemma CellsGrow(w: World, sent: set<Message>, sent': set<Message>, cells: seq<Cell>)
    requires CellsOk(w, sent, cells) && sent <= sent'
    ensures CellsOk(w, sent', cells)
  {
    forall i | 0 <= i < |cells| ensures CellOk(w, sent', cells[i]) {
      assert CellOk(w, sent, cells[i]);
    }
  }

  lemma TasksGrow(w: World, sent: set<Message>, sent': set<Message>, q: string, held: iset<Vote>, held': iset<Vote>,
                  cells: seq<Cell>, cells': seq<Cell>, tasks: multiset<Task>)
    requires TasksOk(w, sent, q, held, cells, tasks)
    requires sent <= sent' && held <= held' && SameLabels(cells, cells')
    ensures TasksOk(w, sent', q, held', cells', tasks)
  {
    forall t | t in tasks ensures TaskOk(w, sent', q, held', cells', t) {
      assert TaskOk(w, sent, q, held, cells, t);
    }
  }

  lemma NodeGrows(w: World, sent: set<Message>, sent': set<Message>, q: string, held: iset<Vote>, held': iset<Vote>,
                  r: Replica)
    requires NodeOk(w, sent, q, held, r) && sent <= sent' && held <= held'
    ensures NodeOk(w, sent', q, held', r)
  {
    CellsGrow(w, sent, sent', r.cells);
    TasksGrow(w, sent, sent', q, held, held', r.cells, r.cells, r.tasks);
  }

  // ---------- Steps of one collector ----------

  lemma PrePrepareCellOk(w: World, sent: set<Message>, cell: Cell, pp: PrePrepare)
    requires CellOk(w, sent, cell) && pp.seqNo == cell.seqNo
    ensures CellOk(w, sent, PrePrepareCell(cell, w.F(), pp))
  {
    AddPrePrepareKeepsBacked(cell.votes, w.F(), pp);
  }

  lemma PrepareCellOk(w: World, sent: set<Message>, cell: Cell, v: Vote)
    requires CellOk(w, sent, cell) && Genuine(w, MsgPrepare(v), sent, cell, v.replica, v)
    ensures CellOk(w, sent, PrepareCell(cell, w.F(), v))
  {
    AddPrepareKeepsBacked(cell.votes, w.F(), v);
  }

  lemma CommitCellOk(w: World, sent: set<Message>, cell: Cell, v: Vote)
    requires CellOk(w, sent, cell) && Genuine(w, MsgCommit(v), sent, cell, v.replica, v) && v.view == cell.view
    ensures CellOk(w, sent, CommitCell(cell, w.F(), v))
  {
    AddCommitKeepsBacked(cell.votes, w.F(), v);
  }

  lemma NewCellOk(w: World, sent: set<Message>, n: int, view: int)
    ensures CellOk(w, sent, Cell(n, view, EMPTY, 0))
  {
  }

  /** Replacing one collector by another with the same label. */
  lemma CellChanges(w: World, sent: set<Message>, q: string, held: iset<Vote>, r: Replica, ref: nat, cell: Cell)
    requires NodeOk(w, sent, q, held, r) && ref < |r.cells| && CellOk(w, sent, cell)
    requires SameLabel(r.cells[ref], cell)
    ensures NodeOk(w, sent, q, held, r.(cells := r.cells[ref := cell]))
  {
    TasksGrow(w, sent, sent, q, held, held, r.cells, r.cells[ref := cell], r.tasks);
  }

  /** Adding a collector for number n in the current view. */
  lemma CellIsAdded(w: World, sent: set<Message>, q: string, held: iset<Vote>, r: Replica, cell: Cell)
    requires NodeOk(w, sent, q, held, r) && CellOk(w, sent, cell) && cell.view == r.view
    ensures NodeOk(w, sent, q, held, r.(cells := r.cells + [cell], txns := r.txns[cell.seqNo := |r.cells|]))
  {
    TasksGrow(w, sent, sent, q, held, held, r.cells, r.cells + [cell], r.tasks);
  }

  lemma WithCellOk(w: World, sent: set<Message>, q: string, held: iset<Vote>, r: Replica, n: int)
    requires NodeOk(w, sent, q, held, r)
    ensures NodeOk(w, sent, q, held, WithCell(r, n))
    ensures var r' := WithCell(r, n); n in r'.txns && r'.txns[n] < |r'.cells|
    ensures var r' := WithCell(r, n); r'.cells[r'.txns[n]].seqNo == n && r'.cells[r'.txns[n]].view == r.view
  {
    NewCellOk(w, sent, n, r.view);
    if n !in r.txns {
      CellIsAdded(w, sent, q, held, r, Cell(n, r.view, EMPTY, 0));
    }
  }

  lemma SpawnOk(w: World, sent: set<Message>, q: string, held: iset<Vote>, r: Replica, t: Task)
    requires NodeOk(w, sent, q, held, r) && TaskOk(w, sent, q, held, r.cells, t)
    ensures NodeOk(w, sent, q, held, Spawn(r, t))
  {
  }

  // ---------- Handlers ----------

  /** The collector a primary creates for the next number. */
  function NumberedCell(cfg: Config, r: Replica, req: ClientRequest): Cell {
    PrePrepareCell(Cell(r.lastSeq + 1, r.view, EMPTY, 0), cfg.F(), PrePrepare(r.view, r.lastSeq + 1, cfg.digestOf(req)))
  }

  lemma ClientNumbers(cfg: Config, r: Replica, req: ClientRequest)
    requires IsPrimary(cfg, r) && !r.inViewChange && |r.inProgress| < cfg.maxOutstanding
    ensures var n, cell := r.lastSeq + 1, NumberedCell(cfg, r, req);
            var r0 := r.(lastSeq := n, inProgress := r.inProgress + {n});
            HandleClient(cfg, r, req).replica
            == Spawn(r0.(cells := r.cells + [cell], txns := r.txns[n := |r.cells|]),
                     AddToStoreTask(|r.cells|, Some([req])))
  {
  }

  lemma ClientOk(w: World, sent: set<Message>, q: string, held: iset<Vote>, r: Replica, req: ClientRequest)
    requires NodeOk(w, sent, q, held, r)
    ensures NodeOk(w, sent, q, held, HandleClient(w.At(q), r, req).replica)
  {
    var cfg := w.At(q);
    if IsPrimary(cfg, r) && !r.inViewChange && |r.inProgress| < cfg.maxOutstanding {
      var n := r.lastSeq + 1;
      ClientNumbers(cfg, r, req);
      NewCellOk(w, sent, n, r.view);
      PrePrepareCellOk(w, sent, Cell(n, r.view, EMPTY, 0), PrePrepare(r.view, n, cfg.digestOf(req)));
      NumberedOk(w, sent, q, held, r.(lastSeq := n, inProgress := r.inProgress + {n}), NumberedCell(cfg, r, req),
                 Some([req]));
    }
  }

  lemma NumberedOk(w: World, sent: set<Message>, q: string, held: iset<Vote>, r: Replica, cell: Cell, batch: Batch)
    requires NodeOk(w, sent, q, held, r) && CellOk(w, sent, cell) && cell.view == r.view
    requires cell.votes.preprepare.Some?
    ensures var r' := r.(cells := r.cells + [cell], txns := r.txns[cell.seqNo := |r.cells|]);
            NodeOk(w, sent, q, held, Spawn(r', AddToStoreTask(|r.cells|, batch)))
  {
    CellIsAdded(w, sent, q, held, r, cell);
    SpawnOk(w, sent, q, held, r.(cells := r.cells + [cell], txns := r.txns[cell.seqNo := |r.cells|]),
            AddToStoreTask(|r.cells|, batch));
  }

  lemma PrePrepareOk(w: World, sent: set<Message>, q: string, held: iset<Vote>, r: Replica, pp: PrePrepare,
                     batch: Batch)
    requires NodeOk(w, sent, q, held, r)
    ensures var o := HandlePrePrepare(w.At(q), r, pp, batch);
            NodeOk(w, sent + SetOf(o.sent), q, held, o.replica)
  {
    var o := HandlePrePrepare(w.At(q), r, pp, batch);
    var sent' := sent + SetOf(o.sent);
    NodeGrows(w, sent, sent', q, held, held, r);
    if o.sent != [] {
      var own := Vote(pp.view, pp.seqNo, pp.digest, q);
      assert o.sent[0] == MsgPrepare(own) && MsgPrepare(own) in sent';
      var r0 := r.(inProgress := r.inProgress + {pp.seqNo});
      WithCellOk(w, sent', q, held, r0, pp.seqNo);
      var r1 := WithCell(r0, pp.seqNo);
      var ref := r1.txns[pp.seqNo];
      SpawnOk(w, sent', q, held, r1, AddPrePrepareTask(ref, pp));
      SpawnOk(w, sent', q, held, Spawn(r1, AddPrePrepareTask(ref, pp)), AddPrepareTask(ref, own));
    }
  }

  lemma PrepareOk(w: World, sent: set<Message>, q: string, held: iset<Vote>, r: Replica, v: Vote)
    requires NodeOk(w, sent, q, held, r) && (v.replica in w.byz || MsgPrepare(v) in sent)
    ensures NodeOk(w, sent, q, held, HandlePrepare(w.At(q), r, v).replica)
  {
    WithCellOk(w, sent, q, held, r, v.seqNo);
  }

  lemma CommitOk(w: World, sent: set<Message>, q: string, held: iset<Vote>, r: Replica, v: Vote)
    requires NodeOk(w, sent, q, held, r) && (v.replica in w.byz || MsgCommit(v) in sent)
    ensures NodeOk(w, sent, q, held, HandleCommit(w.At(q), r, v).replica)
  {
    WithCellOk(w, sent, q, held, r, v.seqNo);
  }

  lemma CommittedOk(w: World, sent: set<Message>, q: string, held: iset<Vote>, r: Replica, n: int)
    requires NodeOk(w, sent, q, held, r)
    ensures NodeOk(w, sent, q, held, HandleCommitted(w.At(q), r, n).replica)
    ensures forall m | m in HandleCommitted(w.At(q), r, n).sent :: !m.MsgCommit?
  {
    CommittedTasks(w.At(q), r, n);
    CommittedSends(w.At(q), r, n);
  }

  lemma CheckpointOk(w: World, sent: set<Message>, q: string, held: iset<Vote>, r: Replica, c: Checkpoint)
    requires NodeOk(w, sent, q, held, r)
    ensures NodeOk(w, sent, q, held, HandleCheckpoint(w.At(q), r, c).replica)
  {
  }

  lemma EnterViewOk(w: World, sent: set<Message>, q: string, held: iset<Vote>, r: Replica, view: int, n: int,
                    leader: string)
    requires NodeOk(w, sent, q, held, r)
    ensures NodeOk(w, sent, q, held, EnterView(r, view, n, leader))
  {
  }

  lemma {:induction false} InstallOk(w: World, sent: set<Message>, q: string, held: iset<Vote>, r: Replica,
                                     pps: seq<PrePrepare>)
    requires NodeOk(w, sent, q, held, r)
    ensures var o := Install(w.At(q), r, pps);
            && NodeOk(w, sent + SetOf(o.sent), q, held, o.replica) && o.replica.view == r.view
            && forall m | m in o.sent :: m.MsgPrepare?
  {
    if pps == [] {
      assert sent + SetOf([]) == sent;
    } else {
      var before, pp := Install(w.At(q), r, pps[..|pps| - 1]), pps[|pps| - 1];
      InstallOk(w, sent, q, held, r, pps[..|pps| - 1]);
      var own := Vote(pp.view, pp.seqNo, pp.digest, q);
      var o := Install(w.At(q), r, pps);
      var sent1, sent' := sent + SetOf(before.sent), sent + SetOf(o.sent);
      assert o.sent == before.sent + [MsgPrepare(own)];
      assert MsgPrepare(own) in o.sent && MsgPrepare(own) in sent';
      assert sent1 <= sent';
      NodeGrows(w, sent1, sent', q, held, held, before.replica);
      var cell := Cell(pp.seqNo, r.view, EMPTY, 0);
      NewCellOk(w, sent', pp.seqNo, r.view);
      PrePrepareCellOk(w, sent', cell, pp);
      PrepareCellOk(w, sent', PrePrepareCell(cell, w.F(), pp), own);
      CellIsAdded(w, sent', q, held, before.replica, PrepareCell(PrePrepareCell(cell, w.F(), pp), w.F(), own));
    }
  }

  lemma NewViewOk(w: World, sent: set<Message>, q: string, held: iset<Vote>, r: Replica, nv: NewView)
    requires NodeOk(w, sent, q, held, r) && HandleNewView(w.At(q), r, nv).Some?
    ensures var o := HandleNewView(w.At(q), r, nv).value;
            NodeOk(w, sent + SetOf(o.sent), q, held, o.replica) && forall m | m in o.sent :: !m.MsgCommit?
  {
    if nv.newView < r.view {
      assert sent + SetOf([]) == sent;
    } else {
      EnterViewOk(w, sent, q, held, r, nv.newView, FirstNumber(nv), nv.replica);
      InstallOk(w, sent, q, held, EnterView(r, nv.newView, FirstNumber(nv), nv.replica), nv.preprepares);
    }
  }

  /** A message that is only handled: nothing is broadcast that others could take for a commit. */
  lemma MessageOk(w: World, sent: set<Message>, q: string, held: iset<Vote>, r: Replica, input: Input)
    requires NodeOk(w, sent, q, held, r) && Ready(w.At(q), r, input) && Authentic(w, sent, input)
    requires !input.RunTask? && !input.RunCheck? && !input.CastVote?
    ensures var o := Step(w.At(q), r, input);
            NodeOk(w, sent + SetOf(o.sent), q, held, o.replica) && forall m | m in o.sent :: !m.MsgCommit?
  {
    var o := Step(w.At(q), r, input);
    match input {
      case OnPrePrepare(pp, batch) => PrePrepareOk(w, sent, q, held, r, pp, batch);
      case OnNewView(nv) => NewViewOk(w, sent, q, held, r, nv);
      case Client(req) => ClientOk(w, sent, q, held, r, req);
      case OnPrepare(v) => PrepareOk(w, sent, q, held, r, v);
      case OnCommit(v) => CommitOk(w, sent, q, held, r, v);
      case OnCheckpoint(c) => CheckpointOk(w, sent, q, held, r, c);
      case Timeout(view) => SpawnOk(w, sent, q, held, r.(inViewChange := true), VoteTask(view));
      case _ =>
    }
    if !input.OnPrePrepare? && !input.OnNewView? {
      NodeGrows(w, sent, sent + SetOf(o.sent), q, held, held, o.replica);
    }
  }

  lemma CollectorTaskOk(w: World, sent: set<Message>, q: string, held: iset<Vote>, r: Replica, t: Task)
    requires NodeOk(w, sent, q, held, r) && TaskOk(w, sent, q, held, r.cells, t) && HasRef(t)
    ensures NodeOk(w, sent, q, held, Perform(w.At(q), r, t).replica) && Perform(w.At(q), r, t).sent == []
  {
    var cell := r.cells[t.ref];
    assert CellOk(w, sent, cell);
    match t
    case AddPrePrepareTask(ref, pp) =>
      PrePrepareCellOk(w, sent, cell, pp);
      CellChanges(w, sent, q, held, r, ref, PrePrepareCell(cell, w.F(), pp));
    case AddPrepareTask(ref, v) =>
      PrepareCellOk(w, sent, cell, v);
      CellChanges(w, sent, q, held, r, ref, PrepareCell(cell, w.F(), v));
    case AddCommitTask(ref, v) =>
      CommitCellOk(w, sent, cell, v);
      CellChanges(w, sent, q, held, r, ref, CommitCell(cell, w.F(), v));
    case AddToStoreTask(_, _) =>
  }

  lemma OtherTaskOk(w: World, sent: set<Message>, q: string, held: iset<Vote>, r: Replica, t: Task)
    requires NodeOk(w, sent, q, held, r) && TaskOk(w, sent, q, held, r.cells, t) && !HasRef(t)
    ensures var o := Perform(w.At(q), r, t);
            && NodeOk(w, sent + SetOf(o.sent), q, held, o.replica)
            && forall c | MsgCommit(c) in o.sent :: c.replica == q && c in held
  {
    var o := Perform(w.At(q), r, t);
    match t {
      case HandleCommitTask(v) => CommitOk(w, sent, q, held, r, v);
      case CommittedTask(n) => CommittedOk(w, sent, q, held, r, n);
      case CheckpointTask(c) => CheckpointOk(w, sent, q, held, r, c);
      case ClientTask(req) => ClientOk(w, sent, q, held, r, req);
      case PreparedTask(v) =>
        assert o.sent[0] == MsgCommit(v);
        NodeGrows(w, sent, sent + SetOf(o.sent), q, held, held, r);
        SpawnOk(w, sent + SetOf(o.sent), q, held, r, HandleCommitTask(v));
      case _ =>
    }
    if !t.PreparedTask? {
      NodeGrows(w, sent, sent + SetOf(o.sent), q, held, held, o.replica);
    }
  }

  lemma TaskOkWhenRun(w: World, sent: set<Message>, q: string, held: iset<Vote>, r: Replica, t: Task)
    requires NodeOk(w, sent, q, held, r) && t in r.tasks
    ensures HasRef(t) ==> t.ref < |r.cells|
    ensures var o := Perform(w.At(q), r.(tasks := r.tasks - multiset{t}), t);
            && NodeOk(w, sent + SetOf(o.sent), q, held, o.replica)
            && forall c | MsgCommit(c) in o.sent :: c.replica == q && c in held
  {
    var r' := r.(tasks := r.tasks - multiset{t});
    assert TaskOk(w, sent, q, held, r.cells, t);
    assert NodeOk(w, sent, q, held, r');
    if HasRef(t) {
      CollectorTaskOk(w, sent, q, held, r', t);
      assert sent + SetOf([]) == sent;
    } else {
      OtherTaskOk(w, sent, q, held, r', t);
    }
  }

  lemma CheckOk(w: World, sent: set<Message>, q: string, held: iset<Vote>, r: Replica, ref: nat)
    requires NodeOk(w, sent, q, held, r) && ref < |r.cells| && r.cells[ref].checks > 0
    requires Check(r.cells[ref].votes, q).commit.Some? ==> Check(r.cells[ref].votes, q).commit.value in held
    ensures NodeOk(w, sent, q, held, CheckCell(w.At(q), r, ref))
  {
    var cell, c := r.cells[ref], Check(r.cells[ref].votes, q);
    assert CellOk(w, sent, cell);
    var cell' := cell.(votes := c.votes, checks := cell.checks - 1);
    assert CellOk(w, sent, cell');
    CellChanges(w, sent, q, held, r, ref, cell');
  }

  // ---------- Whole runs ----------

  /** The certificate behind the commit c: its pre-prepare, and 2F prepares of distinct replicas for its digest. */
  ghost predicate Holds(w: World, sent: set<Message>, votes: Collector, c: Vote) {
    && votes.preprepare == Some(PrePrepare(c.view, c.seqNo, c.digest))
    && |votes.prepares| >= 2 * w.F()
    && forall k | k in votes.prepares ::
         var v := votes.prepares[k];
         && v.replica == k && v.seqNo == c.seqNo
         && (c.digest != "" ==> v.digest == c.digest)
         && (k in w.byz || MsgPrepare(v) in sent)
  }

  ghost predicate HoldsNow(w: World, s: System, c: Vote) {
    c.replica in s.nodes
    && exists i :: 0 <= i < |s.nodes[c.replica].cells| && Holds(w, s.sent, s.nodes[c.replica].cells[i].votes, c)
  }

  /** At some point of the run, c's sender held the certificate behind c. */
  ghost predicate HasHeld(w: World, run: seq<Action>, c: Vote) {
    HoldsNow(w, After(w, run), c) || (run != [] && HasHeld(w, run[..|run| - 1], c))
  }

  ghost function Held(w: World, run: seq<Action>): iset<Vote> {
    iset c | HasHeld(w, run, c)
  }

  ghost predicate SystemOk(w: World, s: System, held: iset<Vote>) {
    && s.nodes.Keys == w.Correct()
    && (forall q | q in s.nodes :: NodeOk(w, s.sent, q, held, s.nodes[q]))
    && (forall c | MsgCommit(c) in s.sent :: c.replica in s.nodes && c in held)
  }

  lemma FiringHolds(w: World, sent: set<Message>, cell: Cell, q: string)
    requires CellOk(w, sent, cell) && Check(cell.votes, q).commit.Some?
    ensures Holds(w, sent, cell.votes, Check(cell.votes, q).commit.value)
  {
  }

  /** One step of one replica, with the commits held after it. */
  lemma StepOk(w: World, s: System, a: Action, held: iset<Vote>, held': iset<Vote>)
    requires SystemOk(w, s, held) && Enabled(w, s, a) && held <= held'
    requires forall c | HoldsNow(w, s, c) :: c in held'
    ensures var o := Step(w.At(a.who), s.nodes[a.who], a.input);
            && NodeOk(w, s.sent + SetOf(o.sent), a.who, held', o.replica)
            && forall c | MsgCommit(c) in o.sent :: c.replica == a.who && c in held'
  {
    var q, r, input := a.who, s.nodes[a.who], a.input;
    NodeGrows(w, s.sent, s.sent, q, held, held', r);
    match input
    case RunTask(t) => TaskOkWhenRun(w, s.sent, q, held', r, t);
    case RunCheck(ref) =>
      var c := Check(r.cells[ref].votes, q).commit;
      if c.Some? {
        assert CellOk(w, s.sent, r.cells[ref]);
        FiringHolds(w, s.sent, r.cells[ref], q);
        assert HoldsNow(w, s, c.value);
      }
      CheckOk(w, s.sent, q, held', r, ref);
      assert s.sent + SetOf([]) == s.sent;
    case CastVote(vc) =>
      var o := Step(w.At(q), r, input);
      NodeGrows(w, s.sent, s.sent + SetOf(o.sent), q, held', held', o.replica);
    case _ => MessageOk(w, s.sent, q, held', r, input);
  }

  lemma ActOk(w: World, s: System, a: Action, held: iset<Vote>, held': iset<Vote>)
    requires SystemOk(w, s, held) && held <= held'
    requires forall c | HoldsNow(w, s, c) :: c in held'
    ensures SystemOk(w, Act(w, s, a), held')
  {
    var s' := Act(w, s, a);
    if Enabled(w, s, a) {
      StepOk(w, s, a, held, held');
    }
    forall q | q in s'.nodes ensures NodeOk(w, s'.sent, q, held', s'.nodes[q]) {
      if q != a.who || !Enabled(w, s, a) {
        NodeGrows(w, s.sent, s'.sent, q, held, held', s.nodes[q]);
      }
    }
  }

  lemma {:induction false} RunsAreOk(w: World, run: seq<Action>)
    ensures SystemOk(w, After(w, run), Held(w, run))
  {
    if run == [] {
      forall q | q in w.Correct() ensures NodeOk(w, {}, q, Held(w, run), NewReplica(w.At(q))) {
      }
    } else {
      var before := run[..|run| - 1];
      RunsAreOk(w, before);
      forall c | HoldsNow(w, After(w, before), c) ensures c in Held(w, run) {
        assert HasHeld(w, before, c);
      }
      ActOk(w, After(w, before), run[|run| - 1], Held(w, before), Held(w, run));
    }
  }

  /** b has held a certificate for number n and `digest` whose pre-prepare is of `view`. */
  ghost predicate HasHeldFor(w: World, run: seq<Action>, b: string, view: int, n: int, digest: string) {
    exists d :: (digest != "" ==> d == digest) && HasHeld(w, run, Vote(view, n, d, b))
  }

  /**
   * With at most F faulty replicas, whenever a correct replica's committed callback fires for number n, at
   * least F+1 correct replicas have each held, in one collector for n, a pre-prepare of the view the firing
   * collector was created in and 2F prepares -- all with the digest of the executed pre-prepare, unless
   * that digest is empty.
   */
  lemma {:induction false} ExecutionNeedsPreparedQuorum(w: World, run: seq<Action>, q: string, ref: nat)
      returns (backers: set<string>)
    requires |w.byz| <= w.F()
    requires Enabled(w, After(w, run), Action(q, RunCheck(ref)))
    requires Check(After(w, run).nodes[q].cells[ref].votes, q).decided.Some?
    ensures var cell := After(w, run).nodes[q].cells[ref];
            && cell.votes.preprepare.Some? && cell.votes.preprepare.value.seqNo == cell.seqNo
            && Check(cell.votes, q).decided == Some(cell.seqNo)
            && backers <= w.Correct() && |backers| >= w.F() + 1
            && forall b | b in backers ::
                 HasHeldFor(w, run, b, cell.view, cell.seqNo, cell.votes.preprepare.value.digest)
  {
    RunsAreOk(w, run);
    var s := After(w, run);
    var cell := s.nodes[q].cells[ref];
    assert CellOk(w, s.sent, cell);
    var commits := cell.votes.commits;
    backers := commits.Keys - w.byz;
    QuorumMinusFaulty(commits.Keys, w.byz, w.F());
    var pp := cell.votes.preprepare.value;
    forall b | b in backers
      ensures b in w.Correct() && HasHeldFor(w, run, b, cell.view, cell.seqNo, pp.digest)
    {
      var c := commits[b];
      assert Genuine(w, MsgCommit(c), s.sent, cell, b, c);
      assert c.replica in s.nodes && c in Held(w, run);
      assert c == Vote(cell.view, cell.seqNo, c.digest, b);
    }
  }

  /** The collector of a started `AddToStore` has its pre-prepare, so the source never dereferences nil there. */
  lemma AddToStoreHasPrePrepare(w: World, run: seq<Action>, q: string, ref: nat, batch: Batch)
    requires q in After(w, run).nodes && AddToStoreTask(ref, batch) in After(w, run).nodes[q].tasks
    ensures var cells := After(w, run).nodes[q].cells; ref < |cells| && cells[ref].votes.preprepare.Some?
  {
    RunsAreOk(w, run);
    var s := After(w, run);
    assert NodeOk(w, s.sent, q, Held(w, run), s.nodes[q]);
    assert TaskOk(w, s.sent, q, Held(w, run), s.nodes[q].cells, AddToStoreTask(ref, batch));
  }
}
