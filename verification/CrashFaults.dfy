/**
 * Runs in which replicas may crash but not lie, up to their votes for a view change: no collector ever loses
 * its certificate, although a status response can make a replica give the collector up.
 */
module CrashFaults {
  import opened Messages
  import opened VoteCollector
  import opened StoreModel
  import opened StoreRuns
  import opened TransactionStates
  import opened Replicas
  import opened Systems
  import opened PreparedQuorum
  import opened FirstView
  import opened Freeze

  /** No new view has started, and what is delivered was sent. */
  ghost predicate HonestMessage(s: System, a: Action) {
    match a.input
    case OnNewView(_) => false
    case OnPrePrepare(pp, batch) => MsgPrePrepare(pp, batch) in s.sent
    case OnCheckpoint(c) => MsgCheckpoint(c) in s.sent
    case OnStatus(k, proof) => MsgStatus(a.who, k, proof) in s.sent
    case _ => true
  }

  /** The action replaces the replica's view data by those of a status response. */
  ghost predicate InstallsStatus(s: System, a: Action) {
    a.who in s.nodes && a.input.OnStatus? && Installs(s.nodes[a.who], a.input.lastStable, a.input.proof)
  }

  /** A status response that would have the first primary number its requests anew is not installed there. */
  ghost predicate HonestInput(w: World, s: System, a: Action) {
    && HonestMessage(s, a)
    && (InstallsStatus(s, a) && a.who == Primary(w) ==> s.nodes[a.who].lastSeq == a.input.lastStable + 1)
  }

  /** Nobody lies; a crashed replica is one that takes no further action. */
  ghost predicate CrashRun(w: World, run: seq<Action>) {
    w.byz == {} && forall i | 0 <= i < |run| :: HonestInput(w, After(w, run[..i]), run[i])
  }

  // ---------- What a crash run keeps at one replica ----------

  ghost predicate VoteFits(w: World, log: seq<ClientRequest>, v: Vote) {
    v.view == 0 && 1 <= v.seqNo <= |log| && v.digest == w.digestOf(log[v.seqNo - 1])
  }

  ghost predicate MessageFits(w: World, log: seq<ClientRequest>, m: Message) {
    && (m.MsgPrepare? ==> VoteFits(w, log, m.prepare))
    && (m.MsgCommit? ==> VoteFits(w, log, m.commit))
    && (m.MsgCheckpoint? ==> OfLog(log, m.checkpoint))
    && (m.MsgStatus? ==> m.lastStable <= |log| && AllOfLog(log, m.proof))
  }

  predicate OfLog(log: seq<ClientRequest>, c: Checkpoint) {
    c.seqNo <= |log| && c.view == 0
  }

  predicate AllOfLog(log: seq<ClientRequest>, cs: seq<Checkpoint>) {
    forall c | c in cs :: OfLog(log, c)
  }

  ghost predicate Bounded(log: seq<ClientRequest>, s: StoreState) {
    && s.lastApplied <= |log| && AllOfLog(log, ProofOf(s)) && StableNumber(s) <= |log|
    && forall id | id in s.unstable :: AllOfLog(log, s.unstable[id])
  }

  ghost predicate CellsNumbered(log: seq<ClientRequest>, r: Replica) {
    forall i | 0 <= i < |r.cells| :: 1 <= r.cells[i].seqNo <= |log|
  }

  ghost predicate TaskHonest(w: World, log: seq<ClientRequest>, r: Replica, t: Task) {
    match t
    case PreparedTask(c) => VoteFits(w, log, c)
    case HandleCommitTask(c) => VoteFits(w, log, c)
    case AddPrepareTask(_, v) => VoteFits(w, log, v)
    case AddCommitTask(_, v) => VoteFits(w, log, v)
    case CheckpointTask(c) => OfLog(log, c)
    case _ => true
  }

  ghost predicate TasksHonest(w: World, log: seq<ClientRequest>, r: Replica) {
    forall t | t in r.tasks :: TaskHonest(w, log, r, t)
  }

  ghost predicate VotesFit(w: World, log: seq<ClientRequest>, cell: Cell) {
    && (forall k | k in cell.votes.prepares :: VoteFits(w, log, cell.votes.prepares[k]))
    && (forall k | k in cell.votes.commits :: VoteFits(w, log, cell.votes.commits[k]))
  }

  ghost predicate Honest(w: World, log: seq<ClientRequest>, r: Replica) {
    && Bounded(log, r.store) && CellsNumbered(log, r) && TasksHonest(w, log, r)
    && forall i | 0 <= i < |r.cells| :: VotesFit(w, log, r.cells[i])
  }

  // ---------- What a step changes in the collectors ----------

  ghost predicate CommittedCell(w: World, cell: Cell) {
    cell.votes.preprepare.Some? && |cell.votes.commits| >= 2 * w.F() + 1
  }

  ghost predicate CellAdvances(w: World, cell: Cell, cell': Cell) {
    && cell'.seqNo == cell.seqNo
    && (IsComplete(cell, w.F()) ==> IsComplete(cell', w.F()))
    && (CommittedCell(w, cell) ==> CommittedCell(w, cell'))
  }

  /** No certificate is ever lost. */
  ghost predicate Advances(w: World, cells: seq<Cell>, cells': seq<Cell>) {
    |cells| <= |cells'| && forall i | 0 <= i < |cells| :: CellAdvances(w, cells[i], cells'[i])
  }

  ghost predicate Moves(w: World, log: seq<ClientRequest>, r: Replica, r': Replica) {
    Honest(w, log, r') && Advances(w, r.cells, r'.cells)
  }

  lemma HonestLongerLog(w: World, log: seq<ClientRequest>, more: seq<ClientRequest>, r: Replica)
    requires Honest(w, log, r)
    ensures Honest(w, log + more, r)
  {
    forall t | t in r.tasks ensures TaskHonest(w, log + more, r, t) {
      assert TaskHonest(w, log, r, t);
    }
    forall i | 0 <= i < |r.cells| ensures VotesFit(w, log + more, r.cells[i]) {
      assert VotesFit(w, log, r.cells[i]);
    }
  }

  lemma PrepareAdvances(w: World, log: seq<ClientRequest>, cell: Cell, v: Vote)
    requires VotesFit(w, log, cell) && VoteFits(w, log, v)
    ensures VotesFit(w, log, PrepareCell(cell, w.F(), v)) && CellAdvances(w, cell, PrepareCell(cell, w.F(), v))
  {
    InsertCard(cell.votes.prepares, v);
  }

  lemma CommitAdvances(w: World, log: seq<ClientRequest>, cell: Cell, v: Vote)
    requires VotesFit(w, log, cell) && VoteFits(w, log, v)
    ensures VotesFit(w, log, CommitCell(cell, w.F(), v)) && CellAdvances(w, cell, CommitCell(cell, w.F(), v))
  {
    InsertCard(cell.votes.commits, v);
  }

  /** All votes for a number carry the digest the primary gave it, so a late pre-prepare purges nothing. */
  lemma PrePrepareAdvances(w: World, log: seq<ClientRequest>, sent: set<Message>, cell: Cell, pp: PrePrepare)
    requires CellOk(w, sent, cell) && VotesFit(w, log, cell) && PrePrepareFits(w, log, pp) && pp.seqNo == cell.seqNo
    ensures VotesFit(w, log, PrePrepareCell(cell, w.F(), pp)) && CellAdvances(w, cell, PrePrepareCell(cell, w.F(), pp))
  {
    assert Matching(cell.votes.prepares, pp.digest) == cell.votes.prepares;
    assert Matching(cell.votes.commits, pp.digest) == cell.votes.commits;
  }

  // ---------- Handlers ----------

  lemma CellChangeMoves(w: World, log: seq<ClientRequest>, r: Replica, ref: nat, cell: Cell)
    requires Honest(w, log, r) && ref < |r.cells| && VotesFit(w, log, cell) && CellAdvances(w, r.cells[ref], cell)
    ensures Honest(w, log, r.(cells := r.cells[ref := cell]))
    ensures Advances(w, r.cells, r.cells[ref := cell])
  {
    var r' := r.(cells := r.cells[ref := cell]);
    forall t | t in r'.tasks ensures TaskHonest(w, log, r', t) {
      assert TaskHonest(w, log, r, t);
    }
  }

  lemma CellAddMoves(w: World, log: seq<ClientRequest>, r: Replica, cell: Cell)
    requires Honest(w, log, r) && VotesFit(w, log, cell) && 1 <= cell.seqNo <= |log|
    ensures Honest(w, log, r.(cells := r.cells + [cell], txns := r.txns[cell.seqNo := |r.cells|]))
    ensures Advances(w, r.cells, r.cells + [cell])
  {
    var r' := r.(cells := r.cells + [cell], txns := r.txns[cell.seqNo := |r.cells|]);
    forall t | t in r'.tasks ensures TaskHonest(w, log, r', t) {
      assert TaskHonest(w, log, r, t);
    }
  }

  lemma WithCellMoves(w: World, log: seq<ClientRequest>, r: Replica, n: int)
    requires Honest(w, log, r) && 1 <= n <= |log|
    ensures Honest(w, log, WithCell(r, n)) && Advances(w, r.cells, WithCell(r, n).cells)
  {
    if n !in r.txns {
      CellAddMoves(w, log, r, Cell(n, r.view, EMPTY, 0));
    }
  }

  lemma SpawnMoves(w: World, log: seq<ClientRequest>, r: Replica, t: Task)
    requires Honest(w, log, r) && TaskHonest(w, log, r, t)
    ensures Honest(w, log, Spawn(r, t))
  {
    var r' := Spawn(r, t);
    forall t' | t' in r'.tasks ensures TaskHonest(w, log, r', t') {
      assert t' != t ==> TaskHonest(w, log, r, t');
    }
  }

  /** A change of fields the invariant does not look at. */
  lemma SameWhereItMatters(w: World, log: seq<ClientRequest>, r: Replica, r': Replica)
    requires Honest(w, log, r)
    requires r' == r.(inProgress := r'.inProgress, lastSeq := r'.lastSeq, pending := r'.pending)
    ensures Honest(w, log, r')
  {
    forall t | t in r'.tasks ensures TaskHonest(w, log, r', t) {
      assert TaskHonest(w, log, r, t);
    }
  }

  lemma NextNumberIsNew(log: seq<ClientRequest>, r: Replica)
    requires RefsOk(r) && CellsNumbered(log, r)
    ensures |log| + 1 !in r.txns
  {
    forall n | n in r.txns ensures n <= |log| {
      assert r.cells[r.txns[n]].seqNo == n;
    }
  }

  lemma ClientMoves(w: World, q: string, log: seq<ClientRequest>, r: Replica, req: ClientRequest)
    requires Honest(w, log, r) && NodeFits(w, q, log, r) && RefsOk(r)
    ensures var o := HandleClient(w.At(q), r, req);
            Moves(w, log + Logged(o.sent), r, o.replica)
  {
    var cfg := w.At(q);
    var o := HandleClient(cfg, r, req);
    if Logged(o.sent) == [] {
      assert log + [] == log;
      if o.replica != r {
        SameWhereItMatters(w, log, r, o.replica);
      }
    } else {
      var log', n := log + [req], |log| + 1;
      HonestLongerLog(w, log, [req], r);
      NextNumberIsNew(log, r);
      var pp := PrePrepare(r.view, n, cfg.digestOf(req));
      var cell := PrePrepareCell(Cell(n, r.view, EMPTY, 0), w.F(), pp);
      CellAddMoves(w, log', r, cell);
      var r1 := r.(cells := r.cells + [cell], txns := r.txns[n := |r.cells|]);
      var r2 := r1.(lastSeq := n, inProgress := r.inProgress + {n});
      SameWhereItMatters(w, log', r1, r2);
      SpawnMoves(w, log', r2, AddToStoreTask(|r.cells|, Some([req])));
    }
  }

  lemma PrePrepareMoves(w: World, q: string, log: seq<ClientRequest>, r: Replica, pp: PrePrepare, batch: Batch)
    requires Honest(w, log, r) && PrePrepareFits(w, log, pp)
    ensures Moves(w, log, r, HandlePrePrepare(w.At(q), r, pp, batch).replica)
    ensures forall m | m in HandlePrePrepare(w.At(q), r, pp, batch).sent :: MessageFits(w, log, m)
  {
    var o := HandlePrePrepare(w.At(q), r, pp, batch);
    if o.sent != [] {
      var r0 := r.(inProgress := r.inProgress + {pp.seqNo});
      SameWhereItMatters(w, log, r, r0);
      WithCellMoves(w, log, r0, pp.seqNo);
      var r1 := WithCell(r0, pp.seqNo);
      var ref := r1.txns[pp.seqNo];
      SpawnMoves(w, log, r1, AddPrePrepareTask(ref, pp));
      SpawnMoves(w, log, Spawn(r1, AddPrePrepareTask(ref, pp)),
                 AddPrepareTask(ref, Vote(pp.view, pp.seqNo, pp.digest, q)));
      var r2 := Spawn(Spawn(r1, AddPrePrepareTask(ref, pp)),
                      AddPrepareTask(ref, Vote(pp.view, pp.seqNo, pp.digest, q)));
      StoreChangeMoves(w, log, r2, AddRequests(r.store, pp.seqNo, batch));
    }
  }

  lemma StoreChangeMoves(w: World, log: seq<ClientRequest>, r: Replica, store: StoreState)
    requires Honest(w, log, r) && Bounded(log, store)
    ensures Honest(w, log, r.(store := store))
  {
    var r' := r.(store := store);
    forall t | t in r'.tasks ensures TaskHonest(w, log, r', t) {
      assert TaskHonest(w, log, r, t);
    }
  }

  lemma VoteMoves(w: World, q: string, log: seq<ClientRequest>, r: Replica, v: Vote)
    requires Honest(w, log, r) && VoteFits(w, log, v)
    ensures Moves(w, log, r, HandlePrepare(w.At(q), r, v).replica)
    ensures Moves(w, log, r, HandleCommit(w.At(q), r, v).replica)
  {
    WithCellMoves(w, log, r, v.seqNo);
    var r1 := WithCell(r, v.seqNo);
    SpawnMoves(w, log, r1, AddPrepareTask(r1.txns[v.seqNo], v));
    SpawnMoves(w, log, r1, AddCommitTask(r1.txns[v.seqNo], v));
  }

  lemma {:induction false} DrainTakesApplied(s: StoreState, id: string, interval: Positive)
    ensures var (end, out) := Drain(s, id, interval);
            forall c | c in out.checkpoints :: c.seqNo <= end.lastApplied
    decreases |Backlog(s)|
  {
    if Lookup(s.committed, s.lastApplied + 1).Some? {
      BacklogShrinks(s);
      DrainTakesApplied(ExecuteNext(s), id, interval);
      DrainStopsAtTheGap(ExecuteNext(s), id, interval);
    }
  }

  lemma CommitStaysBounded(log: seq<ClientRequest>, s: StoreState, n: int, id: string, interval: Positive)
    requires StoreFits(log, s) && Bounded(log, s)
    ensures var (s', out) := Commit(s, n, id, interval);
            Bounded(log, s') && forall c | c in out.checkpoints :: c.seqNo <= |log|
  {
    var marked := MarkCommitted(s, n);
    assert StoreFits(log, marked);
    DrainStopsAtTheGap(marked, id, interval);
    DrainTakesApplied(marked, id, interval);
    var k := Drain(marked, id, interval).0.lastApplied;
    if k > s.lastApplied {
      assert Lookup(marked.committed, k).Some?;
    }
  }

  lemma {:induction false} CheckpointTasksOf(cs: seq<Checkpoint>)
    ensures forall t | t in CheckpointTasks(cs) :: t.CheckpointTask? && t.checkpoint in cs
  {
    if cs != [] {
      CheckpointTasksOf(cs[..|cs| - 1]);
    }
  }

  lemma MoreTasksMoves(w: World, log: seq<ClientRequest>, r: Replica, tasks: multiset<Task>)
    requires Honest(w, log, r) && forall t | t in tasks :: TaskHonest(w, log, r, t)
    ensures Honest(w, log, r.(tasks := r.tasks + tasks))
  {
    var r' := r.(tasks := r.tasks + tasks);
    forall t | t in r'.tasks ensures TaskHonest(w, log, r', t) {
      assert t !in tasks ==> TaskHonest(w, log, r, t);
    }
  }

  lemma ExecutedMoves(w: World, log: seq<ClientRequest>, r: Replica, r': Replica, tasks: multiset<Task>)
    requires Honest(w, log, r) && Bounded(log, r'.store)
    requires forall t | t in tasks :: TaskHonest(w, log, r, t)
    requires r' == r.(store := r'.store, inProgress := r'.inProgress, pending := r'.pending, tasks := r.tasks + tasks)
    ensures Moves(w, log, r, r')
  {
    MoreTasksMoves(w, log, r, tasks);
    var r1 := r.(tasks := r.tasks + tasks);
    StoreChangeMoves(w, log, r1, r'.store);
    SameWhereItMatters(w, log, r1.(store := r'.store), r');
  }

  lemma RefillMoves(w: World, q: string, log: seq<ClientRequest>, r: Replica)
    requires Honest(w, log, r)
    ensures Moves(w, log, r, Refill(w.At(q), r))
  {
    PlainTasks(r.pending, []);
    ExecutedMoves(w, log, r, r.(pending := [], tasks := r.tasks + ClientTasks(r.pending)), ClientTasks(r.pending));
  }

  lemma CommittedMessagesFit(w: World, q: string, log: seq<ClientRequest>, r: Replica, n: int)
    requires StoreFits(log, r.store) && Bounded(log, r.store) && r.view == 0
    ensures forall m | m in HandleCommitted(w.At(q), r, n).sent :: MessageFits(w, log, m)
  {
    var out := Commit(r.store, n, q, w.interval).1;
    CommitStaysBounded(log, r.store, n, q, w.interval);
    assert forall m | m in Announcements(InView(out.checkpoints, r.view)) :: MessageFits(w, log, m);
    assert forall m | m in Replies(w.At(q), r.view, out) :: MessageFits(w, log, m);
  }

  lemma CommittedMoves(w: World, q: string, log: seq<ClientRequest>, r: Replica, n: int)
    requires Honest(w, log, r) && StoreFits(log, r.store) && r.view == 0
    ensures Moves(w, log, r, HandleCommitted(w.At(q), r, n).replica)
  {
    var (store, out) := Commit(r.store, n, q, w.interval);
    var checkpoints := InView(out.checkpoints, r.view);
    CommitStaysBounded(log, r.store, n, q, w.interval);
    assert AllOfLog(log, checkpoints);
    CheckpointTasksOf(checkpoints);
    var r1 := r.(store := store, inProgress := r.inProgress - {n}, tasks := r.tasks + CheckpointTasks(checkpoints));
    ExecutedMoves(w, log, r, r1, CheckpointTasks(checkpoints));
    RefillMoves(w, q, log, r1);
  }

  lemma CheckpointStaysBounded(log: seq<ClientRequest>, s: StoreState, f: nat, c: Checkpoint)
    requires Bounded(log, s) && OfLog(log, c)
    ensures Bounded(log, AddCheckpoint(s, f, c).0)
  {
    var voted := AddVote(s, c);
    assert forall id | id in voted.unstable :: AllOfLog(log, voted.unstable[id]);
    assert voted.unstable[IdOf(c)][0] in voted.unstable[IdOf(c)];
  }

  lemma CheckpointMoves(w: World, q: string, log: seq<ClientRequest>, r: Replica, c: Checkpoint)
    requires Honest(w, log, r) && OfLog(log, c)
    ensures Moves(w, log, r, HandleCheckpoint(w.At(q), r, c).replica)
  {
    CheckpointStaysBounded(log, r.store, w.F(), c);
    var r' := HandleCheckpoint(w.At(q), r, c).replica;
    forall t | t in r'.tasks ensures TaskHonest(w, log, r', t) {
      assert TaskHonest(w, log, r, t);
    }
  }

  lemma {:induction false} FirstViewProof(log: seq<ClientRequest>, proof: seq<Checkpoint>)
    requires AllOfLog(log, proof)
    ensures MaxView(proof) == 0
  {
    if proof != [] {
      FirstViewProof(log, proof[..|proof| - 1]);
      assert OfLog(log, proof[|proof| - 1]);
    }
  }

  /** A status response takes the collectors out of the map; they themselves stay as they are. */
  lemma StatusMoves(w: World, q: string, log: seq<ClientRequest>, r: Replica, lastStable: int, proof: seq<Checkpoint>)
    requires Honest(w, log, r) && lastStable <= |log| && AllOfLog(log, proof)
    ensures Moves(w, log, r, HandleStatus(w.At(q), r, lastStable, proof).replica)
  {
    var r' := HandleStatus(w.At(q), r, lastStable, proof).replica;
    if proof != [] {
      assert proof[0] in proof;
    }
    forall t | t in r'.tasks ensures TaskHonest(w, log, r', t) {
      assert TaskHonest(w, log, r, t);
    }
  }

  lemma StatusRequestFits(w: World, log: seq<ClientRequest>, r: Replica, from: string)
    requires Honest(w, log, r)
    ensures forall m | m in HandleStatusRequest(r, from).sent :: MessageFits(w, log, m)
  {
  }

  lemma CheckMoves(w: World, q: string, log: seq<ClientRequest>, r: Replica, ref: nat)
    requires Honest(w, log, r) && CellsFit(w, log, r.cells) && ref < |r.cells| && r.cells[ref].checks > 0
    ensures Moves(w, log, r, CheckCell(w.At(q), r, ref))
  {
    var cell, c := r.cells[ref], Check(r.cells[ref].votes, q);
    var cell' := cell.(votes := c.votes, checks := cell.checks - 1);
    assert VotesFit(w, log, cell);
    CellChangeMoves(w, log, r, ref, cell');
    var r1 := r.(cells := r.cells[ref := cell']);
    var r2 := if c.commit.Some? then Spawn(r1, PreparedTask(c.commit.value)) else r1;
    if c.commit.Some? {
      SpawnMoves(w, log, r1, PreparedTask(c.commit.value));
    }
    if c.decided.Some? {
      SpawnMoves(w, log, r2, CommittedTask(c.decided.value));
    }
  }

  /** A vote or pre-prepare for a collector whose number it carries. */
  lemma CollectedMoves(w: World, q: string, log: seq<ClientRequest>, sent: set<Message>, cell: Cell, t: Task)
      returns (cell': Cell)
    requires VotesFit(w, log, cell) && CellOk(w, sent, cell)
    requires t.AddPrePrepareTask? ==> PrePrepareFits(w, log, t.preprepare) && t.preprepare.seqNo == cell.seqNo
    requires t.AddPrepareTask? || t.AddCommitTask? ==> VoteFits(w, log, t.vote)
    ensures VotesFit(w, log, cell') && CellAdvances(w, cell, cell')
    ensures t.AddPrePrepareTask? ==> cell' == PrePrepareCell(cell, w.F(), t.preprepare)
    ensures t.AddPrepareTask? ==> cell' == PrepareCell(cell, w.F(), t.vote)
    ensures t.AddCommitTask? ==> cell' == CommitCell(cell, w.F(), t.vote)
  {
    cell' := cell;
    match t
    case AddPrePrepareTask(_, pp) =>
      PrePrepareAdvances(w, log, sent, cell, pp);
      cell' := PrePrepareCell(cell, w.F(), pp);
    case AddPrepareTask(_, v) => PrepareAdvances(w, log, cell, v); cell' := PrepareCell(cell, w.F(), v);
    case AddCommitTask(_, v) => CommitAdvances(w, log, cell, v); cell' := CommitCell(cell, w.F(), v);
    case _ =>
  }

  lemma CollectorTaskMoves(w: World, q: string, log: seq<ClientRequest>, sent: set<Message>, r: Replica, t: Task)
    requires Honest(w, log, r) && TaskHonest(w, log, r, t) && TaskFits(w, q, log, r.cells, t)
    requires CellsOk(w, sent, r.cells) && HasRef(t) && t.ref < |r.cells|
    requires t.AddPrePrepareTask? ==> t.preprepare.seqNo == r.cells[t.ref].seqNo
    ensures var r' := Perform(w.At(q), r, t).replica;
            Honest(w, log, r') && Advances(w, r.cells, r'.cells)
  {
    var cell := r.cells[t.ref];
    assert VotesFit(w, log, cell) && CellOk(w, sent, cell);
    if t.AddToStoreTask? {
      if cell.votes.preprepare.Some? {
        StoreChangeMoves(w, log, r, AddRequests(r.store, cell.votes.preprepare.value.seqNo, t.batch));
      }
    } else {
      var cell' := CollectedMoves(w, q, log, sent, cell, t);
      CellChangeMoves(w, log, r, t.ref, cell');
    }
  }

  lemma TaskRemovedMoves(w: World, log: seq<ClientRequest>, r: Replica, t: Task)
    requires Honest(w, log, r)
    ensures Honest(w, log, r.(tasks := r.tasks - multiset{t}))
  {
    var r' := r.(tasks := r.tasks - multiset{t});
    forall t' | t' in r'.tasks ensures TaskHonest(w, log, r', t') {
      assert TaskHonest(w, log, r, t');
    }
  }

  lemma PlainTaskMoves(w: World, q: string, log: seq<ClientRequest>, r: Replica, t: Task)
    requires Honest(w, log, r) && StoreFits(log, r.store) && r.view == 0
    requires TaskHonest(w, log, r, t) && !HasRef(t) && !t.VoteTask? && !t.ClientTask?
    ensures Moves(w, log, r, Perform(w.At(q), r, t).replica)
  {
    match t
    case PreparedTask(c) => SpawnMoves(w, log, r, HandleCommitTask(c));
    case HandleCommitTask(c) => VoteMoves(w, q, log, r, c);
    case CommittedTask(n) => CommittedMoves(w, q, log, r, n);
    case CheckpointTask(c) => CheckpointMoves(w, q, log, r, c);
  }

  lemma PlainTaskSends(w: World, q: string, log: seq<ClientRequest>, r: Replica, t: Task)
    requires Honest(w, log, r) && StoreFits(log, r.store) && r.view == 0
    requires TaskHonest(w, log, r, t) && !HasRef(t) && !t.VoteTask? && !t.ClientTask?
    ensures var sent := Perform(w.At(q), r, t).sent;
            Logged(sent) == [] && forall m | m in sent :: MessageFits(w, log, m)
  {
    if t.CommittedTask? {
      CommittedMessagesFit(w, q, log, r, t.seqNo);
      CommittedSends(w.At(q), r, t.seqNo);
    }
  }

  lemma OtherTaskMoves(w: World, q: string, log: seq<ClientRequest>, r: Replica, t: Task)
    requires Honest(w, log, r) && NodeFits(w, q, log, r) && RefsOk(r)
    requires TaskHonest(w, log, r, t) && !HasRef(t) && !t.VoteTask?
    ensures var o := Perform(w.At(q), r, t);
            && Moves(w, log + Logged(o.sent), r, o.replica)
            && forall m | m in o.sent :: MessageFits(w, log + Logged(o.sent), m)
  {
    if t.ClientTask? {
      ClientMoves(w, q, log, r, t.request);
    } else {
      assert log + [] == log;
      PlainTaskMoves(w, q, log, r, t);
      PlainTaskSends(w, q, log, r, t);
    }
  }
}
