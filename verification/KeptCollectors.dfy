/**
 * What a replica keeps until it installs a new view or a status response (`pbft/node.go`): the collector of
 * every number that is not stable, and, while a vote is to be cast, the view change itself.
 */
module KeptCollectors {
  import opened Messages
  import opened StoreModel
  import opened Replicas
  import opened Freeze
  import ReplicaRuns

  ghost predicate Kept(r: Replica) {
    && (forall ref: nat | ref < |r.cells| && r.cells[ref].seqNo > StableNumber(r.store) ::
          r.cells[ref].seqNo in r.txns && r.txns[r.cells[ref].seqNo] == ref)
    && (forall view | VoteTask(view) in r.tasks :: r.inViewChange)
  }

  /** Only the labels of the collectors matter, and which votes are to be cast. */
  ghost predicate KeepsAll(r: Replica, r': Replica) {
    && |r'.cells| == |r.cells| && (forall ref | 0 <= ref < |r.cells| :: r'.cells[ref].seqNo == r.cells[ref].seqNo)
    && r'.txns == r.txns && StableNumber(r'.store) == StableNumber(r.store)
    && r'.inViewChange == r.inViewChange && (forall view | VoteTask(view) in r'.tasks :: VoteTask(view) in r.tasks)
  }

  lemma KeepsAllIsKept(r: Replica, r': Replica)
    requires Kept(r) && KeepsAll(r, r')
    ensures Kept(r')
  {
  }

  lemma WithCellKeeps(r: Replica, n: int)
    requires Kept(r)
    ensures Kept(WithCell(r, n)) && (VoteTasksOf(WithCell(r, n)) <= VoteTasksOf(r))
  {
  }

  ghost function VoteTasksOf(r: Replica): iset<Task> {
    iset t | t in r.tasks && t.VoteTask?
  }

  lemma ClientKeeps(cfg: Config, r: Replica, req: ClientRequest)
    requires Kept(r) && (IsPrimary(cfg, r) ==> r.lastSeq + 1 !in r.txns)
    ensures Kept(HandleClient(cfg, r, req).replica)
  {
  }

  lemma PrePrepareKeeps(cfg: Config, r: Replica, pp: PrePrepare, batch: Batch)
    requires Kept(r)
    ensures Kept(HandlePrePrepare(cfg, r, pp, batch).replica)
  {
    WithCellKeeps(r.(inProgress := r.inProgress + {pp.seqNo}), pp.seqNo);
  }

  lemma VoteKeeps(cfg: Config, r: Replica, v: Vote)
    requires Kept(r)
    ensures Kept(HandlePrepare(cfg, r, v).replica) && Kept(HandleCommit(cfg, r, v).replica)
  {
    WithCellKeeps(r, v.seqNo);
  }

  lemma CheckpointKeeps(cfg: Config, r: Replica, c: Checkpoint)
    requires Kept(r)
    ensures Kept(HandleCheckpoint(cfg, r, c).replica)
  {
    ReplicaRuns.CheckpointRaisesStable(r.store, cfg.F(), c);
  }

  lemma CommittedKeeps(cfg: Config, r: Replica, n: int)
    requires Kept(r)
    ensures Kept(HandleCommitted(cfg, r, n).replica)
  {
    CommittedTasks(cfg, r, n);
    ReplicaRuns.CommitKeepsStable(r.store, n, cfg.id, cfg.interval);
    KeepsAllIsKept(r, HandleCommitted(cfg, r, n).replica);
  }

  lemma CheckKeeps(cfg: Config, r: Replica, ref: nat)
    requires Kept(r) && ref < |r.cells| && r.cells[ref].checks > 0
    ensures Kept(CheckCell(cfg, r, ref))
  {
    KeepsAllIsKept(r, CheckCell(cfg, r, ref));
  }

  lemma FewerTasksKeep(r: Replica, t: Task)
    requires Kept(r)
    ensures Kept(r.(tasks := r.tasks - multiset{t}))
  {
    KeepsAllIsKept(r, r.(tasks := r.tasks - multiset{t}));
  }

  lemma AddKeeps(cfg: Config, r: Replica, t: Task)
    requires Kept(r) && HasRef(t) && t.ref < |r.cells|
    ensures Kept(Perform(cfg, r, t).replica)
  {
    KeepsAllIsKept(r, Perform(cfg, r, t).replica);
  }

  lemma TaskKeeps(cfg: Config, r: Replica, t: Task)
    requires Kept(r) && (HasRef(t) ==> t.ref < |r.cells|)
    requires IsPrimary(cfg, r) ==> r.lastSeq + 1 !in r.txns
    ensures Kept(Perform(cfg, r, t).replica)
  {
    match t
    case ClientTask(req) => ClientKeeps(cfg, r, req);
    case HandleCommitTask(v) => VoteKeeps(cfg, r, v);
    case CommittedTask(n) => CommittedKeeps(cfg, r, n);
    case CheckpointTask(c) => CheckpointKeeps(cfg, r, c);
    case PreparedTask(c) => KeepsAllIsKept(r, Spawn(r, HandleCommitTask(c)));
    case VoteTask(_) =>
    case _ => AddKeeps(cfg, r, t);
  }

  lemma StepKeeps(cfg: Config, r: Replica, input: Input)
    requires Kept(r) && Ready(cfg, r, input) && !Resets(r, input)
    requires IsPrimary(cfg, r) ==> r.lastSeq + 1 !in r.txns
    ensures Kept(Step(cfg, r, input).replica)
  {
    match input
    case Client(req) => ClientKeeps(cfg, r, req);
    case OnPrePrepare(pp, batch) => PrePrepareKeeps(cfg, r, pp, batch);
    case OnPrepare(v) => VoteKeeps(cfg, r, v);
    case OnCommit(v) => VoteKeeps(cfg, r, v);
    case OnCheckpoint(c) => CheckpointKeeps(cfg, r, c);
    case OnStatusRequest(_) =>
    case OnStatus(_, _) =>
    case Timeout(_) =>
    case CastVote(vc) => FewerTasksKeep(r, VoteTask(vc.newView));
    case RunTask(t) =>
      FewerTasksKeep(r, t);
      TaskKeeps(cfg, r.(tasks := r.tasks - multiset{t}), t);
    case RunCheck(ref) => CheckKeeps(cfg, r, ref);
  }
}
