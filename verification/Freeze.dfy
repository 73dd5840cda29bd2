/**
 * A replica in a view change (`pbft/node.go`): it accepts no further pre-prepare, prepare or commit, so the
 * only certificates it can still complete are those that the started `Add*` calls complete.
 */
module Freeze {
  import opened Messages
  import opened Quorums
  import opened VoteCollector
  import opened TransactionStates
  import opened Replicas

  /** Whose prepare the collector holds or will hold once every started `AddPrepare` has run. */
  ghost function Voters(r: Replica, ref: nat): set<string>
    requires ref < |r.cells|
  {
    r.cells[ref].votes.prepares.Keys + set t | t in r.tasks && t.AddPrepareTask? && t.ref == ref :: t.vote.replica
  }

  ghost predicate HasPrePrepare(r: Replica, ref: nat)
    requires ref < |r.cells|
  {
    r.cells[ref].votes.preprepare.Some? || exists pp :: AddPrePrepareTask(ref, pp) in r.tasks
  }

  /** The certificate is complete. */
  ghost predicate IsComplete(cell: Cell, f: nat) {
    cell.votes.preprepare.Some? && |cell.votes.prepares| >= 2 * f
  }

  /** The certificate is complete, or will be by the started `Add*` calls alone. */
  ghost predicate Completes(f: nat, r: Replica, ref: nat) {
    ref < |r.cells| && HasPrePrepare(r, ref) && |Voters(r, ref)| >= 2 * f
  }

  lemma CompleteCompletes(f: nat, r: Replica, ref: nat)
    requires ref < |r.cells| && IsComplete(r.cells[ref], f)
    ensures Completes(f, r, ref)
  {
    SubsetCard(r.cells[ref].votes.prepares.Keys, Voters(r, ref));
  }

  ghost predicate NoMore(r: Replica, r': Replica) {
    && |r.cells| == |r'.cells|
    && forall ref | 0 <= ref < |r.cells| ::
         && r'.cells[ref].seqNo == r.cells[ref].seqNo
         && Voters(r', ref) <= Voters(r, ref) && (HasPrePrepare(r', ref) ==> HasPrePrepare(r, ref))
  }

  /** In a view change, and from then on, no collector gains a vote that is not already on its way. */
  ghost predicate StaysFrozen(r: Replica, r': Replica) {
    r.inViewChange ==> r'.inViewChange && NoMore(r, r')
  }

  lemma NoMoreCompletes(f: nat, r: Replica, r': Replica, ref: nat)
    requires NoMore(r, r') && Completes(f, r', ref)
    ensures Completes(f, r, ref) && r'.cells[ref].seqNo == r.cells[ref].seqNo
  {
    SubsetCard(Voters(r', ref), Voters(r, ref));
  }

  predicate Supplies(t: Task) {
    t.AddPrePrepareTask? || t.AddPrepareTask?
  }

  ghost predicate SamePrepares(cells: seq<Cell>, cells': seq<Cell>) {
    |cells| == |cells'| && forall i | 0 <= i < |cells| ::
      && cells'[i].seqNo == cells[i].seqNo
      && cells'[i].votes.preprepare == cells[i].votes.preprepare && cells'[i].votes.prepares == cells[i].votes.prepares
  }

  ghost predicate NoNewSupply(r: Replica, r': Replica) {
    forall t | t in r'.tasks && Supplies(t) :: t in r.tasks
  }

  lemma NothingSupplied(r: Replica, r': Replica)
    requires SamePrepares(r.cells, r'.cells) && NoNewSupply(r, r')
    ensures NoMore(r, r')
  {
    forall ref: nat | ref < |r.cells|
      ensures Voters(r', ref) <= Voters(r, ref) && (HasPrePrepare(r', ref) ==> HasPrePrepare(r, ref))
    {
      if exists pp :: AddPrePrepareTask(ref, pp) in r'.tasks {
        var pp :| AddPrePrepareTask(ref, pp) in r'.tasks;
        assert Supplies(AddPrePrepareTask(ref, pp));
      }
      forall k | k in Voters(r', ref) && k !in r.cells[ref].votes.prepares ensures k in Voters(r, ref) {
        var t :| t in r'.tasks && t.AddPrepareTask? && t.ref == ref && t.vote.replica == k;
        assert Supplies(t);
      }
    }
  }

  // ---------- Steps ----------

  lemma FewerTasksFewerVoters(r: Replica, r': Replica, ref: nat)
    requires ref < |r.cells| == |r'.cells| && forall t | t in r'.tasks :: t in r.tasks
    requires r'.cells[ref].votes.prepares.Keys <= Voters(r, ref)
    requires r'.cells[ref].votes.preprepare.Some? ==> HasPrePrepare(r, ref)
    ensures Voters(r', ref) <= Voters(r, ref) && (HasPrePrepare(r', ref) ==> HasPrePrepare(r, ref))
  {
    forall k | k in Voters(r', ref) ensures k in Voters(r, ref) {
    }
  }

  lemma PrepareAddsWhatWasStarted(r: Replica, f: nat, ref: nat, v: Vote)
    requires AddPrepareTask(ref, v) in r.tasks && ref < |r.cells|
    ensures NoMore(r, r.(tasks := r.tasks - multiset{AddPrepareTask(ref, v)},
                         cells := r.cells[ref := PrepareCell(r.cells[ref], f, v)]))
  {
    var r' := r.(tasks := r.tasks - multiset{AddPrepareTask(ref, v)},
                 cells := r.cells[ref := PrepareCell(r.cells[ref], f, v)]);
    assert v.replica in Voters(r, ref);
    forall i: nat | i < |r.cells|
      ensures Voters(r', i) <= Voters(r, i) && (HasPrePrepare(r', i) ==> HasPrePrepare(r, i))
    {
      FewerTasksFewerVoters(r, r', i);
    }
  }

  lemma PrePrepareAddsWhatWasStarted(r: Replica, f: nat, ref: nat, pp: PrePrepare)
    requires AddPrePrepareTask(ref, pp) in r.tasks && ref < |r.cells|
    ensures NoMore(r, r.(tasks := r.tasks - multiset{AddPrePrepareTask(ref, pp)},
                         cells := r.cells[ref := PrePrepareCell(r.cells[ref], f, pp)]))
  {
    var r' := r.(tasks := r.tasks - multiset{AddPrePrepareTask(ref, pp)},
                 cells := r.cells[ref := PrePrepareCell(r.cells[ref], f, pp)]);
    forall i: nat | i < |r.cells|
      ensures Voters(r', i) <= Voters(r, i) && (HasPrePrepare(r', i) ==> HasPrePrepare(r, i))
    {
      FewerTasksFewerVoters(r, r', i);
    }
  }

  lemma TaskStaysFrozen(cfg: Config, r: Replica, t: Task)
    requires r.inViewChange && t in r.tasks && (HasRef(t) ==> t.ref < |r.cells|)
    ensures StaysFrozen(r, Perform(cfg, r.(tasks := r.tasks - multiset{t}), t).replica)
  {
    match t
    case AddPrepareTask(ref, v) => PrepareAddsWhatWasStarted(r, cfg.F(), ref, v);
    case AddPrePrepareTask(ref, pp) => PrePrepareAddsWhatWasStarted(r, cfg.F(), ref, pp);
    case _ => OtherTaskStaysFrozen(cfg, r, t);
  }

  ghost predicate SuppliesNothing(r: Replica, r': Replica) {
    r'.inViewChange == r.inViewChange && SamePrepares(r.cells, r'.cells) && NoNewSupply(r, r')
  }

  lemma SpawnSuppliesNothing(r: Replica, t: Task)
    requires !Supplies(t)
    ensures SuppliesNothing(r, Spawn(r, t))
  {
  }

  lemma CommittedSuppliesNothing(cfg: Config, r: Replica, n: int)
    ensures SuppliesNothing(r, HandleCommitted(cfg, r, n).replica)
  {
    CommittedTasks(cfg, r, n);
  }

  lemma FewerTasksSupplyNothing(r: Replica, t: Task)
    ensures SuppliesNothing(r, r.(tasks := r.tasks - multiset{t}))
  {
  }

  lemma OtherTaskSuppliesNothing(cfg: Config, r: Replica, t: Task)
    requires r.inViewChange && (HasRef(t) ==> t.ref < |r.cells|) && !Supplies(t)
    ensures SuppliesNothing(r, Perform(cfg, r, t).replica)
  {
    match t
    case CommittedTask(n) => CommittedSuppliesNothing(cfg, r, n);
    case PreparedTask(c) => SpawnSuppliesNothing(r, HandleCommitTask(c));
    case _ =>
  }

  lemma OtherTaskStaysFrozen(cfg: Config, r: Replica, t: Task)
    requires r.inViewChange && t in r.tasks && (HasRef(t) ==> t.ref < |r.cells|) && !Supplies(t)
    ensures StaysFrozen(r, Perform(cfg, r.(tasks := r.tasks - multiset{t}), t).replica)
  {
    FewerTasksSupplyNothing(r, t);
    OtherTaskSuppliesNothing(cfg, r.(tasks := r.tasks - multiset{t}), t);
    NothingSupplied(r, Perform(cfg, r.(tasks := r.tasks - multiset{t}), t).replica);
  }

  lemma CheckSuppliesNothing(cfg: Config, r: Replica, ref: nat)
    requires ref < |r.cells| && r.cells[ref].checks > 0
    ensures SuppliesNothing(r, CheckCell(cfg, r, ref))
  {
    var c := Check(r.cells[ref].votes, cfg.id);
    var r1 := r.(cells := r.cells[ref := r.cells[ref].(votes := c.votes, checks := r.cells[ref].checks - 1)]);
    var r2 := if c.commit.Some? then Spawn(r1, PreparedTask(c.commit.value)) else r1;
    assert SuppliesNothing(r, r1);
    if c.commit.Some? {
      SpawnSuppliesNothing(r1, PreparedTask(c.commit.value));
    }
    if c.decided.Some? {
      SpawnSuppliesNothing(r2, CommittedTask(c.decided.value));
    }
  }

  lemma CheckStaysFrozen(cfg: Config, r: Replica, ref: nat)
    requires ref < |r.cells| && r.cells[ref].checks > 0
    ensures StaysFrozen(r, CheckCell(cfg, r, ref))
  {
    CheckSuppliesNothing(cfg, r, ref);
    NothingSupplied(r, CheckCell(cfg, r, ref));
  }

  lemma CheckpointSuppliesNothing(cfg: Config, r: Replica, c: Checkpoint)
    ensures SuppliesNothing(r, HandleCheckpoint(cfg, r, c).replica)
  {
  }

  /** The input replaces the view data: a new view or an accepted status response. */
  predicate Resets(r: Replica, input: Input) {
    input.OnNewView? || (input.OnStatus? && Installs(r, input.lastStable, input.proof))
  }

  lemma RefusedInViewChange(cfg: Config, r: Replica, input: Input)
    requires r.inViewChange && !Resets(r, input)
    requires input.Client? || input.OnPrePrepare? || input.OnPrepare? || input.OnCommit? || input.OnStatusRequest?
             || input.OnStatus?
    ensures Step(cfg, r, input).replica == r
  {
  }

  lemma MessageSuppliesNothing(cfg: Config, r: Replica, input: Input)
    requires r.inViewChange && !Resets(r, input) && !input.RunTask? && !input.RunCheck?
    ensures SuppliesNothing(r, Step(cfg, r, input).replica)
  {
    match input
    case Timeout(view) => SpawnSuppliesNothing(r, VoteTask(view));
    case CastVote(vc) => FewerTasksSupplyNothing(r, VoteTask(vc.newView));
    case OnCheckpoint(c) => CheckpointSuppliesNothing(cfg, r, c);
    case _ => RefusedInViewChange(cfg, r, input);
  }

  /** Whatever happens to a replica in a view change, short of a new view or an accepted status response. */
  lemma StepStaysFrozen(cfg: Config, r: Replica, input: Input)
    requires !Resets(r, input)
    ensures StaysFrozen(r, Step(cfg, r, input).replica)
  {
    if r.inViewChange {
      if Ready(cfg, r, input) && input.RunTask? {
        TaskStaysFrozen(cfg, r, input.task);
      } else if Ready(cfg, r, input) && input.RunCheck? {
        CheckStaysFrozen(cfg, r, input.ref);
      } else if !input.RunTask? && !input.RunCheck? {
        MessageSuppliesNothing(cfg, r, input);
        NothingSupplied(r, Step(cfg, r, input).replica);
      } else {
        NothingSupplied(r, r);
      }
    }
  }
}
