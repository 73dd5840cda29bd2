/**
 * How far a view-change vote speaks for its sender: the sender goes on running the `Add*` calls it has
 * started (`pbft/node.go`), and may so complete a certificate its vote does not carry.
 */
module LateVotes {
  import opened Messages
  import opened Quorums
  import opened VoteCollector
  import opened TransactionStates
  import opened Replicas
  import opened Systems
  import opened PreparedQuorum
  import opened FirstView
  import opened Freeze
  import opened CrashFaults
  import opened CrashRuns
  import opened Survival

  /** Every certificate above vc's stable number that some collector of the sender holds is in vc. */
  ghost predicate Speaks(w: World, r: Replica, vc: ViewChange) {
    forall ref: nat | ref < |r.cells| && IsComplete(r.cells[ref], w.F()) && r.cells[ref].seqNo > vc.lastStable ::
      Proves(w.F(), vc.certificates, r.cells[ref].seqNo)
  }

  /**
   * Whatever some collector holds above vc's stable number, or will by the started `Add*` calls alone, the
   * current collector of the number holds.
   */
  ghost predicate NothingDue(w: World, r: Replica, vc: ViewChange) {
    forall ref: nat | ref < |r.cells| && Completes(w.F(), r, ref) && r.cells[ref].seqNo > vc.lastStable ::
      Has(w, r, r.cells[ref].seqNo)
  }

  // ---------- Running what was started ----------

  lemma StartedVoteIsAccepted(w: World, log: seq<ClientRequest>, sent: set<Message>, cell: Cell, v: Vote)
    requires CellOk(w, sent, cell) && VoteFits(w, log, v) && v.seqNo == cell.seqNo
    requires cell.votes.preprepare.Some? ==> PrePrepareFits(w, log, cell.votes.preprepare.value)
    ensures Accepts(cell.votes, v)
  {
  }

  lemma NoVoteIsPurged(w: World, log: seq<ClientRequest>, sent: set<Message>, cell: Cell, pp: PrePrepare)
    requires CellOk(w, sent, cell) && VotesFit(w, log, cell) && PrePrepareFits(w, log, pp) && pp.seqNo == cell.seqNo
    ensures AddPrePrepare(cell.votes, w.F(), pp).prepares == cell.votes.prepares
  {
    assert VoteCollector.Matching(cell.votes.prepares, pp.digest) == cell.votes.prepares;
  }

  /** Running a started `Add*` takes nothing away from what its collector will hold. */
  lemma SupplyRuns(w: World, q: string, log: seq<ClientRequest>, s: System, t: Task)
    requires Surviving(w, log, s) && q in s.nodes && t in s.nodes[q].tasks && Supplies(t)
    ensures t.ref < |s.nodes[q].cells| && Enabled(w, s, Action(q, RunTask(t)))
    ensures var r, r' := s.nodes[q], Act(w, s, Action(q, RunTask(t))).nodes[q];
            && |r'.cells| == |r.cells| && r'.tasks == r.tasks - multiset{t}
            && (t.AddPrepareTask? ==>
                  r'.cells == r.cells[t.ref := PrepareCell(r.cells[t.ref], w.F(), t.vote)]
                  && Accepts(r.cells[t.ref].votes, t.vote))
            && (t.AddPrePrepareTask? ==>
                  r'.cells == r.cells[t.ref := PrePrepareCell(r.cells[t.ref], w.F(), t.preprepare)]
                  && r'.cells[t.ref].votes.prepares == r.cells[t.ref].votes.prepares)
  {
    var r := s.nodes[q];
    assert NodeOk(w, s.sent, q, PreparedNow(w, s), r) && NodeFits(w, q, log, r);
    assert TaskOk(w, s.sent, q, PreparedNow(w, s), r.cells, t);
    assert TaskFits(w, q, log, r.cells, t) && TaskHonest(w, log, r, t);
    var cell := r.cells[t.ref];
    assert CellOk(w, s.sent, cell) && VotesFit(w, log, cell);
    match t
    case AddPrepareTask(_, v) => StartedVoteIsAccepted(w, log, s.sent, cell, v);
    case AddPrePrepareTask(_, pp) => NoVoteIsPurged(w, log, s.sent, cell, pp);
  }

  lemma StillCompletes(w: World, q: string, log: seq<ClientRequest>, s: System, t: Task)
    requires Surviving(w, log, s) && q in s.nodes && t in s.nodes[q].tasks && Supplies(t)
    requires Completes(w.F(), s.nodes[q], t.ref)
    ensures Completes(w.F(), Act(w, s, Action(q, RunTask(t))).nodes[q], t.ref)
  {
    SupplyRuns(w, q, log, s, t);
    var r, r' := s.nodes[q], Act(w, s, Action(q, RunTask(t))).nodes[q];
    assert t.AddPrepareTask? ==> t.vote.replica in r'.cells[t.ref].votes.prepares;
    StillVotes(r, r', t);
    SubsetCard(Voters(r, t.ref), Voters(r', t.ref));
    StillHasPrePrepare(r, r', t);
  }

  lemma StillVotes(r: Replica, r': Replica, t: Task)
    requires Supplies(t) && t in r.tasks && t.ref < |r.cells| == |r'.cells| && r'.tasks == r.tasks - multiset{t}
    requires r.cells[t.ref].votes.prepares.Keys <= r'.cells[t.ref].votes.prepares.Keys
    requires t.AddPrepareTask? ==> t.vote.replica in r'.cells[t.ref].votes.prepares
    ensures Voters(r, t.ref) <= Voters(r', t.ref)
  {
    forall k | k in Voters(r, t.ref) ensures k in Voters(r', t.ref) {
      if k !in r'.cells[t.ref].votes.prepares {
        var t' :| t' in r.tasks && t'.AddPrepareTask? && t'.ref == t.ref && t'.vote.replica == k;
        assert t' in r'.tasks;
      }
    }
  }

  lemma StillHasPrePrepare(r: Replica, r': Replica, t: Task)
    requires Supplies(t) && t in r.tasks && t.ref < |r.cells| == |r'.cells| && HasPrePrepare(r, t.ref)
    requires r'.tasks == r.tasks - multiset{t}
    requires t.AddPrePrepareTask? ==> r'.cells[t.ref].votes.preprepare.Some?
    requires t.AddPrepareTask? ==> r'.cells[t.ref].votes.preprepare == r.cells[t.ref].votes.preprepare
    ensures HasPrePrepare(r', t.ref)
  {
    if t.AddPrepareTask? && r.cells[t.ref].votes.preprepare.None? {
      var pp :| AddPrePrepareTask(t.ref, pp) in r.tasks;
      assert AddPrePrepareTask(t.ref, pp) in r'.tasks;
    }
  }

  lemma DueHasSupply(f: nat, r: Replica, ref: nat) returns (t: Task)
    requires Completes(f, r, ref) && !IsComplete(r.cells[ref], f)
    ensures t in r.tasks && Supplies(t) && t.ref == ref
  {
    if r.cells[ref].votes.preprepare.None? {
      var pp :| AddPrePrepareTask(ref, pp) in r.tasks;
      t := AddPrePrepareTask(ref, pp);
    } else {
      SubsetCardOfVoters(r, ref);
      t :| t in r.tasks && t.AddPrepareTask? && t.ref == ref;
    }
  }

  lemma SubsetCardOfVoters(r: Replica, ref: nat)
    requires ref < |r.cells| && |Voters(r, ref)| > |r.cells[ref].votes.prepares|
    ensures exists t :: t in r.tasks && t.AddPrepareTask? && t.ref == ref
  {
    assert |r.cells[ref].votes.prepares.Keys| == |r.cells[ref].votes.prepares|;
    if Voters(r, ref) <= r.cells[ref].votes.prepares.Keys {
      SubsetCard(Voters(r, ref), r.cells[ref].votes.prepares.Keys);
    }
  }

  lemma CrashRunGrows(w: World, run: seq<Action>, a: Action)
    requires CrashRun(w, run) && HonestInput(w, After(w, run), a)
    ensures CrashRun(w, run + [a]) && After(w, run + [a]) == Act(w, After(w, run), a)
  {
    assert (run + [a])[..|run|] == run;
    assert forall i | 0 <= i < |run| :: (run + [a])[..i] == run[..i];
  }

  /** A crash run can be continued until what is due is held. */
  lemma {:induction false} DueIsHeldLater(w: World, run: seq<Action>, q: string, ref: nat) returns (run': seq<Action>)
    requires CrashRun(w, run) && q in After(w, run).nodes && Completes(w.F(), After(w, run).nodes[q], ref)
    ensures run <= run' && CrashRun(w, run') && q in After(w, run').nodes
    ensures forall j | |run| <= j < |run'| :: run'[j].input.RunTask?
    ensures ref < |After(w, run').nodes[q].cells| && IsComplete(After(w, run').nodes[q].cells[ref], w.F())
    ensures After(w, run').nodes[q].cells[ref].seqNo == After(w, run).nodes[q].cells[ref].seqNo
    decreases |After(w, run).nodes[q].tasks|
  {
    if IsComplete(After(w, run).nodes[q].cells[ref], w.F()) {
      run' := run;
    } else {
      var a := SupplyNext(w, run, q, ref);
      run' := DueIsHeldLater(w, run + [a], q, ref);
    }
  }

  /** The next started `Add*` of the collector runs. */
  lemma SupplyNext(w: World, run: seq<Action>, q: string, ref: nat) returns (a: Action)
    requires CrashRun(w, run) && q in After(w, run).nodes && Completes(w.F(), After(w, run).nodes[q], ref)
    requires !IsComplete(After(w, run).nodes[q].cells[ref], w.F())
    ensures a.input.RunTask? && CrashRun(w, run + [a]) && q in After(w, run + [a]).nodes
    ensures var r, r' := After(w, run).nodes[q], After(w, run + [a]).nodes[q];
            && Completes(w.F(), r', ref) && r'.cells[ref].seqNo == r.cells[ref].seqNo && |r'.tasks| < |r.tasks|
  {
    var s := After(w, run);
    var t := DueHasSupply(w.F(), s.nodes[q], ref);
    a := Action(q, RunTask(t));
    CrashRunsSurvive(w, run);
    SupplyRuns(w, q, Log(w, run), s, t);
    StillCompletes(w, q, Log(w, run), s, t);
    CrashRunGrows(w, run, a);
  }

  // ---------- The scope of a vote ----------

  /** The run up to the vote. */
  ghost predicate Votes(w: World, run: seq<Action>, vc: ViewChange) {
    CrashRun(w, run) && Enabled(w, After(w, run), Action(vc.replica, CastVote(vc)))
  }

  /** The run goes on after the vote, and the sender installs no status response. */
  ghost predicate Continues(w: World, run: seq<Action>, vc: ViewChange, run': seq<Action>) {
    && run + [Action(vc.replica, CastVote(vc))] <= run' && CrashRun(w, run')
    && NotResetSince(w, run', |run|, vc.replica)
  }

  /** In every such continuation the vote carries every certificate its sender then holds. */
  ghost predicate AlwaysSpeaks(w: World, run: seq<Action>, vc: ViewChange) {
    forall run' | Continues(w, run, vc, run') ::
      vc.replica in After(w, run').nodes && Speaks(w, After(w, run').nodes[vc.replica], vc)
  }

  lemma NothingDueSpeaks(w: World, run: seq<Action>, vc: ViewChange, run': seq<Action>)
    requires Votes(w, run, vc) && NothingDue(w, After(w, run).nodes[vc.replica], vc) && Continues(w, run, vc, run')
    requires After(w, run).nodes[vc.replica].inViewChange
    ensures vc.replica in After(w, run').nodes && Speaks(w, After(w, run').nodes[vc.replica], vc)
  {
    var q, i := vc.replica, |run|;
    assert run'[..i] == run;
    FrozenSince(w, run', i, q);
    CrashRunsSurvive(w, run);
    var r' := After(w, run').nodes[q];
    forall ref: nat | ref < |r'.cells| && IsComplete(r'.cells[ref], w.F()) && r'.cells[ref].seqNo > vc.lastStable
      ensures Proves(w.F(), vc.certificates, r'.cells[ref].seqNo)
    {
      LaterCompletedWasDue(w, run', i, q, ref);
      HeldIsProved(w, q, Log(w, run), After(w, run), vc, r'.cells[ref].seqNo);
    }
  }

  lemma DueEscapes(w: World, run: seq<Action>, vc: ViewChange, ref: nat) returns (run': seq<Action>)
    requires Votes(w, run, vc)
    requires var r := After(w, run).nodes[vc.replica];
             Completes(w.F(), r, ref) && r.cells[ref].seqNo > vc.lastStable && !Has(w, r, r.cells[ref].seqNo)
    ensures Continues(w, run, vc, run') && vc.replica in After(w, run').nodes
    ensures !Speaks(w, After(w, run').nodes[vc.replica], vc)
  {
    var q, a := vc.replica, Action(vc.replica, CastVote(vc));
    var r := After(w, run).nodes[q];
    CrashRunsSurvive(w, run);
    CrashRunGrows(w, run, a);
    VoteTaskSuppliesNothing(w.F(), r, vc, ref);
    run' := DueIsHeldLater(w, run + [a], q, ref);
    NoStatusAfter(w, run, a, run');
    if Proves(w.F(), vc.certificates, r.cells[ref].seqNo) {
      ProvenIsHeld(w, q, Log(w, run), After(w, run), vc, r.cells[ref].seqNo);
    }
  }

  lemma NoStatusAfter(w: World, run: seq<Action>, a: Action, run': seq<Action>)
    requires run + [a] <= run' && a.input.CastVote?
    requires forall j | |run| < j < |run'| :: run'[j].input.RunTask?
    ensures NotResetSince(w, run', |run|, a.who)
  {
    assert run'[|run|] == a;
  }

  lemma VoteTaskSuppliesNothing(f: nat, r: Replica, vc: ViewChange, ref: nat)
    requires Completes(f, r, ref)
    ensures Completes(f, r.(tasks := r.tasks - multiset{VoteTask(vc.newView)}), ref)
  {
    var r' := r.(tasks := r.tasks - multiset{VoteTask(vc.newView)});
    assert forall t | t in r.tasks && Supplies(t) :: t in r'.tasks;
    NothingSupplied(r', r);
    SubsetCard(Voters(r, ref), Voters(r', ref));
  }

  /**
   * A vote cast in the view change speaks, whatever happens short of a new view or a status response at its
   * sender, for every certificate its sender holds -- exactly when, as it was cast, no collector held or was
   * about to complete one that the current collectors did not hold.  The last is necessary in any case.
   */
  lemma {:induction false} VoteSpeaksIff(w: World, run: seq<Action>, vc: ViewChange)
    requires Votes(w, run, vc)
    ensures AlwaysSpeaks(w, run, vc) ==> NothingDue(w, After(w, run).nodes[vc.replica], vc)
    ensures After(w, run).nodes[vc.replica].inViewChange ==>
              (AlwaysSpeaks(w, run, vc) <==> NothingDue(w, After(w, run).nodes[vc.replica], vc))
  {
    var r := After(w, run).nodes[vc.replica];
    if NothingDue(w, r, vc) {
      if r.inViewChange {
        forall run' | Continues(w, run, vc, run')
          ensures vc.replica in After(w, run').nodes && Speaks(w, After(w, run').nodes[vc.replica], vc)
        {
          NothingDueSpeaks(w, run, vc, run');
        }
      }
    } else {
      var ref: nat :| ref < |r.cells| && Completes(w.F(), r, ref) && r.cells[ref].seqNo > vc.lastStable
                      && !Has(w, r, r.cells[ref].seqNo);
      var run' := DueEscapes(w, run, vc, ref);
    }
  }
}
