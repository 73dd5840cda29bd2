/** Building blocks for concrete runs: what single actions do to one collector of one replica. */
module Scripts {
  import opened Messages
  import opened TransactionStates
  import opened Replicas
  import opened Systems
  import opened CrashFaults

  /** The collector at `ref` is the current one of number n. */
  ghost predicate Collects(r: Replica, n: int, ref: nat) {
    n in r.txns && r.txns[n] == ref && ref < |r.cells|
  }

  /** After the run and one more action, only the acting replica has changed, to r', and `more` has been sent. */
  ghost predicate Becomes(w: World, run: seq<Action>, a: Action, r': Replica, more: set<Message>) {
    && a.who in After(w, run).nodes
    && After(w, run + [a]) == System(After(w, run).nodes[a.who := r'], After(w, run).sent + more)
  }

  lemma Acts(w: World, run: seq<Action>, q: string, input: Input)
    requires q in After(w, run).nodes && Enabled(w, After(w, run), Action(q, input))
    ensures var o := Step(w.At(q), After(w, run).nodes[q], input);
            Becomes(w, run, Action(q, input), o.replica, SetOf(o.sent))
  {
    assert (run + [Action(q, input)])[..|run|] == run;
  }

  /** The replica's messages of this action, when there is at most one. */
  lemma ActsQuietly(w: World, run: seq<Action>, q: string, input: Input, r': Replica)
    requires q in After(w, run).nodes && Enabled(w, After(w, run), Action(q, input))
    requires Step(w.At(q), After(w, run).nodes[q], input) == Quiet(r')
    ensures Becomes(w, run, Action(q, input), r', {})
  {
    Acts(w, run, q, input);
    assert SetOf([]) == {};
  }

  lemma ActsAloud(w: World, run: seq<Action>, q: string, input: Input, r': Replica, m: Message)
    requires q in After(w, run).nodes && Enabled(w, After(w, run), Action(q, input))
    requires Step(w.At(q), After(w, run).nodes[q], input) == Outcome(r', [m])
    ensures Becomes(w, run, Action(q, input), r', {m})
  {
    Acts(w, run, q, input);
    assert SetOf([m]) == {m};
  }

  // ---------- Votes ----------

  lemma ReceivePrepare(w: World, run: seq<Action>, q: string, ref: nat, v: Vote)
    requires q in After(w, run).nodes && Collects(After(w, run).nodes[q], v.seqNo, ref)
    requires var r := After(w, run).nodes[q]; !r.inViewChange && v.view == r.view && InWindow(w.At(q), r, v.seqNo)
    requires v.replica in w.byz || MsgPrepare(v) in After(w, run).sent
    ensures var r := After(w, run).nodes[q];
            Becomes(w, run, Action(q, OnPrepare(v)), r.(tasks := r.tasks + multiset{AddPrepareTask(ref, v)}), {})
  {
    var r := After(w, run).nodes[q];
    ActsQuietly(w, run, q, OnPrepare(v), r.(tasks := r.tasks + multiset{AddPrepareTask(ref, v)}));
  }

  lemma ReceiveCommit(w: World, run: seq<Action>, q: string, ref: nat, v: Vote)
    requires q in After(w, run).nodes && Collects(After(w, run).nodes[q], v.seqNo, ref)
    requires var r := After(w, run).nodes[q]; !r.inViewChange && v.view == r.view && InWindow(w.At(q), r, v.seqNo)
    requires v.replica in w.byz || MsgCommit(v) in After(w, run).sent
    ensures var r := After(w, run).nodes[q];
            Becomes(w, run, Action(q, OnCommit(v)), r.(tasks := r.tasks + multiset{AddCommitTask(ref, v)}), {})
  {
    var r := After(w, run).nodes[q];
    ActsQuietly(w, run, q, OnCommit(v), r.(tasks := r.tasks + multiset{AddCommitTask(ref, v)}));
  }

  lemma RunPrepare(w: World, run: seq<Action>, q: string, ref: nat, v: Vote)
    requires q in After(w, run).nodes && ref < |After(w, run).nodes[q].cells|
    requires AddPrepareTask(ref, v) in After(w, run).nodes[q].tasks
    ensures var r := After(w, run).nodes[q];
            Becomes(w, run, Action(q, RunTask(AddPrepareTask(ref, v))),
                    r.(tasks := r.tasks - multiset{AddPrepareTask(ref, v)},
                       cells := r.cells[ref := PrepareCell(r.cells[ref], w.F(), v)]), {})
  {
    var r := After(w, run).nodes[q];
    ActsQuietly(w, run, q, RunTask(AddPrepareTask(ref, v)),
                r.(tasks := r.tasks - multiset{AddPrepareTask(ref, v)},
                   cells := r.cells[ref := PrepareCell(r.cells[ref], w.F(), v)]));
  }

  lemma RunCommit(w: World, run: seq<Action>, q: string, ref: nat, v: Vote)
    requires q in After(w, run).nodes && ref < |After(w, run).nodes[q].cells|
    requires AddCommitTask(ref, v) in After(w, run).nodes[q].tasks
    ensures var r := After(w, run).nodes[q];
            Becomes(w, run, Action(q, RunTask(AddCommitTask(ref, v))),
                    r.(tasks := r.tasks - multiset{AddCommitTask(ref, v)},
                       cells := r.cells[ref := CommitCell(r.cells[ref], w.F(), v)]), {})
  {
    var r := After(w, run).nodes[q];
    ActsQuietly(w, run, q, RunTask(AddCommitTask(ref, v)),
                r.(tasks := r.tasks - multiset{AddCommitTask(ref, v)},
                   cells := r.cells[ref := CommitCell(r.cells[ref], w.F(), v)]));
  }

  lemma RunPrePrepare(w: World, run: seq<Action>, q: string, ref: nat, pp: PrePrepare)
    requires q in After(w, run).nodes && ref < |After(w, run).nodes[q].cells|
    requires AddPrePrepareTask(ref, pp) in After(w, run).nodes[q].tasks
    ensures var r := After(w, run).nodes[q];
            Becomes(w, run, Action(q, RunTask(AddPrePrepareTask(ref, pp))),
                    r.(tasks := r.tasks - multiset{AddPrePrepareTask(ref, pp)},
                       cells := r.cells[ref := PrePrepareCell(r.cells[ref], w.F(), pp)]), {})
  {
    var r := After(w, run).nodes[q];
    ActsQuietly(w, run, q, RunTask(AddPrePrepareTask(ref, pp)),
                r.(tasks := r.tasks - multiset{AddPrePrepareTask(ref, pp)},
                   cells := r.cells[ref := PrePrepareCell(r.cells[ref], w.F(), pp)]));
  }

  // ---------- Callbacks ----------

  function AfterCheck(cell: Cell): Cell
    requires cell.checks > 0
  {
    cell.(votes := cell.votes.(prepared := false, committed := false), checks := cell.checks - 1)
  }

  /** A check that fires the prepared callback only. */
  lemma RunCheckPrepared(w: World, run: seq<Action>, q: string, ref: nat)
    requires q in After(w, run).nodes && ref < |After(w, run).nodes[q].cells|
    requires var cell := After(w, run).nodes[q].cells[ref];
             cell.checks > 0 && cell.votes.preprepare.Some? && cell.votes.prepared && !cell.votes.committed
    ensures var r := After(w, run).nodes[q];
            var pp := r.cells[ref].votes.preprepare.value;
            Becomes(w, run, Action(q, RunCheck(ref)),
                    r.(cells := r.cells[ref := AfterCheck(r.cells[ref])],
                       tasks := r.tasks + multiset{PreparedTask(Vote(pp.view, pp.seqNo, pp.digest, q))}), {})
  {
    var r := After(w, run).nodes[q];
    var pp := r.cells[ref].votes.preprepare.value;
    ActsQuietly(w, run, q, RunCheck(ref),
                r.(cells := r.cells[ref := AfterCheck(r.cells[ref])],
                   tasks := r.tasks + multiset{PreparedTask(Vote(pp.view, pp.seqNo, pp.digest, q))}));
  }

  /** A check that fires the committed callback only. */
  lemma RunCheckCommitted(w: World, run: seq<Action>, q: string, ref: nat)
    requires q in After(w, run).nodes && ref < |After(w, run).nodes[q].cells|
    requires var cell := After(w, run).nodes[q].cells[ref];
             cell.checks > 0 && cell.votes.preprepare.Some? && !cell.votes.prepared && cell.votes.committed
    ensures var r := After(w, run).nodes[q];
            Becomes(w, run, Action(q, RunCheck(ref)),
                    r.(cells := r.cells[ref := AfterCheck(r.cells[ref])],
                       tasks := r.tasks + multiset{CommittedTask(r.cells[ref].votes.preprepare.value.seqNo)}), {})
  {
    var r := After(w, run).nodes[q];
    ActsQuietly(w, run, q, RunCheck(ref),
                r.(cells := r.cells[ref := AfterCheck(r.cells[ref])],
                   tasks := r.tasks + multiset{CommittedTask(r.cells[ref].votes.preprepare.value.seqNo)}));
  }

  lemma RunPrepared(w: World, run: seq<Action>, q: string, c: Vote)
    requires q in After(w, run).nodes && PreparedTask(c) in After(w, run).nodes[q].tasks
    ensures var r := After(w, run).nodes[q];
            Becomes(w, run, Action(q, RunTask(PreparedTask(c))),
                    r.(tasks := r.tasks - multiset{PreparedTask(c)} + multiset{HandleCommitTask(c)}), {MsgCommit(c)})
  {
    var r := After(w, run).nodes[q];
    ActsAloud(w, run, q, RunTask(PreparedTask(c)),
              r.(tasks := r.tasks - multiset{PreparedTask(c)} + multiset{HandleCommitTask(c)}), MsgCommit(c));
  }

  // ---------- Crash runs ----------

  /** Inputs that a crash run allows at any time. */
  predicate Plain(input: Input) {
    !input.OnNewView? && !input.OnStatus? && !input.OnPrePrepare? && !input.OnCheckpoint?
  }

  lemma PlainKeepsCrashRun(w: World, run: seq<Action>, a: Action)
    requires CrashRun(w, run) && (Plain(a.input) || HonestInput(w, After(w, run), a))
    ensures CrashRun(w, run + [a])
  {
    assert (run + [a])[..|run|] == run;
    assert forall i | 0 <= i < |run| :: (run + [a])[..i] == run[..i];
  }
}
