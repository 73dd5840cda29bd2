/**
 * What goes wrong when a faulty leader numbers the pre-prepares of its new-view messages with another view,
 * which `HandleNewViewRequest` (`pbft/node.go`) accepts: a request is executed although no correct replica
 * ever held 2F prepares for it of one view.
 */
module ForeignView {
  import opened Messages
  import opened Decimal
  import opened VoteCollector
  import opened TransactionStates
  import opened Replicas
  import opened Systems
  import opened OneView
  import opened Scripts

  /** Four replicas, z of them faulty. */
  ghost predicate OneLiar(w: World, a: string, b: string, c: string, z: string) {
    && |w.ring| == 4 && w.byz == {z} && w.window >= 1
    && a in w.ring && b in w.ring && c in w.ring
    && a != b && a != c && b != c && a != z && b != z && c != z
  }

  // ---------- Runs without a certificate of one view ----------

  ghost predicate NoCertificate(f: nat, cell: Cell) {
    cell.votes.preprepare.Some? && |cell.votes.prepares| >= 2 * f
    ==> exists k :: k in cell.votes.prepares && cell.votes.prepares[k].view != cell.votes.preprepare.value.view
  }

  ghost predicate NoCertificates(f: nat, r: Replica) {
    forall i | 0 <= i < |r.cells| :: NoCertificate(f, r.cells[i])
  }

  ghost predicate CleanNow(w: World, s: System) {
    forall q | q in s.nodes :: NoCertificates(w.F(), s.nodes[q])
  }

  /** Nobody holds, or has ever held, a certificate of one view, or heard itself. */
  ghost predicate Clean(w: World, run: seq<Action>) {
    NoEcho(run) && CleanNow(w, After(w, run)) && forall v :: !HasHeldInView(w, run, v)
  }

  lemma NothingHeld(w: World, s: System, v: Vote)
    requires CleanNow(w, s)
    ensures !HoldsInViewNow(w, s, v)
  {
  }

  ghost predicate Extends(w: World, run: seq<Action>, run': seq<Action>, q: string) {
    && Clean(w, run') && q in After(w, run').nodes
    && After(w, run').nodes.Keys == After(w, run).nodes.Keys
    && (forall k | k in After(w, run).nodes && k != q :: After(w, run').nodes[k] == After(w, run).nodes[k])
    && After(w, run).sent <= After(w, run').sent
  }

  lemma ExtendsFurther(w: World, run: seq<Action>, run': seq<Action>, run'': seq<Action>, q: string)
    requires Extends(w, run, run', q) && Extends(w, run', run'', q)
    ensures Extends(w, run, run'', q)
  {
  }

  lemma StaysClean(w: World, run: seq<Action>, a: Action, r': Replica, more: set<Message>)
    requires Clean(w, run) && Becomes(w, run, a, r', more) && NoCertificates(w.F(), r') && !Echoes(a)
    ensures Clean(w, run + [a]) && Extends(w, run, run + [a], a.who)
  {
    assert (run + [a])[..|run|] == run;
    forall v ensures !HasHeldInView(w, run + [a], v) {
      NothingHeld(w, After(w, run + [a]), v);
    }
  }

  lemma StartsClean(w: World)
    ensures Clean(w, [])
  {
    forall v ensures !HasHeldInView(w, [], v) {
      NothingHeld(w, After(w, []), v);
    }
  }

  // ---------- The steps ----------

  /** z's message for `view`, with a pre-prepare of view 2. */
  function FalseNewView(view: int, x: string, z: string): NewView {
    NewView(view, [], [PrePrepare(2, 1, x)], z)
  }

  function Installed(q: string, f: nat, view: int, x: string): Cell {
    PrepareCell(PrePrepareCell(Cell(1, view, EMPTY, 0), f, PrePrepare(2, 1, x)), f, Vote(2, 1, x, q))
  }

  function Entered(w: World, q: string, view: int, x: string, z: string): Replica {
    EnterView(NewReplica(w.At(q)), view, 1, z).(cells := [Installed(q, w.F(), view, x)], txns := map[1 := 0])
  }

  lemma FirstNumberIsOne(view: int, x: string, z: string)
    ensures FirstNumber(FalseNewView(view, x, z)) == 1 != MAX_INT64
  {
    var pps := FalseNewView(view, x, z).preprepares;
    assert pps[..0] == [];
    assert MinNumber(pps) == Min(MinNumber(pps[..0]), 1);
  }

  lemma InstallsOne(cfg: Config, r: Replica, x: string)
    requires r.cells == []
    ensures Install(cfg, r, [PrePrepare(2, 1, x)])
         == Outcome(r.(cells := [Installed(cfg.id, cfg.F(), r.view, x)], txns := r.txns[1 := 0]),
                    [MsgPrepare(Vote(2, 1, x, cfg.id))])
  {
    var pps := [PrePrepare(2, 1, x)];
    assert pps[..0] == [];
    assert Install(cfg, r, pps[..0]) == Quiet(r);
    assert r.cells + [Installed(cfg.id, cfg.F(), r.view, x)] == [Installed(cfg.id, cfg.F(), r.view, x)];
    assert Quiet(r).sent + [MsgPrepare(Vote(2, 1, x, cfg.id))] == [MsgPrepare(Vote(2, 1, x, cfg.id))];
  }

  lemma EntersView(w: World, run: seq<Action>, q: string, view: nat, x: string, z: string)
    requires q in After(w, run).nodes && After(w, run).nodes[q] == NewReplica(w.At(q)) && Clean(w, run) && w.F() >= 1
    ensures var a := Action(q, OnNewView(FalseNewView(view, x, z)));
            Becomes(w, run, a, Entered(w, q, view, x, z), {MsgPrepare(Vote(2, 1, x, q))}) && Clean(w, run + [a])
  {
    var cfg := w.At(q);
    FirstNumberIsOne(view, x, z);
    var r := EnterView(NewReplica(cfg), view, 1, z);
    InstallsOne(cfg, r, x);
    assert r.txns[1 := 0] == map[1 := 0];
    ActsAloud(w, run, q, OnNewView(FalseNewView(view, x, z)), Entered(w, q, view, x, z), MsgPrepare(Vote(2, 1, x, q)));
    OwnPrepareOnly(q, w.F(), view, x);
    StaysClean(w, run, Action(q, OnNewView(FalseNewView(view, x, z))), Entered(w, q, view, x, z),
               {MsgPrepare(Vote(2, 1, x, q))});
  }

  lemma OwnPrepareOnly(q: string, f: nat, view: int, x: string)
    ensures Installed(q, f, view, x).votes.prepares == map[q := Vote(2, 1, x, q)]
    ensures |Installed(q, f, view, x).votes.prepares| == 1
  {
  }

  // ---------- a and b: a commit of view 2 on a prepare of view 1 ----------

  /** q's collector after z's prepare, which is of view 1. */
  function Mixed(q: string, f: nat, x: string, z: string): Cell {
    PrepareCell(Installed(q, f, 1, x), f, Vote(1, 1, x, z))
  }

  lemma MixedIsPrepared(q: string, x: string, z: string)
    requires q != z
    ensures var cell := Mixed(q, 1, x, z);
            && cell.votes.prepared && !cell.votes.committed && cell.checks > 0
            && cell.votes.preprepare == Some(PrePrepare(2, 1, x)) && NoCertificate(1, cell)
            && NoCertificate(1, AfterCheck(cell))
  {
    OwnPrepareOnly(q, 1, 1, x);
    InsertCard(Installed(q, 1, 1, x).votes.prepares, Vote(1, 1, x, z));
  }

  /** q takes in z's prepare. */
  lemma TakesPrepare(w: World, run: seq<Action>, q: string, x: string, z: string) returns (run': seq<Action>)
    requires w.F() == 1 && w.window >= 1 && z in w.byz && q != z && Clean(w, run)
    requires q in After(w, run).nodes && After(w, run).nodes[q] == Entered(w, q, 1, x, z)
    ensures Extends(w, run, run', q)
    ensures After(w, run').nodes[q].cells == [Mixed(q, 1, x, z)] && Collects(After(w, run').nodes[q], 1, 0)
  {
    var v, r := Vote(1, 1, x, z), After(w, run).nodes[q];
    ReceivePrepare(w, run, q, 0, v);
    var a2, r2 := Action(q, OnPrepare(v)), r.(tasks := r.tasks + multiset{AddPrepareTask(0, v)});
    OwnPrepareOnly(q, 1, 1, x);
    StaysClean(w, run, a2, r2, {});
    RunPrepare(w, run + [a2], q, 0, v);
    MixedIsPrepared(q, x, z);
    var a3 := Action(q, RunTask(AddPrepareTask(0, v)));
    StaysClean(w, run + [a2], a3,
               r2.(tasks := r2.tasks - multiset{AddPrepareTask(0, v)}, cells := r2.cells[0 := Mixed(q, 1, x, z)]), {});
    run' := run + [a2] + [a3];
    ExtendsFurther(w, run, run + [a2], run', q);
  }

  lemma MixesViews(w: World, run: seq<Action>, q: string, x: string, z: string) returns (run': seq<Action>)
    requires w.F() == 1 && w.window >= 1 && z in w.byz && q != z && Clean(w, run)
    requires q in After(w, run).nodes && After(w, run).nodes[q] == NewReplica(w.At(q))
    ensures Extends(w, run, run', q)
    ensures After(w, run').nodes[q].cells == [Mixed(q, 1, x, z)] && Collects(After(w, run').nodes[q], 1, 0)
  {
    EntersView(w, run, q, 1, x, z);
    run' := TakesPrepare(w, run + [Action(q, OnNewView(FalseNewView(1, x, z)))], q, x, z);
  }

  lemma SendsFalseCommit(w: World, run: seq<Action>, q: string, x: string, z: string) returns (run': seq<Action>)
    requires w.F() == 1 && w.window >= 1 && z in w.byz && q != z && Clean(w, run)
    requires q in After(w, run).nodes && After(w, run).nodes[q] == NewReplica(w.At(q))
    ensures Extends(w, run, run', q) && MsgCommit(Vote(2, 1, x, q)) in After(w, run').sent
  {
    var run3 := MixesViews(w, run, q, x, z);
    run' := Announces(w, run3, q, x, z);
  }

  lemma Announces(w: World, run: seq<Action>, q: string, x: string, z: string) returns (run': seq<Action>)
    requires w.F() == 1 && q != z && Clean(w, run) && q in After(w, run).nodes
    requires Collects(After(w, run).nodes[q], 1, 0) && After(w, run).nodes[q].cells == [Mixed(q, 1, x, z)]
    ensures Extends(w, run, run', q) && MsgCommit(Vote(2, 1, x, q)) in After(w, run').sent
  {
    MixedIsPrepared(q, x, z);
    RunCheckPrepared(w, run, q, 0);
    var c, a4, r := Vote(2, 1, x, q), Action(q, RunCheck(0)), After(w, run).nodes[q];
    var r4 := r.(cells := r.cells[0 := AfterCheck(r.cells[0])], tasks := r.tasks + multiset{PreparedTask(c)});
    StaysClean(w, run, a4, r4, {});
    RunPrepared(w, run + [a4], q, c);
    var a5 := Action(q, RunTask(PreparedTask(c)));
    StaysClean(w, run + [a4], a5,
               r4.(tasks := r4.tasks - multiset{PreparedTask(c)} + multiset{HandleCommitTask(c)}), {MsgCommit(c)});
    run' := run + [a4] + [a5];
    ExtendsFurther(w, run, run + [a4], run', q);
  }

  // ---------- c: execution ----------

  /** c's collector holds commits of `ks`. */
  ghost predicate Waits(w: World, r: Replica, q: string, x: string, ks: set<string>) {
    && Collects(r, 1, 0) && |r.cells| == 1 && r.store.lastStable.None?
    && r.view == 2 && !r.inViewChange && r.tasks == multiset{}
    && r.cells[0].seqNo == 1 && r.cells[0].checks > 0
    && r.cells[0].votes.digest == x && r.cells[0].votes.preprepare == Some(PrePrepare(2, 1, x))
    && r.cells[0].votes.prepares == map[q := Vote(2, 1, x, q)]
    && r.cells[0].votes.commits.Keys == ks && (r.cells[0].votes.committed <==> |ks| >= 3)
  }

  lemma WaitsForMore(w: World, r: Replica, q: string, x: string, ks: set<string>, k: string)
    requires Waits(w, r, q, x, ks) && k !in ks && |ks| <= 2
    ensures Waits(w, r.(cells := r.cells[0 := CommitCell(r.cells[0], 1, Vote(2, 1, x, k))]), q, x, ks + {k})
  {
    InsertCard(r.cells[0].votes.commits, Vote(2, 1, x, k));
    assert |r.cells[0].votes.commits| == |ks|;
  }

  lemma WaitingHoldsNothing(w: World, r: Replica, q: string, x: string, ks: set<string>)
    requires Waits(w, r, q, x, ks)
    ensures NoCertificates(1, r)
  {
  }

  lemma TakesCommit(w: World, run: seq<Action>, q: string, x: string, ks: set<string>, k: string)
      returns (run': seq<Action>)
    requires w.F() == 1 && w.window >= 1 && Clean(w, run) && q in After(w, run).nodes
    requires Waits(w, After(w, run).nodes[q], q, x, ks) && k !in ks && |ks| <= 2 && k != q
    requires k in w.byz || MsgCommit(Vote(2, 1, x, k)) in After(w, run).sent
    ensures Extends(w, run, run', q) && Waits(w, After(w, run').nodes[q], q, x, ks + {k})
  {
    var v, r := Vote(2, 1, x, k), After(w, run).nodes[q];
    ReceiveCommit(w, run, q, 0, v);
    var a1, r1 := Action(q, OnCommit(v)), r.(tasks := r.tasks + multiset{AddCommitTask(0, v)});
    WaitingHoldsNothing(w, r, q, x, ks);
    StaysClean(w, run, a1, r1, {});
    RunCommit(w, run + [a1], q, 0, v);
    var a2, r2 := Action(q, RunTask(AddCommitTask(0, v))), r.(cells := r.cells[0 := CommitCell(r.cells[0], 1, v)]);
    assert r1.tasks - multiset{AddCommitTask(0, v)} == r.tasks;
    WaitsForMore(w, r, q, x, ks, k);
    WaitingHoldsNothing(w, r2, q, x, ks + {k});
    StaysClean(w, run + [a1], a2, r2, {});
    run' := run + [a1] + [a2];
    ExtendsFurther(w, run, run + [a1], run', q);
  }

  /**
   * One faulty replica among four suffices: c executes number 1, and no replica ever held a certificate of
   * one view for anything.
   */
  lemma {:induction false} ForeignNewViewsBreakTheView(w: World, a: string, b: string, c: string, z: string, x: string)
      returns (run: seq<Action>)
    requires OneLiar(w, a, b, c, z)
    ensures |w.byz| <= w.F() && Enabled(w, After(w, run), Action(c, RunCheck(0)))
    ensures Check(After(w, run).nodes[c].cells[0].votes, c).decided == Some(1)
    ensures NoEcho(run) && forall v :: !HasHeldInView(w, run, v)
  {
    var run2 := FalseCommits(w, a, b, c, z, x);
    EntersView(w, run2, c, 2, x, z);
    var run3 := run2 + [Action(c, OnNewView(FalseNewView(2, x, z)))];
    OwnPrepareOnly(c, 1, 2, x);
    run := Executes(w, run3, a, b, c, z, x);
  }

  /** a and b have sent their commits; c has done nothing. */
  lemma FalseCommits(w: World, a: string, b: string, c: string, z: string, x: string) returns (run: seq<Action>)
    requires OneLiar(w, a, b, c, z)
    ensures w.F() == 1 && Clean(w, run) && c in After(w, run).nodes && After(w, run).nodes[c] == NewReplica(w.At(c))
    ensures MsgCommit(Vote(2, 1, x, a)) in After(w, run).sent && MsgCommit(Vote(2, 1, x, b)) in After(w, run).sent
  {
    StartsClean(w);
    var run1 := SendsFalseCommit(w, [], a, x, z);
    run := SendsFalseCommit(w, run1, b, x, z);
  }

  lemma Executes(w: World, run: seq<Action>, a: string, b: string, c: string, z: string, x: string)
      returns (run': seq<Action>)
    requires OneLiar(w, a, b, c, z) && w.F() == 1 && Clean(w, run)
    requires c in After(w, run).nodes && Waits(w, After(w, run).nodes[c], c, x, {})
    requires MsgCommit(Vote(2, 1, x, a)) in After(w, run).sent && MsgCommit(Vote(2, 1, x, b)) in After(w, run).sent
    ensures Clean(w, run') && Enabled(w, After(w, run'), Action(c, RunCheck(0)))
    ensures Check(After(w, run').nodes[c].cells[0].votes, c).decided == Some(1)
  {
    var run4 := TakesCommit(w, run, c, x, {}, a);
    var run5 := TakesCommit(w, run4, c, x, {} + {a}, b);
    run' := TakesCommit(w, run5, c, x, {} + {a} + {b}, z);
    ExecutesNow(w, After(w, run'), c, x, {} + {a} + {b} + {z});
  }

  lemma ExecutesNow(w: World, s: System, c: string, x: string, ks: set<string>)
    requires c in s.nodes && Waits(w, s.nodes[c], c, x, ks) && |ks| >= 3
    ensures Enabled(w, s, Action(c, RunCheck(0))) && Check(s.nodes[c].cells[0].votes, c).decided == Some(1)
  {
  }
}
