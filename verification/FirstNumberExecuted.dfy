/**
 * The beginning shared by runs with a stable checkpoint: the first primary executes number 1 and broadcasts its
 * checkpoint, which becomes stable at another replica.
 */
module FirstNumberExecuted {
  import opened Messages
  import opened StoreModel
  import opened Replicas
  import opened Systems
  import opened FirstView
  import opened Scripts
  import opened Scenes
  import opened FirstNumberCommitted

  // ---------- The first primary executes number 1 ----------

  /** The primary has filed the batch of number 1, and is about to execute it. */
  ghost predicate Filed(r: Replica, w: World, p: string, req: ClientRequest) {
    && r == Numbered(w, NewReplica(w.At(p)), req).(cells := r.cells, tasks := r.tasks, store := r.store)
    && r.store == AddRequests(NEW_STORE, 1, Some([req])) && |r.cells| == 1
  }

  lemma Files(w: World, run: seq<Action>, p: string, a: string, b: string, x: Item, req: ClientRequest)
      returns (run': seq<Action>)
    requires p in After(w, run).nodes && x == First(1, x.digest)
    requires CommittedPrimary(After(w, run).nodes[p], w, p, a, b, x, req)
    ensures Goes(w, run, run', p) && Filed(After(w, run').nodes[p], w, p, req)
    ensures CommittedTask(1) in After(w, run').nodes[p].tasks
  {
    var r, t := After(w, run).nodes[p], AddToStoreTask(0, Some([req]));
    var r' := r.(tasks := r.tasks - multiset{t}, store := AddRequests(r.store, 1, Some([req])));
    ActsQuietly(w, run, p, RunTask(t), r');
    GoesOn(w, run, Action(p, RunTask(t)), r', {});
    run' := run + [Action(p, RunTask(t))];
  }

  /** The checkpoint of the first batch. */
  function FirstCheckpoint(p: string, req: ClientRequest): Checkpoint {
    Checkpoint(1, Digest(RunBatch(map[], [req]).0), p, 0)
  }

  lemma CommitOfFirst(id: string, req: ClientRequest, interval: Positive)
    requires interval == 1
    ensures var (s, out) := Commit(AddRequests(NEW_STORE, 1, Some([req])), 1, id, interval);
            && s.unstable == map[] && s.lastStable.None? && s.lastApplied == 1
            && out.checkpoints == [FirstCheckpoint(id, req)]
  {
    var marked := MarkCommitted(AddRequests(NEW_STORE, 1, Some([req])), 1);
    var next := ExecuteNext(marked);
    assert Drain(next, id, interval) == (next, NO_OUTPUT);
    assert 1 % interval == 0;
  }

  /** The primary has executed number 1. */
  ghost predicate Executed(r: Replica, w: World, p: string) {
    && IsPrimary(w.At(p), r) && !r.inViewChange && r.view == 0 && r.lastSeq == 1 && |r.cells| == 1
    && r.txns == map[1 := 0] && r.inProgress == {}
    && r.store.unstable == map[] && r.store.lastStable.None? && r.store.lastApplied == 1
  }

  lemma ExecutionOfFirst(w: World, r: Replica, p: string, req: ClientRequest)
    requires Filed(r, w, p, req) && w.interval == 1 && Primary(w) == p
    ensures var o := HandleCommitted(w.At(p), r, 1);
            Executed(o.replica, w, p) && MsgCheckpoint(FirstCheckpoint(p, req)) in o.sent
  {
    CommitOfFirst(p, req, w.interval);
    var out := Commit(r.store, 1, p, w.interval).1;
    var cs := InView(out.checkpoints, 0);
    assert cs == [FirstCheckpoint(p, req)];
    assert Announcements(cs)[0] == MsgCheckpoint(FirstCheckpoint(p, req));
    assert map[][1 := 0] == map[1 := 0];
  }

  lemma Executes(w: World, run: seq<Action>, p: string, req: ClientRequest) returns (run': seq<Action>)
    requires p in After(w, run).nodes && Filed(After(w, run).nodes[p], w, p, req)
    requires CommittedTask(1) in After(w, run).nodes[p].tasks && w.interval == 1 && Primary(w) == p
    ensures Goes(w, run, run', p) && Executed(After(w, run').nodes[p], w, p)
    ensures MsgCheckpoint(FirstCheckpoint(p, req)) in After(w, run').sent
  {
    var r, t := After(w, run).nodes[p], CommittedTask(1);
    var r0 := r.(tasks := r.tasks - multiset{t});
    ExecutionOfFirst(w, r0, p, req);
    Acts(w, run, p, RunTask(t));
    var o := HandleCommitted(w.At(p), r0, 1);
    GoesOn(w, run, Action(p, RunTask(t)), o.replica, SetOf(o.sent));
    run' := run + [Action(p, RunTask(t))];
  }

  /** Number 1 is executed at the primary; the backups are as they were. */
  lemma ExecutesFirst(w: World, run: seq<Action>, p: string, a: string, b: string, x: Item, req: ClientRequest)
      returns (run': seq<Action>)
    requires p in After(w, run).nodes && Primary(w) == p && w.interval == 1 && x == First(1, x.digest)
    requires CommittedPrimary(After(w, run).nodes[p], w, p, a, b, x, req)
    ensures Goes(w, run, run', p) && Executed(After(w, run').nodes[p], w, p)
    ensures MsgCheckpoint(FirstCheckpoint(p, req)) in After(w, run').sent
  {
    var run1 := Files(w, run, p, a, b, x, req);
    run' := Executes(w, run1, p, req);
    GoesFurther(w, run, run1, run', p);
  }

  // ---------- A checkpoint becomes stable ----------

  function Counted(r: Replica, votes: Proof): Replica {
    r.(store := r.store.(unstable := map[IdOf(votes[0]) := votes]))
  }

  /** The replica after `proof` has made number 1 stable. */
  ghost predicate Stabilised(r: Replica, r': Replica, proof: Proof) {
    && r' == r.(store := r'.store, txns := r'.txns, inProgress := r'.inProgress)
    && r'.txns == (map n | n in r.txns && n > 1 :: r.txns[n]) && r'.inProgress == (set n | n in r.inProgress && n > 1)
    && r'.store.lastStable == Some(proof)
  }

  lemma CountsFirst(cfg: Config, r: Replica, c: Checkpoint)
    requires cfg.F() == 1 && r.store.unstable == map[] && r.store.lastStable.None? && c.seqNo == 1
    ensures HandleCheckpoint(cfg, r, c) == Quiet(Counted(r, [c]))
  {
    assert map[][IdOf(c) := [c]] == map[IdOf(c) := [c]] && [] + [c] == [c];
  }

  lemma CountsSecond(cfg: Config, r: Replica, c: Checkpoint)
    requires cfg.F() == 1 && r.store.lastStable.None? && c.seqNo == 1
    ensures HandleCheckpoint(cfg, Counted(r, [c]), c) == Quiet(Counted(r, [c, c]))
  {
    assert map[IdOf(c) := [c]][IdOf(c) := [c, c]] == map[IdOf(c) := [c, c]] && [c] + [c] == [c, c];
  }

  lemma CountsThird(cfg: Config, r: Replica, c: Checkpoint)
    requires cfg.F() == 1 && r.store.lastStable.None? && c.seqNo == 1
    ensures var o := HandleCheckpoint(cfg, Counted(r, [c, c]), c);
            Stabilised(r, o.replica, [c, c, c]) && o == Quiet(o.replica)
  {
    assert [c, c] + [c] == [c, c, c];
  }

  lemma TakesCheckpoint(w: World, run: seq<Action>, q: string, c: Checkpoint, r': Replica) returns (run': seq<Action>)
    requires q in After(w, run).nodes && MsgCheckpoint(c) in After(w, run).sent && c.replica != q
    requires HandleCheckpoint(w.At(q), After(w, run).nodes[q], c) == Quiet(r')
    ensures Goes(w, run, run', q) && After(w, run').nodes[q] == r'
  {
    ActsQuietly(w, run, q, OnCheckpoint(c), r');
    GoesOn(w, run, Action(q, OnCheckpoint(c)), r', {});
    run' := run + [Action(q, OnCheckpoint(c))];
  }

  /** Votes are counted per message, so one vote, delivered three times, is enough. */
  lemma Stabilises(w: World, run: seq<Action>, q: string, c: Checkpoint) returns (run': seq<Action>)
    requires w.F() == 1 && q in After(w, run).nodes && MsgCheckpoint(c) in After(w, run).sent && c.replica != q
    requires var s := After(w, run).nodes[q].store; s.unstable == map[] && s.lastStable.None?
    requires c.seqNo == 1
    ensures Goes(w, run, run', q) && Stabilised(After(w, run).nodes[q], After(w, run').nodes[q], [c, c, c])
  {
    var r, cfg := After(w, run).nodes[q], w.At(q);
    CountsFirst(cfg, r, c);
    CountsSecond(cfg, r, c);
    CountsThird(cfg, r, c);
    var run1 := TakesCheckpoint(w, run, q, c, Counted(r, [c]));
    var run2 := TakesCheckpoint(w, run1, q, c, Counted(r, [c, c]));
    GoesFurther(w, run, run1, run2, q);
    run' := TakesCheckpoint(w, run2, q, c, HandleCheckpoint(cfg, Counted(r, [c, c]), c).replica);
    GoesFurther(w, run, run2, run', q);
  }
}
