/**
 * A run in which `Commit` comes before `AddRequests` of the same number: the primary starts `AddToStore` and handles
 * everything else meanwhile (`handleClientRequest` in `pbft/node.go`).
 */
module StalledExecution {
  import opened Messages
  import opened StoreModel
  import opened Replicas
  import opened Systems
  import opened FirstView
  import opened CrashFaults
  import opened CrashRuns
  import opened StuckNumbers
  import opened Scripts
  import opened Scenes
  import opened FirstNumberCommitted

  /** The store after number 1 was committed without its batch: a nil entry, nothing executed. */
  function Stalled(): StoreState {
    NEW_STORE.(committed := map[1 := None])
  }

  lemma CommitWithoutBatch(id: string, interval: Positive)
    ensures Commit(NEW_STORE, 1, id, interval) == (Stalled(), NO_OUTPUT)
  {
    assert MarkCommitted(NEW_STORE, 1) == Stalled();
  }

  lemma CommittedWithoutBatch(cfg: Config, r: Replica, req: ClientRequest)
    requires r.store == NEW_STORE && r.pending == []
    ensures HandleCommitted(cfg, r, 1) == Quiet(r.(store := Stalled(), inProgress := r.inProgress - {1}))
  {
    CommitWithoutBatch(cfg.id, cfg.interval);
    var cs := InView([], r.view);
    assert cs == [] && r.tasks + CheckpointTasks(cs) == r.tasks;
    assert Announcements(cs) + Replies(cfg, r.view, NO_OUTPUT) == [];
  }

  /** p, where only the collector, the tasks and what is in progress may differ from a primary with one request. */
  ghost predicate Stands(r: Replica, w: World, p: string, req: ClientRequest, store: StoreState,
                         tasks: multiset<Task>) {
    && r == Numbered(w, NewReplica(w.At(p)), req).(cells := r.cells, tasks := tasks, store := store,
                                                   inProgress := r.inProgress)
    && |r.cells| == 1
  }

  lemma ExecutesNothing(w: World, run: seq<Action>, p: string, a: string, b: string, x: Item, req: ClientRequest)
      returns (run': seq<Action>)
    requires p in After(w, run).nodes && x == First(1, x.digest)
    requires CommittedPrimary(After(w, run).nodes[p], w, p, a, b, x, req)
    ensures Goes(w, run, run', p)
    ensures var r' := After(w, run').nodes[p];
            && Stage(r', x, 0, true, {} + {a} + {b}, {} + {p} + {a} + {b}, false, false)
            && Stands(r', w, p, req, Stalled(), multiset{AddToStoreTask(0, Some([req]))})
  {
    var r, t := After(w, run).nodes[p], CommittedTask(1);
    var r0 := r.(tasks := r.tasks - multiset{t});
    CommittedWithoutBatch(w.At(p), r0, req);
    var r' := r0.(store := Stalled(), inProgress := r0.inProgress - {1});
    assert r0.tasks == multiset{AddToStoreTask(0, Some([req]))};
    ActsQuietly(w, run, p, RunTask(t), r');
    GoesOn(w, run, Action(p, RunTask(t)), r', {});
    run' := run + [Action(p, RunTask(t))];
  }

  /** The store after the batch has come, too late. */
  function FiledLate(req: ClientRequest): StoreState {
    AddRequests(Stalled(), 1, Some([req]))
  }

  lemma FilesTooLate(w: World, run: seq<Action>, p: string, x: Item, prep: set<string>, com: set<string>,
                     req: ClientRequest)
      returns (run': seq<Action>)
    requires p in After(w, run).nodes && x == First(1, x.digest)
    requires Stage(After(w, run).nodes[p], x, 0, true, prep, com, false, false)
    requires Stands(After(w, run).nodes[p], w, p, req, Stalled(), multiset{AddToStoreTask(0, Some([req]))})
    ensures Goes(w, run, run', p) && Stage(After(w, run').nodes[p], x, 0, true, prep, com, false, false)
    ensures Stands(After(w, run').nodes[p], w, p, req, FiledLate(req), multiset{})
  {
    var r, t := After(w, run).nodes[p], AddToStoreTask(0, Some([req]));
    var r' := r.(tasks := multiset{}, store := FiledLate(req));
    assert r.tasks - multiset{t} == multiset{};
    ActsQuietly(w, run, p, RunTask(t), r');
    GoesOn(w, run, Action(p, RunTask(t)), r', {});
    run' := run + [Action(p, RunTask(t))];
  }

  // ---------- The last commit ----------

  /** The third backup prepares and commits as well. */
  lemma LastBackupCommits(w: World, run: seq<Action>, c: string, k: string, x: Item, batch: Batch)
      returns (run': seq<Action>)
    requires w.F() == 1 && c in After(w, run).nodes && Primary(w) != c && w.window >= 1 && k != c
    requires After(w, run).nodes[c] == NewReplica(w.At(c)) && x == First(1, x.digest)
    requires {MsgPrePrepare(PP(x), batch), MsgPrepare(Own(x, k))} <= After(w, run).sent
    ensures Goes(w, run, run', c) && MsgCommit(Own(x, c)) in After(w, run').sent
  {
    var run1 := FirstBackupPrepares(w, run, c, x, batch);
    run' := FirstBackupCommits(w, run1, c, k, x);
    GoesFurther(w, run, run1, run', c);
  }

  lemma ThreeCommits(p: string, a: string, b: string, c: string)
    requires p != a && p != b && a != b && c != p && c != a && c != b
    ensures |{} + {p} + {a} + {b}| == 3 && c !in {} + {p} + {a} + {b}
  {
    assert {} + {p} + {a} + {b} == {p, a, b};
  }

  /** Four commits are one too many, and the batch came too late. */
  lemma IsStuck(w: World, r: Replica, p: string, x: Item, prep: set<string>, com: set<string>, req: ClientRequest)
    requires w.F() == 1 && x == First(1, x.digest) && |com| > 3
    requires Stage(r, x, 0, true, prep, com, false, false) && Stands(r, w, p, req, FiledLate(req), multiset{})
    ensures Stuck(w, p, r, 1)
  {
    assert |r.cells[0].votes.commits| == |com|;
  }

  lemma LastCommitComes(w: World, run: seq<Action>, p: string, c: string, x: Item, prep: set<string>, com: set<string>,
                        req: ClientRequest)
      returns (run': seq<Action>)
    requires w.F() == 1 && w.window >= 1 && p in After(w, run).nodes && x == First(1, x.digest)
    requires |com| == 3 && c !in com && c != p
    requires Stage(After(w, run).nodes[p], x, 0, true, prep, com, false, false)
    requires Stands(After(w, run).nodes[p], w, p, req, FiledLate(req), multiset{})
    requires MsgCommit(Own(x, c)) in After(w, run).sent
    ensures Goes(w, run, run', p) && Stands(After(w, run').nodes[p], w, p, req, FiledLate(req), multiset{})
    ensures StuckAfter(w, run', p, 1)
  {
    run' := TakeCommit(w, run, p, x, 0, prep, com, c);
    IsStuck(w, After(w, run').nodes[p], p, x, prep, com + {c}, req);
  }

  // ---------- The whole run ----------

  /** p has filed the batch of number 1 after committing it, and never executes it, whatever comes. */
  ghost predicate StalledAt(w: World, run: seq<Action>, p: string, req: ClientRequest) {
    && p in After(w, run).nodes && Stands(After(w, run).nodes[p], w, p, req, FiledLate(req), multiset{})
    && StuckAfter(w, run, p, 1)
  }

  lemma Stalls(w: World, p: string, a: string, b: string, c: string, req: ClientRequest)
      returns (run: seq<Action>, i: nat)
    requires Four(w, p, a, b, c)
    ensures CrashRun(w, run) && NoEcho(run) && CommitsAt(w, run, i, p, 1) && StalledAt(w, run, p, req)
  {
    var run1, x := [], First(1, w.digestOf(req));
    run1, i := CommitsFirst(w, p, a, b, c, req);
    var run2 := ExecutesNothing(w, run1, p, a, b, x, req);
    var run3 := FilesTooLate(w, run2, p, x, {} + {a} + {b}, {} + {p} + {a} + {b}, req);
    GoesFurther(w, run1, run2, run3, p);
    run := EndsStuck(w, run3, p, a, b, c, x, req);
    CommitStays(w, run1, run, i, p, 1);
  }

  lemma EndsStuck(w: World, run: seq<Action>, p: string, a: string, b: string, c: string, x: Item, req: ClientRequest)
      returns (run': seq<Action>)
    requires Four(w, p, a, b, c) && w.F() == 1 && {p, c} <= After(w, run).nodes.Keys && x == First(1, x.digest)
    requires Stage(After(w, run).nodes[p], x, 0, true, {} + {a} + {b}, {} + {p} + {a} + {b}, false, false)
    requires Stands(After(w, run).nodes[p], w, p, req, FiledLate(req), multiset{})
    requires After(w, run).nodes[c] == NewReplica(w.At(c))
    requires {MsgPrePrepare(PP(x), Some([req])), MsgPrepare(Own(x, a))} <= After(w, run).sent
    ensures StaysCrashRun(w, run, run') && run <= run' && StalledAt(w, run', p, req)
  {
    var run1 := LastBackupCommits(w, run, c, a, x, Some([req]));
    ThreeCommits(p, a, b, c);
    run' := LastCommitComes(w, run1, p, c, x, {} + {a} + {b}, {} + {p} + {a} + {b}, req);
  }

  /**
   * Nobody lies, number 1 is committed at the first primary, which has filed its batch and called `Commit` -- but in
   * the other order.  It has executed nothing, nothing it started is left to run, and however the run goes on while
   * it installs no status response: it never executes number 1.
   */
  lemma {:induction false} PrimaryStalls(w: World, p: string, a: string, b: string, c: string, req: ClientRequest)
      returns (run: seq<Action>, i: nat)
    requires Four(w, p, a, b, c)
    ensures CrashRun(w, run) && NoEcho(run) && CommitsAt(w, run, i, p, 1) && p in After(w, run).nodes
    ensures var r := After(w, run).nodes[p];
            && r.store.requests == map[1 := Some([req])] && 1 in r.store.committed
            && r.store.lastApplied == 0 && r.store.values == map[] && r.tasks == multiset{}
    ensures NeverExecutes(w, run, p, 1)
  {
    run, i := Stalls(w, p, a, b, c, req);
    StuckForGood(w, run, p, 1);
    assert map[][1 := Some([req])] == map[1 := Some([req])];
  }
}
