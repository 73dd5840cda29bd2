/** The beginning shared by several concrete runs: number 1 is committed by the first primary and two backups. */
module FirstNumberCommitted {
  import opened Messages
  import opened Replicas
  import opened Systems
  import opened FirstView
  import opened CrashFaults
  import opened CrashRuns
  import opened Scenes

  /** Nobody hears a status response, or itself. */
  ghost predicate Uneventful(run: seq<Action>) {
    NoStatus(run) && NoEcho(run)
  }

  /** The primary has numbered the request; nobody else has done anything. */
  ghost predicate Opened(w: World, run: seq<Action>, p: string, a: string, b: string, c: string, req: ClientRequest) {
    var x, nodes := First(1, w.digestOf(req)), After(w, run).nodes;
    && w.F() == 1 && CrashRun(w, run) && Uneventful(run) && {p, a, b, c} <= nodes.Keys
    && MsgPrePrepare(PP(x), Some([req])) in After(w, run).sent
    && nodes[p] == Numbered(w, NewReplica(w.At(p)), req) && Stage(nodes[p], x, 0, true, {}, {}, false, false)
    && nodes[a] == NewReplica(w.At(a)) && nodes[b] == NewReplica(w.At(b)) && nodes[c] == NewReplica(w.At(c))
  }

  lemma Opening(w: World, p: string, a: string, b: string, c: string, req: ClientRequest) returns (run: seq<Action>)
    requires Four(w, p, a, b, c)
    ensures Opened(w, run, p, a, b, c, req)
  {
    assert CrashRun(w, []) && After(w, []).nodes[p] == NewReplica(w.At(p));
    run := NumbersRequest(w, [], p, req);
  }

  lemma NewAwaits(w: World, q: string, x: Item)
    requires Primary(w) != q && w.window >= 1 && x.n == 1 && x.view == 0
    ensures Awaits(w, NewReplica(w.At(q)), q, x)
  {
  }

  /** A backup after it has committed x. */
  ghost predicate CommittedBackup(r: Replica, w: World, q: string, k: string, x: Item) {
    && Stage(r, x, 0, true, {q} + {k}, {}, false, false) && |r.cells| == 1 && r.txns == map[1 := 0]
    && r.tasks == multiset{HandleCommitTask(Own(x, q))} && r.store.lastStable.None?
    && !r.inViewChange && r.leader == Primary(w)
  }

  /** A backup with the pre-prepare of x and its own prepare. */
  ghost predicate PreparedBackup(r: Replica, w: World, q: string, x: Item) {
    && Stage(r, x, 0, true, {q}, {}, false, false) && Follows(w, NewReplica(w.At(q)), r, q, x)
    && r.tasks == multiset{}
  }

  lemma FirstBackupPrepares(w: World, run: seq<Action>, q: string, x: Item, batch: Batch) returns (run': seq<Action>)
    requires w.F() == 1 && q in After(w, run).nodes && Primary(w) != q
    requires After(w, run).nodes[q] == NewReplica(w.At(q)) && w.window >= 1 && x.n == 1 && x.view == 0
    requires MsgPrePrepare(PP(x), batch) in After(w, run).sent
    ensures Goes(w, run, run', q) && MsgPrepare(Own(x, q)) in After(w, run').sent
    ensures PreparedBackup(After(w, run').nodes[q], w, q, x)
  {
    NewAwaits(w, q, x);
    run' := BackupPrepares(w, run, q, x, batch);
  }

  lemma OneBackupPrepares(w: World, run: seq<Action>, p: string, a: string, b: string, c: string, req: ClientRequest)
      returns (run': seq<Action>)
    requires Four(w, p, a, b, c) && Opened(w, run, p, a, b, c, req)
    ensures CrashRun(w, run') && Uneventful(run') && After(w, run').nodes.Keys == After(w, run).nodes.Keys
    ensures var x, nodes := First(1, w.digestOf(req)), After(w, run').nodes;
            && nodes[p] == After(w, run).nodes[p] && PreparedBackup(nodes[a], w, a, x)
            && nodes[b] == NewReplica(w.At(b)) && nodes[c] == NewReplica(w.At(c))
            && {MsgPrePrepare(PP(x), Some([req])), MsgPrepare(Own(x, a))} <= After(w, run').sent
  {
    run' := FirstBackupPrepares(w, run, a, First(1, w.digestOf(req)), Some([req]));
  }

  lemma BackupsPrepare(w: World, run: seq<Action>, p: string, a: string, b: string, c: string, req: ClientRequest)
      returns (run': seq<Action>)
    requires Four(w, p, a, b, c) && Opened(w, run, p, a, b, c, req)
    ensures CrashRun(w, run') && Uneventful(run') && After(w, run').nodes.Keys == After(w, run).nodes.Keys
    ensures var x, nodes := First(1, w.digestOf(req)), After(w, run').nodes;
            && nodes[p] == After(w, run).nodes[p] && nodes[c] == NewReplica(w.At(c))
            && PreparedBackup(nodes[a], w, a, x) && PreparedBackup(nodes[b], w, b, x)
            && {MsgPrePrepare(PP(x), Some([req])), MsgPrepare(Own(x, a)), MsgPrepare(Own(x, b))}
               <= After(w, run').sent
  {
    var run1 := OneBackupPrepares(w, run, p, a, b, c, req);
    run' := FirstBackupPrepares(w, run1, b, First(1, w.digestOf(req)), Some([req]));
  }

  lemma BackupIsCommitted(w: World, r: Replica, r': Replica, q: string, k: string, x: Item)
    requires x.n == 1 && PreparedBackup(r, w, q, x)
    requires r' == r.(cells := r'.cells, tasks := r.tasks + multiset{HandleCommitTask(Own(x, q))})
    requires |r'.cells| == |r.cells| && Stage(r', x, 0, true, {q} + {k}, {}, false, false)
    ensures CommittedBackup(r', w, q, k, x)
  {
    assert map[][1 := 0] == map[1 := 0];
  }

  lemma FirstBackupCommits(w: World, run: seq<Action>, q: string, k: string, x: Item) returns (run': seq<Action>)
    requires w.F() == 1 && q in After(w, run).nodes && k != q && x.n == 1
    requires PreparedBackup(After(w, run).nodes[q], w, q, x) && MsgPrepare(Own(x, k)) in After(w, run).sent
    ensures Goes(w, run, run', q) && MsgCommit(Own(x, q)) in After(w, run').sent
    ensures CommittedBackup(After(w, run').nodes[q], w, q, k, x)
  {
    run' := BackupCommits(w, run, q, k, x, 0);
    BackupIsCommitted(w, After(w, run).nodes[q], After(w, run').nodes[q], q, k, x);
  }

  /** a and b hold certificates and have said so; nothing else has happened. */
  ghost predicate BackupsCommitted(w: World, run: seq<Action>, p: string, a: string, b: string, c: string,
                                   req: ClientRequest) {
    var x, nodes := First(1, w.digestOf(req)), After(w, run).nodes;
    && w.F() == 1 && CrashRun(w, run) && Uneventful(run) && {p, a, b, c} <= nodes.Keys
    && nodes[p] == Numbered(w, NewReplica(w.At(p)), req) && Stage(nodes[p], x, 0, true, {}, {}, false, false)
    && nodes[c] == NewReplica(w.At(c))
    && CommittedBackup(nodes[a], w, a, b, x) && CommittedBackup(nodes[b], w, b, a, x)
    && MsgPrePrepare(PP(x), Some([req])) in After(w, run).sent
    && {MsgPrepare(Own(x, a)), MsgPrepare(Own(x, b)), MsgCommit(Own(x, a)), MsgCommit(Own(x, b))} <= After(w, run).sent
  }

  lemma BackupsCommit(w: World, p: string, a: string, b: string, c: string, req: ClientRequest)
      returns (run: seq<Action>)
    requires Four(w, p, a, b, c)
    ensures BackupsCommitted(w, run, p, a, b, c, req)
  {
    var run0 := Opening(w, p, a, b, c, req);
    var run1 := BackupsPrepare(w, run0, p, a, b, c, req);
    run := PreparedBackupsCommit(w, run1, a, b, First(1, w.digestOf(req)));
  }

  lemma PreparedBackupsCommit(w: World, run: seq<Action>, a: string, b: string, x: Item) returns (run': seq<Action>)
    requires w.F() == 1 && CrashRun(w, run) && {a, b} <= After(w, run).nodes.Keys && a != b && x.n == 1
    requires PreparedBackup(After(w, run).nodes[a], w, a, x) && PreparedBackup(After(w, run).nodes[b], w, b, x)
    requires {MsgPrepare(Own(x, a)), MsgPrepare(Own(x, b))} <= After(w, run).sent
    ensures CrashRun(w, run') && (Uneventful(run) ==> Uneventful(run'))
    ensures After(w, run').nodes.Keys == After(w, run).nodes.Keys && After(w, run).sent <= After(w, run').sent
    ensures var nodes := After(w, run').nodes;
            && CommittedBackup(nodes[a], w, a, b, x) && CommittedBackup(nodes[b], w, b, a, x)
            && forall k | k in nodes && k != a && k != b :: nodes[k] == After(w, run).nodes[k]
    ensures {MsgCommit(Own(x, a)), MsgCommit(Own(x, b))} <= After(w, run').sent
  {
    var run1 := FirstBackupCommits(w, run, a, b, x);
    run' := FirstBackupCommits(w, run1, b, a, x);
  }

  /** The primary after it has committed x: its request is still to be filed, its commit to be executed. */
  ghost predicate CommittedPrimary(r: Replica, w: World, p: string, a: string, b: string, x: Item, req: ClientRequest) {
    && r == Numbered(w, NewReplica(w.At(p)), req).(cells := r.cells, tasks := r.tasks)
    && r.tasks == multiset{AddToStoreTask(0, Some([req])), CommittedTask(1)}
    && Stage(r, x, 0, true, {} + {a} + {b}, {} + {p} + {a} + {b}, false, false) && |r.cells| == 1
  }

  /** Number 1 is committed at p, a and b; c has done nothing. */
  ghost predicate FirstCommitted(w: World, run: seq<Action>, p: string, a: string, b: string, c: string,
                                 req: ClientRequest) {
    var x, nodes := First(1, w.digestOf(req)), After(w, run).nodes;
    && w.F() == 1 && CrashRun(w, run) && Uneventful(run) && {p, a, b, c} <= nodes.Keys
    && CommittedPrimary(nodes[p], w, p, a, b, x, req) && nodes[c] == NewReplica(w.At(c))
    && CommittedBackup(nodes[a], w, a, b, x) && CommittedBackup(nodes[b], w, b, a, x)
    && {MsgPrePrepare(PP(x), Some([req])), MsgPrepare(Own(x, a)), MsgPrepare(Own(x, b))} <= After(w, run).sent
  }

  lemma PrimaryIsReady(w: World, p: string, req: ClientRequest)
    requires w.window >= 1
    ensures var r := Numbered(w, NewReplica(w.At(p)), req);
            && InWindow(w.At(p), r, 1) && !r.inViewChange && |r.cells| == 1
            && r.tasks == multiset{AddToStoreTask(0, Some([req]))}
  {
  }

  lemma PrimaryIsCommitted(w: World, r: Replica, r1: Replica, r2: Replica, p: string, a: string, b: string, x: Item,
                           req: ClientRequest)
    requires r == Numbered(w, NewReplica(w.At(p)), req) && x.n == 1
    requires r1 == r.(cells := r1.cells, tasks := r.tasks + multiset{HandleCommitTask(Own(x, p))})
    requires r2 == r1.(cells := r2.cells, tasks := r1.tasks - multiset{HandleCommitTask(Own(x, p))}
                                                   + multiset{CommittedTask(x.n)})
    requires |r1.cells| == |r.cells| == |r2.cells|
    requires Stage(r2, x, 0, true, {} + {a} + {b}, {} + {p} + {a} + {b}, false, false)
    ensures CommittedPrimary(r2, w, p, a, b, x, req)
  {
    assert r1.tasks - multiset{HandleCommitTask(Own(x, p))} == r.tasks;
  }

  lemma PrimaryCommits(w: World, run: seq<Action>, p: string, a: string, b: string, c: string, req: ClientRequest)
      returns (run': seq<Action>, i: nat)
    requires Four(w, p, a, b, c) && BackupsCommitted(w, run, p, a, b, c, req)
    ensures Goes(w, run, run', p) && CommitsAt(w, run', i, p, 1)
    ensures CommittedPrimary(After(w, run').nodes[p], w, p, a, b, First(1, w.digestOf(req)), req)
  {
    var x, r := First(1, w.digestOf(req)), After(w, run).nodes[p];
    PrimaryIsReady(w, p, req);
    var run1 := PrimaryPrepares(w, run, p, x, 0, a, b);
    var r1 := After(w, run1).nodes[p];
    run', i := OwnDecides(w, run1, p, x, 0, {} + {a} + {b}, a, b);
    GoesFurther(w, run, run1, run', p);
    PrimaryIsCommitted(w, r, r1, After(w, run').nodes[p], p, a, b, x, req);
  }

  lemma CommitsFirst(w: World, p: string, a: string, b: string, c: string, req: ClientRequest)
      returns (run: seq<Action>, i: nat)
    requires Four(w, p, a, b, c)
    ensures FirstCommitted(w, run, p, a, b, c, req) && CommitsAt(w, run, i, p, 1)
  {
    var run1 := BackupsCommit(w, p, a, b, c, req);
    run, i := PrimaryCommits(w, run1, p, a, b, c, req);
  }
}
