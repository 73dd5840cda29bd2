/** Pieces of honest runs that several replicas act out one after the other, each by itself. */
module JointScenes {
  import opened Messages
  import opened StoreModel
  import opened Replicas
  import opened Systems
  import opened ViewChangeRules
  import opened CrashRuns
  import opened Scenes

  /** Only members of qs have acted, and everybody was honest. */
  ghost predicate TheyWalk(w: World, run: seq<Action>, run': seq<Action>, qs: seq<string>) {
    && StaysHonest(w, run, run') && run <= run' && After(w, run').nodes.Keys == After(w, run).nodes.Keys
    && (forall k | k in After(w, run).nodes && k !in qs :: After(w, run').nodes[k] == After(w, run).nodes[k])
    && After(w, run).sent <= After(w, run').sent
  }

  ghost predicate TheyProceed(w: World, run: seq<Action>, run': seq<Action>, qs: seq<string>) {
    TheyWalk(w, run, run', qs) && StaysCrashRun(w, run, run')
  }

  /** Different replicas. */
  ghost predicate Distinct(s: System, qs: seq<string>) {
    (forall i, j | 0 <= i < j < |qs| :: qs[i] != qs[j]) && forall q | q in qs :: q in s.nodes
  }

  function Front(qs: seq<string>): seq<string>
    requires qs != []
  {
    qs[..|qs| - 1]
  }

  function Last(qs: seq<string>): string
    requires qs != []
  {
    qs[|qs| - 1]
  }

  lemma SplitLast(qs: seq<string>)
    requires qs != []
    ensures qs == Front(qs) + [Last(qs)]
  {
  }

  lemma OneLess(s: System, qs: seq<string>)
    requires Distinct(s, qs) && qs != []
    ensures Distinct(s, Front(qs)) && Last(qs) !in Front(qs) && Last(qs) in s.nodes
    ensures forall q :: q in qs <==> q in Front(qs) || q == Last(qs)
  {
    SplitLast(qs);
  }

  lemma OneMoreWalks(w: World, run: seq<Action>, run1: seq<Action>, run': seq<Action>, qs: seq<string>)
    requires Distinct(After(w, run), qs) && qs != [] && TheyWalk(w, run, run1, Front(qs))
    requires Walks(w, run1, run', Last(qs))
    ensures TheyWalk(w, run, run', qs)
    ensures forall q | q in Front(qs) :: After(w, run').nodes[q] == After(w, run1).nodes[q]
    ensures After(w, run1).sent <= After(w, run').sent
  {
    OneLess(After(w, run), qs);
  }

  lemma LastIsUntouched(w: World, run: seq<Action>, run1: seq<Action>, qs: seq<string>)
    requires Distinct(After(w, run), qs) && qs != [] && TheyWalk(w, run, run1, Front(qs))
    ensures Last(qs) in qs && Last(qs) in After(w, run).nodes && Last(qs) in After(w, run1).nodes
    ensures After(w, run1).nodes[Last(qs)] == After(w, run).nodes[Last(qs)]
  {
    OneLess(After(w, run), qs);
  }

  // ---------- Preparing and committing a number ----------

  /** A replica with x's pre-prepare and the prepares of `prep` in its newest collector. */
  ghost predicate Backs(r: Replica, w: World, q: string, x: Item, prep: set<string>) {
    && r.cells != [] && Stage(r, x, |r.cells| - 1, true, prep, {}, false, false)
    && InWindow(w.At(q), r, x.n) && !r.inViewChange
  }

  /** The fields that backing a number leaves alone, besides the collectors of other numbers. */
  ghost predicate SameOtherwise(r: Replica, r': Replica, n: int) {
    && r'.store.lastStable == r.store.lastStable && r'.leader == r.leader
    && forall m | m != n :: m in r'.txns <==> m in r.txns
  }

  lemma Backing(w: World, run: seq<Action>, q: string, x: Item, batch: Batch) returns (run': seq<Action>)
    requires w.F() == 1 && q in After(w, run).nodes && Awaits(w, After(w, run).nodes[q], q, x)
    requires MsgPrePrepare(PP(x), batch) in After(w, run).sent
    ensures Goes(w, run, run', q) && MsgPrepare(Own(x, q)) in After(w, run').sent
    ensures Backs(After(w, run').nodes[q], w, q, x, {q})
    ensures SameOtherwise(After(w, run).nodes[q], After(w, run').nodes[q], x.n)
  {
    run' := BackupPrepares(w, run, q, x, batch);
  }

  lemma Committing(w: World, run: seq<Action>, q: string, k: string, x: Item) returns (run': seq<Action>)
    requires w.F() == 1 && q in After(w, run).nodes && k != q
    requires Backs(After(w, run).nodes[q], w, q, x, {q}) && MsgPrepare(Own(x, k)) in After(w, run).sent
    ensures Goes(w, run, run', q) && MsgCommit(Own(x, q)) in After(w, run').sent
    ensures var r, r' := After(w, run).nodes[q], After(w, run').nodes[q];
            && r' == r.(cells := r'.cells, tasks := r.tasks + multiset{HandleCommitTask(Own(x, q))})
            && |r'.cells| == |r.cells| && Backs(r', w, q, x, {q} + {k})
  {
    var r := After(w, run).nodes[q];
    run' := BackupCommits(w, run, q, k, x, |r.cells| - 1);
    StillBacks(w, r, After(w, run').nodes[q], q, k, x);
  }

  lemma StillBacks(w: World, r: Replica, r': Replica, q: string, k: string, x: Item)
    requires Backs(r, w, q, x, {q}) && r' == r.(cells := r'.cells, tasks := r'.tasks) && |r'.cells| == |r.cells|
    requires Stage(r', x, |r.cells| - 1, true, {q} + {k}, {}, false, false)
    ensures Backs(r', w, q, x, {q} + {k})
  {
  }

  /** q holds x's pre-prepare and its own prepare, and has said so. */
  ghost predicate HasPrepared(w: World, s: System, q: string, x: Item) {
    q in s.nodes && Backs(s.nodes[q], w, q, x, {q}) && MsgPrepare(Own(x, q)) in s.sent
  }

  ghost predicate AllHavePrepared(w: World, s: System, qs: seq<string>, x: Item) {
    forall q | q in qs :: HasPrepared(w, s, q, x)
  }

  /** And each is otherwise as it was. */
  ghost predicate AllSameOtherwise(s: System, s': System, qs: seq<string>, n: int) {
    forall q | q in qs :: q in s.nodes && q in s'.nodes && SameOtherwise(s.nodes[q], s'.nodes[q], n)
  }

  /** The others of qs have not moved since. */
  ghost predicate OthersStay(s: System, s': System, qs: seq<string>)
    requires qs != []
  {
    s.sent <= s'.sent && forall q | q in Front(qs) :: q in s.nodes && q in s'.nodes && s'.nodes[q] == s.nodes[q]
  }

  lemma OneMorePrepared(w: World, s: System, s': System, qs: seq<string>, x: Item)
    requires qs != [] && AllHavePrepared(w, s, Front(qs), x) && OthersStay(s, s', qs) && HasPrepared(w, s', Last(qs), x)
    ensures AllHavePrepared(w, s', qs, x)
  {
    SplitLast(qs);
  }

  lemma OneMoreSameOtherwise(s: System, s1: System, s': System, qs: seq<string>, n: int)
    requires qs != [] && AllSameOtherwise(s, s1, Front(qs), n) && OthersStay(s1, s', qs)
    requires Last(qs) in s.nodes && Last(qs) in s'.nodes && SameOtherwise(s.nodes[Last(qs)], s'.nodes[Last(qs)], n)
    ensures AllSameOtherwise(s, s', qs, n)
  {
    SplitLast(qs);
  }

  lemma TheOthersStay(w: World, run: seq<Action>, run1: seq<Action>, run': seq<Action>, qs: seq<string>)
    requires Distinct(After(w, run), qs) && qs != [] && TheyWalk(w, run, run1, Front(qs))
    requires Walks(w, run1, run', Last(qs))
    ensures TheyWalk(w, run, run', qs) && OthersStay(After(w, run1), After(w, run'), qs)
  {
    OneLess(After(w, run), qs);
    OneMoreWalks(w, run, run1, run', qs);
  }

  ghost predicate AllAwait(w: World, s: System, qs: seq<string>, x: Item) {
    forall q | q in qs :: q in s.nodes && Awaits(w, s.nodes[q], q, x)
  }

  lemma {:induction false} AllBack(w: World, run: seq<Action>, qs: seq<string>, x: Item, batch: Batch)
      returns (run': seq<Action>)
    requires w.F() == 1 && Distinct(After(w, run), qs) && AllAwait(w, After(w, run), qs, x)
    requires MsgPrePrepare(PP(x), batch) in After(w, run).sent
    ensures TheyProceed(w, run, run', qs) && AllHavePrepared(w, After(w, run'), qs, x)
    ensures AllSameOtherwise(After(w, run), After(w, run'), qs, x.n)
  {
    run' := run;
    if qs != [] {
      OneLess(After(w, run), qs);
      var run1 := AllBack(w, run, Front(qs), x, batch);
      LastIsUntouched(w, run, run1, qs);
      run' := Backing(w, run1, Last(qs), x, batch);
      TheOthersStay(w, run, run1, run', qs);
      OneMorePrepared(w, After(w, run1), After(w, run'), qs, x);
      OneMoreSameOtherwise(After(w, run), After(w, run1), After(w, run'), qs, x.n);
    }
  }

  function Other(q: string, a: string, b: string): string {
    if q == a then b else a
  }

  /** q has prepared x, and said so, with its own prepare and that of a or b. */
  ghost predicate HasCommitted(w: World, s: System, q: string, a: string, b: string, x: Item) {
    && q in s.nodes && Backs(s.nodes[q], w, q, x, {q} + {Other(q, a, b)}) && MsgCommit(Own(x, q)) in s.sent
    && HandleCommitTask(Own(x, q)) in s.nodes[q].tasks
  }

  ghost predicate AllHaveCommitted(w: World, s: System, qs: seq<string>, a: string, b: string, x: Item) {
    forall q | q in qs :: HasCommitted(w, s, q, a, b, x)
  }

  lemma OneMoreCommitted(w: World, s: System, s': System, qs: seq<string>, a: string, b: string, x: Item)
    requires qs != [] && AllHaveCommitted(w, s, Front(qs), a, b, x) && OthersStay(s, s', qs)
    requires HasCommitted(w, s', Last(qs), a, b, x)
    ensures AllHaveCommitted(w, s', qs, a, b, x)
  {
    SplitLast(qs);
  }

  lemma {:induction false} AllCommit(w: World, run: seq<Action>, qs: seq<string>, a: string, b: string, x: Item)
      returns (run': seq<Action>)
    requires w.F() == 1 && Distinct(After(w, run), qs) && a != b && AllHavePrepared(w, After(w, run), qs, x)
    requires {MsgPrepare(Own(x, a)), MsgPrepare(Own(x, b))} <= After(w, run).sent
    ensures TheyProceed(w, run, run', qs) && AllHaveCommitted(w, After(w, run'), qs, a, b, x)
    ensures AllSameOtherwise(After(w, run), After(w, run'), qs, x.n)
  {
    run' := run;
    if qs != [] {
      OneLess(After(w, run), qs);
      var run1 := AllCommit(w, run, Front(qs), a, b, x);
      run' := LastCommits(w, run, run1, qs, a, b, x);
      TheOthersStay(w, run, run1, run', qs);
      OneMoreCommitted(w, After(w, run1), After(w, run'), qs, a, b, x);
      OneMoreSameOtherwise(After(w, run), After(w, run1), After(w, run'), qs, x.n);
    }
  }

  lemma LastCommits(w: World, run: seq<Action>, run1: seq<Action>, qs: seq<string>, a: string, b: string, x: Item)
      returns (run': seq<Action>)
    requires w.F() == 1 && Distinct(After(w, run), qs) && qs != [] && a != b
    requires HasPrepared(w, After(w, run), Last(qs), x) && TheyProceed(w, run, run1, Front(qs))
    requires {MsgPrepare(Own(x, a)), MsgPrepare(Own(x, b))} <= After(w, run).sent
    ensures Proceeds(w, run1, run', Last(qs)) && HasCommitted(w, After(w, run'), Last(qs), a, b, x)
    ensures Last(qs) in After(w, run).nodes
    ensures SameOtherwise(After(w, run).nodes[Last(qs)], After(w, run').nodes[Last(qs)], x.n)
  {
    LastIsUntouched(w, run, run1, qs);
    run' := Committing(w, run1, Last(qs), Other(Last(qs), a, b), x);
  }

  lemma SameOtherwiseTwice(s: System, s1: System, s': System, qs: seq<string>, n: int)
    requires AllSameOtherwise(s, s1, qs, n) && AllSameOtherwise(s1, s', qs, n)
    ensures AllSameOtherwise(s, s', qs, n)
  {
  }

  lemma TheyProceedFurther(w: World, run: seq<Action>, run1: seq<Action>, run': seq<Action>, qs: seq<string>)
    requires TheyProceed(w, run, run1, qs) && TheyProceed(w, run1, run', qs)
    ensures TheyProceed(w, run, run', qs)
  {
  }

  lemma BothHavePrepared(w: World, s: System, s': System, qs: seq<string>, a: string, b: string, x: Item)
    requires Distinct(s, qs) && s.nodes.Keys == s'.nodes.Keys && AllHavePrepared(w, s', qs, x) && a in qs && b in qs
    ensures Distinct(s', qs) && {MsgPrepare(Own(x, a)), MsgPrepare(Own(x, b))} <= s'.sent
  {
    assert HasPrepared(w, s', a, x) && HasPrepared(w, s', b, x);
  }

  lemma AllBackAndCommit(w: World, run: seq<Action>, qs: seq<string>, a: string, b: string, x: Item, batch: Batch)
      returns (run': seq<Action>)
    requires w.F() == 1 && Distinct(After(w, run), qs) && AllAwait(w, After(w, run), qs, x)
    requires a in qs && b in qs && a != b
    requires MsgPrePrepare(PP(x), batch) in After(w, run).sent
    ensures TheyProceed(w, run, run', qs) && AllHaveCommitted(w, After(w, run'), qs, a, b, x)
    ensures AllSameOtherwise(After(w, run), After(w, run'), qs, x.n)
  {
    var run1 := AllBack(w, run, qs, x, batch);
    BothHavePrepared(w, After(w, run), After(w, run1), qs, a, b, x);
    run' := AllCommit(w, run1, qs, a, b, x);
    TheyProceedFurther(w, run, run1, run', qs);
    SameOtherwiseTwice(After(w, run), After(w, run1), After(w, run'), qs, x.n);
  }

  lemma StillCommitted(w: World, run: seq<Action>, run': seq<Action>, p: string, qs: seq<string>, a: string, b: string,
                       x: Item)
    requires Proceeds(w, run, run', p) && p !in qs && AllHaveCommitted(w, After(w, run), qs, a, b, x)
    ensures AllHaveCommitted(w, After(w, run'), qs, a, b, x)
  {
  }

  lemma NotAmong(p: string, a: string, b: string, c: string)
    requires p != a && p != b && p != c
    ensures p !in [a, b, c]
  {
  }

  lemma TheyHaveSaidSo(w: World, s: System, a: string, b: string, c: string, x: Item)
    requires AllHaveCommitted(w, s, [a, b, c], a, b, x)
    ensures {MsgCommit(Own(x, a)), MsgCommit(Own(x, b)), MsgCommit(Own(x, c))} <= s.sent
  {
    var qs := [a, b, c];
    assert HasCommitted(w, s, qs[0], a, b, x) && HasCommitted(w, s, qs[1], a, b, x);
    assert HasCommitted(w, s, qs[2], a, b, x);
  }

  // ---------- The second number ----------

  /** The primary has numbered the second request. */
  ghost predicate PrimaryNumbered(w: World, r: Replica, p: string, x: Item) {
    Stage(r, x, 1, true, {}, {}, false, false) && InWindow(w.At(p), r, 2) && !r.inViewChange
  }

  lemma PrimaryCommitsSecond(w: World, run: seq<Action>, p: string, a: string, b: string, c: string, x: Item)
      returns (run': seq<Action>, i: nat)
    requires Four(w, p, a, b, c) && w.F() == 1 && p in After(w, run).nodes && x == First(2, x.digest)
    requires PrimaryNumbered(w, After(w, run).nodes[p], p, x)
    requires {MsgCommit(Own(x, a)), MsgCommit(Own(x, b)), MsgCommit(Own(x, c))} <= After(w, run).sent
    ensures Goes(w, run, run', p) && CommitsAt(w, run', i, p, 2)
  {
    run', i := Decides(w, run, p, x, 1, {}, a, b, c);
  }

  // ---------- Votes ----------

  /** q has voted for the view, from state r, in which it collects number n only. */
  ghost predicate VotedFrom(s: System, q: string, r: Replica, n: int, view: int, vc: ViewChange) {
    && MsgViewChange(vc) in s.sent && vc.replica == q && vc.newView == view
    && vc.lastStable == StableNumber(r.store) && ShowsIt(r, n, vc)
  }

  /** One vote of each. */
  ghost predicate AllVoted(s: System, nodes: map<string, Replica>, qs: seq<string>, n: int, view: int, votes: Votes) {
    && |votes| == |qs| && (forall q :: q in votes <==> q in qs)
    && forall q | q in votes :: q in nodes && VotedFrom(s, q, nodes[q], n, view, votes[q])
  }

  lemma OneMoreVote(s: System, s': System, nodes: map<string, Replica>, qs: seq<string>, n: int, view: int,
                    votes: Votes, q: string, vc: ViewChange)
    requires AllVoted(s, nodes, qs, n, view, votes) && s.sent <= s'.sent && q !in qs && q in nodes
    requires VotedFrom(s', q, nodes[q], n, view, vc)
    ensures AllVoted(s', nodes, qs + [q], n, view, votes[q := vc])
  {
  }

  lemma {:induction false} AllCast(w: World, run: seq<Action>, qs: seq<string>, n: int, view: int)
      returns (run': seq<Action>, votes: Votes)
    requires w.F() == 1 && Distinct(After(w, run), qs)
    requires forall q | q in qs :: OnlyCollects(After(w, run).nodes[q], n)
    ensures TheyProceed(w, run, run', qs) && AllVoted(After(w, run'), After(w, run).nodes, qs, n, view, votes)
    ensures forall q | q in qs :: After(w, run').nodes[q] == After(w, run).nodes[q].(inViewChange := true)
  {
    run', votes := run, map[];
    if qs != [] {
      OneLess(After(w, run), qs);
      var run1, before := AllCast(w, run, Front(qs), n, view);
      var i, vc;
      LastIsUntouched(w, run, run1, qs);
      run', i, vc := Casts(w, run1, Last(qs), n, view);
      OneMoreWalks(w, run, run1, run', qs);
      OneMoreVote(After(w, run1), After(w, run'), After(w, run).nodes, Front(qs), n, view, before, Last(qs), vc);
      votes := before[Last(qs) := vc];
      SplitLast(qs);
    }
  }
}
