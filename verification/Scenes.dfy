/** Longer pieces of honest runs of four replicas, each of which one replica acts out alone. */
module Scenes {
  import opened Messages
  import opened VoteCollector
  import opened StoreModel
  import opened TransactionStates
  import opened Replicas
  import opened Systems
  import opened FirstView
  import opened CrashFaults
  import opened CrashRuns
  import opened HonestViews
  import opened Scripts

  ghost predicate Four(w: World, p: string, a: string, b: string, c: string) {
    && |w.ring| == 4 && w.byz == {} && w.window >= 1 && w.maxOutstanding >= 1 && Primary(w) == p
    && p in w.ring && a in w.ring && b in w.ring && c in w.ring
    && p != a && p != b && p != c && a != b && a != c && b != c
  }

  // ---------- Where a collector stands ----------

  /** A number of a view with the digest its primary gave it. */
  datatype Item = Item(view: int, n: int, digest: string)

  /** The same number and digest in the first view. */
  function First(n: int, digest: string): Item {
    Item(0, n, digest)
  }

  function PP(x: Item): PrePrepare {
    PrePrepare(x.view, x.n, x.digest)
  }

  /** k's prepare, or commit, for x. */
  function Own(x: Item, k: string): Vote {
    Vote(x.view, x.n, x.digest, k)
  }

  /** The collector at `ref` is that of x, with the pre-prepare if `pp`, prepares of `prep` and commits of `com`. */
  ghost predicate Stage(r: Replica, x: Item, ref: nat, pp: bool, prep: set<string>, com: set<string>,
                        prepared: bool, committed: bool) {
    && Collects(r, x.n, ref) && r.view == x.view && r.cells[ref].seqNo == x.n
    && var c := r.cells[ref].votes;
       && c.preprepare == (if pp then Some(PP(x)) else None) && c.digest == (if pp then x.digest else "")
       && c.prepares.Keys == prep && (forall k | k in prep :: c.prepares[k] == Own(x, k))
       && c.commits.Keys == com && c.prepared == prepared && c.committed == committed
       && (prepared || committed ==> r.cells[ref].checks > 0)
  }

  /** The replica with another cell at `ref`. */
  function With(r: Replica, ref: nat, cell: Cell): Replica
    requires ref < |r.cells|
  {
    r.(cells := r.cells[ref := cell])
  }

  lemma StagePrepare(r: Replica, x: Item, ref: nat, pp: bool, prep: set<string>, com: set<string>,
                     prepared: bool, committed: bool, k: string)
    requires Stage(r, x, ref, pp, prep, com, prepared, committed) && k !in prep
    ensures Stage(With(r, ref, PrepareCell(r.cells[ref], 1, Own(x, k))), x, ref, pp, prep + {k}, com,
                  prepared || |prep| == 1, committed)
  {
    InsertCard(r.cells[ref].votes.prepares, Own(x, k));
    assert |r.cells[ref].votes.prepares| == |prep|;
  }

  lemma StageCommit(r: Replica, x: Item, ref: nat, pp: bool, prep: set<string>, com: set<string>,
                    prepared: bool, committed: bool, k: string)
    requires Stage(r, x, ref, pp, prep, com, prepared, committed) && k !in com
    ensures Stage(With(r, ref, CommitCell(r.cells[ref], 1, Own(x, k))), x, ref, pp, prep, com + {k},
                  prepared, committed || |com| == 2)
  {
    InsertCard(r.cells[ref].votes.commits, Own(x, k));
    assert |r.cells[ref].votes.commits| == |com|;
  }

  lemma StagePrePrepare(r: Replica, x: Item, ref: nat)
    requires Stage(r, x, ref, false, {}, {}, false, false)
    ensures Stage(With(r, ref, PrePrepareCell(r.cells[ref], 1, PP(x))), x, ref, true, {}, {}, false, false)
  {
  }

  lemma StageChecked(r: Replica, x: Item, ref: nat, pp: bool, prep: set<string>, com: set<string>,
                     prepared: bool, committed: bool)
    requires Stage(r, x, ref, pp, prep, com, prepared, committed) && (prepared || committed)
    ensures Stage(With(r, ref, AfterCheck(r.cells[ref])), x, ref, pp, prep, com, false, false)
  {
  }

  // ---------- Going on with an honest run ----------

  ghost predicate NoStatus(run: seq<Action>) {
    forall a | a in run :: !a.input.OnStatus?
  }

  /** Nobody has begun to lie, or heard itself. */
  ghost predicate StaysHonest(w: World, run: seq<Action>, run': seq<Action>) {
    (HonestRun(w, run) ==> HonestRun(w, run')) && (NoEcho(run) ==> NoEcho(run'))
  }

  /** Only q has acted, and everybody was honest. */
  ghost predicate Walks(w: World, run: seq<Action>, run': seq<Action>, q: string) {
    && StaysHonest(w, run, run') && run <= run' && q in After(w, run').nodes
    && After(w, run').nodes.Keys == After(w, run).nodes.Keys
    && (forall k | k in After(w, run).nodes && k != q :: After(w, run').nodes[k] == After(w, run).nodes[k])
    && After(w, run).sent <= After(w, run').sent
  }

  /** And nobody has entered a new view, nor numbered requests anew. */
  ghost predicate StaysCrashRun(w: World, run: seq<Action>, run': seq<Action>) {
    StaysHonest(w, run, run') && (CrashRun(w, run) ==> CrashRun(w, run'))
  }

  ghost predicate Proceeds(w: World, run: seq<Action>, run': seq<Action>, q: string) {
    Walks(w, run, run', q) && StaysCrashRun(w, run, run')
  }

  /** And it has not heard a status response. */
  ghost predicate Goes(w: World, run: seq<Action>, run': seq<Action>, q: string) {
    Proceeds(w, run, run', q) && (NoStatus(run) ==> NoStatus(run'))
  }

  lemma GoesFurther(w: World, run: seq<Action>, run': seq<Action>, run'': seq<Action>, q: string)
    requires Goes(w, run, run', q) && Goes(w, run', run'', q)
    ensures Goes(w, run, run'', q)
  {
  }

  lemma ActionStaysHonest(w: World, run: seq<Action>, a: Action)
    requires !Echoes(a) && (Plain(a.input) || HonestInput(w, After(w, run), a))
    ensures StaysCrashRun(w, run, run + [a])
    ensures !a.input.OnStatus? && NoStatus(run) ==> NoStatus(run + [a])
  {
    if CrashRun(w, run) {
      PlainKeepsCrashRun(w, run, a);
    }
    if HonestRun(w, run) {
      HonestRunGoesOn(w, run, a);
    }
  }

  lemma GoesOn(w: World, run: seq<Action>, a: Action, r': Replica, more: set<Message>)
    requires Becomes(w, run, a, r', more) && !a.input.OnStatus? && !Echoes(a)
    requires Plain(a.input) || HonestInput(w, After(w, run), a)
    ensures Goes(w, run, run + [a], a.who) && After(w, run + [a]).nodes[a.who] == r'
    ensures more <= After(w, run + [a]).sent
  {
    ActionStaysHonest(w, run, a);
  }

  lemma TakePrepare(w: World, run: seq<Action>, q: string, x: Item, ref: nat, pp: bool, prep: set<string>,
                    com: set<string>, prepared: bool, k: string) returns (run': seq<Action>)
    requires w.F() == 1 && q in After(w, run).nodes
    requires InWindow(w.At(q), After(w, run).nodes[q], x.n) && !After(w, run).nodes[q].inViewChange
    requires Stage(After(w, run).nodes[q], x, ref, pp, prep, com, prepared, false)
    requires MsgPrepare(Own(x, k)) in After(w, run).sent && k !in prep && k != q
    ensures Goes(w, run, run', q)
    ensures var r, r' := After(w, run).nodes[q], After(w, run').nodes[q];
            && r' == r.(cells := r'.cells) && |r'.cells| == |r.cells|
            && Stage(r', x, ref, pp, prep + {k}, com, prepared || |prep| == 1, false)
  {
    var v, r := Own(x, k), After(w, run).nodes[q];
    var a1, r1 := Action(q, OnPrepare(v)), r.(tasks := r.tasks + multiset{AddPrepareTask(ref, v)});
    ReceivePrepare(w, run, q, ref, v);
    GoesOn(w, run, a1, r1, {});
    run' := RunsPrepare(w, run + [a1], q, x, ref, pp, prep, com, prepared, k);
    assert r1.tasks - multiset{AddPrepareTask(ref, v)} == r.tasks;
    GoesFurther(w, run, run + [a1], run', q);
  }

  /** A started `AddPrepare` runs. */
  lemma RunsPrepare(w: World, run: seq<Action>, q: string, x: Item, ref: nat, pp: bool, prep: set<string>,
                    com: set<string>, prepared: bool, k: string) returns (run': seq<Action>)
    requires w.F() == 1 && q in After(w, run).nodes && k !in prep
    requires Stage(After(w, run).nodes[q], x, ref, pp, prep, com, prepared, false)
    requires AddPrepareTask(ref, Own(x, k)) in After(w, run).nodes[q].tasks
    ensures Goes(w, run, run', q)
    ensures var r, r' := After(w, run).nodes[q], After(w, run').nodes[q];
            && r' == r.(cells := r'.cells, tasks := r.tasks - multiset{AddPrepareTask(ref, Own(x, k))})
            && |r'.cells| == |r.cells| && Stage(r', x, ref, pp, prep + {k}, com, prepared || |prep| == 1, false)
  {
    var v, r := Own(x, k), After(w, run).nodes[q];
    var a := Action(q, RunTask(AddPrepareTask(ref, v)));
    RunPrepare(w, run, q, ref, v);
    GoesOn(w, run, a, With(r, ref, PrepareCell(r.cells[ref], 1, v))
                      .(tasks := r.tasks - multiset{AddPrepareTask(ref, v)}), {});
    StagePrepare(r, x, ref, pp, prep, com, prepared, false, k);
    run' := run + [a];
  }

  lemma TakeCommit(w: World, run: seq<Action>, q: string, x: Item, ref: nat, prep: set<string>, com: set<string>,
                   k: string) returns (run': seq<Action>)
    requires w.F() == 1 && q in After(w, run).nodes
    requires InWindow(w.At(q), After(w, run).nodes[q], x.n) && !After(w, run).nodes[q].inViewChange
    requires Stage(After(w, run).nodes[q], x, ref, true, prep, com, false, false)
    requires MsgCommit(Own(x, k)) in After(w, run).sent && k !in com && k != q
    ensures Goes(w, run, run', q)
    ensures var r, r' := After(w, run).nodes[q], After(w, run').nodes[q];
            && r' == r.(cells := r'.cells) && |r'.cells| == |r.cells|
            && Stage(r', x, ref, true, prep, com + {k}, false, |com| == 2)
  {
    var v, r := Own(x, k), After(w, run).nodes[q];
    var a1, r1 := Action(q, OnCommit(v)), r.(tasks := r.tasks + multiset{AddCommitTask(ref, v)});
    ReceiveCommit(w, run, q, ref, v);
    GoesOn(w, run, a1, r1, {});
    run' := RunsCommit(w, run + [a1], q, x, ref, prep, com, k);
    assert r1.tasks - multiset{AddCommitTask(ref, v)} == r.tasks;
    GoesFurther(w, run, run + [a1], run', q);
  }

  lemma RunsCommit(w: World, run: seq<Action>, q: string, x: Item, ref: nat, prep: set<string>, com: set<string>,
                   k: string) returns (run': seq<Action>)
    requires w.F() == 1 && q in After(w, run).nodes && k !in com
    requires Stage(After(w, run).nodes[q], x, ref, true, prep, com, false, false)
    requires AddCommitTask(ref, Own(x, k)) in After(w, run).nodes[q].tasks
    ensures Goes(w, run, run', q)
    ensures var r, r' := After(w, run).nodes[q], After(w, run').nodes[q];
            && r' == r.(cells := r'.cells, tasks := r.tasks - multiset{AddCommitTask(ref, Own(x, k))})
            && |r'.cells| == |r.cells| && Stage(r', x, ref, true, prep, com + {k}, false, |com| == 2)
  {
    var v, r := Own(x, k), After(w, run).nodes[q];
    var a := Action(q, RunTask(AddCommitTask(ref, v)));
    RunCommit(w, run, q, ref, v);
    GoesOn(w, run, a, With(r, ref, CommitCell(r.cells[ref], 1, v))
                      .(tasks := r.tasks - multiset{AddCommitTask(ref, v)}), {});
    StageCommit(r, x, ref, true, prep, com, false, false, k);
    run' := run + [a];
  }

  /** The prepared callback fires, and the commit goes out -- in a view change, too. */
  lemma Announce(w: World, run: seq<Action>, q: string, x: Item, ref: nat, prep: set<string>, com: set<string>)
      returns (run': seq<Action>)
    requires q in After(w, run).nodes
    requires Stage(After(w, run).nodes[q], x, ref, true, prep, com, true, false)
    ensures Goes(w, run, run', q) && MsgCommit(Own(x, q)) in After(w, run').sent
    ensures var r, r' := After(w, run).nodes[q], After(w, run').nodes[q];
            && r' == r.(cells := r'.cells, tasks := r.tasks + multiset{HandleCommitTask(Own(x, q))})
            && |r'.cells| == |r.cells| && Stage(r', x, ref, true, prep, com, false, false)
  {
    var c, r := Own(x, q), After(w, run).nodes[q];
    var a1, r0 := Action(q, RunCheck(ref)), With(r, ref, AfterCheck(r.cells[ref]));
    var r1 := r0.(tasks := r.tasks + multiset{PreparedTask(c)});
    RunCheckPrepared(w, run, q, ref);
    GoesOn(w, run, a1, r1, {});
    var a2, r2 := Action(q, RunTask(PreparedTask(c))), r0.(tasks := r.tasks + multiset{HandleCommitTask(c)});
    RunPrepared(w, run + [a1], q, c);
    assert r1.tasks - multiset{PreparedTask(c)} == r.tasks;
    GoesOn(w, run + [a1], a2, r2, {MsgCommit(c)});
    StageChecked(r, x, ref, true, prep, com, true, false);
    run' := run + [a1] + [a2];
    GoesFurther(w, run, run + [a1], run', q);
  }

  // ---------- A new number ----------

  /** The request at its number. */
  function NextItem(w: World, r: Replica, req: ClientRequest): Item {
    Item(r.view, r.lastSeq + 1, w.digestOf(req))
  }

  /** The primary after giving the next number to `req`. */
  function Numbered(w: World, r: Replica, req: ClientRequest): Replica {
    var x := NextItem(w, r, req);
    r.(lastSeq := x.n, inProgress := r.inProgress + {x.n}, txns := r.txns[x.n := |r.cells|],
       cells := r.cells + [PrePrepareCell(Cell(x.n, r.view, EMPTY, 0), w.F(), PP(x))],
       tasks := r.tasks + multiset{AddToStoreTask(|r.cells|, Some([req]))})
  }

  ghost predicate Numbers(w: World, r: Replica, p: string) {
    IsPrimary(w.At(p), r) && !r.inViewChange && |r.inProgress| < w.maxOutstanding
  }

  lemma NumbersNext(w: World, r: Replica, p: string, req: ClientRequest)
    requires Numbers(w, r, p)
    ensures HandleClient(w.At(p), r, req)
         == Outcome(Numbered(w, r, req), [MsgPrePrepare(PP(NextItem(w, r, req)), Some([req]))])
  {
  }

  lemma NumberedStage(w: World, r: Replica, req: ClientRequest)
    ensures Stage(Numbered(w, r, req), NextItem(w, r, req), |r.cells|, true, {}, {}, false, false)
  {
  }

  lemma NumbersRequest(w: World, run: seq<Action>, p: string, req: ClientRequest) returns (run': seq<Action>)
    requires p in After(w, run).nodes && Numbers(w, After(w, run).nodes[p], p)
    ensures Goes(w, run, run', p)
    ensures MsgPrePrepare(PP(NextItem(w, After(w, run).nodes[p], req)), Some([req])) in After(w, run').sent
    ensures var r, r' := After(w, run).nodes[p], After(w, run').nodes[p];
            && r' == Numbered(w, r, req)
            && Stage(r', NextItem(w, r, req), |r.cells|, true, {}, {}, false, false)
  {
    var r, a := After(w, run).nodes[p], Action(p, Client(req));
    NumbersNext(w, r, p, req);
    NumberedStage(w, r, req);
    ActsAloud(w, run, p, Client(req), Numbered(w, r, req), MsgPrePrepare(PP(NextItem(w, r, req)), Some([req])));
    GoesOn(w, run, a, Numbered(w, r, req), {MsgPrePrepare(PP(NextItem(w, r, req)), Some([req]))});
    run' := run + [a];
  }

  /** A backup that is ready for x. */
  ghost predicate Awaits(w: World, r: Replica, q: string, x: Item) {
    r.leader != q && !r.inViewChange && r.view == x.view && x.n !in r.txns && InWindow(w.At(q), r, x.n)
  }

  /** It takes x's pre-prepare and starts two `Add*` calls for it. */
  ghost predicate Takes(w: World, r: Replica, r': Replica, q: string, x: Item) {
    var ref := |r.cells|;
    && Stage(r', x, ref, false, {}, {}, false, false) && Follows(w, r, r', q, x)
    && r'.tasks == r.tasks + multiset{AddPrePrepareTask(ref, PP(x))} + multiset{AddPrepareTask(ref, Own(x, q))}
  }

  /** r' is r with one more collector, that of x. */
  ghost predicate Follows(w: World, r: Replica, r': Replica, q: string, x: Item) {
    && InWindow(w.At(q), r', x.n) && r'.leader == r.leader && !r'.inViewChange && r'.view == x.view
    && r'.txns == r.txns[x.n := |r.cells|] && |r'.cells| == |r.cells| + 1 && r'.store.lastStable == r.store.lastStable
  }

  lemma TakesPrePrepare(w: World, r: Replica, q: string, x: Item, batch: Batch)
    requires Awaits(w, r, q, x)
    ensures var o := HandlePrePrepare(w.At(q), r, PP(x), batch);
            Takes(w, r, o.replica, q, x) && o == Outcome(o.replica, [MsgPrepare(Own(x, q))])
  {
  }

  lemma Starts(w: World, run: seq<Action>, q: string, x: Item, batch: Batch) returns (run': seq<Action>)
    requires q in After(w, run).nodes && Awaits(w, After(w, run).nodes[q], q, x)
    requires MsgPrePrepare(PP(x), batch) in After(w, run).sent
    ensures Goes(w, run, run', q) && MsgPrepare(Own(x, q)) in After(w, run').sent
    ensures Takes(w, After(w, run).nodes[q], After(w, run').nodes[q], q, x)
  {
    var a := Action(q, OnPrePrepare(PP(x), batch));
    var o := HandlePrePrepare(w.At(q), After(w, run).nodes[q], PP(x), batch);
    TakesPrePrepare(w, After(w, run).nodes[q], q, x, batch);
    ActsAloud(w, run, q, OnPrePrepare(PP(x), batch), o.replica, MsgPrepare(Own(x, q)));
    GoesOn(w, run, a, o.replica, {MsgPrepare(Own(x, q))});
    run' := run + [a];
  }

  /** Both `Add*` calls of the pre-prepare run. */
  lemma RunsOwn(w: World, run: seq<Action>, q: string, x: Item, ref: nat) returns (run': seq<Action>)
    requires w.F() == 1 && q in After(w, run).nodes
    requires Stage(After(w, run).nodes[q], x, ref, false, {}, {}, false, false)
    requires AddPrePrepareTask(ref, PP(x)) in After(w, run).nodes[q].tasks
    requires AddPrepareTask(ref, Own(x, q)) in After(w, run).nodes[q].tasks
    ensures Goes(w, run, run', q)
    ensures var r, r' := After(w, run).nodes[q], After(w, run').nodes[q];
            && r' == r.(cells := r'.cells, tasks := r'.tasks) && |r'.cells| == |r.cells|
            && r'.tasks == r.tasks - multiset{AddPrePrepareTask(ref, PP(x)), AddPrepareTask(ref, Own(x, q))}
            && Stage(r', x, ref, true, {q}, {}, false, false)
  {
    var run1 := AddsPrePrepare(w, run, q, x, ref);
    run' := RunsPrepare(w, run1, q, x, ref, true, {}, {}, false, q);
    GoesFurther(w, run, run1, run', q);
    assert {} + {q} == {q};
    TwoFewer(After(w, run).nodes[q].tasks, AddPrePrepareTask(ref, PP(x)), AddPrepareTask(ref, Own(x, q)));
  }

  lemma TwoFewer(tasks: multiset<Task>, t: Task, u: Task)
    ensures tasks - multiset{t} - multiset{u} == tasks - multiset{t, u}
  {
  }

  lemma AddsPrePrepare(w: World, run: seq<Action>, q: string, x: Item, ref: nat) returns (run': seq<Action>)
    requires w.F() == 1 && q in After(w, run).nodes
    requires Stage(After(w, run).nodes[q], x, ref, false, {}, {}, false, false)
    requires AddPrePrepareTask(ref, PP(x)) in After(w, run).nodes[q].tasks
    ensures Goes(w, run, run', q)
    ensures var r, r' := After(w, run).nodes[q], After(w, run').nodes[q];
            && r' == r.(cells := r'.cells, tasks := r.tasks - multiset{AddPrePrepareTask(ref, PP(x))})
            && |r'.cells| == |r.cells| && Stage(r', x, ref, true, {}, {}, false, false)
  {
    var r, a := After(w, run).nodes[q], Action(q, RunTask(AddPrePrepareTask(ref, PP(x))));
    RunPrePrepare(w, run, q, ref, PP(x));
    GoesOn(w, run, a, With(r, ref, PrePrepareCell(r.cells[ref], 1, PP(x)))
                      .(tasks := r.tasks - multiset{AddPrePrepareTask(ref, PP(x))}), {});
    StagePrePrepare(r, x, ref);
    run' := run + [a];
  }

  // ---------- Votes ----------

  lemma {:induction false} ListOf(m: VoteMap) returns (votes: seq<Vote>)
    ensures Lists(votes, m)
    decreases |m|
  {
    votes := [];
    if m != map[] {
      var k :| k in m;
      var rest := ListOf(m - {k});
      votes := rest + [m[k]];
      assert m.Keys == (m - {k}).Keys + {k};
    }
  }

  /** The replica has no current collector but, possibly, that of number n. */
  ghost predicate OnlyCollects(r: Replica, n: int) {
    forall m | m in r.txns :: m == n && r.txns[m] < |r.cells|
  }

  /** That collector has too few prepares. */
  predicate HoldsNone(r: Replica, n: int) {
    n in r.txns && r.txns[n] < |r.cells| ==> |r.cells[r.txns[n]].votes.prepares| < 2
  }

  /** Its vote shows that collector's certificate, if the collector has prepares enough, and no other. */
  ghost predicate ShowsIt(r: Replica, n: int, vc: ViewChange) {
    && |vc.certificates| == (if HoldsNone(r, n) then 0 else 1)
    && forall c | c in vc.certificates ::
         n in r.txns && r.txns[n] < |r.cells| && Certifies(c, r.cells[r.txns[n]].votes)
  }

  /** The vote such a replica casts. */
  lemma SomeVote(w: World, q: string, r: Replica, n: int, view: int) returns (vc: ViewChange)
    requires w.F() == 1 && OnlyCollects(r, n)
    ensures IsVote(w.At(q), r, vc) && vc.newView == view && ShowsIt(r, n, vc)
  {
    if HoldsNone(r, n) {
      vc := ViewChange(view, StableNumber(r.store), ProofOf(r.store), [], q);
      assert IsSnapshotIn(r, 1, [], vc.certificates);
    } else {
      var votes := r.cells[r.txns[n]].votes;
      var list := ListOf(votes.prepares);
      vc := ViewChange(view, StableNumber(r.store), ProofOf(r.store), [Certificate(votes.preprepare, list)], q);
      assert IsSnapshotIn(r, 1, [n], vc.certificates);
    }
  }

  /** r is in the view change and about to vote. */
  function Voting(r: Replica, view: int): Replica {
    r.(inViewChange := true, tasks := r.tasks + multiset{VoteTask(view)})
  }

  lemma Casts(w: World, run: seq<Action>, q: string, n: int, view: int)
      returns (run': seq<Action>, i: nat, vc: ViewChange)
    requires w.F() == 1 && q in After(w, run).nodes && OnlyCollects(After(w, run).nodes[q], n)
    ensures Goes(w, run, run', q) && After(w, run').nodes[q] == After(w, run).nodes[q].(inViewChange := true)
    ensures CastAt(w, run', i, vc) && Caster(w, run', i, vc) == Voting(After(w, run).nodes[q], view)
    ensures MsgViewChange(vc) in After(w, run').sent && vc.replica == q && vc.newView == view
    ensures vc.lastStable == StableNumber(After(w, run).nodes[q].store) && ShowsIt(After(w, run).nodes[q], n, vc)
  {
    var r := After(w, run).nodes[q];
    var run1 := run + [Action(q, Timeout(view))];
    ActsQuietly(w, run, q, Timeout(view), Voting(r, view));
    GoesOn(w, run, Action(q, Timeout(view)), Voting(r, view), {});
    vc := SomeVote(w, q, Voting(r, view), n, view);
    CastsNow(w, run1, q, r, vc);
    run', i := run1 + [Action(q, CastVote(vc))], |run1|;
    GoesFurther(w, run, run1, run', q);
  }

  lemma CastsNow(w: World, run: seq<Action>, q: string, r: Replica, vc: ViewChange)
    requires q in After(w, run).nodes && After(w, run).nodes[q] == Voting(r, vc.newView)
    requires IsVote(w.At(q), Voting(r, vc.newView), vc)
    ensures var run' := run + [Action(q, CastVote(vc))];
            && Goes(w, run, run', q) && After(w, run').nodes[q] == r.(inViewChange := true)
            && MsgViewChange(vc) in After(w, run').sent
            && CastAt(w, run', |run|, vc) && Caster(w, run', |run|, vc) == Voting(r, vc.newView)
  {
    var a := Action(q, CastVote(vc));
    assert Voting(r, vc.newView).tasks - multiset{VoteTask(vc.newView)} == r.tasks;
    ActsAloud(w, run, q, CastVote(vc), r.(inViewChange := true), MsgViewChange(vc));
    GoesOn(w, run, a, r.(inViewChange := true), {MsgViewChange(vc)});
    assert (run + [a])[..|run|] == run;
  }

  lemma CastStays(w: World, run: seq<Action>, run': seq<Action>, i: nat, vc: ViewChange)
    requires CastAt(w, run, i, vc) && run <= run'
    ensures CastAt(w, run', i, vc) && Caster(w, run', i, vc) == Caster(w, run, i, vc)
  {
    assert run'[..i] == run[..i];
  }

  lemma CommitStays(w: World, run: seq<Action>, run': seq<Action>, i: nat, q: string, n: int)
    requires CommitsAt(w, run, i, q, n) && run <= run'
    ensures CommitsAt(w, run', i, q, n)
  {
    assert run'[..i] == run[..i];
  }

  // ---------- Commits ----------

  lemma Fires(w: World, run: seq<Action>, q: string, x: Item, ref: nat, prep: set<string>, com: set<string>)
      returns (run': seq<Action>)
    requires q in After(w, run).nodes
    requires Stage(After(w, run).nodes[q], x, ref, true, prep, com, false, true)
    ensures Goes(w, run, run', q) && CommitsAt(w, run', |run|, q, x.n)
    ensures var r, r' := After(w, run).nodes[q], After(w, run').nodes[q];
            && r' == r.(cells := r'.cells, tasks := r.tasks + multiset{CommittedTask(x.n)})
            && |r'.cells| == |r.cells| && Stage(r', x, ref, true, prep, com, false, false)
  {
    var a, r := Action(q, RunCheck(ref)), After(w, run).nodes[q];
    RunCheckCommitted(w, run, q, ref);
    GoesOn(w, run, a, With(r, ref, AfterCheck(r.cells[ref])).(tasks := r.tasks + multiset{CommittedTask(x.n)}), {});
    StageChecked(r, x, ref, true, prep, com, false, true);
    run' := run + [a];
    assert run'[..|run|] == run;
  }

  /** Three others have committed. */
  lemma Decides(w: World, run: seq<Action>, p: string, x: Item, ref: nat, prep: set<string>, k: string, l: string,
                m: string) returns (run': seq<Action>, i: nat)
    requires w.F() == 1 && p in After(w, run).nodes && k != l && k != m && l != m && p != k && p != l && p != m
    requires InWindow(w.At(p), After(w, run).nodes[p], x.n) && !After(w, run).nodes[p].inViewChange
    requires Stage(After(w, run).nodes[p], x, ref, true, prep, {}, false, false)
    requires {MsgCommit(Own(x, k)), MsgCommit(Own(x, l)), MsgCommit(Own(x, m))} <= After(w, run).sent
    ensures Goes(w, run, run', p) && CommitsAt(w, run', i, p, x.n)
    ensures var r, r' := After(w, run).nodes[p], After(w, run').nodes[p];
            && r' == r.(cells := r'.cells, tasks := r.tasks + multiset{CommittedTask(x.n)})
            && |r'.cells| == |r.cells| && Stage(r', x, ref, true, prep, {} + {k} + {l} + {m}, false, false)
  {
    var run1 := TakeCommit(w, run, p, x, ref, prep, {}, k);
    run', i := LastTwoDecide(w, run1, p, x, ref, prep, k, l, m);
    GoesFurther(w, run, run1, run', p);
  }

  /** The replica has committed, and handles its own commit before those of two others. */
  lemma OwnDecides(w: World, run: seq<Action>, p: string, x: Item, ref: nat, prep: set<string>, l: string, m: string)
      returns (run': seq<Action>, i: nat)
    requires w.F() == 1 && p in After(w, run).nodes && p != l && p != m && l != m
    requires InWindow(w.At(p), After(w, run).nodes[p], x.n) && !After(w, run).nodes[p].inViewChange
    requires Stage(After(w, run).nodes[p], x, ref, true, prep, {}, false, false)
    requires HandleCommitTask(Own(x, p)) in After(w, run).nodes[p].tasks
    requires {MsgCommit(Own(x, l)), MsgCommit(Own(x, m))} <= After(w, run).sent
    ensures Goes(w, run, run', p) && CommitsAt(w, run', i, p, x.n)
    ensures var r, r' := After(w, run).nodes[p], After(w, run').nodes[p];
            && r' == r.(cells := r'.cells, tasks := r.tasks - multiset{HandleCommitTask(Own(x, p))}
                                                    + multiset{CommittedTask(x.n)})
            && |r'.cells| == |r.cells| && Stage(r', x, ref, true, prep, {} + {p} + {l} + {m}, false, false)
  {
    var run1 := TakeOwnCommit(w, run, p, x, ref, prep, {});
    run', i := LastTwoDecide(w, run1, p, x, ref, prep, p, l, m);
    GoesFurther(w, run, run1, run', p);
  }

  lemma LastTwoDecide(w: World, run: seq<Action>, p: string, x: Item, ref: nat, prep: set<string>, k: string, l: string,
                      m: string) returns (run': seq<Action>, i: nat)
    requires w.F() == 1 && p in After(w, run).nodes && k != l && k != m && l != m && p != l && p != m
    requires InWindow(w.At(p), After(w, run).nodes[p], x.n) && !After(w, run).nodes[p].inViewChange
    requires Stage(After(w, run).nodes[p], x, ref, true, prep, {} + {k}, false, false)
    requires {MsgCommit(Own(x, l)), MsgCommit(Own(x, m))} <= After(w, run).sent
    ensures Goes(w, run, run', p) && CommitsAt(w, run', i, p, x.n)
    ensures var r, r' := After(w, run).nodes[p], After(w, run').nodes[p];
            && r' == r.(cells := r'.cells, tasks := r.tasks + multiset{CommittedTask(x.n)})
            && |r'.cells| == |r.cells| && Stage(r', x, ref, true, prep, {} + {k} + {l} + {m}, false, false)
  {
    var run2 := TakeCommit(w, run, p, x, ref, prep, {} + {k}, l);
    var run3 := TakeCommit(w, run2, p, x, ref, prep, {} + {k} + {l}, m);
    GoesFurther(w, run, run2, run3, p);
    run' := Fires(w, run3, p, x, ref, prep, {} + {k} + {l} + {m});
    GoesFurther(w, run, run3, run', p);
    i := |run3|;
  }

  /** The replica's own commit, which it broadcasts to the others and handles itself. */
  lemma TakeOwnCommit(w: World, run: seq<Action>, q: string, x: Item, ref: nat, prep: set<string>, com: set<string>)
      returns (run': seq<Action>)
    requires w.F() == 1 && q in After(w, run).nodes && q !in com
    requires InWindow(w.At(q), After(w, run).nodes[q], x.n) && !After(w, run).nodes[q].inViewChange
    requires Stage(After(w, run).nodes[q], x, ref, true, prep, com, false, false)
    requires HandleCommitTask(Own(x, q)) in After(w, run).nodes[q].tasks
    ensures Goes(w, run, run', q)
    ensures var r, r' := After(w, run).nodes[q], After(w, run').nodes[q];
            && r' == r.(cells := r'.cells, tasks := r.tasks - multiset{HandleCommitTask(Own(x, q))})
            && |r'.cells| == |r.cells| && Stage(r', x, ref, true, prep, com + {q}, false, |com| == 2)
  {
    var t, r := HandleCommitTask(Own(x, q)), After(w, run).nodes[q];
    var rest := r.tasks - multiset{t};
    var r1 := r.(tasks := rest + multiset{AddCommitTask(ref, Own(x, q))});
    ActsQuietly(w, run, q, RunTask(t), r1);
    GoesOn(w, run, Action(q, RunTask(t)), r1, {});
    run' := RunsCommit(w, run + [Action(q, RunTask(t))], q, x, ref, prep, com, q);
    assert r1.tasks - multiset{AddCommitTask(ref, Own(x, q))} == rest;
    GoesFurther(w, run, run + [Action(q, RunTask(t))], run', q);
  }

  // ---------- Backups and the primary prepare ----------

  /** A backup takes the pre-prepare and adds its own prepare. */
  lemma BackupPrepares(w: World, run: seq<Action>, q: string, x: Item, batch: Batch) returns (run': seq<Action>)
    requires w.F() == 1 && q in After(w, run).nodes && Awaits(w, After(w, run).nodes[q], q, x)
    requires MsgPrePrepare(PP(x), batch) in After(w, run).sent
    ensures Goes(w, run, run', q) && MsgPrepare(Own(x, q)) in After(w, run').sent
    ensures var r, r' := After(w, run).nodes[q], After(w, run').nodes[q];
            && Stage(r', x, |r.cells|, true, {q}, {}, false, false)
            && Follows(w, r, r', q, x) && r'.tasks == r.tasks
  {
    var r := After(w, run).nodes[q];
    var run1 := Starts(w, run, q, x, batch);
    run' := RunsOwn(w, run1, q, x, |r.cells|);
    GoesFurther(w, run, run1, run', q);
    BothRun(r.tasks, AddPrePrepareTask(|r.cells|, PP(x)), AddPrepareTask(|r.cells|, Own(x, q)));
  }

  lemma BothRun(tasks: multiset<Task>, t: Task, u: Task)
    requires t != u
    ensures tasks + multiset{t} + multiset{u} - multiset{t, u} == tasks
  {
  }

  /** It takes another backup's prepare, and commits. */
  lemma BackupCommits(w: World, run: seq<Action>, q: string, k: string, x: Item, ref: nat) returns (run': seq<Action>)
    requires w.F() == 1 && q in After(w, run).nodes && k != q
    requires Stage(After(w, run).nodes[q], x, ref, true, {q}, {}, false, false)
    requires InWindow(w.At(q), After(w, run).nodes[q], x.n) && !After(w, run).nodes[q].inViewChange
    requires MsgPrepare(Own(x, k)) in After(w, run).sent
    ensures Goes(w, run, run', q) && MsgCommit(Own(x, q)) in After(w, run').sent
    ensures var r, r' := After(w, run).nodes[q], After(w, run').nodes[q];
            && r' == r.(cells := r'.cells, tasks := r.tasks + multiset{HandleCommitTask(Own(x, q))})
            && |r'.cells| == |r.cells| && Stage(r', x, ref, true, {q} + {k}, {}, false, false)
  {
    var run1 := TakePrepare(w, run, q, x, ref, true, {q}, {}, false, k);
    run' := Announce(w, run1, q, x, ref, {q} + {k}, {});
    GoesFurther(w, run, run1, run', q);
  }

  lemma PrimaryPrepares(w: World, run: seq<Action>, p: string, x: Item, ref: nat, k: string, l: string)
      returns (run': seq<Action>)
    requires w.F() == 1 && p in After(w, run).nodes && k != l && p != k && p != l
    requires InWindow(w.At(p), After(w, run).nodes[p], x.n) && !After(w, run).nodes[p].inViewChange
    requires Stage(After(w, run).nodes[p], x, ref, true, {}, {}, false, false)
    requires {MsgPrepare(Own(x, k)), MsgPrepare(Own(x, l))} <= After(w, run).sent
    ensures Goes(w, run, run', p) && MsgCommit(Own(x, p)) in After(w, run').sent
    ensures var r, r' := After(w, run).nodes[p], After(w, run').nodes[p];
            && r' == r.(cells := r'.cells, tasks := r.tasks + multiset{HandleCommitTask(Own(x, p))})
            && |r'.cells| == |r.cells| && Stage(r', x, ref, true, {} + {k} + {l}, {}, false, false)
  {
    var run1 := TakePrepare(w, run, p, x, ref, true, {}, {}, false, k);
    var run2 := TakePrepare(w, run1, p, x, ref, true, {} + {k}, {}, false, l);
    GoesFurther(w, run, run1, run2, p);
    run' := Announce(w, run2, p, x, ref, {} + {k} + {l}, {});
    GoesFurther(w, run, run2, run', p);
  }
}
