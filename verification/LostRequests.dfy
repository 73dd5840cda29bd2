/**
 * Two crash runs of four replicas in which number 1 is committed and the next leader does not re-issue it:
 * once because a voter holds prepares without their pre-prepare, once because the voters vote before the
 * `Add*` calls they have started.
 */
module LostRequests {
  import opened Messages
  import opened VoteCollector
  import opened TransactionStates
  import opened Replicas
  import opened Systems
  import opened FirstView
  import opened CrashFaults
  import opened CrashRuns
  import opened Survival
  import opened Scripts
  import opened Scenes
  import opened FirstNumberCommitted
  import opened ThreeVotes
  import opened ViewChangeRules

  // ---------- A blind voter ----------

  lemma HearsBeforePrePrepare(cfg: Config, v: Vote)
    requires v.view == 0 && v.seqNo == 1 && cfg.window >= 1
    ensures HandlePrepare(cfg, NewReplica(cfg), v)
         == Quiet(NewReplica(cfg).(txns := map[1 := 0], cells := [Cell(1, 0, EMPTY, 0)],
                                   tasks := multiset{AddPrepareTask(0, v)}))
  {
    var r := NewReplica(cfg);
    assert r.cells + [Cell(1, 0, EMPTY, 0)] == [Cell(1, 0, EMPTY, 0)] && r.txns[1 := 0] == map[1 := 0];
    assert r.tasks + multiset{AddPrepareTask(0, v)} == multiset{AddPrepareTask(0, v)};
  }

  /** Ready to take more prepares for number 1, whose pre-prepare has not come. */
  ghost predicate Hears(w: World, r: Replica, c: string, x: Item, prep: set<string>, prepared: bool) {
    && Stage(r, x, 0, false, prep, {}, prepared, false) && r.txns == map[1 := 0] && r.tasks == multiset{}
    && InWindow(w.At(c), r, 1) && !r.inViewChange && r.store.lastStable.None?
  }

  lemma HearsFirst(w: World, run: seq<Action>, c: string, a: string, x: Item) returns (run': seq<Action>)
    requires w.F() == 1 && w.window >= 1 && c in After(w, run).nodes && x == First(1, x.digest)
    requires After(w, run).nodes[c] == NewReplica(w.At(c)) && MsgPrepare(Own(x, a)) in After(w, run).sent && a != c
    ensures Goes(w, run, run', c) && Hears(w, After(w, run').nodes[c], c, x, {} + {a}, false)
  {
    var v, r := Own(x, a), NewReplica(w.At(c));
    HearsBeforePrePrepare(w.At(c), v);
    var r1 := r.(txns := map[1 := 0], cells := [Cell(1, 0, EMPTY, 0)], tasks := multiset{AddPrepareTask(0, v)});
    ActsQuietly(w, run, c, OnPrepare(v), r1);
    GoesOn(w, run, Action(c, OnPrepare(v)), r1, {});
    var run1 := run + [Action(c, OnPrepare(v))];
    run' := AddsHeard(w, run1, c, a, x);
    GoesFurther(w, run, run1, run', c);
  }

  lemma HeardOne(w: World, r: Replica, c: string, a: string, x: Item)
    requires w.window >= 1 && x == First(1, x.digest) && r.cells == [Cell(1, 0, EMPTY, 0)]
    requires r == NewReplica(w.At(c)).(txns := map[1 := 0], cells := r.cells, tasks := r.tasks)
    ensures Hears(w, With(r, 0, PrepareCell(r.cells[0], 1, Own(x, a))).(tasks := multiset{}), c, x, {} + {a}, false)
  {
    StagePrepare(r, x, 0, false, {}, {}, false, false, a);
  }

  lemma AddsHeard(w: World, run: seq<Action>, c: string, a: string, x: Item) returns (run': seq<Action>)
    requires w.F() == 1 && w.window >= 1 && c in After(w, run).nodes && x == First(1, x.digest)
    requires After(w, run).nodes[c]
          == NewReplica(w.At(c)).(txns := map[1 := 0], cells := [Cell(1, 0, EMPTY, 0)],
                                  tasks := multiset{AddPrepareTask(0, Own(x, a))})
    ensures Goes(w, run, run', c) && Hears(w, After(w, run').nodes[c], c, x, {} + {a}, false)
  {
    var v, r := Own(x, a), After(w, run).nodes[c];
    var r' := With(r, 0, PrepareCell(r.cells[0], 1, v)).(tasks := multiset{});
    assert r.tasks - multiset{AddPrepareTask(0, v)} == multiset{};
    RunPrepare(w, run, c, 0, v);
    GoesOn(w, run, Action(c, RunTask(AddPrepareTask(0, v))), r', {});
    HeardOne(w, r, c, a, x);
    run' := run + [Action(c, RunTask(AddPrepareTask(0, v)))];
  }

  /** A replica that hears prepares before the pre-prepare. */
  lemma HearsPrepares(w: World, run: seq<Action>, c: string, a: string, b: string, x: Item)
      returns (run': seq<Action>)
    requires w.F() == 1 && w.window >= 1 && c in After(w, run).nodes && a != b && a != c && b != c
    requires x == First(1, x.digest)
    requires After(w, run).nodes[c] == NewReplica(w.At(c))
    requires {MsgPrepare(Own(x, a)), MsgPrepare(Own(x, b))} <= After(w, run).sent
    ensures Goes(w, run, run', c) && Hears(w, After(w, run').nodes[c], c, x, {} + {a} + {b}, true)
  {
    var run1 := HearsFirst(w, run, c, a, x);
    run' := TakePrepare(w, run1, c, x, 0, false, {} + {a}, {}, false, b);
    GoesFurther(w, run, run1, run', c);
  }

  /** A vote cast with every started `AddPrePrepare` and `AddPrepare` run. */
  ghost predicate CastQuietly(w: World, run: seq<Action>, vc: ViewChange) {
    exists i :: CastAt(w, run, i, vc) && NoSupply(Caster(w, run, i, vc))
  }

  ghost predicate VotedQuietly(w: World, run: seq<Action>, q: string, vc: ViewChange) {
    Voted(After(w, run), q, 0, vc) && CastQuietly(w, run, vc)
  }

  lemma QuietStays(w: World, run: seq<Action>, run': seq<Action>, q: string, vc: ViewChange)
    requires VotedQuietly(w, run, q, vc) && run <= run' && After(w, run).sent <= After(w, run').sent
    ensures VotedQuietly(w, run', q, vc)
  {
    var i :| CastAt(w, run, i, vc) && NoSupply(Caster(w, run, i, vc));
    CastStays(w, run, run', i, vc);
  }

  ghost predicate ReadyToVote(r: Replica) {
    OnlyCollects(r, 1) && NoSupply(r) && r.store.lastStable.None?
  }

  lemma CastsQuietly(w: World, run: seq<Action>, q: string) returns (run': seq<Action>, i: nat, vc: ViewChange)
    requires w.F() == 1 && q in After(w, run).nodes && ReadyToVote(After(w, run).nodes[q])
    ensures Goes(w, run, run', q) && VotedQuietly(w, run', q, vc)
    ensures CastAt(w, run', i, vc) && Caster(w, run', i, vc) == Voting(After(w, run).nodes[q], 1)
  {
    run', i, vc := Casts(w, run, q, 1, 1);
  }

  lemma CastsBlindly(w: World, run: seq<Action>, c: string, x: Item, a: string, b: string)
      returns (run': seq<Action>, vc: ViewChange)
    requires w.F() == 1 && c in After(w, run).nodes && a != b && x == First(1, x.digest)
    requires Hears(w, After(w, run).nodes[c], c, x, {} + {a} + {b}, true)
    ensures Goes(w, run, run', c) && VotedQuietly(w, run', c, vc) && BlindAtCast(w, run', vc)
  {
    var r, i := After(w, run).nodes[c], 0;
    run', i, vc := CastsQuietly(w, run, c);
    BlindVoting(w, r, c, x, a, b);
    assert IsBlind(w, Caster(w, run', i, vc), 1);
  }

  lemma BlindVoting(w: World, r: Replica, c: string, x: Item, a: string, b: string)
    requires w.F() == 1 && a != b && x == First(1, x.digest) && Hears(w, r, c, x, {} + {a} + {b}, true)
    ensures IsBlind(w, Voting(r, 1), 1)
  {
    assert |r.cells[0].votes.prepares| == |{} + {a} + {b}|;
  }

  /** Number 1 is committed at p; a and b have voted for it, c has heard only their prepares. */
  ghost predicate BlindScene(w: World, run: seq<Action>, a: string, b: string, c: string, x: Item) {
    && w.F() == 1 && CrashRun(w, run) && Uneventful(run) && {a, b, c} <= After(w, run).nodes.Keys
    && ReadyToVote(After(w, run).nodes[a]) && ReadyToVote(After(w, run).nodes[b])
    && Hears(w, After(w, run).nodes[c], c, x, {} + {a} + {b}, true)
  }

  lemma CommittedIsReady(r: Replica, w: World, q: string, k: string, x: Item)
    requires CommittedBackup(r, w, q, k, x)
    ensures ReadyToVote(r)
  {
  }

  lemma SetsTheScene(w: World, p: string, a: string, b: string, c: string, req: ClientRequest)
      returns (run: seq<Action>, i: nat)
    requires Four(w, p, a, b, c)
    ensures BlindScene(w, run, a, b, c, First(1, w.digestOf(req))) && CommitsAt(w, run, i, p, 1)
  {
    var run1, x := [], First(1, w.digestOf(req));
    run1, i := CommitsFirst(w, p, a, b, c, req);
    CommittedIsReady(After(w, run1).nodes[a], w, a, b, x);
    CommittedIsReady(After(w, run1).nodes[b], w, b, a, x);
    run := HearsPrepares(w, run1, c, a, b, x);
    CommitStays(w, run1, run, i, p, 1);
  }

  lemma TwoVote(w: World, run: seq<Action>, a: string, b: string, c: string, x: Item)
      returns (run': seq<Action>, va: ViewChange, vb: ViewChange)
    requires BlindScene(w, run, a, b, c, x) && a != b && a != c && b != c
    ensures CrashRun(w, run') && Uneventful(run') && run <= run'
    ensures VotedQuietly(w, run', a, va) && VotedQuietly(w, run', b, vb)
    ensures c in After(w, run').nodes && After(w, run').nodes[c] == After(w, run).nodes[c]
  {
    var i, run1;
    run1, i, va := CastsQuietly(w, run, a);
    run', i, vb := CastsQuietly(w, run1, b);
    QuietStays(w, run1, run', a, va);
  }

  lemma ThreeVote(w: World, run: seq<Action>, a: string, b: string, c: string, x: Item)
      returns (run': seq<Action>, va: ViewChange, vb: ViewChange, vc: ViewChange)
    requires BlindScene(w, run, a, b, c, x) && a != b && a != c && b != c && x == First(1, x.digest)
    ensures CrashRun(w, run') && Uneventful(run') && run <= run' && BlindAtCast(w, run', vc)
    ensures VotedQuietly(w, run', a, va) && VotedQuietly(w, run', b, vb) && VotedQuietly(w, run', c, vc)
  {
    var run2;
    run2, va, vb := TwoVote(w, run, a, b, c, x);
    run', vc := CastsBlindly(w, run2, c, x, a, b);
    QuietStays(w, run2, run', a, va);
    QuietStays(w, run2, run', b, vb);
  }

  lemma NobodyReset(w: World, run: seq<Action>, q: string)
    requires Uneventful(run)
    ensures NotResetSince(w, run, 0, q)
  {
    forall j: nat ensures !ResetAt(w, run, j, q) {
      if j < |run| {
        assert run[j] in run;
      }
    }
  }

  /** Neither of the other reasons to lose number 1 applies to the vote. */
  ghost predicate Blameless(w: World, run: seq<Action>, vc: ViewChange) {
    SettledAtCast(w, run, vc) && !DueAtCast(w, run, vc, 1) && !LeftChange(w, run, vc)
  }

  /** Without status responses, such a vote is settled, and nothing is due at it. */
  lemma QuietVoter(w: World, run: seq<Action>, q: string, vc: ViewChange)
    requires CrashRun(w, run) && Uneventful(run) && VotedQuietly(w, run, q, vc)
    ensures Blameless(w, run, vc)
  {
    var i :| CastAt(w, run, i, vc) && NoSupply(Caster(w, run, i, vc));
    NobodyReset(w, run, vc.replica);
    UnresetVoter(w, run, i, vc);
    SettledIsNotDue(w, run, vc, 1);
  }

  lemma BlindVoteStopsTheLeader(w: World, run: seq<Action>, votes: Votes, c: string)
    requires CrashRun(w, run) && QuorumOfVotes(w, After(w, run), votes, 1, 1)
    requires c in votes && BlindAtCast(w, run, votes[c])
    ensures forall result | IsLeaderResult(votes, 1, w.F(), result) :: result.None?
  {
    forall result | IsLeaderResult(votes, 1, w.F(), result) ensures result.None? {
      LeaderMeetsVotes(w, run, 1, votes, 1, result);
    }
  }

  lemma QuietVotes(w: World, run: seq<Action>, votes: Votes)
    requires CrashRun(w, run) && Uneventful(run) && forall k | k in votes :: VotedQuietly(w, run, k, votes[k])
    ensures forall k | k in votes :: Blameless(w, run, votes[k])
  {
    forall k | k in votes ensures Blameless(w, run, votes[k]) {
      QuietVoter(w, run, k, votes[k]);
    }
  }

  lemma VotesAreBlameless(w: World, run: seq<Action>, a: string, b: string, c: string, va: ViewChange, vb: ViewChange,
                          vc: ViewChange)
    requires CrashRun(w, run) && Uneventful(run) && w.F() == 1 && a != b && a != c && b != c
    requires VotedQuietly(w, run, a, va) && VotedQuietly(w, run, b, vb) && VotedQuietly(w, run, c, vc)
    ensures var votes := Ballot(a, b, c, va, vb, vc);
            && QuorumOfVotes(w, After(w, run), votes, 1, 1)
            && forall k | k in votes :: Blameless(w, run, votes[k])
  {
    ThreeAreAQuorum(w, After(w, run), a, b, c, va, vb, vc, 0, 1);
    AllVotedQuietly(w, run, a, b, c, va, vb, vc);
    QuietVotes(w, run, Ballot(a, b, c, va, vb, vc));
  }

  lemma AllVotedQuietly(w: World, run: seq<Action>, a: string, b: string, c: string, va: ViewChange, vb: ViewChange,
                        vc: ViewChange)
    requires VotedQuietly(w, run, a, va) && VotedQuietly(w, run, b, vb) && VotedQuietly(w, run, c, vc)
    requires a != b && a != c && b != c
    ensures var votes := Ballot(a, b, c, va, vb, vc); forall k | k in votes :: VotedQuietly(w, run, k, votes[k])
  {
  }

  /**
   * Number 1 is committed, three replicas vote with everything they have accepted added, none of them installs a
   * status response, and still every new leader dereferences nil on their votes, since c has heard prepares
   * without their pre-prepare.
   */
  lemma {:induction false} BlindVoterStopsTheLeader(w: World, p: string, a: string, b: string, c: string,
                                                    req: ClientRequest)
      returns (run: seq<Action>, i: nat, votes: Votes)
    requires Four(w, p, a, b, c)
    ensures CrashRun(w, run) && NoEcho(run) && CommitsAt(w, run, i, p, 1)
    ensures QuorumOfVotes(w, After(w, run), votes, 1, 1)
    ensures forall k | k in votes :: Blameless(w, run, votes[k])
    ensures forall result | IsLeaderResult(votes, 1, w.F(), result) :: result.None?
  {
    var run0, va, vb, vc;
    run0, i := SetsTheScene(w, p, a, b, c, req);
    run, va, vb, vc := ThreeVote(w, run0, a, b, c, First(1, w.digestOf(req)));
    CommitStays(w, run0, run, i, p, 1);
    votes := Ballot(a, b, c, va, vb, vc);
    VotesAreBlameless(w, run, a, b, c, va, vb, vc);
    BlindVoteStopsTheLeader(w, run, votes, c);
  }

  // ---------- Late voters ----------

  /** A backup that has taken the pre-prepare and not yet run what it started for it. */
  ghost predicate Started(w: World, r: Replica, q: string, x: Item) {
    && Stage(r, x, 0, false, {}, {}, false, false) && r.txns == map[1 := 0] && r.store.lastStable.None?
    && InWindow(w.At(q), r, 1) && !r.inViewChange
    && r.tasks == multiset{AddPrePrepareTask(0, PP(x)), AddPrepareTask(0, Own(x, q))}
  }

  lemma TakingStarts(w: World, r: Replica, q: string, x: Item)
    requires Takes(w, NewReplica(w.At(q)), r, q, x) && x == First(1, x.digest)
    ensures Started(w, r, q, x)
  {
    assert map[][1 := 0] == map[1 := 0];
    assert multiset{} + multiset{AddPrePrepareTask(0, PP(x))} + multiset{AddPrepareTask(0, Own(x, q))}
        == multiset{AddPrePrepareTask(0, PP(x)), AddPrepareTask(0, Own(x, q))};
  }

  lemma NewStarts(w: World, run: seq<Action>, q: string, x: Item, batch: Batch) returns (run': seq<Action>)
    requires q in After(w, run).nodes && Primary(w) != q && w.window >= 1 && x == First(1, x.digest)
    requires After(w, run).nodes[q] == NewReplica(w.At(q)) && MsgPrePrepare(PP(x), batch) in After(w, run).sent
    ensures Goes(w, run, run', q) && MsgPrepare(Own(x, q)) in After(w, run').sent
    ensures Started(w, After(w, run').nodes[q], q, x)
  {
    NewAwaits(w, q, x);
    run' := Starts(w, run, q, x, batch);
    TakingStarts(w, After(w, run').nodes[q], q, x);
  }

  /** It hears k's prepare as well. */
  ghost predicate Accepted(r: Replica, q: string, k: string, x: Item) {
    && Stage(r, x, 0, false, {}, {}, false, false)
    && r.tasks == multiset{AddPrePrepareTask(0, PP(x)), AddPrepareTask(0, Own(x, q)), AddPrepareTask(0, Own(x, k))}
  }

  lemma Hearing(w: World, run: seq<Action>, q: string, k: string, x: Item) returns (run': seq<Action>)
    requires q in After(w, run).nodes && x == First(1, x.digest) && k != q
    requires Started(w, After(w, run).nodes[q], q, x) && MsgPrepare(Own(x, k)) in After(w, run).sent
    ensures Goes(w, run, run', q) && Accepted(After(w, run').nodes[q], q, k, x)
    ensures After(w, run').nodes[q].txns == map[1 := 0] && After(w, run').nodes[q].store.lastStable.None?
  {
    var v, r := Own(x, k), After(w, run).nodes[q];
    ReceivePrepare(w, run, q, 0, v);
    GoesOn(w, run, Action(q, OnPrepare(v)), r.(tasks := r.tasks + multiset{AddPrepareTask(0, v)}), {});
    run' := run + [Action(q, OnPrepare(v))];
  }

  /** It votes with nothing added. */
  lemma VotesLate(w: World, run: seq<Action>, q: string, k: string, x: Item)
      returns (run': seq<Action>, vc: ViewChange)
    requires w.F() == 1 && q in After(w, run).nodes
    requires Accepted(After(w, run).nodes[q], q, k, x) && After(w, run).nodes[q].txns == map[1 := 0]
    requires After(w, run).nodes[q].store.lastStable.None?
    ensures Goes(w, run, run', q) && Voted(After(w, run'), q, 0, vc) && vc.certificates == []
    ensures Accepted(After(w, run').nodes[q], q, k, x)
  {
    var r, i := After(w, run).nodes[q], 0;
    assert r.cells[0].votes.prepares == map[];
    run', i, vc := Casts(w, run, q, 1, 1);
  }

  /** Only then it adds it all, and commits. */
  lemma AddsLate(w: World, run: seq<Action>, q: string, k: string, x: Item) returns (run': seq<Action>)
    requires w.F() == 1 && q in After(w, run).nodes && k != q
    requires Accepted(After(w, run).nodes[q], q, k, x)
    ensures Goes(w, run, run', q) && MsgCommit(Own(x, q)) in After(w, run').sent
  {
    var run1 := RunsOwn(w, run, q, x, 0);
    var run2 := RunsPrepare(w, run1, q, x, 0, true, {q}, {}, false, k);
    GoesFurther(w, run, run1, run2, q);
    run' := Announce(w, run2, q, x, 0, {q} + {k}, {});
    GoesFurther(w, run, run2, run', q);
  }

  /** q has voted without certificates, and only then committed. */
  ghost predicate CommittedLate(s: System, q: string, x: Item, vc: ViewChange) {
    Voted(s, q, 0, vc) && vc.certificates == [] && MsgCommit(Own(x, q)) in s.sent
  }

  lemma LateBackup(w: World, run: seq<Action>, q: string, k: string, x: Item)
      returns (run': seq<Action>, vc: ViewChange)
    requires w.F() == 1 && q in After(w, run).nodes && k != q && x == First(1, x.digest)
    requires Started(w, After(w, run).nodes[q], q, x) && MsgPrepare(Own(x, k)) in After(w, run).sent
    ensures Goes(w, run, run', q) && CommittedLate(After(w, run'), q, x, vc)
  {
    var run1 := Hearing(w, run, q, k, x);
    var run2;
    run2, vc := VotesLate(w, run1, q, k, x);
    GoesFurther(w, run, run1, run2, q);
    run' := AddsLate(w, run2, q, k, x);
    GoesFurther(w, run, run2, run', q);
  }

  ghost predicate AllStarted(w: World, run: seq<Action>, a: string, b: string, c: string, x: Item) {
    && CrashRun(w, run) && NoEcho(run) && {a, b, c} <= After(w, run).nodes.Keys
    && Started(w, After(w, run).nodes[a], a, x) && Started(w, After(w, run).nodes[b], b, x)
    && Started(w, After(w, run).nodes[c], c, x)
    && {MsgPrepare(Own(x, a)), MsgPrepare(Own(x, b)), MsgPrepare(Own(x, c))} <= After(w, run).sent
  }

  lemma AllStart(w: World, run: seq<Action>, p: string, a: string, b: string, c: string, req: ClientRequest)
      returns (run': seq<Action>)
    requires Four(w, p, a, b, c) && Opened(w, run, p, a, b, c, req)
    ensures AllStarted(w, run', a, b, c, First(1, w.digestOf(req)))
    ensures p in After(w, run').nodes && After(w, run').nodes[p] == After(w, run).nodes[p]
  {
    var run2 := TwoStart(w, run, p, a, b, c, req);
    run' := NewStarts(w, run2, c, First(1, w.digestOf(req)), Some([req]));
  }

  lemma TwoStart(w: World, run: seq<Action>, p: string, a: string, b: string, c: string, req: ClientRequest)
      returns (run': seq<Action>)
    requires Four(w, p, a, b, c) && Opened(w, run, p, a, b, c, req)
    ensures CrashRun(w, run') && NoEcho(run') && After(w, run').nodes.Keys == After(w, run).nodes.Keys
    ensures var x, nodes := First(1, w.digestOf(req)), After(w, run').nodes;
            && nodes[p] == After(w, run).nodes[p] && nodes[c] == NewReplica(w.At(c))
            && Started(w, nodes[a], a, x) && Started(w, nodes[b], b, x)
            && {MsgPrepare(Own(x, a)), MsgPrepare(Own(x, b)), MsgPrePrepare(PP(x), Some([req]))}
               <= After(w, run').sent
  {
    var run1 := FirstStarts(w, run, p, a, b, c, req);
    run' := NewStarts(w, run1, b, First(1, w.digestOf(req)), Some([req]));
  }

  lemma FirstStarts(w: World, run: seq<Action>, p: string, a: string, b: string, c: string, req: ClientRequest)
      returns (run': seq<Action>)
    requires Four(w, p, a, b, c) && Opened(w, run, p, a, b, c, req)
    ensures CrashRun(w, run') && NoEcho(run') && After(w, run').nodes.Keys == After(w, run).nodes.Keys
    ensures var x, nodes := First(1, w.digestOf(req)), After(w, run').nodes;
            && nodes[p] == After(w, run).nodes[p] && Started(w, nodes[a], a, x)
            && nodes[b] == NewReplica(w.At(b)) && nodes[c] == NewReplica(w.At(c))
            && {MsgPrepare(Own(x, a)), MsgPrePrepare(PP(x), Some([req]))} <= After(w, run').sent
  {
    run' := NewStarts(w, run, a, First(1, w.digestOf(req)), Some([req]));
  }

  lemma AllVoteLate(w: World, run: seq<Action>, p: string, a: string, b: string, c: string, x: Item)
      returns (run': seq<Action>, va: ViewChange, vb: ViewChange, vc: ViewChange)
    requires Four(w, p, a, b, c) && w.F() == 1 && AllStarted(w, run, a, b, c, x) && x == First(1, x.digest)
    requires p in After(w, run).nodes
    ensures CrashRun(w, run') && NoEcho(run')
    ensures p in After(w, run').nodes && After(w, run').nodes[p] == After(w, run).nodes[p]
    ensures CommittedLate(After(w, run'), a, x, va) && CommittedLate(After(w, run'), b, x, vb)
    ensures CommittedLate(After(w, run'), c, x, vc)
  {
    var run2;
    run2, va, vb := TwoVoteLate(w, run, p, a, b, c, x);
    run', vc := LateBackup(w, run2, c, a, x);
  }

  lemma TwoVoteLate(w: World, run: seq<Action>, p: string, a: string, b: string, c: string, x: Item)
      returns (run': seq<Action>, va: ViewChange, vb: ViewChange)
    requires Four(w, p, a, b, c) && w.F() == 1 && AllStarted(w, run, a, b, c, x) && x == First(1, x.digest)
    requires p in After(w, run).nodes
    ensures CrashRun(w, run') && NoEcho(run')
    ensures {p, c} <= After(w, run').nodes.Keys && After(w, run).sent <= After(w, run').sent
    ensures After(w, run').nodes[p] == After(w, run).nodes[p] && After(w, run').nodes[c] == After(w, run).nodes[c]
    ensures CommittedLate(After(w, run'), a, x, va) && CommittedLate(After(w, run'), b, x, vb)
  {
    var run1;
    run1, va := LateBackup(w, run, a, b, x);
    run', vb := LateBackup(w, run1, b, c, x);
  }

  lemma LateVotes(w: World, s: System, a: string, b: string, c: string, x: Item, va: ViewChange, vb: ViewChange,
                  vc: ViewChange)
    requires w.F() == 1 && a != b && a != c && b != c
    requires CommittedLate(s, a, x, va) && CommittedLate(s, b, x, vb) && CommittedLate(s, c, x, vc)
    ensures var votes := Ballot(a, b, c, va, vb, vc);
            && QuorumOfVotes(w, s, votes, 1, 1)
            && forall result | IsLeaderResult(votes, 1, w.F(), result) :: result == Some([])
  {
    var votes := Ballot(a, b, c, va, vb, vc);
    ThreeAreAQuorum(w, s, a, b, c, va, vb, vc, 0, 1);
    forall result | IsLeaderResult(votes, 1, w.F(), result) ensures result == Some([]) {
      NothingReissued(votes, w.F(), 0, 1, result);
    }
  }

  lemma LateCommit(w: World, run: seq<Action>, p: string, a: string, b: string, c: string, req: ClientRequest)
      returns (run': seq<Action>, i: nat)
    requires Four(w, p, a, b, c) && w.F() == 1 && p in After(w, run).nodes
    requires After(w, run).nodes[p] == Numbered(w, NewReplica(w.At(p)), req)
    requires var x := First(1, w.digestOf(req));
             && Stage(After(w, run).nodes[p], x, 0, true, {}, {}, false, false)
             && {MsgCommit(Own(x, a)), MsgCommit(Own(x, b)), MsgCommit(Own(x, c))} <= After(w, run).sent
    ensures Goes(w, run, run', p) && CommitsAt(w, run', i, p, 1)
  {
    PrimaryIsReady(w, p, req);
    run', i := Decides(w, run, p, First(1, w.digestOf(req)), 0, {}, a, b, c);
  }

  /**
   * All three backups vote while the `Add*` calls of their accepted messages have yet to run; then these run, the
   * commits go out, and the first primary executes number 1.  Every new leader re-issues nothing.
   */
  lemma {:induction false} LateVotersLoseTheRequest(w: World, p: string, a: string, b: string, c: string,
                                                    req: ClientRequest)
      returns (run: seq<Action>, i: nat, votes: Votes)
    requires Four(w, p, a, b, c)
    ensures CrashRun(w, run) && NoEcho(run) && CommitsAt(w, run, i, p, 1)
    ensures QuorumOfVotes(w, After(w, run), votes, 1, 1)
    ensures forall result | IsLeaderResult(votes, 1, w.F(), result) :: result == Some([])
  {
    var run0 := Opening(w, p, a, b, c, req);
    var run2, va, vb, vc := VoteThenCommit(w, run0, p, a, b, c, req);
    run, i := LateCommit(w, run2, p, a, b, c, req);
    votes := Ballot(a, b, c, va, vb, vc);
    LateVotes(w, After(w, run), a, b, c, First(1, w.digestOf(req)), va, vb, vc);
  }

  lemma VoteThenCommit(w: World, run: seq<Action>, p: string, a: string, b: string, c: string, req: ClientRequest)
      returns (run': seq<Action>, va: ViewChange, vb: ViewChange, vc: ViewChange)
    requires Four(w, p, a, b, c) && Opened(w, run, p, a, b, c, req)
    ensures CrashRun(w, run') && NoEcho(run')
    ensures p in After(w, run').nodes && After(w, run').nodes[p] == After(w, run).nodes[p]
    ensures var x := First(1, w.digestOf(req));
            && CommittedLate(After(w, run'), a, x, va) && CommittedLate(After(w, run'), b, x, vb)
            && CommittedLate(After(w, run'), c, x, vc)
  {
    var run1 := AllStart(w, run, p, a, b, c, req);
    run', va, vb, vc := AllVoteLate(w, run1, p, a, b, c, First(1, w.digestOf(req)));
  }
}
