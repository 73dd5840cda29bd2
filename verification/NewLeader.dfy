/**
 * A run in which a new leader gives a number out again that it has just re-issued, and that was committed before
 * (`HandleNewViewRequest` in `pbft/node.go`).
 */
module NewLeader {
  import opened Messages
  import opened StoreModel
  import opened Replicas
  import opened Systems
  import opened FirstView
  import opened CrashFaults
  import opened CrashRuns
  import opened ViewChangeRules
  import opened HonestViews
  import opened Scripts
  import opened Scenes
  import opened JointScenes
  import opened NewViewScenes
  import opened Renumbering

  // ---------- Number 2 is committed; number 1 never arrives at the backups ----------

  /** The primary has numbered two requests, and nobody else has done anything. */
  ghost predicate TwoNumbered(w: World, run: seq<Action>, p: string, a: string, b: string, c: string, x: Item,
                              req: ClientRequest) {
    var s := After(w, run);
    && w.F() == 1 && CrashRun(w, run) && NoEcho(run) && {p, a, b, c} <= s.nodes.Keys
    && PrimaryNumbered(w, s.nodes[p], p, x) && MsgPrePrepare(PP(x), Some([req])) in s.sent
    && forall q | q in [a, b, c] :: s.nodes[q] == NewReplica(w.At(q))
  }

  lemma NumbersTwo(w: World, p: string, a: string, b: string, c: string, req0: ClientRequest, req: ClientRequest)
      returns (run: seq<Action>)
    requires Four(w, p, a, b, c) && w.maxOutstanding >= 2 && w.window >= 2
    ensures TwoNumbered(w, run, p, a, b, c, First(2, w.digestOf(req)), req)
  {
    assert CrashRun(w, []) && After(w, []).nodes[p] == NewReplica(w.At(p));
    run := NumbersTwoAlone(w, [], p, req0, req);
    NotAmong(p, a, b, c);
    StillNew(w, run, p, [a, b, c]);
  }

  lemma NumbersTwoAlone(w: World, run: seq<Action>, p: string, req0: ClientRequest, req: ClientRequest)
      returns (run': seq<Action>)
    requires p in After(w, run).nodes && After(w, run).nodes[p] == NewReplica(w.At(p)) && Primary(w) == p
    requires w.maxOutstanding >= 2 && w.window >= 2
    ensures Goes(w, run, run', p)
    ensures var x := First(2, w.digestOf(req));
            && PrimaryNumbered(w, After(w, run').nodes[p], p, x)
            && MsgPrePrepare(PP(x), Some([req])) in After(w, run').sent
  {
    var run1 := NumbersRequest(w, run, p, req0);
    assert {} + {1} == {1};
    run' := NumbersRequest(w, run1, p, req);
    GoesFurther(w, run, run1, run', p);
  }

  lemma StillNew(w: World, run: seq<Action>, p: string, qs: seq<string>)
    requires Goes(w, [], run, p) && p !in qs && forall q | q in qs :: q in w.Correct()
    ensures forall q | q in qs :: q in After(w, run).nodes && After(w, run).nodes[q] == NewReplica(w.At(q))
  {
  }

  lemma NewAwaitsSecond(w: World, s: System, qs: seq<string>, x: Item)
    requires w.window >= 2 && x == First(2, x.digest)
    requires forall q | q in qs :: q in s.nodes && q != Primary(w) && s.nodes[q] == NewReplica(w.At(q))
    ensures AllAwait(w, s, qs, x)
  {
  }

  /** q holds x's certificate, in its only collector. */
  ghost predicate HoldsOnly(w: World, s: System, q: string, a: string, b: string, x: Item) {
    HasCommitted(w, s, q, a, b, x) && OnlyCollects(s.nodes[q], x.n) && s.nodes[q].store.lastStable.None?
  }

  lemma OneCollector(w: World, s: System, s': System, q: string, a: string, b: string, x: Item)
    requires q in s.nodes && s.nodes[q] == NewReplica(w.At(q)) && HasCommitted(w, s', q, a, b, x)
    requires SameOtherwise(s.nodes[q], s'.nodes[q], x.n)
    ensures HoldsOnly(w, s', q, a, b, x)
  {
  }

  ghost predicate AllHoldOnly(w: World, s: System, qs: seq<string>, a: string, b: string, x: Item) {
    forall q | q in qs :: HoldsOnly(w, s, q, a, b, x)
  }

  lemma BackupsCommitIt(w: World, run: seq<Action>, p: string, a: string, b: string, c: string, x: Item,
                        req: ClientRequest)
      returns (run': seq<Action>)
    requires Four(w, p, a, b, c) && w.window >= 2 && x == First(2, x.digest) && TwoNumbered(w, run, p, a, b, c, x, req)
    ensures AllHoldOnly(w, After(w, run'), [a, b, c], a, b, x) && Distinct(After(w, run'), [a, b, c])
    ensures CrashRun(w, run') && NoEcho(run') && After(w, run).sent <= After(w, run').sent
    ensures p in After(w, run').nodes && PrimaryNumbered(w, After(w, run').nodes[p], p, x)
  {
    var qs := [a, b, c];
    NotAmong(p, a, b, c);
    NewAwaitsSecond(w, After(w, run), qs, x);
    run' := AllBackAndCommit(w, run, qs, a, b, x, Some([req]));
    forall q | q in qs ensures HoldsOnly(w, After(w, run'), q, a, b, x) {
      OneCollector(w, After(w, run), After(w, run'), q, a, b, x);
    }
  }

  /** x is committed at p, with its certificate at all three backups. */
  ghost predicate SecondIsCommitted(w: World, run: seq<Action>, i: nat, p: string, a: string, b: string, c: string,
                                    x: Item) {
    && w.F() == 1 && CrashRun(w, run) && NoEcho(run) && Distinct(After(w, run), [a, b, c])
    && AllHoldOnly(w, After(w, run), [a, b, c], a, b, x) && CommitsAt(w, run, i, p, 2)
  }

  lemma TheyHoldAndSaidSo(w: World, s: System, a: string, b: string, c: string, x: Item)
    requires AllHoldOnly(w, s, [a, b, c], a, b, x)
    ensures {MsgCommit(Own(x, a)), MsgCommit(Own(x, b)), MsgCommit(Own(x, c))} <= s.sent
  {
    var qs := [a, b, c];
    assert HoldsOnly(w, s, qs[0], a, b, x) && HoldsOnly(w, s, qs[1], a, b, x) && HoldsOnly(w, s, qs[2], a, b, x);
  }

  lemma StillHold(w: World, run: seq<Action>, run': seq<Action>, p: string, qs: seq<string>, a: string, b: string,
                  x: Item)
    requires Goes(w, run, run', p) && p !in qs && AllHoldOnly(w, After(w, run), qs, a, b, x)
    requires Distinct(After(w, run), qs)
    ensures AllHoldOnly(w, After(w, run'), qs, a, b, x) && Distinct(After(w, run'), qs)
  {
  }

  lemma CommitsIt(w: World, run: seq<Action>, p: string, a: string, b: string, c: string, x: Item, req: ClientRequest)
      returns (run': seq<Action>, i: nat)
    requires Four(w, p, a, b, c) && w.window >= 2 && x == First(2, x.digest) && TwoNumbered(w, run, p, a, b, c, x, req)
    ensures SecondIsCommitted(w, run', i, p, a, b, c, x) && After(w, run).sent <= After(w, run').sent
  {
    var run1 := BackupsCommitIt(w, run, p, a, b, c, x, req);
    run', i := PrimaryCommitsIt(w, run1, p, a, b, c, x);
  }

  lemma PrimaryCommitsIt(w: World, run: seq<Action>, p: string, a: string, b: string, c: string, x: Item)
      returns (run': seq<Action>, i: nat)
    requires Four(w, p, a, b, c) && w.F() == 1 && x == First(2, x.digest) && CrashRun(w, run) && NoEcho(run)
    requires AllHoldOnly(w, After(w, run), [a, b, c], a, b, x) && Distinct(After(w, run), [a, b, c])
    requires p in After(w, run).nodes && PrimaryNumbered(w, After(w, run).nodes[p], p, x)
    ensures SecondIsCommitted(w, run', i, p, a, b, c, x) && After(w, run).sent <= After(w, run').sent
  {
    NotAmong(p, a, b, c);
    TheyHoldAndSaidSo(w, After(w, run), a, b, c, x);
    run', i := PrimaryCommitsSecond(w, run, p, a, b, c, x);
    StillHold(w, run, run', p, [a, b, c], a, b, x);
  }

  // ---------- The new view ----------

  lemma HolderShows(w: World, s: System, q: string, a: string, b: string, x: Item, vc: ViewChange)
    requires HoldsOnly(w, s, q, a, b, x) && ShowsIt(s.nodes[q], x.n, vc)
    requires vc.lastStable == StableNumber(s.nodes[q].store) && q != Other(q, a, b)
    ensures ShowsAtMost(vc, x) && |vc.certificates| == 1
  {
    assert {q} + {Other(q, a, b)} == {q, Other(q, a, b)};
    ShownIsValid(s.nodes[q], x, {q} + {Other(q, a, b)}, vc);
  }

  lemma HoldersShow(w: World, s: System, a: string, b: string, c: string, x: Item, votes: Votes)
    requires a != b && AllHoldOnly(w, s, [a, b, c], a, b, x) && (forall k | k in votes :: k in [a, b, c])
    requires forall k | k in votes ::
               k in s.nodes && ShowsIt(s.nodes[k], x.n, votes[k])
               && votes[k].lastStable == StableNumber(s.nodes[k].store)
    ensures forall k | k in votes :: ShowsAtMost(votes[k], x) && |votes[k].certificates| == 1
  {
    forall k | k in votes ensures ShowsAtMost(votes[k], x) && |votes[k].certificates| == 1 {
      assert HoldsOnly(w, s, k, a, b, x);
      HolderShows(w, s, k, a, b, x, votes[k]);
    }
  }

  lemma StillInFirstView(w: World, s: System, s': System, a: string, b: string, c: string, x: Item)
    requires AllHoldOnly(w, s, [a, b, c], a, b, x) && s'.nodes.Keys == s.nodes.Keys && x.view == 0
    requires forall q | q in [a, b, c] :: s'.nodes[q] == s.nodes[q].(inViewChange := true)
    ensures a in s'.nodes && s'.nodes[a].view == 0
  {
    var qs := [a, b, c];
    assert HoldsOnly(w, s, qs[0], a, b, x);
  }

  lemma BackupsVote(w: World, run: seq<Action>, a: string, b: string, c: string, x: Item)
      returns (run': seq<Action>, votes: Votes)
    requires w.F() == 1 && a != b && a != c && b != c && x == First(2, x.digest)
    requires Distinct(After(w, run), [a, b, c]) && AllHoldOnly(w, After(w, run), [a, b, c], a, b, x)
    ensures TheyProceed(w, run, run', [a, b, c])
    ensures VotesAreIn(w, After(w, run'), a, votes, x) && |votes| == 3 && votes.Keys == {a, b, c}
    ensures a in After(w, run').nodes && After(w, run').nodes[a].view == 0
  {
    run', votes := AllCast(w, run, [a, b, c], 2, 1);
    ThreeVoters(votes, a, b, c);
    AllWereSent(After(w, run'), After(w, run).nodes, [a, b, c], 2, 1, votes);
    HoldersShow(w, After(w, run), a, b, c, x, votes);
    StillInFirstView(w, After(w, run), After(w, run'), a, b, c, x);
  }

  lemma TwoHonestSteps(w: World, run: seq<Action>, a1: Action, a2: Action)
    requires HonestAction(w, After(w, run), a1) && HonestAction(w, After(w, run + [a1]), a2)
    requires !Echoes(a1) && !Echoes(a2)
    ensures StaysHonest(w, run, run + [a1] + [a2])
  {
    if HonestRun(w, run) {
      HonestRunGoesOn(w, run, a1);
      HonestRunGoesOn(w, run + [a1], a2);
    }
  }

  /** The leader enters its view, and handles a request. */
  lemma LeaderGivesAgain(w: World, run: seq<Action>, a: string, nv: NewView, x: Item, req: ClientRequest)
      returns (run': seq<Action>)
    requires a in After(w, run).nodes && After(w, run).nodes[a].view <= 1 && w.maxOutstanding >= 1
    requires CanAnnounce(w, After(w, run), nv) && nv.newView == 1 && nv.replica == a
    requires x.n == 2 && nv.preprepares == Gapped(1, x)
    ensures run' == run + [Action(a, OnNewView(nv))] + [Action(a, Client(req))] && StaysHonest(w, run, run')
    ensures MsgPrePrepare(PrePrepare(1, 2, w.digestOf(req)), Some([req])) in After(w, run').sent
    ensures After(w, run).sent <= After(w, run').sent
  {
    var a1, a2 := Action(a, OnNewView(nv)), Action(a, Client(req));
    LeaderEnters(w, run, a, nv, x);
    var n := NewLeaderNumbersAgainIff(w.At(a), After(w, run).nodes[a], nv, 0, req);
    Acts(w, run + [a1], a, Client(req));
    run' := run + [a1] + [a2];
    TwoHonestSteps(w, run, a1, a2);
  }

  lemma LeaderEnters(w: World, run: seq<Action>, a: string, nv: NewView, x: Item)
    requires a in After(w, run).nodes && nv.newView == 1 && x.n == 2 && nv.preprepares == Gapped(1, x)
    ensures HandleNewView(w.At(a), After(w, run).nodes[a], nv).Some?
    ensures var run' := run + [Action(a, OnNewView(nv))];
            && a in After(w, run').nodes && After(w, run).sent <= After(w, run').sent
            && After(w, run').nodes[a] == HandleNewView(w.At(a), After(w, run).nodes[a], nv).value.replica
  {
    FirstIsSmallest(nv.preprepares, 1);
    Acts(w, run, a, OnNewView(nv));
  }

  /**
   * Nobody lies.  Number 2 is committed for `req`; a announces view 1, with number 2 re-issued for it; and the next
   * request a handles gets number 2 of the same view.
   */
  lemma {:induction false} CommittedNumberIsGivenAgain(w: World, p: string, a: string, b: string, c: string,
                                                       req0: ClientRequest, req: ClientRequest, req': ClientRequest)
      returns (run: seq<Action>, i: nat, nv: NewView)
    requires Four(w, p, a, b, c) && w.ring[1] == a && w.maxOutstanding >= 2 && w.window >= 2
    ensures HonestRun(w, run) && NoEcho(run) && CommitsAt(w, run, i, p, 2)
    ensures MsgPrePrepare(PrePrepare(0, 2, w.digestOf(req)), Some([req])) in After(w, run).sent
    ensures Action(a, OnNewView(nv)) in run && nv.newView == 1
    ensures PrePrepare(1, 2, w.digestOf(req)) in nv.preprepares
    ensures MsgPrePrepare(PrePrepare(1, 2, w.digestOf(req')), Some([req'])) in After(w, run).sent
  {
    var x := First(2, w.digestOf(req));
    var run0 := NumbersTwo(w, p, a, b, c, req0, req);
    var run1;
    run1, i := CommitsIt(w, run0, p, a, b, c, x, req);
    CrashRunIsHonest(w, run1);
    run, nv := VotedOut(w, run1, a, b, c, x, req');
    CommitStays(w, run1, run, i, p, 2);
    assert nv.preprepares[1] == PrePrepare(1, 2, w.digestOf(req));
  }

  lemma VotedOut(w: World, run: seq<Action>, a: string, b: string, c: string, x: Item, req: ClientRequest)
      returns (run': seq<Action>, nv: NewView)
    requires w.F() == 1 && a != b && a != c && b != c && x == First(2, x.digest) && w.maxOutstanding >= 1
    requires |w.ring| == 4 && w.ring[1] == a
    requires Distinct(After(w, run), [a, b, c]) && AllHoldOnly(w, After(w, run), [a, b, c], a, b, x)
    ensures StaysHonest(w, run, run') && run <= run' && After(w, run).sent <= After(w, run').sent
    ensures Action(a, OnNewView(nv)) in run' && nv.newView == 1 && nv.preprepares == Gapped(1, x)
    ensures MsgPrePrepare(PrePrepare(1, 2, w.digestOf(req)), Some([req])) in After(w, run').sent
  {
    var run1, votes := BackupsVote(w, run, a, b, c, x);
    ThreeList(a, b, c, votes);
    nv := Announcing(1, a, [votes[a], votes[b], votes[c]], x);
    LeaderCanAnnounce(w, After(w, run1), votes, [votes[a], votes[b], votes[c]], x, a, 1, a);
    run' := LeaderGivesAgain(w, run1, a, nv, x, req);
  }
}
