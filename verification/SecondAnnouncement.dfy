/**
 * A run in which a leader announces its view twice, as it does when one more vote comes
 * (`handleViewChange` in `pbft/view_changer/view_changer.go`), and a request that was committed in that view is lost.
 */
module SecondAnnouncement {
  import opened Messages
  import opened StoreModel
  import opened Replicas
  import opened Systems
  import opened CrashRuns
  import opened ViewChangeRules
  import opened Survival
  import opened HonestViews
  import opened Scenes
  import opened JointScenes
  import opened NewViewScenes
  import opened FirstNumberCommitted
  import opened ThreeVotes

  // ---------- The first view ----------

  lemma CommittedShows(w: World, r: Replica, q: string, k: string, x: Item, vc: ViewChange)
    requires CommittedBackup(r, w, q, k, x) && x == First(1, x.digest) && q != k && ShowsIt(r, 1, vc)
    requires vc.lastStable == StableNumber(r.store)
    ensures ShowsAtMost(vc, x) && |vc.certificates| == 1
  {
    assert {q} + {k} == {q, k};
    ShownIsValid(r, x, {q} + {k}, vc);
  }

  lemma NewShowsNothing(w: World, q: string, x: Item, vc: ViewChange)
    requires ShowsIt(NewReplica(w.At(q)), 1, vc) && vc.lastStable == StableNumber(NewReplica(w.At(q)).store)
    ensures ShowsAtMost(vc, x)
  {
  }

  lemma FirstVotesSay(w: World, s: System, nodes: map<string, Replica>, a: string, b: string, c: string, x: Item,
                      votes: Votes)
    requires AllVoted(s, nodes, [a, b, c], 1, 1, votes) && a != b && a in nodes && b in nodes && c in nodes
    requires CommittedBackup(nodes[a], w, a, b, x) && CommittedBackup(nodes[b], w, b, a, x)
    requires nodes[c] == NewReplica(w.At(c)) && x == First(1, x.digest)
    ensures VotesAreIn(w, s, a, votes, x) && votes.Keys == {a, b, c}
  {
    ThreeVoters(votes, a, b, c);
    AllWereSent(s, nodes, [a, b, c], 1, 1, votes);
    FirstVotesShow(w, nodes, a, b, c, x, votes);
  }

  lemma FirstVotesShow(w: World, nodes: map<string, Replica>, a: string, b: string, c: string, x: Item, votes: Votes)
    requires a != b && a in nodes && b in nodes && c in nodes && a in votes && b in votes && c in votes
    requires forall k | k in votes :: k == a || k == b || k == c
    requires forall k | k in votes ::
               k in nodes && ShowsIt(nodes[k], 1, votes[k]) && votes[k].lastStable == StableNumber(nodes[k].store)
    requires CommittedBackup(nodes[a], w, a, b, x) && CommittedBackup(nodes[b], w, b, a, x)
    requires nodes[c] == NewReplica(w.At(c)) && x == First(1, x.digest)
    ensures (forall k | k in votes :: ShowsAtMost(votes[k], x)) && |votes[a].certificates| == 1
  {
    CommittedShows(w, nodes[a], a, b, x, votes[a]);
    CommittedShows(w, nodes[b], b, a, x, votes[b]);
    NewShowsNothing(w, c, x, votes[c]);
  }

  /** The first primary has numbered its request and heard nothing; the backups have voted. */
  ghost predicate Pending(w: World, s: System, p: string, a: string, b: string, c: string, x: Item, votes: Votes) {
    && Distinct(s, [a, b, c]) && p in s.nodes && p !in [a, b, c]
    && VotesAreIn(w, s, a, votes, x) && |votes| == 3 && votes.Keys == {a, b, c}
    && Stage(s.nodes[p], x, 0, true, {}, {}, false, false) && OnlyCollects(s.nodes[p], 1)
    && s.nodes[p].store.lastStable.None?
  }

  lemma StillPending(w: World, run: seq<Action>, run': seq<Action>, p: string, a: string, b: string, c: string, x: Item,
                     votes: Votes)
    requires Pending(w, After(w, run), p, a, b, c, x, votes) && TheyWalk(w, run, run', [a, b, c])
    ensures Pending(w, After(w, run'), p, a, b, c, x, votes)
  {
  }

  ghost predicate FirstVoted(w: World, run: seq<Action>, p: string, a: string, b: string, c: string, x: Item,
                             votes: Votes) {
    && w.F() == 1 && HonestRun(w, run) && NoEcho(run) && Pending(w, After(w, run), p, a, b, c, x, votes)
    && MayEnter(After(w, run), [a, b, c], 1)
  }

  lemma BackupMayEnter(w: World, r: Replica, q: string, k: string, x: Item)
    requires CommittedBackup(r, w, q, k, x) && x.view == 0
    ensures r.view == 0 && r.store.lastStable.None?
  {
  }

  lemma AllMayEnter(w: World, s: System, s': System, a: string, b: string, c: string, x: Item)
    requires a in s.nodes && b in s.nodes && c in s.nodes && s'.nodes.Keys == s.nodes.Keys && x.view == 0
    requires CommittedBackup(s.nodes[a], w, a, b, x) && CommittedBackup(s.nodes[b], w, b, a, x)
    requires s.nodes[c] == NewReplica(w.At(c))
    requires forall q | q in [a, b, c] :: s'.nodes[q] == s.nodes[q].(inViewChange := true)
    ensures MayEnter(s', [a, b, c], 1)
  {
    BackupMayEnter(w, s.nodes[a], a, b, x);
    BackupMayEnter(w, s.nodes[b], b, a, x);
  }

  lemma PrimaryCollectsOne(w: World, p: string, req: ClientRequest)
    ensures var r := Numbered(w, NewReplica(w.At(p)), req);
            OnlyCollects(r, 1) && r.store.lastStable.None?
  {
  }

  lemma PrimaryPends(w: World, s: System, p: string, a: string, b: string, c: string, req: ClientRequest, x: Item,
                     votes: Votes)
    requires Four(w, p, a, b, c) && {p, a, b, c} <= s.nodes.Keys && s.nodes[p] == Numbered(w, NewReplica(w.At(p)), req)
    requires Stage(s.nodes[p], x, 0, true, {}, {}, false, false)
    requires VotesAreIn(w, s, a, votes, x) && |votes| == 3 && votes.Keys == {a, b, c}
    ensures Pending(w, s, p, a, b, c, x, votes)
  {
    PrimaryCollectsOne(w, p, req);
    NotAmong(p, a, b, c);
  }

  /** All three backups vote for view 1. */
  lemma AllVoteForFirst(w: World, run: seq<Action>, p: string, a: string, b: string, c: string, req: ClientRequest)
      returns (run': seq<Action>, votes: Votes)
    requires Four(w, p, a, b, c) && BackupsCommitted(w, run, p, a, b, c, req)
    ensures FirstVoted(w, run', p, a, b, c, First(1, w.digestOf(req)), votes)
  {
    var x := First(1, w.digestOf(req));
    CrashRunIsHonest(w, run);
    run', votes := BackupsVote(w, run, p, a, b, c, x);
    PrimaryPends(w, After(w, run'), p, a, b, c, req, x, votes);
  }

  lemma BackupsVote(w: World, run: seq<Action>, p: string, a: string, b: string, c: string, x: Item)
      returns (run': seq<Action>, votes: Votes)
    requires Four(w, p, a, b, c) && w.F() == 1 && {p, a, b, c} <= After(w, run).nodes.Keys && x == First(1, x.digest)
    requires var nodes := After(w, run).nodes;
             && CommittedBackup(nodes[a], w, a, b, x) && CommittedBackup(nodes[b], w, b, a, x)
             && nodes[c] == NewReplica(w.At(c))
    ensures StaysHonest(w, run, run') && {p, a, b, c} <= After(w, run').nodes.Keys
    ensures After(w, run').nodes[p] == After(w, run).nodes[p] && MayEnter(After(w, run'), [a, b, c], 1)
    ensures VotesAreIn(w, After(w, run'), a, votes, x) && |votes| == 3 && votes.Keys == {a, b, c}
  {
    NotAmong(p, a, b, c);
    run', votes := AllCast(w, run, [a, b, c], 1, 1);
    FirstVotesSay(w, After(w, run'), After(w, run).nodes, a, b, c, x, votes);
    AllMayEnter(w, After(w, run), After(w, run'), a, b, c, x);
  }

  // ---------- View 1 ----------

  /** x in view 1. */
  function Again(x: Item): Item {
    Item(1, x.n, x.digest)
  }

  lemma GappedIsOne(x: Item)
    requires x.n == 1
    ensures Gapped(1, x) == [PP(Again(x))]
  {
  }

  /** a has announced view 1, and all three backups have entered it. */
  ghost predicate InViewOne(w: World, run: seq<Action>, p: string, a: string, b: string, c: string, x: Item,
                            votes: Votes) {
    && w.F() == 1 && HonestRun(w, run) && NoEcho(run) && Pending(w, After(w, run), p, a, b, c, x, votes)
    && AllHaveEntered(w, After(w, run), [a, b, c], Again(x))
  }

  lemma AllEnterViewOne(w: World, run: seq<Action>, p: string, a: string, b: string, c: string, x: Item, votes: Votes)
      returns (run': seq<Action>)
    requires Four(w, p, a, b, c) && w.ring[1] == a && x == First(1, x.digest)
    requires FirstVoted(w, run, p, a, b, c, x, votes)
    ensures InViewOne(w, run', p, a, b, c, x, votes)
  {
    var qs, nv := [a, b, c], Announcing(1, a, [votes[a], votes[b], votes[c]], x);
    GappedIsOne(x);
    ThreeList(a, b, c, votes);
    LeaderCanAnnounce(w, After(w, run), votes, [votes[a], votes[b], votes[c]], x, a, 1, a);
    run' := AllEnter(w, run, qs, nv, Again(x));
    StillPending(w, run, run', p, a, b, c, x, votes);
  }

  /** x is committed in view 1, at its leader. */
  ghost predicate CommittedInViewOne(w: World, run: seq<Action>, i: nat, p: string, a: string, b: string, c: string,
                                     x: Item, votes: Votes) {
    && w.F() == 1 && HonestRun(w, run) && NoEcho(run) && Pending(w, After(w, run), p, a, b, c, x, votes)
    && MayEnter(After(w, run), [a, b, c], 1) && CommitsAt(w, run, i, a, x.n)
  }

  lemma EnteredHavePrepared(w: World, s: System, a: string, b: string, c: string, y: Item)
    requires AllHaveEntered(w, s, [a, b, c], y)
    ensures AllHavePrepared(w, s, [a, b, c], y) && {MsgPrepare(Own(y, a)), MsgPrepare(Own(y, b))} <= s.sent
  {
    var qs := [a, b, c];
    assert HasEntered(w, s, qs[0], y) && HasEntered(w, s, qs[1], y);
  }

  lemma CommittedMayEnter(w: World, s: System, s': System, a: string, b: string, c: string, y: Item)
    requires AllHaveEntered(w, s, [a, b, c], y) && AllHaveCommitted(w, s', [a, b, c], a, b, y) && y.view == 1
    requires AllSameOtherwise(s, s', [a, b, c], y.n)
    ensures MayEnter(s', [a, b, c], 1)
  {
    forall q | q in [a, b, c] ensures q in s'.nodes && s'.nodes[q].view == 1 && s'.nodes[q].store.lastStable.None? {
      assert HasEntered(w, s, q, y) && HasCommitted(w, s', q, a, b, y);
    }
  }

  lemma LeaderCommits(w: World, run: seq<Action>, a: string, b: string, c: string, y: Item)
      returns (run': seq<Action>, i: nat)
    requires w.F() == 1 && AllHaveCommitted(w, After(w, run), [a, b, c], a, b, y) && a != b && a != c && b != c
    ensures Goes(w, run, run', a) && CommitsAt(w, run', i, a, y.n)
    ensures After(w, run').nodes[a].view == y.view && a in After(w, run).nodes
    ensures After(w, run').nodes[a].store == After(w, run).nodes[a].store
  {
    TheyHaveSaidSo(w, After(w, run), a, b, c, y);
    var qs := [a, b, c];
    assert HasCommitted(w, After(w, run), qs[0], a, b, y);
    run', i := OwnDecides(w, run, a, y, |After(w, run).nodes[a].cells| - 1, {a} + {b}, b, c);
  }

  lemma AllCommitInViewOne(w: World, run: seq<Action>, p: string, a: string, b: string, c: string, x: Item,
                           votes: Votes)
      returns (run': seq<Action>, i: nat)
    requires Four(w, p, a, b, c) && x == First(1, x.digest) && InViewOne(w, run, p, a, b, c, x, votes)
    ensures CommittedInViewOne(w, run', i, p, a, b, c, x, votes)
  {
    var y := Again(x);
    var run1 := BackupsCommitAgain(w, run, a, b, c, y);
    StillPending(w, run, run1, p, a, b, c, x, votes);
    run', i := LeaderCommits(w, run1, a, b, c, y);
    WalkTogether(w, run1, run', a, b, c);
    StillPending(w, run1, run', p, a, b, c, x, votes);
  }

  lemma WalkTogether(w: World, run: seq<Action>, run': seq<Action>, a: string, b: string, c: string)
    requires Goes(w, run, run', a)
    ensures TheyWalk(w, run, run', [a, b, c])
  {
    assert a in [a, b, c];
  }

  lemma BackupsCommitAgain(w: World, run: seq<Action>, a: string, b: string, c: string, y: Item)
      returns (run': seq<Action>)
    requires w.F() == 1 && Distinct(After(w, run), [a, b, c]) && a != b && y.view == 1
    requires AllHaveEntered(w, After(w, run), [a, b, c], y)
    ensures TheyProceed(w, run, run', [a, b, c]) && AllHaveCommitted(w, After(w, run'), [a, b, c], a, b, y)
    ensures MayEnter(After(w, run'), [a, b, c], 1)
  {
    EnteredHavePrepared(w, After(w, run), a, b, c, y);
    run' := AllCommit(w, run, [a, b, c], a, b, y);
    CommittedMayEnter(w, After(w, run), After(w, run'), a, b, c, y);
  }

  // ---------- The second announcement ----------

  /** The first primary's vote comes late, and says nothing. */
  lemma PrimaryVotes(w: World, run: seq<Action>, p: string, x: Item) returns (run': seq<Action>, vp: ViewChange)
    requires w.F() == 1 && p in After(w, run).nodes && x.n == 1
    requires var r := After(w, run).nodes[p];
             Stage(r, x, 0, true, {}, {}, false, false) && OnlyCollects(r, 1) && r.store.lastStable.None?
    ensures Goes(w, run, run', p) && MsgViewChange(vp) in After(w, run').sent
    ensures vp.replica == p && vp.newView == 1 && vp.lastStable == 0 && vp.certificates == []
  {
    var i;
    run', i, vp := Casts(w, run, p, 1, 1);
  }

  lemma FourList(p: string, a: string, b: string, c: string, votes: Votes)
    requires votes.Keys == {a, b, c, p} && a != b && a != c && b != c && p != a && p != b && p != c
    requires forall k | k in votes :: votes[k].replica == k
    ensures |votes| == 4 && ListsVotes([votes[a], votes[b], votes[c], votes[p]], votes)
  {
    assert |votes| == |votes.Keys|;
  }

  /** It joins the votes of the backups. */
  lemma LateVoteJoins(w: World, s: System, s': System, p: string, a: string, b: string, c: string, x: Item,
                      votes: Votes, vp: ViewChange)
    requires VotesAreIn(w, s, a, votes, x) && votes.Keys == {a, b, c} && s.sent <= s'.sent && p != a
    requires MsgViewChange(vp) in s'.sent && vp.replica == p && vp.newView == 1
    requires vp.lastStable == 0 && vp.certificates == []
    ensures VotesAreIn(w, s', a, votes[p := vp], x) && votes[p := vp].Keys == {a, b, c, p}
  {
  }

  lemma CanAnnounceAgain(w: World, s: System, p: string, a: string, b: string, c: string, x: Item, all: Votes)
    requires Four(w, p, a, b, c) && w.F() == 1 && w.ring[1] == a && x == First(1, x.digest)
    requires VotesAreIn(w, s, a, all, x) && all.Keys == {a, b, c, p}
    ensures CanAnnounce(w, s, Announcing(1, a, [all[a], all[b], all[c], all[p]], x))
  {
    FourList(p, a, b, c, all);
    LeaderCanAnnounce(w, s, all, [all[a], all[b], all[c], all[p]], x, a, 1, a);
  }

  /** a announces again, with four votes, and all backups enter view 1 again. */
  lemma AllEnterAgain(w: World, run: seq<Action>, i: nat, p: string, a: string, b: string, c: string, x: Item,
                      votes: Votes)
      returns (run': seq<Action>)
    requires Four(w, p, a, b, c) && w.ring[1] == a && x == First(1, x.digest)
    requires CommittedInViewOne(w, run, i, p, a, b, c, x, votes)
    ensures HonestRun(w, run') && NoEcho(run') && CommitsAt(w, run', i, a, x.n) && Distinct(After(w, run'), [a, b, c])
    ensures AllHaveEntered(w, After(w, run'), [a, b, c], Again(x))
  {
    var run1, vp := PrimaryVotes(w, run, p, x);
    var all := votes[p := vp];
    LateVoteJoins(w, After(w, run), After(w, run1), p, a, b, c, x, votes, vp);
    CanAnnounceAgain(w, After(w, run1), p, a, b, c, x, all);
    StillMayEnter(w, run, run1, p, [a, b, c]);
    GappedIsOne(x);
    run' := AllEnter(w, run1, [a, b, c], Announcing(1, a, [all[a], all[b], all[c], all[p]], x), Again(x));
    CommitStays(w, run, run', i, a, x.n);
  }

  lemma StillMayEnter(w: World, run: seq<Action>, run': seq<Action>, p: string, qs: seq<string>)
    requires Goes(w, run, run', p) && p !in qs && MayEnter(After(w, run), qs, 1) && Distinct(After(w, run), qs)
    ensures MayEnter(After(w, run'), qs, 1) && Distinct(After(w, run'), qs)
  {
  }

  // ---------- View 2 ----------

  lemma EnteredSaysNothing(w: World, s: System, q: string, y: Item, vc: ViewChange)
    requires HasEntered(w, s, q, y) && ShowsIt(s.nodes[q], y.n, vc)
    ensures vc.certificates == []
  {
    assert |s.nodes[q].cells[s.nodes[q].txns[y.n]].votes.prepares| == |{q}|;
  }

  /** Three votes for view 2, and none shows a certificate. */
  lemma AllVoteEmpty(w: World, run: seq<Action>, a: string, b: string, c: string, y: Item)
      returns (run': seq<Action>, votes: Votes)
    requires w.F() == 1 && Distinct(After(w, run), [a, b, c]) && y.n == 1
    requires AllHaveEntered(w, After(w, run), [a, b, c], y)
    ensures TheyProceed(w, run, run', [a, b, c]) && QuorumOfVotes(w, After(w, run'), votes, 2, 1)
    ensures forall k | k in votes :: votes[k].lastStable == 0 && votes[k].certificates == []
  {
    var qs, s := [a, b, c], After(w, run);
    run', votes := AllCast(w, run, qs, 1, 2);
    AllWereSent(After(w, run'), s.nodes, qs, 1, 2, votes);
    forall k | k in votes ensures votes[k].lastStable == 0 && votes[k].certificates == [] {
      EnteredSaysNothing(w, s, k, y, votes[k]);
    }
  }

  /**
   * Nobody lies.  Number 1 is committed in view 1; then one more vote makes its leader announce the view again, all
   * backups enter it again and give up their certificates, and every leader of view 2 re-issues nothing.
   */
  lemma {:induction false} AnnouncedAgainLosesTheRequest(w: World, p: string, a: string, b: string, c: string,
                                                         req: ClientRequest)
      returns (run: seq<Action>, i: nat, votes: Votes)
    requires Four(w, p, a, b, c) && w.ring[1] == a
    ensures HonestRun(w, run) && NoEcho(run) && CommitsAt(w, run, i, a, 1)
    ensures QuorumOfVotes(w, After(w, run), votes, 2, 1)
    ensures forall result | IsLeaderResult(votes, 2, w.F(), result) :: result == Some([])
  {
    var x := First(1, w.digestOf(req));
    var run0 := BackupsCommit(w, p, a, b, c, req);
    var run1, first := AllVoteForFirst(w, run0, p, a, b, c, req);
    var run2 := AllEnterViewOne(w, run1, p, a, b, c, x, first);
    var run3;
    run3, i := AllCommitInViewOne(w, run2, p, a, b, c, x, first);
    var run4 := AllEnterAgain(w, run3, i, p, a, b, c, x, first);
    run, votes := AllVoteEmpty(w, run4, a, b, c, Again(x));
    CommitStays(w, run4, run, i, a, 1);
    forall result | IsLeaderResult(votes, 2, w.F(), result) ensures result == Some([]) {
      NothingReissued(votes, w.F(), 0, 2, result);
    }
  }
}
