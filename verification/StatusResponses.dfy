/**
 * What an honest status response (`handleStatusResponse` in `pbft/node.go`) can undo.  Number 1 is executed by the
 * first primary and its checkpoint becomes stable at a backup, number 2 is committed, and then status responses make
 * all three backups give up their certificates for number 2 before they vote.
 */
module StatusResponses {
  import opened Messages
  import opened StoreModel
  import opened Replicas
  import opened Systems
  import opened FirstView
  import opened CrashFaults
  import opened CrashRuns
  import opened ViewChangeRules
  import opened Survival
  import opened Scripts
  import opened Scenes
  import opened JointScenes
  import opened FirstNumberCommitted
  import opened FirstNumberExecuted
  import opened ThreeVotes

  /** After a replica has installed a status response, its vote has no certificates, though it held them all along. */
  lemma {:induction false} InstalledStatusEmptiesTheVote(cfg: Config, r: Replica, k: int, proof: seq<Checkpoint>,
                                                         newView: int, vc: ViewChange)
    requires Installs(r, k, proof)
    requires IsVote(cfg, HandleTimeout(HandleStatus(cfg, r, k, proof).replica, newView).replica, vc)
    ensures vc.certificates == [] && HandleStatus(cfg, r, k, proof).replica.cells == r.cells
    ensures k == StableNumber(r.store) ==> vc.lastStable == k
  {
    var r' := HandleTimeout(HandleStatus(cfg, r, k, proof).replica, newView).replica;
    var order :| IsSnapshotIn(r', cfg.F(), order, vc.certificates);
    if vc.certificates != [] {
      FirstIsCollected(r', cfg.F(), order, vc.certificates);
    }
  }

  lemma FirstIsCollected(r: Replica, f: nat, order: seq<int>, certs: seq<Certificate>)
    requires ValidRefs(r) && IsSnapshotIn(r, f, order, certs) && certs != []
    ensures r.txns != map[]
  {
    assert EntryCertified(r, f, order[0], certs[0]);
  }

  // ---------- The status response ----------

  lemma Answers(w: World, run: seq<Action>, p: string, q: string, k: int, proof: Proof) returns (run': seq<Action>)
    requires p in After(w, run).nodes
    requires After(w, run).nodes[p].store.lastStable == Some(proof) && k == proof[0].seqNo
    ensures Goes(w, run, run', p) && MsgStatus(q, k, proof) in After(w, run').sent
    ensures After(w, run').nodes[p] == After(w, run).nodes[p]
  {
    var r := After(w, run).nodes[p];
    ActsAloud(w, run, p, OnStatusRequest(q), r, MsgStatus(q, k, proof));
    GoesOn(w, run, Action(p, OnStatusRequest(q)), r, {MsgStatus(q, k, proof)});
    run' := run + [Action(p, OnStatusRequest(q))];
  }

  /** q has no stable checkpoint, or this one. */
  ghost predicate KnowsAtMost(r: Replica, proof: Proof) {
    r.store.lastStable.None? || r.store.lastStable == Some(proof)
  }

  lemma Installing(w: World, run: seq<Action>, q: string, proof: Proof) returns (run': seq<Action>)
    requires q in After(w, run).nodes && q != Primary(w)
    requires MsgStatus(q, 1, proof) in After(w, run).sent && proof[0].seqNo == 1
    requires KnowsAtMost(After(w, run).nodes[q], proof)
    ensures Proceeds(w, run, run', q)
    ensures After(w, run').nodes[q].txns == map[] && After(w, run').nodes[q].store.lastStable == Some(proof)
  {
    var a, r := Action(q, OnStatus(1, proof)), After(w, run).nodes[q];
    ActsQuietly(w, run, q, OnStatus(1, proof), HandleStatus(w.At(q), r, 1, proof).replica);
    ActionStaysHonest(w, run, a);
    run' := run + [a];
  }

  /** A vote that speaks for nothing above number 1. */
  ghost predicate SaysNothing(s: System, q: string, vc: ViewChange) {
    Voted(s, q, 1, vc) && vc.certificates == []
  }

  lemma VotesEmpty(w: World, run: seq<Action>, q: string, proof: Proof) returns (run': seq<Action>, vc: ViewChange)
    requires w.F() == 1 && q in After(w, run).nodes && proof[0].seqNo == 1
    requires After(w, run).nodes[q].txns == map[] && After(w, run).nodes[q].store.lastStable == Some(proof)
    ensures Goes(w, run, run', q) && SaysNothing(After(w, run'), q, vc)
    ensures After(w, run').nodes[q].store.lastStable == Some(proof)
  {
    var i;
    run', i, vc := Casts(w, run, q, 2, 1);
  }

  ghost predicate Knows(s: System, p: string, proof: Proof) {
    p in s.nodes && s.nodes[p].store.lastStable == Some(proof) && proof[0].seqNo == 1
  }

  /** q asks p for its status, installs the answer, and votes. */
  lemma Loses(w: World, run: seq<Action>, p: string, q: string, proof: Proof)
      returns (run': seq<Action>, vc: ViewChange)
    requires w.F() == 1 && Knows(After(w, run), p, proof) && q in After(w, run).nodes && q != p && q != Primary(w)
    requires KnowsAtMost(After(w, run).nodes[q], proof)
    ensures Proceeds(w, run, run', q) && SaysNothing(After(w, run'), q, vc)
    ensures Knows(After(w, run'), q, proof) && Knows(After(w, run'), p, proof)
  {
    var run1 := Answers(w, run, p, q, 1, proof);
    var run2 := Installing(w, run1, q, proof);
    run', vc := VotesEmpty(w, run2, q, proof);
  }

  /** a asks c, then b and c ask a. */
  lemma AllLose(w: World, run: seq<Action>, a: string, b: string, c: string, proof: Proof)
      returns (run': seq<Action>, va: ViewChange, vb: ViewChange, vc: ViewChange)
    requires w.F() == 1 && Primary(w) != a && Primary(w) != b && Primary(w) != c && a != b && a != c && b != c
    requires {a, b, c} <= After(w, run).nodes.Keys && Knows(After(w, run), c, proof)
    requires KnowsAtMost(After(w, run).nodes[a], proof) && KnowsAtMost(After(w, run).nodes[b], proof)
    ensures StaysCrashRun(w, run, run') && run <= run'
    ensures SaysNothing(After(w, run'), a, va) && SaysNothing(After(w, run'), b, vb)
    ensures SaysNothing(After(w, run'), c, vc)
  {
    var run1, run2;
    run1, va := Loses(w, run, c, a, proof);
    run2, vb := Loses(w, run1, a, b, proof);
    run', vc := Loses(w, run2, a, c, proof);
  }

  // ---------- Number 2 ----------

  lemma CommittedAwaits(w: World, r: Replica, q: string, k: string, x: Item, x': Item)
    requires CommittedBackup(r, w, q, k, x) && Primary(w) != q && x == First(1, x.digest)
    requires x' == First(2, x'.digest) && w.window >= 2
    ensures Awaits(w, r, q, x') && r.store.lastStable.None?
  {
  }

  /** A replica that has only learned that number 1 is stable. */
  lemma LearnedAwaits(w: World, r: Replica, q: string, proof: Proof, x: Item)
    requires Stabilised(NewReplica(w.At(q)), r, proof) && proof[0].seqNo == 1 && Primary(w) != q
    requires x == First(2, x.digest) && w.window >= 1
    ensures Awaits(w, r, q, x) && r.store.lastStable == Some(proof)
  {
  }

  lemma ExecutedNumbers(w: World, r: Replica, p: string)
    requires Executed(r, w, p) && w.maxOutstanding >= 1
    ensures Numbers(w, r, p)
  {
  }

  lemma SecondNumbered(w: World, run: seq<Action>, p: string, req: ClientRequest) returns (run': seq<Action>)
    requires w.window >= 2 && w.maxOutstanding >= 1
    requires p in After(w, run).nodes && Executed(After(w, run).nodes[p], w, p)
    ensures Goes(w, run, run', p)
    ensures var x := First(2, w.digestOf(req));
            && PrimaryNumbered(w, After(w, run').nodes[p], p, x)
            && MsgPrePrepare(PP(x), Some([req])) in After(w, run').sent
  {
    ExecutedNumbers(w, After(w, run).nodes[p], p);
    run' := NumbersRequest(w, run, p, req);
  }

  ghost predicate Ready(w: World, r: Replica, q: string, x: Item, proof: Proof) {
    Awaits(w, r, q, x) && KnowsAtMost(r, proof)
  }

  /** c knows number 1 to be stable, and the backups wait for number 2, which the primary has given out. */
  ghost predicate SecondOpened(w: World, run: seq<Action>, p: string, a: string, b: string, c: string,
                               req: ClientRequest, proof: Proof) {
    var x, s := First(2, w.digestOf(req)), After(w, run);
    && w.F() == 1 && CrashRun(w, run) && NoEcho(run) && {p, a, b, c} <= s.nodes.Keys
    && PrimaryNumbered(w, s.nodes[p], p, x) && Knows(s, c, proof)
    && Ready(w, s.nodes[a], a, x, proof) && Ready(w, s.nodes[b], b, x, proof) && Ready(w, s.nodes[c], c, x, proof)
    && MsgPrePrepare(PP(x), Some([req])) in s.sent
  }

  lemma BackupsAreReady(w: World, run: seq<Action>, p: string, a: string, b: string, c: string, req: ClientRequest,
                        x: Item, proof: Proof)
    requires Four(w, p, a, b, c) && FirstCommitted(w, run, p, a, b, c, req) && w.window >= 2
    requires x == First(2, x.digest)
    ensures Ready(w, After(w, run).nodes[a], a, x, proof) && Ready(w, After(w, run).nodes[b], b, x, proof)
  {
    var first := First(1, w.digestOf(req));
    CommittedAwaits(w, After(w, run).nodes[a], a, b, first, x);
    CommittedAwaits(w, After(w, run).nodes[b], b, a, first, x);
  }

  lemma OpensSecond(w: World, p: string, a: string, b: string, c: string, req: ClientRequest, req': ClientRequest)
      returns (run: seq<Action>, proof: Proof)
    requires Four(w, p, a, b, c) && w.interval == 1 && w.window >= 2
    ensures SecondOpened(w, run, p, a, b, c, req', proof)
  {
    var i, run1;
    var checkpoint, x := FirstCheckpoint(p, req), First(2, w.digestOf(req'));
    proof := [checkpoint, checkpoint, checkpoint];
    run1, i := CommitsFirst(w, p, a, b, c, req);
    BackupsAreReady(w, run1, p, a, b, c, req, x, proof);
    run := OpensAfter(w, run1, p, a, b, c, First(1, w.digestOf(req)), req, req', proof);
  }

  lemma OpensAfter(w: World, run: seq<Action>, p: string, a: string, b: string, c: string, x: Item, req: ClientRequest,
                   req': ClientRequest, proof: Proof)
      returns (run': seq<Action>)
    requires Four(w, p, a, b, c) && w.interval == 1 && w.window >= 2 && x == First(1, x.digest) && w.F() == 1
    requires CrashRun(w, run) && NoEcho(run) && {p, a, b, c} <= After(w, run).nodes.Keys
    requires CommittedPrimary(After(w, run).nodes[p], w, p, a, b, x, req)
    requires proof == [FirstCheckpoint(p, req), FirstCheckpoint(p, req), FirstCheckpoint(p, req)]
    requires After(w, run).nodes[c] == NewReplica(w.At(c))
    requires var y := First(2, w.digestOf(req'));
             Ready(w, After(w, run).nodes[a], a, y, proof) && Ready(w, After(w, run).nodes[b], b, y, proof)
    ensures SecondOpened(w, run', p, a, b, c, req', proof)
  {
    var run1 := ExecutesFirst(w, run, p, a, b, x, req);
    var run2 := SecondNumbered(w, run1, p, req');
    GoesFurther(w, run, run1, run2, p);
    run' := Stabilises(w, run2, c, FirstCheckpoint(p, req));
    LearnedAwaits(w, After(w, run').nodes[c], c, proof, First(2, w.digestOf(req')));
  }

  // ---------- The whole run ----------

  /** Number 2 is committed everywhere; c knows number 1 to be stable, and the others may. */
  ghost predicate SecondCommitted(w: World, run: seq<Action>, a: string, b: string, c: string, proof: Proof) {
    var s := After(w, run);
    && w.F() == 1 && CrashRun(w, run) && NoEcho(run) && {a, b, c} <= s.nodes.Keys && Knows(s, c, proof)
    && KnowsAtMost(s.nodes[a], proof) && KnowsAtMost(s.nodes[b], proof)
  }

  lemma BackupsCommitSecond(w: World, run: seq<Action>, p: string, a: string, b: string, c: string, req: ClientRequest,
                            proof: Proof)
      returns (run': seq<Action>)
    requires Four(w, p, a, b, c) && SecondOpened(w, run, p, a, b, c, req, proof)
    ensures SecondCommitted(w, run', a, b, c, proof)
    ensures var x, s := First(2, w.digestOf(req)), After(w, run');
            && p in s.nodes && PrimaryNumbered(w, s.nodes[p], p, x)
            && AllHaveCommitted(w, s, [a, b, c], a, b, x)
  {
    run' := AllBackAndCommit(w, run, [a, b, c], a, b, First(2, w.digestOf(req)), Some([req]));
    StillKnow(w, run, run', a, b, c, First(2, w.digestOf(req)), proof);
  }

  lemma StillKnow(w: World, run: seq<Action>, run': seq<Action>, a: string, b: string, c: string, x: Item, proof: Proof)
    requires w.F() == 1 && CrashRun(w, run) && NoEcho(run) && {a, b, c} <= After(w, run).nodes.Keys
    requires Ready(w, After(w, run).nodes[a], a, x, proof) && Ready(w, After(w, run).nodes[b], b, x, proof)
    requires Knows(After(w, run), c, proof) && TheyProceed(w, run, run', [a, b, c])
    requires AllSameOtherwise(After(w, run), After(w, run'), [a, b, c], x.n)
    ensures SecondCommitted(w, run', a, b, c, proof)
  {
    assert a in [a, b, c] && b in [a, b, c] && c in [a, b, c];
  }

  lemma CommitsSecond(w: World, run: seq<Action>, p: string, a: string, b: string, c: string, req: ClientRequest,
                      proof: Proof)
      returns (run': seq<Action>, i: nat)
    requires Four(w, p, a, b, c) && SecondOpened(w, run, p, a, b, c, req, proof)
    ensures SecondCommitted(w, run', a, b, c, proof) && CommitsAt(w, run', i, p, 2)
    ensures AllHaveCommitted(w, After(w, run'), [a, b, c], a, b, First(2, w.digestOf(req)))
  {
    var x := First(2, w.digestOf(req));
    var run1 := BackupsCommitSecond(w, run, p, a, b, c, req, proof);
    TheyHaveSaidSo(w, After(w, run1), a, b, c, x);
    run', i := PrimaryCommitsSecond(w, run1, p, a, b, c, x);
    NotAmong(p, a, b, c);
    StillCommitted(w, run1, run', p, [a, b, c], a, b, x);
    KnowledgeStays(w, run1, run', p, a, b, c, proof);
  }

  lemma KnowledgeStays(w: World, run: seq<Action>, run': seq<Action>, p: string, a: string, b: string, c: string,
                       proof: Proof)
    requires SecondCommitted(w, run, a, b, c, proof) && Proceeds(w, run, run', p) && p != a && p != b && p != c
    ensures SecondCommitted(w, run', a, b, c, proof)
  {
  }

  lemma EmptyVotes(w: World, s: System, a: string, b: string, c: string, va: ViewChange, vb: ViewChange, vc: ViewChange)
    requires w.F() == 1 && a != b && a != c && b != c
    requires SaysNothing(s, a, va) && SaysNothing(s, b, vb) && SaysNothing(s, c, vc)
    ensures var votes := Ballot(a, b, c, va, vb, vc);
            && QuorumOfVotes(w, s, votes, 1, 2)
            && forall result | IsLeaderResult(votes, 1, w.F(), result) :: result == Some([])
  {
    var votes := Ballot(a, b, c, va, vb, vc);
    ThreeAreAQuorum(w, s, a, b, c, va, vb, vc, 1, 2);
    forall result | IsLeaderResult(votes, 1, w.F(), result) ensures result == Some([]) {
      NothingReissued(votes, w.F(), 1, 1, result);
    }
  }

  /**
   * Nobody lies, and number 2 is committed at the first primary, with its certificate at all three backups; each of
   * them installs a status response before it votes, and every new leader re-issues nothing.
   */
  lemma {:induction false} StatusResponsesLoseTheRequest(w: World, p: string, a: string, b: string, c: string,
                                                         req: ClientRequest, req': ClientRequest)
      returns (run: seq<Action>, i: nat, votes: Votes)
    requires Four(w, p, a, b, c) && w.interval == 1 && w.window >= 2
    ensures CrashRun(w, run) && NoEcho(run) && CommitsAt(w, run, i, p, 2)
    ensures QuorumOfVotes(w, After(w, run), votes, 1, 2)
    ensures forall result | IsLeaderResult(votes, 1, w.F(), result) :: result == Some([])
  {
    var run1, proof := OpensSecond(w, p, a, b, c, req, req');
    var run2, va, vb, vc;
    run2, i := CommitsSecond(w, run1, p, a, b, c, req', proof);
    run, va, vb, vc := AllLose(w, run2, a, b, c, proof);
    CommitStays(w, run2, run, i, p, 2);
    votes := Ballot(a, b, c, va, vb, vc);
    EmptyVotes(w, After(w, run), a, b, c, va, vb, vc);
  }
}
