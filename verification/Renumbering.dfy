/**
 * Numbers that `pbft/node.go` gives out twice.  `handleStatusResponse` sets the primary's counter to one above the
 * reported stable number, so a run in which the first primary installs a status response has no log; and
 * `HandleNewViewRequest` sets a new leader's counter to the smallest number it re-issues.
 */
module Renumbering {
  import opened Messages
  import opened Decimal
  import opened StoreModel
  import opened Replicas
  import opened Systems
  import opened FirstView
  import opened CrashFaults
  import opened CrashRuns
  import opened HonestViews
  import opened Scripts
  import opened Scenes
  import opened FirstNumberCommitted
  import opened FirstNumberExecuted
  import opened StatusResponses

  /** The pre-prepare of the first view for number n, as the first primary sends it for `req`. */
  function Assigned(w: World, n: int, req: ClientRequest): Message {
    MsgPrePrepare(PrePrepare(0, n, w.digestOf(req)), Some([req]))
  }

  lemma StepAssigns(w: World, s: System, a: Action, log: seq<ClientRequest>)
    requires SystemFits(w, log, s) && Enabled(w, s, a) && StaysInFirstView(w, s, a)
    ensures var o := Step(w.At(a.who), s.nodes[a.who], a.input);
            Logged(o.sent) != [] ==>
              |Logged(o.sent)| == 1 && o.sent == [Assigned(w, |log| + 1, Logged(o.sent)[0])]
  {
    StepFits(w, s, a, log);
  }

  /** Each request of the log was sent with its number. */
  lemma {:induction false} LoggedWasAssigned(w: World, run: seq<Action>, n: int)
    requires FirstViewRun(w, run) && 1 <= n <= |Log(w, run)|
    ensures Assigned(w, n, Log(w, run)[n - 1]) in After(w, run).sent
  {
    var before, a := run[..|run| - 1], run[|run| - 1];
    assert forall i | 0 <= i < |before| :: before[..i] == run[..i];
    if n <= |Log(w, before)| {
      LoggedWasAssigned(w, before, n);
    } else {
      RunsFit(w, before);
      StepAssigns(w, After(w, before), a, Log(w, before));
    }
  }

  /** The first primary, behind an honest status response with stable number k. */
  lemma PrimaryAfterStatus(w: World, r: Replica, k: int, proof: seq<Checkpoint>, req: ClientRequest)
    requires Installs(r, k, proof) && MaxView(proof) == 0 && w.maxOutstanding >= 1
    ensures var p := Primary(w);
            HandleClient(w.At(p), HandleStatus(w.At(p), r, k, proof).replica, req).sent == [Assigned(w, k + 2, req)]
  {
  }

  lemma StatusKeepsToFirstView(w: World, run: seq<Action>, q: string, k: int, proof: seq<Checkpoint>)
    requires CrashRun(w, run) && MsgStatus(q, k, proof) in After(w, run).sent
    ensures MaxView(proof) == 0 && k <= |Log(w, run)|
  {
    CrashRunsSurvive(w, run);
    assert MessageFits(w, Log(w, run), MsgStatus(q, k, proof));
    FirstViewProof(Log(w, run), proof);
  }

  ghost predicate WasAssigned(w: World, run: seq<Action>, n: int) {
    exists req :: Assigned(w, n, req) in After(w, run).sent
  }

  lemma AssignedIffLogged(w: World, run: seq<Action>, n: int)
    requires CrashRun(w, run)
    ensures WasAssigned(w, run, n) <==> 1 <= n <= |Log(w, run)|
  {
    CrashRunsStayInFirstView(w, run);
    RunsFit(w, run);
    if 1 <= n <= |Log(w, run)| {
      LoggedWasAssigned(w, run, n);
    }
  }

  /**
   * Whenever the first primary of a crash run installs a status response with stable number k, the next request it
   * handles gets number k + 2.  It has given that number out before exactly if its log has that many requests; and
   * as k is at most the log's length, at most one number is left out.
   */
  lemma {:induction false} PrimaryNumbersAgainIff(w: World, run: seq<Action>, k: int, proof: seq<Checkpoint>,
                                                  req: ClientRequest)
      returns (run': seq<Action>)
    requires CrashRun(w, run) && w.maxOutstanding >= 1 && Primary(w) in After(w, run).nodes
    requires MsgStatus(Primary(w), k, proof) in After(w, run).sent
    requires Installs(After(w, run).nodes[Primary(w)], k, proof)
    ensures run' == run + [Action(Primary(w), OnStatus(k, proof))] + [Action(Primary(w), Client(req))]
    ensures Assigned(w, k + 2, req) in After(w, run').sent
    ensures WasAssigned(w, run, k + 2) <==> 1 <= k + 2 <= |Log(w, run)|
    ensures k <= |Log(w, run)|
  {
    var p, r := Primary(w), After(w, run).nodes[Primary(w)];
    StatusKeepsToFirstView(w, run, p, k, proof);
    PrimaryAfterStatus(w, r, k, proof, req);
    var run1 := run + [Action(p, OnStatus(k, proof))];
    run' := run1 + [Action(p, Client(req))];
    Acts(w, run, p, OnStatus(k, proof));
    Acts(w, run1, p, Client(req));
    AssignedIffLogged(w, run, k + 2);
  }

  /** The primary has given number 3 to `req`, and been answered by a peer that knows number 1 to be stable. */
  ghost predicate ReadyToRenumber(w: World, run: seq<Action>, p: string, proof: Proof, req: ClientRequest) {
    && CrashRun(w, run) && NoEcho(run) && p in After(w, run).nodes && Primary(w) == p
    && Assigned(w, 3, req) in After(w, run).sent
    && MsgStatus(p, 1, proof) in After(w, run).sent && Installs(After(w, run).nodes[p], 1, proof)
  }

  lemma NumbersTwoMore(w: World, run: seq<Action>, p: string, req: ClientRequest) returns (run': seq<Action>)
    requires p in After(w, run).nodes && Executed(After(w, run).nodes[p], w, p) && w.maxOutstanding >= 2
    ensures Goes(w, run, run', p) && Assigned(w, 3, req) in After(w, run').sent
    ensures After(w, run').nodes[p].store.lastStable.None?
  {
    var run1 := NumbersRequest(w, run, p, req);
    assert {} + {2} == {2};
    run' := NumbersRequest(w, run1, p, req);
    GoesFurther(w, run, run1, run', p);
  }

  lemma PeerAnswers(w: World, run: seq<Action>, c: string, p: string, checkpoint: Checkpoint)
      returns (run': seq<Action>, proof: Proof)
    requires w.F() == 1 && c in After(w, run).nodes && After(w, run).nodes[c] == NewReplica(w.At(c))
    requires MsgCheckpoint(checkpoint) in After(w, run).sent && checkpoint.seqNo == 1 && checkpoint.replica != c
    ensures Goes(w, run, run', c) && MsgStatus(p, 1, proof) in After(w, run').sent
  {
    var run1 := Stabilises(w, run, c, checkpoint);
    proof := [checkpoint, checkpoint, checkpoint];
    run' := Answers(w, run1, c, p, 1, proof);
    GoesFurther(w, run, run1, run', c);
  }

  lemma GetsReady(w: World, p: string, a: string, b: string, c: string, req: ClientRequest)
      returns (run: seq<Action>, proof: Proof)
    requires Four(w, p, a, b, c) && w.interval == 1 && w.maxOutstanding >= 2
    ensures ReadyToRenumber(w, run, p, proof, req)
  {
    var i, run1;
    run1, i := CommitsFirst(w, p, a, b, c, req);
    run, proof := GetsReadyFrom(w, run1, p, a, b, c, First(1, w.digestOf(req)), req);
  }

  lemma GetsReadyFrom(w: World, run: seq<Action>, p: string, a: string, b: string, c: string, x: Item,
                      req: ClientRequest)
      returns (run': seq<Action>, proof: Proof)
    requires w.F() == 1 && CrashRun(w, run) && NoEcho(run) && {p, c} <= After(w, run).nodes.Keys && p != c
    requires Primary(w) == p && w.interval == 1 && w.maxOutstanding >= 2 && x == First(1, x.digest)
    requires CommittedPrimary(After(w, run).nodes[p], w, p, a, b, x, req)
    requires After(w, run).nodes[c] == NewReplica(w.At(c))
    ensures ReadyToRenumber(w, run', p, proof, req)
  {
    var run1 := PrimaryGoesOn(w, run, p, a, b, x, req);
    run', proof := PeerAnswers(w, run1, c, p, FirstCheckpoint(p, req));
  }

  lemma PrimaryGoesOn(w: World, run: seq<Action>, p: string, a: string, b: string, x: Item, req: ClientRequest)
      returns (run': seq<Action>)
    requires p in After(w, run).nodes && Primary(w) == p && w.interval == 1 && w.maxOutstanding >= 2
    requires x == First(1, x.digest) && CommittedPrimary(After(w, run).nodes[p], w, p, a, b, x, req)
    ensures Goes(w, run, run', p) && After(w, run').nodes[p].store.lastStable.None?
    ensures {Assigned(w, 3, req), MsgCheckpoint(FirstCheckpoint(p, req))} <= After(w, run').sent
  {
    var run1 := ExecutesFirst(w, run, p, a, b, x, req);
    run' := NumbersTwoMore(w, run1, p, req);
    GoesFurther(w, run, run1, run', p);
  }

  /** And it does so in a run of four honest replicas: number 3 of the first view is given to any two requests. */
  lemma {:induction false} PrimaryNumbersTwice(w: World, p: string, a: string, b: string, c: string,
                                               req: ClientRequest, req': ClientRequest)
      returns (run: seq<Action>)
    requires Four(w, p, a, b, c) && w.interval == 1 && w.maxOutstanding >= 2
    ensures HonestRun(w, run) && NoEcho(run)
    ensures Assigned(w, 3, req) in After(w, run).sent && Assigned(w, 3, req') in After(w, run).sent
  {
    var run0, proof := GetsReady(w, p, a, b, c, req);
    run := PrimaryNumbersAgainIff(w, run0, 1, proof, req');
    var a1, a2 := Action(p, OnStatus(1, proof)), Action(p, Client(req'));
    CrashRunIsHonest(w, run0);
    HonestRunGoesOn(w, run0, a1);
    HonestRunGoesOn(w, run0 + [a1], a2);
    SentStillSent(w, run0, run);
  }

  lemma SentStillSent(w: World, run: seq<Action>, run': seq<Action>)
    requires run <= run'
    ensures After(w, run).sent <= After(w, run').sent
  {
    assert run'[..|run|] == run;
    SentStays(w, run', |run|);
  }

  // ---------- A new leader ----------

  /** The re-issued numbers follow each other. */
  predicate Consecutive(pps: seq<PrePrepare>, first: int) {
    forall i | 0 <= i < |pps| :: pps[i].seqNo == first + i
  }

  lemma {:induction false} FirstIsSmallest(pps: seq<PrePrepare>, first: int)
    requires Consecutive(pps, first) && pps != [] && first <= MAX_INT64
    ensures MinNumber(pps) == first
  {
    if |pps| > 1 {
      FirstIsSmallest(pps[..|pps| - 1], first);
    } else {
      assert MinNumber(pps[..0]) == MAX_INT64;
    }
  }

  lemma {:induction false} InstallKeepsCounters(cfg: Config, r: Replica, pps: seq<PrePrepare>)
    ensures var r' := Install(cfg, r, pps).replica;
            && r'.view == r.view && r'.leader == r.leader && r'.inViewChange == r.inViewChange
            && r'.lastSeq == r.lastSeq && r'.inProgress == r.inProgress
  {
    if pps != [] {
      InstallKeepsCounters(cfg, r, pps[..|pps| - 1]);
    }
  }

  /**
   * A leader enters the view it has announced with the smallest re-issued number as its counter.  So the number of
   * its first request is one that it has just re-issued, exactly if it has re-issued more than one.
   */
  lemma {:induction false} NewLeaderNumbersAgainIff(cfg: Config, r: Replica, nv: NewView, minSeq: int,
                                                    req: ClientRequest)
      returns (n: int)
    requires r.view <= nv.newView && nv.replica == cfg.id && cfg.maxOutstanding >= 1
    requires HandleNewView(cfg, r, nv).Some?
    requires Consecutive(nv.preprepares, minSeq + 1) && minSeq + 1 < MAX_INT64
    ensures HandleClient(cfg, HandleNewView(cfg, r, nv).value.replica, req).sent
         == [MsgPrePrepare(PrePrepare(nv.newView, n, cfg.digestOf(req)), Some([req]))]
    ensures (exists pp :: pp in nv.preprepares && pp.seqNo == n) <==> |nv.preprepares| >= 2
    ensures nv.preprepares != [] ==> n == minSeq + 2
  {
    var pps := nv.preprepares;
    n := FirstNumber(nv) + 1;
    InstallKeepsCounters(cfg, EnterView(r, nv.newView, FirstNumber(nv), nv.replica), pps);
    if pps != [] {
      FirstIsSmallest(pps, minSeq + 1);
    }
    SecondIsAmong(pps, minSeq + 1, n);
  }

  lemma SecondIsAmong(pps: seq<PrePrepare>, first: int, n: int)
    requires Consecutive(pps, first) && (pps != [] ==> n == first + 1)
    ensures (exists pp :: pp in pps && pp.seqNo == n) <==> |pps| >= 2
  {
    if |pps| >= 2 {
      assert pps[1] in pps && pps[1].seqNo == n;
    }
  }
}
