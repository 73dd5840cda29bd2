/**
 * Does a committed request survive a view change?  Replicas may crash but not lie, backups may install status
 * responses, and the first primary is correct and installs none.  The new leader re-issues the request exactly
 * when no vote makes it dereference nil and some voter held the request's certificate, in a collector it had
 * not given up, when it voted; the rest is about when that is so.
 */
module Survival {
  import opened Messages
  import opened Quorums
  import opened VoteCollector
  import opened StoreModel
  import opened TransactionStates
  import opened Replicas
  import opened Systems
  import opened PreparedQuorum
  import opened FirstView
  import opened Freeze
  import opened CrashFaults
  import opened CrashRuns
  import opened KeptCollectors
  import opened ViewChangeRules
  import opened Certificates

  // ---------- What a vote says of its sender ----------

  /** `certs` has a valid certificate for number n. */
  ghost predicate Proves(f: nat, certs: seq<Certificate>, n: int) {
    exists j, pp :: 0 <= j < |certs| && Offers(certs[j], f, pp) && pp.seqNo == n
  }

  ghost predicate CertificatesFit(w: World, log: seq<ClientRequest>, certs: seq<Certificate>) {
    forall j | 0 <= j < |certs| && certs[j].preprepare.Some? :: PrePrepareFits(w, log, certs[j].preprepare.value)
  }

  /** All prepares of an honest collector are for its pre-prepare, so its certificate is valid. */
  lemma HonestCertificateIsValid(w: World, log: seq<ClientRequest>, sent: set<Message>, cell: Cell, cert: Certificate)
    requires CellOk(w, sent, cell) && VotesFit(w, log, cell) && IsComplete(cell, w.F()) && Certifies(cert, cell.votes)
    requires PrePrepareFits(w, log, cell.votes.preprepare.value)
    ensures Offers(cert, w.F(), cell.votes.preprepare.value)
  {
    var pp := cell.votes.preprepare.value;
    CertificateOfCell(w, sent, cell, cert);
    assert Supporters(cell.votes.prepares, pp.digest) == cell.votes.prepares.Keys;
  }

  /** The replica's current collector for n holds its certificate. */
  ghost predicate Has(w: World, r: Replica, n: int) {
    n in r.txns && r.txns[n] < |r.cells| && IsComplete(r.cells[r.txns[n]], w.F())
  }

  lemma HeldIsProved(w: World, q: string, log: seq<ClientRequest>, s: System, vc: ViewChange, n: int)
    requires Surviving(w, log, s) && q in s.nodes && IsVote(w.At(q), s.nodes[q], vc) && Has(w, s.nodes[q], n)
    ensures Proves(w.F(), vc.certificates, n)
  {
    var r, ref := s.nodes[q], s.nodes[q].txns[n];
    ReplicaIsSound(w, log, s, q);
    CellOfReplica(w, log, s, q, ref);
    var order :| IsSnapshotIn(r, w.F(), order, vc.certificates);
    assert HoldsPrepared(r, w.F(), n);
    var j :| 0 <= j < |order| && order[j] == n;
    assert EntryCertified(r, w.F(), order[j], vc.certificates[j]);
    assert VotesFit(w, log, r.cells[ref]);
    HonestCertificateIsValid(w, log, s.sent, r.cells[ref], vc.certificates[j]);
  }

  /** The j-th certificate is one its sender's current collector for that number holds. */
  lemma CertificateIsHeld(w: World, q: string, log: seq<ClientRequest>, s: System, vc: ViewChange, j: nat)
    requires Surviving(w, log, s) && q in s.nodes && IsVote(w.At(q), s.nodes[q], vc)
    requires j < |vc.certificates| && vc.certificates[j].preprepare.Some?
    ensures var pp := vc.certificates[j].preprepare.value; Has(w, s.nodes[q], pp.seqNo) && PrePrepareFits(w, log, pp)
  {
    var r := s.nodes[q];
    ReplicaIsSound(w, log, s, q);
    var order :| IsSnapshotIn(r, w.F(), order, vc.certificates);
    assert EntryCertified(r, w.F(), order[j], vc.certificates[j]);
    CellOfReplica(w, log, s, q, r.txns[order[j]]);
  }

  lemma ProvingCertificate(f: nat, certs: seq<Certificate>, n: int) returns (j: nat)
    requires Proves(f, certs, n)
    ensures j < |certs| && certs[j].preprepare.Some? && certs[j].preprepare.value.seqNo == n
  {
    var i, pp :| 0 <= i < |certs| && Offers(certs[i], f, pp) && pp.seqNo == n;
    j := i;
  }

  lemma ProvenIsHeld(w: World, q: string, log: seq<ClientRequest>, s: System, vc: ViewChange, n: int)
    requires Surviving(w, log, s) && q in s.nodes && IsVote(w.At(q), s.nodes[q], vc)
    requires Proves(w.F(), vc.certificates, n)
    ensures Has(w, s.nodes[q], n)
  {
    var j := ProvingCertificate(w.F(), vc.certificates, n);
    CertificateIsHeld(w, q, log, s, vc, j);
  }

  /** A vote proves exactly the numbers whose certificate its sender's current collectors hold. */
  lemma {:induction false} ProvesIff(w: World, q: string, log: seq<ClientRequest>, s: System, vc: ViewChange, n: int)
    requires Surviving(w, log, s) && q in s.nodes && IsVote(w.At(q), s.nodes[q], vc)
    ensures Proves(w.F(), vc.certificates, n) <==> Has(w, s.nodes[q], n)
  {
    if Proves(w.F(), vc.certificates, n) {
      ProvenIsHeld(w, q, log, s, vc, n);
    }
    if Has(w, s.nodes[q], n) {
      HeldIsProved(w, q, log, s, vc, n);
    }
  }

  lemma CertificatesFitLog(w: World, q: string, log: seq<ClientRequest>, s: System, vc: ViewChange)
    requires Surviving(w, log, s) && q in s.nodes && IsVote(w.At(q), s.nodes[q], vc)
    ensures CertificatesFit(w, log, vc.certificates)
  {
    forall j | 0 <= j < |vc.certificates| && vc.certificates[j].preprepare.Some?
      ensures PrePrepareFits(w, log, vc.certificates[j].preprepare.value)
    {
      CertificateIsHeld(w, q, log, s, vc, j);
    }
  }

  // ---------- The same in terms of the run ----------

  /** vc's sender held the certificate for n in its current collector when it cast vc. */
  ghost predicate HeldAtCast(w: World, run: seq<Action>, vc: ViewChange, n: int) {
    exists i :: CastAt(w, run, i, vc) && Has(w, Caster(w, run, i, vc), n)
  }

  /**
   * vc's sender did not, but some collector of it held the certificate, or had it coming: it had accepted all
   * it takes and only not yet added it, or had given the collector up.
   */
  ghost predicate DueAtCast(w: World, run: seq<Action>, vc: ViewChange, n: int) {
    && !HeldAtCast(w, run, vc, n) && (exists i :: CastAt(w, run, i, vc))
    && forall i | CastAt(w, run, i, vc) :: CompletesAt(w, Caster(w, run, i, vc), n)
  }

  /** A status response had taken vc's sender out of the view change when it cast vc, or did so later. */
  ghost predicate LeftChange(w: World, run: seq<Action>, vc: ViewChange) {
    exists i :: CastAt(w, run, i, vc)
                && !(Caster(w, run, i, vc).inViewChange && NotResetSince(w, run, i, vc.replica))
  }

  ghost predicate CompletesAt(w: World, r: Replica, n: int) {
    exists ref: nat :: ref < |r.cells| && r.cells[ref].seqNo == n && Completes(w.F(), r, ref)
  }

  /** vc's sender had 2F prepares for some number without its pre-prepare when it cast vc. */
  ghost predicate BlindAtCast(w: World, run: seq<Action>, vc: ViewChange) {
    exists i, m :: CastAt(w, run, i, vc) && IsBlind(w, Caster(w, run, i, vc), m)
  }

  ghost predicate NoSupply(r: Replica) {
    forall t | t in r.tasks :: !Supplies(t)
  }

  /** When it cast vc, its sender had run each `AddPrePrepare` and `AddPrepare` it had started, and given up nothing. */
  ghost predicate SettledAtCast(w: World, run: seq<Action>, vc: ViewChange) {
    exists i :: CastAt(w, run, i, vc) && NoSupply(Caster(w, run, i, vc)) && Kept(Caster(w, run, i, vc))
  }

  lemma NothingCompletes(w: World, r: Replica, n: int)
    requires NoSupply(r) && Kept(r) && CompletesAt(w, r, n) && n > StableNumber(r.store)
    ensures Has(w, r, n)
  {
    var ref: nat :| ref < |r.cells| && r.cells[ref].seqNo == n && Completes(w.F(), r, ref);
    assert Voters(r, ref) == r.cells[ref].votes.prepares.Keys;
    assert forall pp :: Supplies(AddPrePrepareTask(ref, pp));
  }

  /** A voter with nothing outstanding and nothing given up has nothing due. */
  lemma {:induction false} SettledIsNotDue(w: World, run: seq<Action>, vc: ViewChange, n: int)
    requires SettledAtCast(w, run, vc) && vc.lastStable < n
    ensures !DueAtCast(w, run, vc, n)
  {
    var i :| CastAt(w, run, i, vc) && NoSupply(Caster(w, run, i, vc)) && Kept(Caster(w, run, i, vc));
    if CompletesAt(w, Caster(w, run, i, vc), n) {
      NothingCompletes(w, Caster(w, run, i, vc), n);
    }
  }

  /** A voter that installs no status response has given up no collector, and stays in the view change. */
  lemma {:induction false} UnresetVoter(w: World, run: seq<Action>, i: nat, vc: ViewChange)
    requires CrashRun(w, run) && CastAt(w, run, i, vc) && NotResetSince(w, run, 0, vc.replica)
    ensures Kept(Caster(w, run, i, vc)) && !LeftChange(w, run, vc)
  {
    forall j: nat | CastAt(w, run, j, vc) ensures Kept(Caster(w, run, j, vc)) {
      CrashRunPrefix(w, run, j);
      NotResetInPrefix(w, run, 0, j, vc.replica);
      KeptUnlessReset(w, run[..j], vc.replica);
    }
  }

  ghost predicate IsBlind(w: World, r: Replica, m: int) {
    ValidRefs(r) && PreparedBlindly(r, w.F(), m)
  }

  lemma LongerLogFits(w: World, log: seq<ClientRequest>, log': seq<ClientRequest>, certs: seq<Certificate>)
    requires CertificatesFit(w, log, certs) && log <= log'
    ensures CertificatesFit(w, log', certs)
  {
  }

  /** A sent vote proves what its sender held, and breaks the leader if its sender was blind. */
  lemma {:induction false} SentVote(w: World, run: seq<Action>, vc: ViewChange, n: int)
    requires CrashRun(w, run) && MsgViewChange(vc) in After(w, run).sent && vc.lastStable < n
    ensures CertificatesFit(w, Log(w, run), vc.certificates)
    ensures Proves(w.F(), vc.certificates, n) <==> HeldAtCast(w, run, vc, n)
    ensures CarriesNil(vc) <==> BlindAtCast(w, run, vc)
  {
    var i := SentVoteWasCast(w, run, vc);
    CastVote(w, run, i, vc, n);
    if HeldAtCast(w, run, vc, n) {
      var j :| CastAt(w, run, j, vc) && Has(w, Caster(w, run, j, vc), n);
      CastVote(w, run, j, vc, n);
    }
    if BlindAtCast(w, run, vc) {
      var j, m :| CastAt(w, run, j, vc) && IsBlind(w, Caster(w, run, j, vc), m);
      CastVote(w, run, j, vc, n);
    }
  }

  lemma CastVote(w: World, run: seq<Action>, i: nat, vc: ViewChange, n: int)
    requires CrashRun(w, run) && CastAt(w, run, i, vc) && vc.lastStable < n
    ensures CertificatesFit(w, Log(w, run), vc.certificates)
    ensures Proves(w.F(), vc.certificates, n) <==> Has(w, Caster(w, run, i, vc), n)
    ensures CarriesNil(vc) <==> exists m :: IsBlind(w, Caster(w, run, i, vc), m)
  {
    CrashRunPrefix(w, run, i);
    CrashRunsSurvive(w, run[..i]);
    var s, q, log := After(w, run[..i]), vc.replica, Log(w, run[..i]);
    CertificatesFitLog(w, q, log, s, vc);
    LogGrowsWithRun(w, run, i);
    LongerLogFits(w, log, Log(w, run), vc.certificates);
    ProvesIff(w, q, log, s, vc, n);
    VoteCrashesLeaderIff(w.At(q), s.nodes[q], vc);
    assert forall m :: IsBlind(w, s.nodes[q], m) <==> PreparedBlindly(s.nodes[q], w.F(), m);
  }

  // ---------- The new leader's choice ----------

  /** Votes of distinct replicas of the run for the same new view, with stable checkpoints below n. */
  ghost predicate QuorumOfVotes(w: World, s: System, votes: Votes, newView: int, n: int) {
    && |votes| >= 2 * w.F() + 1
    && forall k | k in votes ::
         && MsgViewChange(votes[k]) in s.sent && votes[k].replica == k
         && votes[k].newView == newView && votes[k].lastStable < n
  }

  lemma OfferedFits(w: World, log: seq<ClientRequest>, votes: Votes, minSeq: int, pp: PrePrepare)
    requires forall k | k in votes :: CertificatesFit(w, log, votes[k].certificates)
    requires Offered(votes, minSeq, w.F(), pp)
    ensures PrePrepareFits(w, log, pp)
    ensures exists k :: k in votes && Proves(w.F(), votes[k].certificates, pp.seqNo)
  {
    var k, i :| k in votes && 0 <= i < |votes[k].certificates| && Offers(votes[k].certificates[i], w.F(), pp);
    assert Proves(w.F(), votes[k].certificates, pp.seqNo);
  }

  lemma ProvedIsChosen(w: World, votes: Votes, minSeq: int, maxSeq: int, chosen: map<int, PrePrepare>, k: string,
                       n: int)
    requires IsRange(votes, minSeq, maxSeq) && Selects(votes, minSeq, w.F(), chosen)
    requires k in votes && votes[k].lastStable < n && Proves(w.F(), votes[k].certificates, n)
    ensures n in chosen && minSeq < n <= maxSeq
  {
    var j, pp :| 0 <= j < |votes[k].certificates| && Offers(votes[k].certificates[j], w.F(), pp) && pp.seqNo == n;
    assert Offered(votes, minSeq, w.F(), pp);
  }

  lemma ChosenIsReissued(w: World, log: seq<ClientRequest>, view: int, minSeq: int, maxSeq: int,
                         chosen: map<int, PrePrepare>, n: int, pps: seq<PrePrepare>)
    requires Reissues(view, minSeq, maxSeq, chosen, pps) && minSeq < n <= maxSeq
    requires n in chosen && chosen[n].seqNo == n && PrePrepareFits(w, log, chosen[n])
    ensures Reissued(Some(pps), PrePrepare(view, n, w.digestOf(log[n - 1])))
  {
    assert pps[n - minSeq - 1] == PrePrepare(view, n, w.digestOf(log[n - 1]));
  }

  /** What is proved in some vote is re-issued with the log's digest, and nothing else is. */
  lemma {:induction false} ReissuedIff(w: World, log: seq<ClientRequest>, votes: Votes, view: int, n: int,
                                       pps: seq<PrePrepare>)
    requires 1 <= n <= |log| && forall k | k in votes :: votes[k].lastStable < n
    requires forall k | k in votes :: CertificatesFit(w, log, votes[k].certificates)
    requires IsReissue(votes, view, w.F(), pps)
    ensures (exists k :: k in votes && Proves(w.F(), votes[k].certificates, n))
            ==> Reissued(Some(pps), PrePrepare(view, n, w.digestOf(log[n - 1])))
    ensures w.digestOf(log[n - 1]) != "nil" && Reissued(Some(pps), PrePrepare(view, n, w.digestOf(log[n - 1])))
            ==> exists k :: k in votes && Proves(w.F(), votes[k].certificates, n)
  {
    var minSeq, maxSeq, chosen :|
      IsRange(votes, minSeq, maxSeq) && Selects(votes, minSeq, w.F(), chosen)
      && Reissues(view, minSeq, maxSeq, chosen, pps);
    if k :| k in votes && Proves(w.F(), votes[k].certificates, n) {
      ProvedIsChosen(w, votes, minSeq, maxSeq, chosen, k, n);
      OfferedFits(w, log, votes, minSeq, chosen[n]);
      ChosenIsReissued(w, log, view, minSeq, maxSeq, chosen, n, pps);
    }
    if n in chosen {
      OfferedFits(w, log, votes, minSeq, chosen[n]);
    }
  }

  /** Why a request is never mistaken for the gap filler. */
  predicate NoNilDigest(w: World, log: seq<ClientRequest>, n: int) {
    1 <= n <= |log| && w.digestOf(log[n - 1]) != "nil"
  }

  lemma LeaderMeetsVotes(w: World, run: seq<Action>, n: int, votes: Votes, newView: int,
                         result: Option<seq<PrePrepare>>)
    requires CrashRun(w, run) && QuorumOfVotes(w, After(w, run), votes, newView, n)
    requires IsLeaderResult(votes, newView, w.F(), result)
    ensures result.None? <==> exists k :: k in votes && BlindAtCast(w, run, votes[k])
    ensures forall k | k in votes ::
              && CertificatesFit(w, Log(w, run), votes[k].certificates)
              && (Proves(w.F(), votes[k].certificates, n) <==> HeldAtCast(w, run, votes[k], n))
  {
    forall k | k in votes
      ensures CertificatesFit(w, Log(w, run), votes[k].certificates)
      ensures Proves(w.F(), votes[k].certificates, n) <==> HeldAtCast(w, run, votes[k], n)
      ensures CarriesNil(votes[k]) <==> BlindAtCast(w, run, votes[k])
    {
      SentVote(w, run, votes[k], n);
    }
    assert HasNilPrePrepare(votes) <==> exists k :: k in votes && CarriesNil(votes[k]);
  }

  ghost predicate NoneLeft(w: World, run: seq<Action>, votes: Votes) {
    forall k | k in votes :: !LeftChange(w, run, votes[k])
  }

  ghost predicate NoneDue(w: World, run: seq<Action>, votes: Votes, n: int) {
    forall k | k in votes :: !DueAtCast(w, run, votes[k], n)
  }

  ghost predicate NoneBlind(w: World, run: seq<Action>, votes: Votes) {
    forall k | k in votes :: !BlindAtCast(w, run, votes[k])
  }

  /**
   * Whatever the new leader makes of 2F+1 votes of the run: it re-issues request n with the digest the first
   * primary gave it exactly when no voter was blind and some voter held n's certificate when it voted.
   */
  lemma {:induction false} ReissuedExactlyIf(w: World, run: seq<Action>, n: int, votes: Votes, newView: int,
                                             result: Option<seq<PrePrepare>>)
    requires CrashRun(w, run) && NoNilDigest(w, Log(w, run), n)
    requires QuorumOfVotes(w, After(w, run), votes, newView, n) && IsLeaderResult(votes, newView, w.F(), result)
    ensures Reissued(result, PrePrepare(newView, n, w.digestOf(Log(w, run)[n - 1])))
            <==> NoneBlind(w, run, votes) && (exists k :: k in votes && HeldAtCast(w, run, votes[k], n))
  {
    LeaderMeetsVotes(w, run, n, votes, newView, result);
    if result.Some? {
      ReissuedIff(w, Log(w, run), votes, newView, n, result.value);
    }
  }

  // ---------- Committed requests ----------

  /** Two quorums of votes and commits share F+1 replicas. */
  lemma CommittersAmongVoters(w: World, s: System, votes: Votes, committers: set<string>)
    requires |w.ring| == 3 * w.F() + 1 && s.nodes.Keys == w.Correct()
    requires |votes| >= 2 * w.F() + 1 && votes.Keys <= s.nodes.Keys
    requires |committers| >= 2 * w.F() + 1 && committers <= s.nodes.Keys
    ensures |votes.Keys * committers| >= w.F() + 1
  {
    MembersCard(w.ring);
    SubsetCard(s.nodes.Keys, w.Ids());
    QuorumsIntersect(s.nodes.Keys, w.F(), votes.Keys, committers);
  }

  lemma CommitterHeldOrDue(w: World, run: seq<Action>, vc: ViewChange, n: int)
    requires CrashRun(w, run) && MsgViewChange(vc) in After(w, run).sent && !LeftChange(w, run, vc)
    requires SaidCommitted(After(w, run).sent, vc.replica, n)
    ensures HeldAtCast(w, run, vc, n) || DueAtCast(w, run, vc, n)
  {
    var i := SentVoteWasCast(w, run, vc);
    forall i | CastAt(w, run, i, vc) ensures CompletesAt(w, Caster(w, run, i, vc), n) {
      CommitterCompletes(w, run, vc, i, n);
    }
  }

  lemma CommitterCompletes(w: World, run: seq<Action>, vc: ViewChange, i: nat, n: int)
    requires CrashRun(w, run) && CastAt(w, run, i, vc) && !LeftChange(w, run, vc)
    requires SaidCommitted(After(w, run).sent, vc.replica, n)
    ensures CompletesAt(w, Caster(w, run, i, vc), n)
  {
    CrashRunsSurvive(w, run);
    CommitterIsPrepared(w, Log(w, run), After(w, run), vc.replica, n);
    var r := After(w, run).nodes[vc.replica];
    var ref: nat :| ref < |r.cells| && r.cells[ref].seqNo == n && IsComplete(r.cells[ref], w.F());
    LaterCompletedWasDue(w, run, i, vc.replica, ref);
  }

  lemma ReplicasOnly(w: World, log: seq<ClientRequest>, s: System, n: int, committers: set<string>)
    requires Surviving(w, log, s) && forall k | k in committers :: SaidCommitted(s.sent, k, n)
    ensures committers <= s.nodes.Keys && s.nodes.Keys == w.Correct()
  {
    forall k | k in committers ensures k in s.nodes {
      CommitterIsPrepared(w, log, s, k, n);
    }
  }

  /** A sender of a commit for n held n's certificate at its vote, had it due, or left the view change. */
  ghost predicate Witness(w: World, run: seq<Action>, vc: ViewChange, n: int) {
    HeldAtCast(w, run, vc, n) || DueAtCast(w, run, vc, n) || LeftChange(w, run, vc)
  }

  /**
   * With N = 3F+1 replicas, once n is committed anywhere: of any 2F+1 voters, at least F+1 held n's
   * certificate when they voted, had it due, or left the view change.
   */
  lemma {:induction false} CommittersVote(w: World, run: seq<Action>, i: nat, q: string, n: int, votes: Votes,
                                          newView: int)
      returns (witnesses: set<string>)
    requires |w.ring| == 3 * w.F() + 1 && CrashRun(w, run) && CommitsAt(w, run, i, q, n)
    requires QuorumOfVotes(w, After(w, run), votes, newView, n)
    ensures 1 <= n <= |Log(w, run)|
    ensures witnesses <= votes.Keys && |witnesses| >= w.F() + 1
    ensures forall k | k in witnesses :: k in votes && Witness(w, run, votes[k], n)
  {
    var committers := Committers(w, run, i, q, n);
    VotersAreReplicas(w, run, votes, newView, n);
    CommittersAmongVoters(w, After(w, run), votes, committers);
    witnesses := votes.Keys * committers;
    forall k | k in witnesses ensures Witness(w, run, votes[k], n) {
      if !LeftChange(w, run, votes[k]) {
        CommitterHeldOrDue(w, run, votes[k], n);
      }
    }
  }

  lemma Committers(w: World, run: seq<Action>, i: nat, q: string, n: int) returns (committers: set<string>)
    requires CrashRun(w, run) && CommitsAt(w, run, i, q, n)
    ensures 1 <= n <= |Log(w, run)| && After(w, run).nodes.Keys == w.Correct()
    ensures |committers| >= 2 * w.F() + 1 && committers <= After(w, run).nodes.Keys
    ensures forall k | k in committers :: SaidCommitted(After(w, run).sent, k, n)
  {
    CrashRunsSurvive(w, run);
    committers := CommittersInRun(w, run, i, q, n);
    ReplicasOnly(w, Log(w, run), After(w, run), n, committers);
    var k :| k in committers;
    CommitterIsPrepared(w, Log(w, run), After(w, run), k, n);
  }

  lemma VotersAreReplicas(w: World, run: seq<Action>, votes: Votes, newView: int, n: int)
    requires CrashRun(w, run) && QuorumOfVotes(w, After(w, run), votes, newView, n)
    ensures votes.Keys <= After(w, run).nodes.Keys
  {
    forall k | k in votes ensures k in After(w, run).nodes {
      var i := SentVoteWasCast(w, run, votes[k]);
      CrashRunPrefix(w, run, i);
      CrashRunsSurvive(w, run[..i]);
      CrashRunsSurvive(w, run);
    }
  }

  /**
   * So, with N = 3F+1, once n is committed anywhere: unless a voter had its certificate only due, or left the
   * view change, the new leader re-issues n, with exactly the digest the first primary gave it, if and only if
   * no voter was blind.
   */
  lemma {:induction false} CommittedRequestSurvives(w: World, run: seq<Action>, i: nat, q: string, n: int,
                                                    votes: Votes, newView: int, result: Option<seq<PrePrepare>>)
    requires |w.ring| == 3 * w.F() + 1 && CrashRun(w, run) && CommitsAt(w, run, i, q, n)
    requires QuorumOfVotes(w, After(w, run), votes, newView, n) && IsLeaderResult(votes, newView, w.F(), result)
    ensures 1 <= n <= |Log(w, run)|
    ensures NoneDue(w, run, votes, n) && NoneLeft(w, run, votes) ==>
              (Reissued(result, PrePrepare(newView, n, w.digestOf(Log(w, run)[n - 1]))) <==> NoneBlind(w, run, votes))
  {
    var witnesses := CommittersVote(w, run, i, q, n, votes, newView);
    var k :| k in witnesses;
    LeaderMeetsVotes(w, run, n, votes, newView, result);
    if result.Some? {
      ReissuedIff(w, Log(w, run), votes, newView, n, result.value);
    }
  }
}
