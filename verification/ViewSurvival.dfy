/**
 * Does a request that was committed in some view survive the next view change?  As in the first view, when the view
 * has one digest per number and nobody lies: unless a voter gave the certificate up, had it only coming, or left the
 * view change, the new leader re-issues the request exactly if no vote makes it dereference nil.
 */
module ViewSurvival {
  import opened Messages
  import opened VoteCollector
  import opened StoreModel
  import opened TransactionStates
  import opened Replicas
  import opened Systems
  import opened PreparedQuorum
  import opened Freeze
  import opened FirstView
  import opened CrashFaults
  import opened CrashRuns
  import opened ViewChangeRules
  import opened Certificates
  import opened Survival
  import opened HonestViews
  import opened ViewAgreement

  // ---------- Certificates of the view ----------

  /** Some collector of view v holds n's certificate. */
  ghost predicate HoldsIn(f: nat, r: Replica, n: int, v: int) {
    exists ref: nat ::
      ref < |r.cells| && r.cells[ref].view == v && r.cells[ref].seqNo == n && IsComplete(r.cells[ref], f)
  }

  lemma StillHoldsIn(f: nat, r: Replica, r': Replica, n: int, v: int)
    requires HoldsIn(f, r, n, v) && AdvancesIn(f, v, r.cells, r'.cells)
    ensures HoldsIn(f, r', n, v)
  {
    var ref: nat :| ref < |r.cells| && r.cells[ref].view == v && r.cells[ref].seqNo == n && IsComplete(r.cells[ref], f);
    assert CellAdvancesIn(f, v, r.cells[ref], r'.cells[ref]);
  }

  lemma HoldingNow(w: World, run: seq<Action>, c: Vote)
    requires HonestRun(w, run) && HoldsNow(w, After(w, run), c)
    ensures c.replica in After(w, run).nodes && HoldsIn(w.F(), After(w, run).nodes[c.replica], c.seqNo, c.view)
  {
    EverythingInPlace(w, run, c.replica);
    var s := After(w, run);
    var i :| 0 <= i < |s.nodes[c.replica].cells| && Holds(w, s.sent, s.nodes[c.replica].cells[i].votes, c);
    assert IsComplete(s.nodes[c.replica].cells[i], w.F());
  }

  /** A certificate of the view, once held, is held ever after. */
  lemma {:induction false} HeldStays(w: World, run: seq<Action>, v: int, d: Digests, c: Vote)
    requires AgreesInView(w, run, v, d) && HasHeld(w, run, c) && c.view == v
    ensures c.replica in After(w, run).nodes && HoldsIn(w.F(), After(w, run).nodes[c.replica], c.seqNo, v)
  {
    if HoldsNow(w, After(w, run), c) {
      HoldingNow(w, run, c);
    } else {
      AgreesBefore(w, run, v, d);
      HeldStays(w, run[..|run| - 1], v, d, c);
      LastStillHolds(w, run, v, d, c.replica, c.seqNo);
    }
  }

  lemma LastStillHolds(w: World, run: seq<Action>, v: int, d: Digests, k: string, n: int)
    requires AgreesInView(w, run, v, d) && run != [] && k in After(w, run[..|run| - 1]).nodes
    requires HoldsIn(w.F(), After(w, run[..|run| - 1]).nodes[k], n, v)
    ensures k in After(w, run).nodes && HoldsIn(w.F(), After(w, run).nodes[k], n, v)
  {
    var s, a := After(w, run[..|run| - 1]), run[|run| - 1];
    if a.who == k && Enabled(w, s, a) {
      AgreesBefore(w, run, v, d);
      RunsAgree(w, run[..|run| - 1], v, d);
      LastStepAgrees(w, run, v, d);
      StillHoldsIn(w.F(), s.nodes[k], After(w, run).nodes[k], n, v);
    }
  }

  // ---------- Commits ----------

  ghost predicate SaidCommittedIn(sent: set<Message>, k: string, n: int, v: int) {
    exists c :: MsgCommit(c) in sent && c.replica == k && c.seqNo == n && c.view == v
  }

  lemma CommitterHolds(w: World, run: seq<Action>, v: int, d: Digests, k: string, n: int)
    requires AgreesInView(w, run, v, d) && SaidCommittedIn(After(w, run).sent, k, n, v)
    ensures k in After(w, run).nodes && HoldsIn(w.F(), After(w, run).nodes[k], n, v)
  {
    RunsAreOk(w, run);
    var c :| MsgCommit(c) in After(w, run).sent && c.replica == k && c.seqNo == n && c.view == v;
    HeldStays(w, run, v, d, c);
  }

  /** At the i-th action of the run, q's committed callback fires for number n, in a collector of view v. */
  ghost predicate CommitsInView(w: World, run: seq<Action>, i: nat, q: string, n: int, v: int) {
    CommitsAt(w, run, i, q, n) && After(w, run[..i]).nodes[q].cells[run[i].input.ref].view == v
  }

  lemma CommittersOfCellIn(w: World, sent: set<Message>, cell: Cell, q: string)
    requires CellOk(w, sent, cell) && w.byz == {} && Check(cell.votes, q).decided.Some?
    ensures |cell.votes.commits.Keys| >= 2 * w.F() + 1 && Check(cell.votes, q).decided == Some(cell.seqNo)
    ensures forall k | k in cell.votes.commits.Keys :: SaidCommittedIn(sent, k, cell.seqNo, cell.view)
  {
    forall k | k in cell.votes.commits.Keys ensures SaidCommittedIn(sent, k, cell.seqNo, cell.view) {
      assert Genuine(w, MsgCommit(cell.votes.commits[k]), sent, cell, k, cell.votes.commits[k]);
    }
  }

  lemma CommittersIn(w: World, run: seq<Action>, i: nat, q: string, n: int, v: int) returns (committers: set<string>)
    requires w.byz == {} && CommitsInView(w, run, i, q, n, v)
    ensures |committers| >= 2 * w.F() + 1
    ensures forall k | k in committers :: SaidCommittedIn(After(w, run).sent, k, n, v)
  {
    var s := After(w, run[..i]);
    var cell := s.nodes[q].cells[run[i].input.ref];
    RunsAreOk(w, run[..i]);
    assert CellOk(w, s.sent, cell);
    CommittersOfCellIn(w, s.sent, cell, q);
    committers := cell.votes.commits.Keys;
    SentStays(w, run, i);
    assert forall k | k in committers :: SaidCommittedIn(s.sent, k, n, v);
  }

  // ---------- From the vote on ----------

  /** The replica enters a view, by a new-view message that is not refused or a status response. */
  predicate Leaves(r: Replica, input: Input) {
    || (input.OnNewView? && input.newView.newView >= r.view)
    || (input.OnStatus? && Installs(r, input.lastStable, input.proof))
  }

  ghost predicate LeavesAt(w: World, run: seq<Action>, i: nat, q: string) {
    i < |run| && run[i].who == q && q in After(w, run[..i]).nodes && Leaves(After(w, run[..i]).nodes[q], run[i].input)
  }

  ghost predicate NotLeftSince(w: World, run: seq<Action>, i: nat, q: string) {
    forall j: nat | i <= j :: !LeavesAt(w, run, j, q)
  }

  lemma StaysFrozenUnlessLeft(cfg: Config, r: Replica, input: Input)
    requires !Leaves(r, input)
    ensures StaysFrozen(r, Step(cfg, r, input).replica)
  {
    if input.OnNewView? {
      NothingSupplied(r, r);
    } else {
      StepStaysFrozen(cfg, r, input);
    }
  }

  lemma NotLeftBefore(w: World, run: seq<Action>, i: nat, q: string)
    requires run != [] && NotLeftSince(w, run, i, q)
    ensures NotLeftSince(w, run[..|run| - 1], i, q)
    ensures var s, a := After(w, run[..|run| - 1]), run[|run| - 1];
            i <= |run| - 1 && a.who == q && q in s.nodes ==> !Leaves(s.nodes[q], a.input)
  {
    var before := run[..|run| - 1];
    forall j: nat | i <= j ensures !LeavesAt(w, before, j, q) {
      if j < |before| {
        assert before[..j] == run[..j] && !LeavesAt(w, run, j, q);
      }
    }
    if i <= |before| {
      assert run[..|before|] == before && !LeavesAt(w, run, |before|, q);
    }
  }

  ghost predicate SameViews(r: Replica, r': Replica) {
    |r.cells| <= |r'.cells| && forall ref | 0 <= ref < |r.cells| :: r'.cells[ref].view == r.cells[ref].view
  }

  /** In the view change, and in the same collectors. */
  ghost predicate FrozenFrom(w: World, run: seq<Action>, i: nat, q: string) {
    && i <= |run| && q in After(w, run[..i]).nodes && q in After(w, run).nodes
    && StaysFrozen(After(w, run[..i]).nodes[q], After(w, run).nodes[q])
    && SameViews(After(w, run[..i]).nodes[q], After(w, run).nodes[q])
  }

  lemma SameBeginning(run: seq<Action>, i: nat)
    requires i <= |run|
    ensures if i == |run| then run[..i] == run else run[..|run| - 1][..i] == run[..i]
  {
  }

  lemma {:induction false} FrozenUntilLeft(w: World, run: seq<Action>, v: int, d: Digests, i: nat, q: string)
    requires AgreesInView(w, run, v, d) && i <= |run| && q in After(w, run[..i]).nodes
    requires After(w, run[..i]).nodes[q].inViewChange && NotLeftSince(w, run, i, q)
    ensures FrozenFrom(w, run, i, q)
  {
    SameBeginning(run, i);
    if i < |run| {
      AgreesBefore(w, run, v, d);
      NotLeftBefore(w, run, i, q);
      FrozenUntilLeft(w, run[..|run| - 1], v, d, i, q);
      LastStaysFrozen(w, run, v, d, i, q);
    }
  }

  lemma FrozenFurther(f: nat, v: int, r: Replica, r1: Replica, r': Replica)
    requires r.inViewChange && StaysFrozen(r, r1) && SameViews(r, r1)
    requires StaysFrozen(r1, r') && AdvancesIn(f, v, r1.cells, r'.cells)
    ensures StaysFrozen(r, r') && SameViews(r, r')
  {
    assert forall ref | 0 <= ref < |r1.cells| :: CellAdvancesIn(f, v, r1.cells[ref], r'.cells[ref]);
  }

  /** The last step of the run, at q. */
  lemma LastStepIsFrozen(w: World, run: seq<Action>, v: int, d: Digests, q: string)
    requires AgreesInView(w, run, v, d) && run != [] && q in After(w, run[..|run| - 1]).nodes
    requires var s, a := After(w, run[..|run| - 1]), run[|run| - 1]; a.who == q ==> !Leaves(s.nodes[q], a.input)
    ensures q in After(w, run).nodes
    ensures var r, r' := After(w, run[..|run| - 1]).nodes[q], After(w, run).nodes[q];
            r' == r || (StaysFrozen(r, r') && AdvancesIn(w.F(), v, r.cells, r'.cells))
  {
    var s, a := After(w, run[..|run| - 1]), run[|run| - 1];
    if a.who == q && Enabled(w, s, a) {
      AgreesBefore(w, run, v, d);
      RunsAgree(w, run[..|run| - 1], v, d);
      LastStepAgrees(w, run, v, d);
      StaysFrozenUnlessLeft(w.At(q), s.nodes[q], a.input);
    }
  }

  lemma LastStaysFrozen(w: World, run: seq<Action>, v: int, d: Digests, i: nat, q: string)
    requires AgreesInView(w, run, v, d) && i < |run| && run[..|run| - 1][..i] == run[..i]
    requires FrozenFrom(w, run[..|run| - 1], i, q) && After(w, run[..i]).nodes[q].inViewChange
    requires var s, a := After(w, run[..|run| - 1]), run[|run| - 1]; a.who == q ==> !Leaves(s.nodes[q], a.input)
    ensures FrozenFrom(w, run, i, q)
  {
    LastStepIsFrozen(w, run, v, d, q);
    var r1, r' := After(w, run[..|run| - 1]).nodes[q], After(w, run).nodes[q];
    if r' != r1 {
      FrozenFurther(w.F(), v, After(w, run[..i]).nodes[q], r1, r');
    }
  }

  /** So what the sender of a vote holds later, it held, or had coming, when it cast the vote. */
  lemma LaterHeldWasDue(w: World, run: seq<Action>, v: int, d: Digests, i: nat, q: string, n: int)
    requires AgreesInView(w, run, v, d) && i <= |run| && q in After(w, run[..i]).nodes
    requires After(w, run[..i]).nodes[q].inViewChange && NotLeftSince(w, run, i, q)
    requires q in After(w, run).nodes && HoldsIn(w.F(), After(w, run).nodes[q], n, v)
    ensures CompletesIn(w.F(), After(w, run[..i]).nodes[q], n, v)
  {
    FrozenUntilLeft(w, run, v, d, i, q);
    var r, r' := After(w, run[..i]).nodes[q], After(w, run).nodes[q];
    var ref: nat :| ref < |r'.cells| && r'.cells[ref].view == v && r'.cells[ref].seqNo == n
                    && IsComplete(r'.cells[ref], w.F());
    CompleteCompletes(w.F(), r', ref);
    NoMoreCompletes(w.F(), r, r', ref);
  }

  ghost predicate CompletesIn(f: nat, r: Replica, n: int, v: int) {
    exists ref: nat :: ref < |r.cells| && r.cells[ref].view == v && r.cells[ref].seqNo == n && Completes(f, r, ref)
  }

  // ---------- What a vote says ----------

  /** The replica is in view v, and its current collector for n holds the certificate. */
  ghost predicate HasIn(w: World, r: Replica, n: int, v: int) {
    r.view == v && Has(w, r, n)
  }

  /** A certificate for n that the receiver accepts, with a pre-prepare of view v and its digest. */
  ghost predicate ProvesIn(f: nat, certs: seq<Certificate>, n: int, v: int, d: Digests) {
    exists j :: 0 <= j < |certs| && Offers(certs[j], f, PrePrepare(v, n, d(n)))
  }

  /** No certificate is of a view after v, and those of v have its digests. */
  ghost predicate SaysUpTo(certs: seq<Certificate>, v: int, d: Digests) {
    forall j | 0 <= j < |certs| && certs[j].preprepare.Some? ::
      certs[j].preprepare.value.view <= v && PrePrepareAgrees(v, d, certs[j].preprepare.value)
  }

  lemma CellCertificateIsValid(w: World, sent: set<Message>, v: int, d: Digests, cell: Cell, cert: Certificate)
    requires CellOk(w, sent, cell) && CellAgrees(v, d, cell) && cell.view == v && IsComplete(cell, w.F())
    requires cell.votes.preprepare.value.view == v && Certifies(cert, cell.votes)
    ensures Offers(cert, w.F(), PrePrepare(v, cell.seqNo, d(cell.seqNo)))
  {
    var pp := cell.votes.preprepare.value;
    assert pp == PrePrepare(v, cell.seqNo, d(cell.seqNo));
    CertificateOfCell(w, sent, cell, cert);
    assert Supporters(cell.votes.prepares, pp.digest) == cell.votes.prepares.Keys;
  }

  lemma HeldIsProvedIn(w: World, run: seq<Action>, v: int, d: Digests, q: string, vc: ViewChange, n: int)
    requires AgreesInView(w, run, v, d) && q in After(w, run).nodes && IsVote(w.At(q), After(w, run).nodes[q], vc)
    requires HasIn(w, After(w, run).nodes[q], n, v)
    ensures ProvesIn(w.F(), vc.certificates, n, v, d)
  {
    var r, ref := After(w, run).nodes[q], After(w, run).nodes[q].txns[n];
    var order :| IsSnapshotIn(r, w.F(), order, vc.certificates);
    assert HoldsPrepared(r, w.F(), n);
    var j :| 0 <= j < |order| && order[j] == n;
    assert EntryCertified(r, w.F(), order[j], vc.certificates[j]);
    CurrentCell(w, run, v, d, q, n);
    CellCertificateIsValid(w, After(w, run).sent, v, d, r.cells[ref], vc.certificates[j]);
  }

  /** The current collector of a number. */
  lemma CurrentCell(w: World, run: seq<Action>, v: int, d: Digests, q: string, n: int)
    requires AgreesInView(w, run, v, d) && q in After(w, run).nodes && n in After(w, run).nodes[q].txns
    ensures var r := After(w, run).nodes[q];
            && r.txns[n] < |r.cells|
            && var cell := r.cells[r.txns[n]];
               && cell.seqNo == n && cell.view == r.view
               && CellOk(w, After(w, run).sent, cell) && CellAgrees(v, d, cell)
               && (cell.votes.preprepare.Some? ==> cell.votes.preprepare.value.view == r.view)
  {
    RunsAreOk(w, run);
    RunsAgree(w, run, v, d);
    EverythingInPlace(w, run, q);
    assert NodeOk(w, After(w, run).sent, q, Held(w, run), After(w, run).nodes[q]);
  }

  lemma VoteSaysUpTo(w: World, run: seq<Action>, v: int, d: Digests, q: string, vc: ViewChange)
    requires AgreesInView(w, run, v, d) && q in After(w, run).nodes && IsVote(w.At(q), After(w, run).nodes[q], vc)
    requires After(w, run).nodes[q].view <= v
    ensures SaysUpTo(vc.certificates, v, d)
  {
    var r := After(w, run).nodes[q];
    var order :| IsSnapshotIn(r, w.F(), order, vc.certificates);
    forall j | 0 <= j < |vc.certificates| && vc.certificates[j].preprepare.Some?
      ensures vc.certificates[j].preprepare.value.view <= v
      ensures PrePrepareAgrees(v, d, vc.certificates[j].preprepare.value)
    {
      assert EntryCertified(r, w.F(), order[j], vc.certificates[j]);
      CurrentCell(w, run, v, d, q, order[j]);
    }
  }

  // ---------- The same in terms of the run ----------

  ghost predicate HeldInView(w: World, run: seq<Action>, vc: ViewChange, n: int, v: int) {
    exists i :: CastAt(w, run, i, vc) && HasIn(w, Caster(w, run, i, vc), n, v)
  }

  /** Not so, but some collector of view v held the certificate, or had it coming. */
  ghost predicate DueInView(w: World, run: seq<Action>, vc: ViewChange, n: int, v: int) {
    && !HeldInView(w, run, vc, n, v) && (exists i :: CastAt(w, run, i, vc))
    && forall i | CastAt(w, run, i, vc) :: CompletesIn(w.F(), Caster(w, run, i, vc), n, v)
  }

  /** vc's sender was not in the view change when it cast vc, or left it later. */
  ghost predicate LeftLater(w: World, run: seq<Action>, vc: ViewChange) {
    exists i :: CastAt(w, run, i, vc)
                && !(Caster(w, run, i, vc).inViewChange && NotLeftSince(w, run, i, vc.replica))
  }

  /** vc's sender had entered no view after v when it cast vc. */
  ghost predicate CastUpTo(w: World, run: seq<Action>, vc: ViewChange, v: int) {
    forall i | CastAt(w, run, i, vc) :: Caster(w, run, i, vc).view <= v
  }

  ghost predicate AllCastUpTo(w: World, run: seq<Action>, votes: Votes, v: int) {
    forall k | k in votes :: CastUpTo(w, run, votes[k], v)
  }

  lemma AgreesPrefix(w: World, run: seq<Action>, v: int, d: Digests, i: nat)
    requires AgreesInView(w, run, v, d) && i <= |run|
    ensures AgreesInView(w, run[..i], v, d)
  {
    HonestRunPrefix(w, run, i);
    SentStays(w, run, i);
    assert forall a | a in run[..i] :: a in run;
  }

  lemma CastSays(w: World, run: seq<Action>, v: int, d: Digests, i: nat, vc: ViewChange, n: int)
    requires AgreesInView(w, run, v, d) && CastAt(w, run, i, vc) && Caster(w, run, i, vc).view <= v
    ensures SaysUpTo(vc.certificates, v, d)
    ensures HasIn(w, Caster(w, run, i, vc), n, v) ==> ProvesIn(w.F(), vc.certificates, n, v, d)
    ensures CarriesNil(vc) <==> exists m :: IsBlind(w, Caster(w, run, i, vc), m)
  {
    AgreesPrefix(w, run, v, d, i);
    VoteSaysUpTo(w, run[..i], v, d, vc.replica, vc);
    if HasIn(w, Caster(w, run, i, vc), n, v) {
      HeldIsProvedIn(w, run[..i], v, d, vc.replica, vc, n);
    }
    VoteCrashesLeaderIff(w.At(vc.replica), Caster(w, run, i, vc), vc);
    assert forall m :: IsBlind(w, Caster(w, run, i, vc), m) <==> PreparedBlindly(Caster(w, run, i, vc), w.F(), m);
  }

  lemma SentVoteSays(w: World, run: seq<Action>, v: int, d: Digests, vc: ViewChange, n: int)
    requires AgreesInView(w, run, v, d) && MsgViewChange(vc) in After(w, run).sent && CastUpTo(w, run, vc, v)
    ensures SaysUpTo(vc.certificates, v, d)
    ensures HeldInView(w, run, vc, n, v) ==> ProvesIn(w.F(), vc.certificates, n, v, d)
    ensures CarriesNil(vc) <==> BlindAtCast(w, run, vc)
  {
    var i := SentVoteWasCast(w, run, vc);
    CastSays(w, run, v, d, i, vc, n);
    if HeldInView(w, run, vc, n, v) {
      var j :| CastAt(w, run, j, vc) && HasIn(w, Caster(w, run, j, vc), n, v);
      CastSays(w, run, v, d, j, vc, n);
    }
    if BlindAtCast(w, run, vc) {
      var j, m :| CastAt(w, run, j, vc) && IsBlind(w, Caster(w, run, j, vc), m);
      CastSays(w, run, v, d, j, vc, n);
    }
  }

  // ---------- The new leader's choice ----------

  lemma OfferedUpTo(votes: Votes, minSeq: int, f: nat, v: int, d: Digests, pp: PrePrepare)
    requires (forall k | k in votes :: SaysUpTo(votes[k].certificates, v, d)) && Offered(votes, minSeq, f, pp)
    ensures pp.view <= v && PrePrepareAgrees(v, d, pp)
  {
    var k, i :| k in votes && 0 <= i < |votes[k].certificates| && Offers(votes[k].certificates[i], f, pp);
  }

  /** Of the views offered v is the highest, so its digest is chosen. */
  lemma ProvenIsReissued(votes: Votes, f: nat, newView: int, n: int, v: int, d: Digests, k: string,
                         pps: seq<PrePrepare>)
    requires IsReissue(votes, newView, f, pps) && forall q | q in votes :: SaysUpTo(votes[q].certificates, v, d)
    requires k in votes && votes[k].lastStable < n && ProvesIn(f, votes[k].certificates, n, v, d)
    ensures Reissued(Some(pps), PrePrepare(newView, n, d(n)))
  {
    var minSeq, maxSeq, chosen :|
      IsRange(votes, minSeq, maxSeq) && Selects(votes, minSeq, f, chosen)
      && Reissues(newView, minSeq, maxSeq, chosen, pps);
    var j :| 0 <= j < |votes[k].certificates| && Offers(votes[k].certificates[j], f, PrePrepare(v, n, d(n)));
    assert Offered(votes, minSeq, f, PrePrepare(v, n, d(n)));
    OfferedUpTo(votes, minSeq, f, v, d, chosen[n]);
    ChosenComesOut(newView, minSeq, maxSeq, chosen, n, pps);
  }

  lemma ChosenComesOut(newView: int, minSeq: int, maxSeq: int, chosen: map<int, PrePrepare>, n: int,
                       pps: seq<PrePrepare>)
    requires Reissues(newView, minSeq, maxSeq, chosen, pps) && minSeq < n <= maxSeq && n in chosen
    ensures Reissued(Some(pps), PrePrepare(newView, n, chosen[n].digest))
  {
    assert pps[n - minSeq - 1] == PrePrepare(newView, n, chosen[n].digest);
  }

  /**
   * Whatever the new leader makes of votes whose senders have entered no view after v, one of whom held n's
   * certificate of view v when it voted: it re-issues n with the view's digest exactly when no voter was blind.
   */
  lemma {:induction false} ReissuedInViewIff(w: World, run: seq<Action>, v: int, d: Digests, n: int, votes: Votes,
                                             newView: int, result: Option<seq<PrePrepare>>)
    requires AgreesInView(w, run, v, d) && QuorumOfVotes(w, After(w, run), votes, newView, n)
    requires AllCastUpTo(w, run, votes, v) && IsLeaderResult(votes, newView, w.F(), result)
    requires exists k :: k in votes && HeldInView(w, run, votes[k], n, v)
    ensures Reissued(result, PrePrepare(newView, n, d(n))) <==> NoneBlind(w, run, votes)
  {
    forall k | k in votes
      ensures SaysUpTo(votes[k].certificates, v, d) && (CarriesNil(votes[k]) <==> BlindAtCast(w, run, votes[k]))
      ensures HeldInView(w, run, votes[k], n, v) ==> ProvesIn(w.F(), votes[k].certificates, n, v, d)
    {
      SentVoteSays(w, run, v, d, votes[k], n);
    }
    assert HasNilPrePrepare(votes) <==> exists k :: k in votes && CarriesNil(votes[k]);
    if result.Some? {
      var k :| k in votes && HeldInView(w, run, votes[k], n, v);
      ProvenIsReissued(votes, w.F(), newView, n, v, d, k, result.value);
    }
  }

  /** The replica is in view v, and its collectors of that view above the stable number are its current ones. */
  ghost predicate KeptIn(r: Replica, v: int) {
    r.view == v
    && forall ref: nat |
         ref < |r.cells| && r.cells[ref].view == v && r.cells[ref].seqNo > StableNumber(r.store) ::
         r.cells[ref].seqNo in r.txns && r.txns[r.cells[ref].seqNo] == ref
  }

  lemma NothingCompletesIn(w: World, r: Replica, n: int, v: int)
    requires NoSupply(r) && KeptIn(r, v) && CompletesIn(w.F(), r, n, v) && n > StableNumber(r.store)
    ensures HasIn(w, r, n, v)
  {
    var ref: nat :| ref < |r.cells| && r.cells[ref].view == v && r.cells[ref].seqNo == n && Completes(w.F(), r, ref);
    assert Voters(r, ref) == r.cells[ref].votes.prepares.Keys;
    assert forall pp :: Supplies(AddPrePrepareTask(ref, pp));
  }

  /** A voter in view v with nothing outstanding there, and nothing given up, has nothing due there. */
  lemma {:induction false} SettledIsNotDueInView(w: World, run: seq<Action>, i: nat, vc: ViewChange, n: int, v: int)
    requires CastAt(w, run, i, vc) && NoSupply(Caster(w, run, i, vc)) && KeptIn(Caster(w, run, i, vc), v)
    requires vc.lastStable < n
    ensures !DueInView(w, run, vc, n, v)
  {
    if CompletesIn(w.F(), Caster(w, run, i, vc), n, v) {
      NothingCompletesIn(w, Caster(w, run, i, vc), n, v);
    }
  }

  // ---------- The first view ----------

  /** The digests of a log. */
  function LogDigests(w: World, log: seq<ClientRequest>): Digests {
    n => if 1 <= n <= |log| then w.digestOf(log[n - 1]) else ""
  }

  lemma NoNewViews(w: World, run: seq<Action>)
    requires CrashRun(w, run)
    ensures forall a | a in run :: !a.input.OnNewView?
  {
    forall a | a in run ensures !a.input.OnNewView? {
      var i :| 0 <= i < |run| && run[i] == a;
      assert HonestInput(w, After(w, run[..i]), run[i]);
    }
  }

  lemma CastInFirstView(w: World, run: seq<Action>, vc: ViewChange)
    requires CrashRun(w, run)
    ensures CastUpTo(w, run, vc, 0)
  {
    forall i: nat | CastAt(w, run, i, vc) ensures Caster(w, run, i, vc).view <= 0 {
      CrashRunPrefix(w, run, i);
      CrashRunsSurvive(w, run[..i]);
      ReplicaIsSound(w, Log(w, run[..i]), After(w, run[..i]), vc.replica);
    }
  }

  /** In a crash run the first view has one digest per number, and nobody votes from a later one. */
  lemma {:induction false} FirstViewAgrees(w: World, run: seq<Action>, votes: Votes)
    requires CrashRun(w, run)
    ensures AgreesInView(w, run, 0, LogDigests(w, Log(w, run))) && AllCastUpTo(w, run, votes, 0)
  {
    CrashRunIsHonest(w, run);
    CrashRunsSurvive(w, run);
    NoNewViews(w, run);
    forall k | k in votes ensures CastUpTo(w, run, votes[k], 0) {
      CastInFirstView(w, run, votes[k]);
    }
  }

  // ---------- Committed requests ----------

  /** A sender of a commit for n in view v held the certificate at its vote, had it due, or left the view change. */
  ghost predicate WitnessIn(w: World, run: seq<Action>, vc: ViewChange, n: int, v: int) {
    HeldInView(w, run, vc, n, v) || DueInView(w, run, vc, n, v) || LeftLater(w, run, vc)
  }

  lemma CommitterIsWitness(w: World, run: seq<Action>, v: int, d: Digests, vc: ViewChange, n: int)
    requires AgreesInView(w, run, v, d) && MsgViewChange(vc) in After(w, run).sent
    requires SaidCommittedIn(After(w, run).sent, vc.replica, n, v)
    ensures WitnessIn(w, run, vc, n, v)
  {
    if !LeftLater(w, run, vc) {
      var i := SentVoteWasCast(w, run, vc);
      CommitterHolds(w, run, v, d, vc.replica, n);
      forall i | CastAt(w, run, i, vc) ensures CompletesIn(w.F(), Caster(w, run, i, vc), n, v) {
        LaterHeldWasDue(w, run, v, d, i, vc.replica, n);
      }
    }
  }

  lemma NodesOfRun(w: World, run: seq<Action>)
    ensures After(w, run).nodes.Keys == w.Correct()
  {
    RunsAreOk(w, run);
  }

  lemma VotersAreNodes(w: World, run: seq<Action>, votes: Votes, newView: int, n: int)
    requires QuorumOfVotes(w, After(w, run), votes, newView, n)
    ensures votes.Keys <= After(w, run).nodes.Keys
  {
    NodesOfRun(w, run);
    forall k | k in votes ensures k in After(w, run).nodes {
      var i := SentVoteWasCast(w, run, votes[k]);
      NodesOfRun(w, run[..i]);
    }
  }

  /**
   * With N = 3F+1 replicas, once n is committed in view v anywhere: of any 2F+1 voters, at least F+1 held its
   * certificate of that view when they voted, had it due, or left the view change.
   */
  lemma {:induction false} CommittersVoteInView(w: World, run: seq<Action>, v: int, d: Digests, i: nat, q: string,
                                                n: int, votes: Votes, newView: int)
      returns (witnesses: set<string>)
    requires |w.ring| == 3 * w.F() + 1 && AgreesInView(w, run, v, d) && CommitsInView(w, run, i, q, n, v)
    requires QuorumOfVotes(w, After(w, run), votes, newView, n)
    ensures witnesses <= votes.Keys && |witnesses| >= w.F() + 1
    ensures forall k | k in witnesses :: k in votes && WitnessIn(w, run, votes[k], n, v)
  {
    var committers := CommittersIn(w, run, i, q, n, v);
    NodesOfRun(w, run);
    VotersAreNodes(w, run, votes, newView, n);
    forall k | k in committers ensures k in After(w, run).nodes {
      CommitterHolds(w, run, v, d, k, n);
    }
    CommittersAmongVoters(w, After(w, run), votes, committers);
    witnesses := votes.Keys * committers;
    forall k | k in witnesses ensures WitnessIn(w, run, votes[k], n, v) {
      CommitterIsWitness(w, run, v, d, votes[k], n);
    }
  }

  ghost predicate NoneDueInView(w: World, run: seq<Action>, votes: Votes, n: int, v: int) {
    forall k | k in votes :: !DueInView(w, run, votes[k], n, v) && !LeftLater(w, run, votes[k])
  }

  /**
   * So, with N = 3F+1, once n is committed in view v anywhere, and the voters have entered no later view: unless a
   * voter had its certificate only due, or left the view change, the new leader re-issues n, with the digest it had
   * in view v, if and only if no voter was blind.
   */
  lemma {:induction false} CommittedInViewSurvives(w: World, run: seq<Action>, v: int, d: Digests, i: nat, q: string,
                                                   n: int, votes: Votes, newView: int,
                                                   result: Option<seq<PrePrepare>>)
    requires |w.ring| == 3 * w.F() + 1 && AgreesInView(w, run, v, d) && CommitsInView(w, run, i, q, n, v)
    requires QuorumOfVotes(w, After(w, run), votes, newView, n) && AllCastUpTo(w, run, votes, v)
    requires IsLeaderResult(votes, newView, w.F(), result) && NoneDueInView(w, run, votes, n, v)
    ensures Reissued(result, PrePrepare(newView, n, d(n))) <==> NoneBlind(w, run, votes)
  {
    var witnesses := CommittersVoteInView(w, run, v, d, i, q, n, votes, newView);
    var k :| k in witnesses;
    ReissuedInViewIff(w, run, v, d, n, votes, newView, result);
  }
}
