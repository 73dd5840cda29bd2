/**
 * `pbft/view_changer/view_changer.go` in its own form: an object that collects votes and announces itself as
 * leader.
 */
module ViewChanger {
  import opened Messages
  import opened Decimal
  import opened Quorums
  import opened ViewChangeRules

  /** What a call makes of the votes: nothing yet, a broadcast new-view message, or a nil dereference. */
  datatype Announcement = Silent | Announced(newView: NewView) | Panicked

  ghost predicate FiledVotes(votes: Votes, view: int) {
    Int64Votes(votes) && forall k | k in votes :: votes[k].newView == view && votes[k].replica == k
  }

  class PbftViewChange {
    const id: string
    const f: nat
    var leaderForView: string
    var viewId: int
    var inViewChange: bool
    var viewChanges: map<int, Votes>

    /** Votes are filed under their view and sender. */
    ghost predicate Valid()
      reads this
    {
      forall v | v in viewChanges :: FiledVotes(viewChanges[v], v)
    }

    ghost function VotesFor(view: int): Votes
      reads this
    {
      if view in viewChanges then viewChanges[view] else map[]
    }

    /** What `tryAnnounceAsLeader(view)` does in this state. */
    ghost predicate Announces(view: int, out: Announcement)
      reads this
    {
      if viewId != view || |VotesFor(view)| < 2 * f + 1 then out.Silent?
      else if HasNilPrePrepare(VotesFor(view)) then out.Panicked?
      else out.Announced? && IsAnnouncement(out.newView, VotesFor(view), view, f, id)
    }

    constructor (id: string, f: nat)
      ensures Valid() && viewChanges == map[] && viewId == 0 && leaderForView == "" && !inViewChange
      ensures this.id == id && this.f == f
    {
      this.id, this.f := id, f;
      leaderForView, viewId, inViewChange, viewChanges := "", 0, false, map[];
    }

    /** One expiry of `viewTimer`; returns the view to vote for. */
    method Timeout() returns (view: int)
      requires Valid()
      modifies this
      ensures Valid() && viewChanges == old(viewChanges)
      ensures view == viewId == old(viewId) + 1 && inViewChange && leaderForView == ""
    {
      inViewChange := true;
      viewId := viewId + 1;
      leaderForView := "";
      view := viewId;
    }

    method HandleViewChange(msg: ViewChange) returns (out: Announcement)
      requires Valid() && FitsInt64(msg.lastStable)
      modifies this
      ensures Valid() && viewId == old(viewId) && leaderForView == old(leaderForView)
      ensures msg.newView < viewId ==>
                out.Silent? && viewChanges == old(viewChanges) && inViewChange == old(inViewChange)
      ensures msg.newView >= viewId ==>
                && viewChanges == old(viewChanges)[msg.newView := old(VotesFor(msg.newView))[msg.replica := msg]]
                && (if leaderForView == id then Announces(msg.newView, out) else out.Silent?)
                && inViewChange == (if out.Announced? then false else old(inViewChange))
    {
      if msg.newView < viewId {
        return Silent;
      }
      var votes: Votes := map[];
      if msg.newView in viewChanges {
        votes := viewChanges[msg.newView];
      }
      viewChanges := viewChanges[msg.newView := votes[msg.replica := msg]];
      if leaderForView != id {
        return Silent;
      }
      out := TryAnnounceAsLeader(msg.newView);
    }

    /** The election for `view` names its leader. */
    method LeaderElected(view: int, leader: string) returns (out: Announcement)
      requires Valid()
      modifies this
      ensures Valid() && viewChanges == old(viewChanges) && viewId == old(viewId)
      ensures leaderForView == if view == viewId then leader else old(leaderForView)
      ensures if view == viewId && leader == id then Announces(view, out) else out.Silent?
      ensures inViewChange == (if out.Announced? then false else old(inViewChange))
    {
      if view != viewId {
        return Silent;
      }
      leaderForView := leader;
      if id != leader {
        return Silent;
      }
      out := TryAnnounceAsLeader(view);
    }

    method HandleNewView(msg: NewView)
      requires Valid()
      modifies this
      ensures Valid() && viewChanges == old(viewChanges) && leaderForView == old(leaderForView)
      ensures viewId == msg.newView && !inViewChange
    {
      viewId := msg.newView;
      inViewChange := false;
    }

    method TryAnnounceAsLeader(view: int) returns (out: Announcement)
      requires Valid()
      modifies this
      ensures Valid() && viewChanges == old(viewChanges) && leaderForView == old(leaderForView) && viewId == old(viewId)
      ensures Announces(view, out)
      ensures inViewChange == (if out.Announced? then false else old(inViewChange))
    {
      if viewId != view {
        return Silent;
      }
      var votes: Votes := map[];
      if view in viewChanges {
        votes := viewChanges[view];
      }
      if |votes| < 2 * f + 1 {
        return Silent;
      }
      var proof := CollectVotes(votes, view);
      var pps := CreatePreprepareMessages(votes, view, f);
      match pps
      case None => out := Panicked;
      case Some(preprepares) =>
        out := Announced(NewView(view, proof, preprepares, id));
        HandleNewView(out.newView);
    }
  }

  /** `slices.Collect(maps.Values(votes))`. */
  method CollectVotes(votes: Votes, view: int) returns (proof: seq<ViewChange>)
    requires FiledVotes(votes, view)
    ensures ListsVotes(proof, votes)
  {
    proof := [];
    var unseen := votes.Keys;
    while unseen != {}
      invariant unseen <= votes.Keys && |proof| + |unseen| == |votes|
      invariant forall k | k in votes && k !in unseen :: votes[k] in proof
      invariant forall vc | vc in proof :: vc.replica in votes && votes[vc.replica] == vc
    {
      var k :| k in unseen;
      unseen := unseen - {k};
      proof := proof + [votes[k]];
    }
  }

  /** `None` is a nil dereference. */
  method CreatePreprepareMessages(votes: Votes, view: int, f: nat) returns (r: Option<seq<PrePrepare>>)
    requires |votes| > 0 && Int64Votes(votes)
    ensures IsLeaderResult(votes, view, f, r)
  {
    var range := GetSequenceRange(votes);
    match range
    case None => return None;
    case Some((minSeq, maxSeq)) =>
      var chosen := ExtractPreprepareRequests(votes, minSeq, f);
      var pps := [];
      for n := minSeq + 1 to maxSeq + 1
        invariant |pps| == n - minSeq - 1
        invariant forall i | 0 <= i < |pps| ::
                    pps[i] == PrePrepare(view, minSeq + 1 + i, ReissuedDigest(chosen, minSeq + 1 + i))
      {
        var digest := if n in chosen then chosen[n].digest else "nil";
        pps := pps + [PrePrepare(view, n, digest)];
      }
      assert Reissues(view, minSeq, maxSeq, chosen, pps);
      return Some(pps);
  }

  method ValidatePrepareProof(prepares: seq<Vote>, pp: PrePrepare, f: nat) returns (valid: bool)
    ensures valid == ValidCertificate(prepares, pp, f)
  {
    var replicaIds := {};
    for i := 0 to |prepares|
      invariant replicaIds == Backers(prepares[..i], pp)
    {
      if prepares[i].seqNo == pp.seqNo && prepares[i].digest == pp.digest {
        replicaIds := replicaIds + {prepares[i].replica};
      }
      assert prepares[..i + 1] == prepares[..i] + [prepares[i]];
    }
    assert prepares[..|prepares|] == prepares;
    valid := |replicaIds| >= 2 * f;
  }

  method GetSequenceRange(votes: Votes) returns (r: Option<(int, int)>)
    requires |votes| > 0 && Int64Votes(votes)
    ensures r.None? <==> HasNilPrePrepare(votes)
    ensures r.Some? ==> IsRange(votes, r.value.0, r.value.1)
  {
    var minSeq, maxSeq := MAX_INT64, 0;
    var unseen := votes.Keys;
    while unseen != {}
      invariant unseen <= votes.Keys
      invariant forall k | k in votes && k !in unseen ::
                  minSeq <= votes[k].lastStable <= maxSeq
                  && CoveredUpTo(votes[k].certificates, |votes[k].certificates|, maxSeq)
      invariant minSeq == MAX_INT64 || IsStable(votes, minSeq)
      invariant maxSeq == 0 || IsStable(votes, maxSeq) || IsPreparedNumber(votes, maxSeq)
      invariant minSeq <= MAX_INT64 && maxSeq >= 0
    {
      var k :| k in unseen;
      unseen := unseen - {k};
      var vote := votes[k];
      if vote.lastStable < minSeq {
        minSeq := vote.lastStable;
      }
      if vote.lastStable > maxSeq {
        maxSeq := vote.lastStable;
      }
      var certs := vote.certificates;
      ghost var before := maxSeq;
      for i := 0 to |certs|
        invariant before <= maxSeq && CoveredUpTo(certs, i, maxSeq)
        invariant maxSeq == 0 || IsStable(votes, maxSeq) || IsPreparedNumber(votes, maxSeq)
      {
        match certs[i].preprepare {
          case None =>
            assert votes[k].certificates[i].preprepare.None?;
            return None;
          case Some(pp) =>
            if pp.seqNo > maxSeq {
              maxSeq := pp.seqNo;
              assert votes[k].certificates[i].preprepare.value.seqNo == maxSeq;
            }
        }
      }
    }
    NobodyBelow(votes, minSeq);
    return Some((minSeq, maxSeq));
  }

  /** The first n certificates have pre-prepares, with numbers up to maxSeq. */
  ghost predicate CoveredUpTo(certs: seq<Certificate>, n: nat, maxSeq: int) {
    n <= |certs| && forall i | 0 <= i < n :: certs[i].preprepare.Some? && certs[i].preprepare.value.seqNo <= maxSeq
  }

  lemma NobodyBelow(votes: Votes, minSeq: int)
    requires |votes| > 0 && Int64Votes(votes) && forall k | k in votes :: minSeq <= votes[k].lastStable
    requires minSeq == MAX_INT64 || IsStable(votes, minSeq)
    ensures IsStable(votes, minSeq)
  {
    var k :| k in votes.Keys;
    assert votes[k].lastStable >= minSeq;
  }

  /** What the first n certificates offer is chosen, or something of at least the same view is. */
  ghost predicate Represented(certs: seq<Certificate>, n: nat, minSeq: int, f: nat, chosen: map<int, PrePrepare>) {
    n <= |certs|
    && forall i, pp | 0 <= i < n && Offers(certs[i], f, pp) && pp.seqNo > minSeq ::
         pp.seqNo in chosen && pp.view <= chosen[pp.seqNo].view
  }

  ghost predicate AllOffered(votes: Votes, minSeq: int, f: nat, chosen: map<int, PrePrepare>) {
    forall n | n in chosen :: chosen[n].seqNo == n && Offered(votes, minSeq, f, chosen[n])
  }

  ghost predicate ViewsGrow(chosen: map<int, PrePrepare>, chosen': map<int, PrePrepare>) {
    forall n | n in chosen :: n in chosen' && chosen[n].view <= chosen'[n].view
  }

  method ExtractPreprepareRequests(votes: Votes, minSeq: int, f: nat) returns (chosen: map<int, PrePrepare>)
    requires !HasNilPrePrepare(votes)
    ensures Selects(votes, minSeq, f, chosen)
  {
    chosen := map[];
    var unseen := votes.Keys;
    while unseen != {}
      invariant unseen <= votes.Keys && AllOffered(votes, minSeq, f, chosen)
      invariant forall k | k in votes && k !in unseen ::
                  Represented(votes[k].certificates, |votes[k].certificates|, minSeq, f, chosen)
    {
      var k :| k in unseen;
      unseen := unseen - {k};
      chosen := ExtractFromVote(votes, k, minSeq, f, chosen);
    }
    forall pp | Offered(votes, minSeq, f, pp)
      ensures pp.seqNo in chosen && pp.view <= chosen[pp.seqNo].view
    {
      var k, i :| k in votes && 0 <= i < |votes[k].certificates| && Offers(votes[k].certificates[i], f, pp);
      assert Represented(votes[k].certificates, |votes[k].certificates|, minSeq, f, chosen);
    }
  }

  /** The inner loop, over the certificates of one vote. */
  method ExtractFromVote(votes: Votes, k: string, minSeq: int, f: nat, before: map<int, PrePrepare>)
    returns (chosen: map<int, PrePrepare>)
    requires k in votes && !HasNilPrePrepare(votes) && AllOffered(votes, minSeq, f, before)
    ensures AllOffered(votes, minSeq, f, chosen) && ViewsGrow(before, chosen)
    ensures Represented(votes[k].certificates, |votes[k].certificates|, minSeq, f, chosen)
  {
    chosen := before;
    var certs := votes[k].certificates;
    for i := 0 to |certs|
      invariant AllOffered(votes, minSeq, f, chosen) && ViewsGrow(before, chosen)
      invariant Represented(certs, i, minSeq, f, chosen)
    {
      assert votes[k].certificates[i].preprepare.Some?;
      var pp := certs[i].preprepare.value;
      var valid := ValidatePrepareProof(certs[i].prepares, pp, f);
      if pp.seqNo <= minSeq || !valid {
        continue;
      }
      assert Offers(votes[k].certificates[i], f, pp) && Offered(votes, minSeq, f, pp);
      if pp.seqNo !in chosen || pp.view > chosen[pp.seqNo].view {
        chosen := chosen[pp.seqNo := pp];
      }
    }
  }

  /**
   * Every new-view message a leader broadcasts carries at least 2f+1 votes of distinct replicas, all for
   * its view, and pre-prepares for exactly the numbers from above the smallest stable number of these
   * votes up to their largest stable or prepared number (or 0), in order and once each.
   */
  lemma AnnouncementIsComplete(nv: NewView, votes: Votes, view: int, f: nat, id: string)
      returns (minSeq: int, maxSeq: int)
    requires FiledVotes(votes, view) && IsAnnouncement(nv, votes, view, f, id)
    ensures |nv.votes| >= 2 * f + 1 && forall vc | vc in nv.votes :: vc.newView == nv.newView
    ensures forall i, j | 0 <= i < j < |nv.votes| :: nv.votes[i].replica != nv.votes[j].replica
    ensures |nv.preprepares| == maxSeq - minSeq
    ensures forall i | 0 <= i < |nv.preprepares| ::
              nv.preprepares[i].seqNo == minSeq + 1 + i && nv.preprepares[i].view == nv.newView
    ensures (exists vc | vc in nv.votes :: vc.lastStable == minSeq)
    ensures forall vc | vc in nv.votes :: minSeq <= vc.lastStable <= maxSeq
    ensures forall vc, cert | vc in nv.votes && cert in vc.certificates && cert.preprepare.Some? ::
              cert.preprepare.value.seqNo <= maxSeq
    ensures maxSeq == 0 || exists vc | vc in nv.votes ::
              vc.lastStable == maxSeq
              || exists cert | cert in vc.certificates :: cert.preprepare.Some? && cert.preprepare.value.seqNo == maxSeq
  {
    var chosen;
    minSeq, maxSeq, chosen :|
      IsRange(votes, minSeq, maxSeq) && Selects(votes, minSeq, f, chosen)
      && Reissues(view, minSeq, maxSeq, chosen, nv.preprepares);
    ListedOnce(nv.votes, votes);
    var k :| k in votes && votes[k].lastStable == minSeq;
    assert votes[k] in nv.votes;
    if maxSeq != 0 && IsPreparedNumber(votes, maxSeq) {
      var k', i :| k' in votes && 0 <= i < |votes[k'].certificates|
                   && votes[k'].certificates[i].preprepare.Some?
                   && votes[k'].certificates[i].preprepare.value.seqNo == maxSeq;
      assert votes[k'] in nv.votes && votes[k'].certificates[i] in votes[k'].certificates;
    }
  }

  /** As many entries as senders, and every sender there: so nobody is listed twice. */
  lemma ListedOnce(proof: seq<ViewChange>, votes: Votes)
    requires ListsVotes(proof, votes) && forall k | k in votes :: votes[k].replica == k
    ensures forall i, j | 0 <= i < j < |proof| :: proof[i].replica != proof[j].replica
  {
    forall i, j | 0 <= i < j < |proof| ensures proof[i].replica != proof[j].replica {
      if proof[i].replica == proof[j].replica {
        var others := proof[..j] + proof[j + 1..];
        var senders := set vc | vc in others :: vc.replica;
        assert proof[i] == others[i];
        forall k | k in votes ensures k in senders {
          var n :| 0 <= n < |proof| && proof[n] == votes[k];
          assert n < j ==> others[n] == proof[n];
          assert n > j ==> others[n - 1] == proof[n];
          assert votes[k] in others && votes[k].replica == k;
        }
        SubsetCard(votes.Keys, senders);
        SendersCard(others);
        assert false;
      }
    }
  }

  lemma {:induction false} SendersCard(vcs: seq<ViewChange>)
    ensures |set vc | vc in vcs :: vc.replica| <= |vcs|
  {
    if vcs != [] {
      var before, last := vcs[..|vcs| - 1], vcs[|vcs| - 1];
      SendersCard(before);
      assert vcs == before + [last];
      assert (set vc | vc in vcs :: vc.replica) == (set vc | vc in before :: vc.replica) + {last.replica};
    }
  }
}
