/**
 * What a new leader has to compute from the view-change votes (`pbft/view_changer/view_changer.go`), stated
 * without fixing an order: Go ranges over the votes in any order, so these are relations, not functions.
 */
module ViewChangeRules {
  import opened Messages
  import opened Decimal

  /** The votes collected for one view, by sender. */
  type Votes = map<string, ViewChange>

  /** Everybody whose prepare in the certificate is for its number and digest. */
  function Backers(prepares: seq<Vote>, pp: PrePrepare): set<string> {
    set v | v in prepares && v.seqNo == pp.seqNo && v.digest == pp.digest :: v.replica
  }

  /** `validatePrepareProof`. */
  predicate ValidCertificate(prepares: seq<Vote>, pp: PrePrepare, f: nat) {
    |Backers(prepares, pp)| >= 2 * f
  }

  /** A certificate without a pre-prepare: the leader dereferences it. */
  ghost predicate HasNilPrePrepare(votes: Votes) {
    exists k, i :: k in votes && 0 <= i < |votes[k].certificates| && votes[k].certificates[i].preprepare.None?
  }

  /** Some vote carries a valid certificate for `pp`, above minSeq. */
  ghost predicate Offered(votes: Votes, minSeq: int, f: nat, pp: PrePrepare) {
    && pp.seqNo > minSeq
    && exists k, i :: k in votes && 0 <= i < |votes[k].certificates| && Offers(votes[k].certificates[i], f, pp)
  }

  ghost predicate Offers(cert: Certificate, f: nat, pp: PrePrepare) {
    cert.preprepare == Some(pp) && ValidCertificate(cert.prepares, pp, f)
  }

  /** Exactly the certified numbers are chosen, each with a certified pre-prepare of the highest view. */
  ghost predicate Selects(votes: Votes, minSeq: int, f: nat, chosen: map<int, PrePrepare>) {
    && (forall n | n in chosen :: chosen[n].seqNo == n && Offered(votes, minSeq, f, chosen[n]))
    && (forall pp | Offered(votes, minSeq, f, pp) :: pp.seqNo in chosen && pp.view <= chosen[pp.seqNo].view)
  }

  ghost predicate IsStable(votes: Votes, n: int) {
    exists k :: k in votes && votes[k].lastStable == n
  }

  ghost predicate IsPreparedNumber(votes: Votes, n: int) {
    exists k, i :: k in votes && 0 <= i < |votes[k].certificates|
                   && votes[k].certificates[i].preprepare.Some? && votes[k].certificates[i].preprepare.value.seqNo == n
  }

  /** The smallest stable number, and the largest number that is stable, prepared or 0. */
  ghost predicate IsRange(votes: Votes, minSeq: int, maxSeq: int) {
    && IsStable(votes, minSeq) && (forall k | k in votes :: minSeq <= votes[k].lastStable <= maxSeq)
    && (forall k, i | k in votes && 0 <= i < |votes[k].certificates| && votes[k].certificates[i].preprepare.Some? ::
          votes[k].certificates[i].preprepare.value.seqNo <= maxSeq)
    && maxSeq >= 0 && (maxSeq == 0 || IsStable(votes, maxSeq) || IsPreparedNumber(votes, maxSeq))
  }

  function ReissuedDigest(chosen: map<int, PrePrepare>, n: int): string {
    if n in chosen then chosen[n].digest else "nil"
  }

  ghost predicate Reissues(view: int, minSeq: int, maxSeq: int, chosen: map<int, PrePrepare>, pps: seq<PrePrepare>) {
    && minSeq <= maxSeq && |pps| == maxSeq - minSeq
    && forall i | 0 <= i < |pps| ::
         pps[i] == PrePrepare(view, minSeq + 1 + i, ReissuedDigest(chosen, minSeq + 1 + i))
  }

  /** A possible result of `createPreprepareMessages`. */
  ghost predicate IsReissue(votes: Votes, view: int, f: nat, pps: seq<PrePrepare>) {
    exists minSeq, maxSeq, chosen ::
      IsRange(votes, minSeq, maxSeq) && Selects(votes, minSeq, f, chosen) && Reissues(view, minSeq, maxSeq, chosen, pps)
  }

  /** What `createPreprepareMessages` may come to: `None` is a nil dereference, which happens for nothing else. */
  ghost predicate IsLeaderResult(votes: Votes, view: int, f: nat, result: Option<seq<PrePrepare>>) {
    && (result.None? <==> HasNilPrePrepare(votes))
    && (result.Some? ==> IsReissue(votes, view, f, result.value))
  }

  ghost predicate ListsVotes(proof: seq<ViewChange>, votes: Votes) {
    && |proof| == |votes|
    && (forall k | k in votes :: votes[k] in proof)
    && (forall vc | vc in proof :: vc.replica in votes && votes[vc.replica] == vc)
  }

  /** The leader's message for `view`: the votes themselves and a correct re-issue computed from them. */
  ghost predicate IsAnnouncement(nv: NewView, votes: Votes, view: int, f: nat, id: string) {
    && nv.newView == view && nv.replica == id
    && |votes| >= 2 * f + 1 && ListsVotes(nv.votes, votes)
    && IsReissue(votes, view, f, nv.preprepares)
  }

  /** The result re-issues exactly this pre-prepare under its number. */
  ghost predicate Reissued(result: Option<seq<PrePrepare>>, pp: PrePrepare) {
    && result.Some? && pp in result.value
    && forall p | p in result.value && p.seqNo == pp.seqNo :: p == pp
  }

  /** Message fields are Go's int64. */
  ghost predicate Int64Votes(votes: Votes) {
    forall k | k in votes :: FitsInt64(votes[k].lastStable)
  }

  // ---------- The order does not matter ----------

  /** Valid certificates of one view for one number never disagree on the digest. */
  ghost predicate SameViewAgrees(votes: Votes, minSeq: int, f: nat) {
    forall p, q | Offered(votes, minSeq, f, p) && Offered(votes, minSeq, f, q) ::
      p.seqNo == q.seqNo && p.view == q.view ==> p.digest == q.digest
  }

  /** Whatever order the votes and certificates are visited in, the same numbers and views are chosen. */
  lemma SelectionIsCanonical(votes: Votes, minSeq: int, f: nat, chosen: map<int, PrePrepare>, chosen': map<int,
                             PrePrepare>)
    requires Selects(votes, minSeq, f, chosen) && Selects(votes, minSeq, f, chosen')
    ensures forall n :: n in chosen <==> n in chosen'
    ensures forall n | n in chosen :: n in chosen' && chosen[n].view == chosen'[n].view
    ensures SameViewAgrees(votes, minSeq, f) ==> forall n | n in chosen :: n in chosen' && chosen[n] == chosen'[n]
  {
    forall n | n in chosen ensures n in chosen' && chosen[n].view <= chosen'[n].view {
      assert Offered(votes, minSeq, f, chosen[n]);
    }
    forall n | n in chosen' ensures n in chosen && chosen'[n].view <= chosen[n].view {
      assert Offered(votes, minSeq, f, chosen'[n]);
    }
  }

  lemma RangeIsUnique(votes: Votes, minSeq: int, maxSeq: int, minSeq': int, maxSeq': int)
    requires IsRange(votes, minSeq, maxSeq) && IsRange(votes, minSeq', maxSeq')
    ensures minSeq == minSeq' && maxSeq == maxSeq'
  {
  }

  /** So two leaders with the same votes re-issue the same pre-prepares, if same-view certificates agree. */
  lemma ReissueIsCanonical(votes: Votes, view: int, f: nat, pps: seq<PrePrepare>, pps': seq<PrePrepare>)
    requires IsReissue(votes, view, f, pps) && IsReissue(votes, view, f, pps')
    requires forall minSeq :: SameViewAgrees(votes, minSeq, f)
    ensures pps == pps'
  {
    var minSeq, maxSeq, chosen :|
      IsRange(votes, minSeq, maxSeq) && Selects(votes, minSeq, f, chosen)
      && Reissues(view, minSeq, maxSeq, chosen, pps);
    var minSeq', maxSeq', chosen' :|
      IsRange(votes, minSeq', maxSeq') && Selects(votes, minSeq', f, chosen')
      && Reissues(view, minSeq', maxSeq', chosen', pps');
    RangeIsUnique(votes, minSeq, maxSeq, minSeq', maxSeq');
    SelectionIsCanonical(votes, minSeq, f, chosen, chosen');
    assert forall n :: ReissuedDigest(chosen, n) == ReissuedDigest(chosen', n);
  }
}
