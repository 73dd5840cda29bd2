/** The votes of three of four replicas, and what a new leader makes of them when they carry nothing. */
module ThreeVotes {
  import opened Messages
  import opened Systems
  import opened ViewChangeRules
  import opened Survival

  /** q has voted for view 1 above stable number k. */
  predicate Voted(s: System, q: string, k: int, vc: ViewChange) {
    MsgViewChange(vc) in s.sent && vc.replica == q && vc.newView == 1 && vc.lastStable == k
  }

  function Ballot(a: string, b: string, c: string, va: ViewChange, vb: ViewChange, vc: ViewChange): Votes {
    map[a := va, b := vb, c := vc]
  }

  lemma ThreeAreAQuorum(w: World, s: System, a: string, b: string, c: string, va: ViewChange, vb: ViewChange,
                        vc: ViewChange, k: int, n: int)
    requires w.F() == 1 && a != b && a != c && b != c && k < n
    requires Voted(s, a, k, va) && Voted(s, b, k, vb) && Voted(s, c, k, vc)
    ensures QuorumOfVotes(w, s, Ballot(a, b, c, va, vb, vc), 1, n)
  {
    var votes := Ballot(a, b, c, va, vb, vc);
    assert votes.Keys == {a, b, c} && |votes| == |votes.Keys|;
  }

  /** Above the same stable number and without certificates, nothing is re-issued. */
  lemma NothingReissued(votes: Votes, f: nat, k: nat, view: int, result: Option<seq<PrePrepare>>)
    requires votes != map[] && forall q | q in votes :: votes[q].lastStable == k && votes[q].certificates == []
    requires IsLeaderResult(votes, view, f, result)
    ensures result == Some([])
  {
    assert !HasNilPrePrepare(votes);
    var minSeq, maxSeq, chosen :|
      IsRange(votes, minSeq, maxSeq) && Selects(votes, minSeq, f, chosen)
      && Reissues(view, minSeq, maxSeq, chosen, result.value);
    assert !IsPreparedNumber(votes, maxSeq);
  }
}
