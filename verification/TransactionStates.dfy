/** `pbft/transaction_state.go` in its own form: an object whose methods update the vote maps in place. */
module TransactionStates {
  import opened Messages
  import opened VoteCollector

  /** A collector with the checks spawned for it, labelled with the number and view it was created for. */
  datatype Cell = Cell(seqNo: int, view: int, votes: Collector, checks: nat)

  class TransactionState {
    const f: nat
    const id: string
    ghost const seqNo: int
    ghost const view: int
    /** The how-manieth collector of its replica. */
    ghost const position: nat

    var digest: string
    var preprepare: Option<PrePrepare>
    var prepares: map<string, Vote>
    var commits: map<string, Vote>
    var prepared: bool
    var committed: bool
    /** How many `go t.checkCallbacks()` have not run yet. */
    var checks: nat

    ghost function Votes(): Collector
      reads this
    {
      Collector(digest, preprepare, prepares, commits, prepared, committed)
    }

    ghost function Model(): Cell
      reads this
    {
      Cell(seqNo, view, Votes(), checks)
    }

    constructor (f: nat, id: string, ghost seqNo: int, ghost view: int, ghost position: nat)
      ensures Model() == Cell(seqNo, view, EMPTY, 0)
      ensures this.f == f && this.id == id && this.position == position
    {
      this.f, this.id, this.seqNo, this.view, this.position := f, id, seqNo, view, position;
      digest, preprepare, prepares, commits := "", None, map[], map[];
      prepared, committed, checks := false, false, 0;
    }

    method AddPrePrepare(pp: PrePrepare)
      modifies this
      ensures Votes() == VoteCollector.AddPrePrepare(old(Votes()), f, pp)
      ensures checks == old(checks) + 1
    {
      if digest != pp.digest {
        digest := pp.digest;
        prepares := DeleteOthers(prepares, digest);
        commits := DeleteOthers(commits, digest);
        if |prepares| < 2 * f {
          prepared := false;
        }
        if |commits| <= 2 * f {
          committed := false;
        }
      }
      preprepare := Some(pp);
      checks := checks + 1;
    }

    method AddPrepare(vote: Vote)
      modifies this
      ensures Votes() == VoteCollector.AddPrepare(old(Votes()), f, vote)
      ensures checks == if Accepts(old(Votes()), vote) then old(checks) + 1 else old(checks)
    {
      if digest != "" && digest != vote.digest {
        return;
      }
      prepares := prepares[vote.replica := vote];
      if |prepares| == 2 * f {
        prepared := true;
      }
      checks := checks + 1;
    }

    method AddCommit(vote: Vote)
      modifies this
      ensures Votes() == VoteCollector.AddCommit(old(Votes()), f, vote)
      ensures checks == if Accepts(old(Votes()), vote) then old(checks) + 1 else old(checks)
    {
      if digest != "" && digest != vote.digest {
        return;
      }
      commits := commits[vote.replica := vote];
      if |commits| == 2 * f + 1 {
        committed := true;
      }
      checks := checks + 1;
    }

    /** Returns the callbacks it starts: the commit to announce, the number to execute. */
    method CheckCallbacks() returns (commit: Option<Vote>, decided: Option<int>)
      requires checks > 0
      modifies this
      ensures Checked(Votes(), commit, decided) == Check(old(Votes()), id)
      ensures checks == old(checks) - 1
    {
      commit, decided := None, None;
      checks := checks - 1;
      if prepared && preprepare.Some? {
        prepared := false;
        commit := Some(Vote(preprepare.value.view, preprepare.value.seqNo, preprepare.value.digest, id));
      }
      if committed && preprepare.Some? {
        committed := false;
        decided := Some(preprepare.value.seqNo);
      }
    }

    method IsPrepared() returns (b: bool)
      ensures b == VoteCollector.IsPrepared(Votes(), f)
    {
      b := |prepares| >= 2 * f;
    }

    method GetPrepares() returns (votes: seq<Vote>)
      ensures Lists(votes, prepares)
    {
      votes := Values(prepares);
    }
  }

  /** The two purge loops: every vote with another digest is deleted, in whatever order the map is ranged. */
  method DeleteOthers(votes: VoteMap, digest: string) returns (kept: VoteMap)
    ensures kept == Matching(votes, digest)
  {
    kept := votes;
    var unseen := votes.Keys;
    while unseen != {}
      invariant unseen <= kept.Keys <= votes.Keys
      invariant forall k | k in kept :: kept[k] == votes[k]
      invariant forall k | k in votes && k !in unseen :: k in kept <==> votes[k].digest == digest
    {
      var k :| k in unseen;
      unseen := unseen - {k};
      if digest != votes[k].digest {
        kept := kept - {k};
      }
    }
  }

  /** `slices.Collect(maps.Values(m))`. */
  method Values(m: VoteMap) returns (votes: seq<Vote>)
    ensures Lists(votes, m)
  {
    votes := [];
    var unseen := m.Keys;
    while unseen != {}
      invariant unseen <= m.Keys
      invariant |votes| + |unseen| == |m|
      invariant forall k | k in m && k !in unseen :: m[k] in votes
      invariant forall v | v in votes :: exists k | k in m :: m[k] == v
    {
      var k :| k in unseen;
      unseen := unseen - {k};
      votes := votes + [m[k]];
    }
  }
}
