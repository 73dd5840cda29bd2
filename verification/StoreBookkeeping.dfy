/** What every mix of store calls keeps true about checkpoints and counters (`pbft/store.go`). */
module StoreBookkeeping {
  import opened Messages
  import opened StoreModel
  import opened StoreRuns

  datatype Call =
    | CallAddRequests(n: int, batch: Batch)
    | CallCommit(n: int)
    | CallCheckpoint(c: Checkpoint)
    | CallUpdate(proof: Proof)

  function Perform(s: StoreState, call: Call, f: nat, id: string, interval: Positive): StoreState {
    match call
    case CallAddRequests(n, batch) => AddRequests(s, n, batch)
    case CallCommit(n) => Commit(s, n, id, interval).0
    case CallCheckpoint(c) => AddCheckpoint(s, f, c).0
    case CallUpdate(proof) => UpdateLastStable(s, proof)
  }

  function PerformAll(s: StoreState, calls: seq<Call>, f: nat, id: string, interval: Positive): StoreState {
    if calls == [] then s
    else Perform(PerformAll(s, calls[..|calls| - 1], f, id, interval), calls[|calls| - 1], f, id, interval)
  }

  /** Pending votes for one checkpoint agree with their key, and above the stable number no quorum is left pending. */
  ghost predicate Tidy(s: StoreState, f: nat) {
    && 0 <= StableNumber(s) <= s.lastApplied
    && forall id | id in s.unstable ::
         && (forall c | c in s.unstable[id] :: IdOf(c) == id)
         && (id.seqNo > StableNumber(s) ==> |s.unstable[id]| < 2 * f + 1)
  }

  ghost predicate NeverBack(s: StoreState, s': StoreState) {
    StableNumber(s) <= StableNumber(s') && s.lastApplied <= s'.lastApplied
  }

  lemma CheckpointKeepsTidy(s: StoreState, f: nat, c: Checkpoint)
    requires Tidy(s, f)
    ensures var s' := AddCheckpoint(s, f, c).0; Tidy(s', f) && NeverBack(s, s')
  {
    if c.seqNo >= StableNumber(s) {
      var voted := AddVote(s, c);
      var proof := voted.unstable[IdOf(c)];
      assert forall v | v in proof :: IdOf(v) == IdOf(c);
      assert proof[0] in proof;
      forall id | id in voted.unstable
        ensures forall v | v in voted.unstable[id] :: IdOf(v) == id
        ensures voted.unstable[id][0].seqNo == id.seqNo
      {
        assert voted.unstable[id][0] in voted.unstable[id];
      }
    }
  }

  lemma CallKeepsTidy(s: StoreState, call: Call, f: nat, id: string, interval: Positive)
    requires Tidy(s, f) && ProperUpdates([call])
    ensures var s' := Perform(s, call, f, id, interval); Tidy(s', f) && NeverBack(s, s')
  {
    assert [call][0] == call;
    match call
    case CallAddRequests(_, _) =>
    case CallCommit(n) => DrainStopsAtTheGap(MarkCommitted(s, n), id, interval);
    case CallCheckpoint(c) => CheckpointKeepsTidy(s, f, c);
    case CallUpdate(_) =>
  }

  predicate ProperUpdates(calls: seq<Call>) {
    forall i | 0 <= i < |calls| && calls[i].CallUpdate? :: calls[i].proof[0].seqNo >= 0
  }

  /**
   * From a fresh store, after any mix of calls: the stable number never exceeds the applied one, pending
   * lists are uniform, and none above the stable number holds 2f+1 votes.
   */
  lemma {:induction false} EveryRunIsTidy(calls: seq<Call>, f: nat, id: string, interval: Positive)
    requires ProperUpdates(calls)
    ensures Tidy(PerformAll(NEW_STORE, calls, f, id, interval), f)
  {
    if calls != [] {
      var before := calls[..|calls| - 1];
      EveryRunIsTidy(before, f, id, interval);
      CallKeepsTidy(PerformAll(NEW_STORE, before, f, id, interval), calls[|calls| - 1], f, id, interval);
    }
  }

  /** Neither counter is ever behind where an earlier part of the run left it. */
  lemma {:induction false} CountersNeverGoBack(calls: seq<Call>, i: nat, f: nat, id: string, interval: Positive)
    requires ProperUpdates(calls) && i <= |calls|
    ensures NeverBack(PerformAll(NEW_STORE, calls[..i], f, id, interval), PerformAll(NEW_STORE, calls, f, id, interval))
  {
    if i == |calls| {
      assert calls[..i] == calls;
    } else {
      var before := calls[..|calls| - 1];
      assert before[..i] == calls[..i];
      CountersNeverGoBack(before, i, f, id, interval);
      EveryRunIsTidy(before, f, id, interval);
      CallKeepsTidy(PerformAll(NEW_STORE, before, f, id, interval), calls[|calls| - 1], f, id, interval);
    }
  }
}
