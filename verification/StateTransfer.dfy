/**
 * Jumping to a stable checkpoint (`stabilizeCheckpoint` in `pbft/store.go`): the digest is the printed value
 * of the empty key, so this concerns workloads whose operations all use that key.
 */
module StateTransfer {
  import opened Messages
  import opened Decimal
  import opened StoreModel
  import opened StoreRuns

  /** A Go map answers 0 for an absent key, so stores are compared by what they answer. */
  ghost predicate SameValues(a: Values, b: Values) {
    forall key :: ValueOf(a, key) == ValueOf(b, key)
  }

  ghost predicate OnEmptyKey(b: Batches) {
    forall n, i | n in b && 0 <= i < |b[n]| :: b[n][i].operation.key == ""
  }

  ghost predicate OnlyEmptyKey(values: Values) {
    && (forall key | key != "" :: ValueOf(values, key) == 0)
    && FitsInt64(ValueOf(values, ""))
  }

  lemma {:induction false} BatchStaysOnEmptyKey(values: Values, reqs: seq<ClientRequest>)
    requires OnlyEmptyKey(values) && forall i | 0 <= i < |reqs| :: reqs[i].operation.key == ""
    ensures OnlyEmptyKey(RunBatch(values, reqs).0)
  {
    if reqs != [] {
      BatchStaysOnEmptyKey(values, reqs[..|reqs| - 1]);
      var before, op := RunBatch(values, reqs[..|reqs| - 1]).0, reqs[|reqs| - 1].operation;
      assert forall key | key != "" :: ValueOf(Update(before, op), key) == ValueOf(before, key);
    }
  }

  lemma {:induction false} ReplayStaysOnEmptyKey(b: Batches, k: nat)
    requires OnEmptyKey(b)
    ensures OnlyEmptyKey(ValuesAfter(b, k))
  {
    if k > 0 {
      ReplayStaysOnEmptyKey(b, k - 1);
      BatchStaysOnEmptyKey(ValuesAfter(b, k - 1), BatchAt(b, k));
    }
  }

  lemma SameDigestSameValues(a: Values, b: Values)
    requires OnlyEmptyKey(a) && OnlyEmptyKey(b)
    ensures SameValues(a, b) <==> Digest(a) == Digest(b)
  {
    AtoiOfItoa(ValueOf(a, ""));
    AtoiOfItoa(ValueOf(b, ""));
  }

  /** Parsing the digest back restores the state it was taken from. */
  lemma DigestRestores(values: Values)
    requires OnlyEmptyKey(values)
    ensures SameValues(Update(map[], Operation(Add, "", Digest(values))), values)
  {
    AtoiOfItoa(ValueOf(values, ""));
  }

  ghost predicate HasStaleEntry(s: StoreState, k: int) {
    exists n :: n in s.committed && n <= k
  }

  /**
   * After stabilising k with the digest of the replayed prefix 1..k, the values are those of the numbers
   * the store then counts as applied exactly when: the values were restarted from the digest and the
   * store had not executed past k; or they were kept and it had not fallen short of k; or the two
   * prefixes have the same digest anyway.
   */
  lemma StateTransferIsExactIff(b: Batches, s: StoreState, proof: Proof)
    requires Follows(b, s) && OnEmptyKey(b)
    requires StableNumber(s) < proof[0].seqNo && proof[0].seqNo >= 0
    requires proof[0].digest == Digest(ValuesAfter(b, proof[0].seqNo))
    ensures var k, s' := proof[0].seqNo, Stabilize(s, proof);
            && s'.lastApplied == Max(s.lastApplied, k)
            && (SameValues(s'.values, ValuesAfter(b, s'.lastApplied))
                <==> (if HasStaleEntry(s, k) then s.lastApplied <= k else k <= s.lastApplied)
                     || Digest(ValuesAfter(b, s.lastApplied)) == Digest(ValuesAfter(b, k)))
  {
    var k := proof[0].seqNo;
    ReplayStaysOnEmptyKey(b, k);
    ReplayStaysOnEmptyKey(b, s.lastApplied);
    DigestRestores(ValuesAfter(b, k));
    SameDigestSameValues(ValuesAfter(b, k), ValuesAfter(b, s.lastApplied));
  }

  /** Nothing can be told apart from here on: same entries, same counters, same answers. */
  ghost predicate Alike(s: StoreState, t: StoreState) {
    t == s.(values := t.values) && SameValues(s.values, t.values)
  }

  lemma AlikeUpdates(a: Values, b: Values, op: Operation)
    requires SameValues(a, b)
    ensures SameValues(Update(a, op), Update(b, op))
  {
    forall key ensures ValueOf(Update(a, op), key) == ValueOf(Update(b, op), key) {
      assert ValueOf(a, key) == ValueOf(b, key) && ValueOf(a, op.key) == ValueOf(b, op.key);
    }
  }

  lemma {:induction false} AlikeBatches(a: Values, b: Values, reqs: seq<ClientRequest>)
    requires SameValues(a, b)
    ensures SameValues(RunBatch(a, reqs).0, RunBatch(b, reqs).0)
    ensures RunBatch(a, reqs).1 == RunBatch(b, reqs).1
  {
    if reqs != [] {
      AlikeBatches(a, b, reqs[..|reqs| - 1]);
      AlikeUpdates(RunBatch(a, reqs[..|reqs| - 1]).0, RunBatch(b, reqs[..|reqs| - 1]).0, reqs[|reqs| - 1].operation);
    }
  }

  lemma {:induction false} AlikeDrains(s: StoreState, t: StoreState, id: string, interval: Positive)
    requires Alike(s, t)
    ensures Alike(Drain(s, id, interval).0, Drain(t, id, interval).0)
    ensures Drain(s, id, interval).1 == Drain(t, id, interval).1
    decreases |Backlog(s)|
  {
    var n := s.lastApplied + 1;
    if Lookup(s.committed, n).Some? {
      BacklogShrinks(s);
      AlikeBatches(s.values, t.values, Contents(Lookup(s.requests, n)));
      AlikeDrains(ExecuteNext(s), ExecuteNext(t), id, interval);
    }
  }

  lemma {:induction false} AlikeRuns(s: StoreState, t: StoreState, ops: seq<StoreOp>, id: string, interval: Positive)
    requires Alike(s, t)
    ensures Alike(RunFrom(s, ops, id, interval).0, RunFrom(t, ops, id, interval).0)
    ensures RunFrom(s, ops, id, interval).1 == RunFrom(t, ops, id, interval).1
  {
    if ops != [] {
      AlikeRuns(s, t, ops[..|ops| - 1], id, interval);
      var s', t' := RunFrom(s, ops[..|ops| - 1], id, interval).0, RunFrom(t, ops[..|ops| - 1], id, interval).0;
      match ops[|ops| - 1]
      case AddOp(_, _) =>
      case CommitOp(n) => AlikeDrains(MarkCommitted(s', n), MarkCommitted(t', n), id, interval);
    }
  }

  /**
   * A replica that jumps to checkpoint k answers every later call as one that executed 1..k itself, and
   * what it returns continues the transcript of 1..k without a break.
   */
  lemma {:induction false} StateTransferEqualsReplay(b: Batches, s: StoreState, proof: Proof, ops: seq<StoreOp>,
                                                     id: string, interval: Positive)
    requires Follows(b, s) && OnEmptyKey(b) && FixedBatches(b, ops)
    requires StableNumber(s) < proof[0].seqNo && s.lastApplied <= proof[0].seqNo && HasStaleEntry(s, proof[0].seqNo)
    requires proof[0].digest == Digest(ValuesAfter(b, proof[0].seqNo))
    ensures var k, jumped := proof[0].seqNo, Stabilize(s, proof);
            var replayed := jumped.(values := ValuesAfter(b, k));
            && jumped.lastApplied == k && SameValues(jumped.values, ValuesAfter(b, k))
            && RunFrom(jumped, ops, id, interval).1 == RunFrom(replayed, ops, id, interval).1
            && var (end, out) := RunFrom(jumped, ops, id, interval);
               && end.lastApplied >= k && SameValues(end.values, ValuesAfter(b, end.lastApplied))
               && Join(Transcript(b, k, id, interval), out) == Transcript(b, end.lastApplied, id, interval)
  {
    var k, jumped := proof[0].seqNo, Stabilize(s, proof);
    StateTransferIsExactIff(b, s, proof);
    var replayed := jumped.(values := ValuesAfter(b, k));
    AlikeRuns(jumped, replayed, ops, id, interval);
    ContinuesTranscript(b, replayed, ops, id, interval);
  }

  lemma {:induction false} ContinuesTranscript(b: Batches, s: StoreState, ops: seq<StoreOp>, id: string,
                                               interval: Positive)
    requires Follows(b, s) && FixedBatches(b, ops)
    ensures var (end, out) := RunFrom(s, ops, id, interval);
            && Follows(b, end) && end.lastApplied >= s.lastApplied
            && Join(Transcript(b, s.lastApplied, id, interval), out) == Transcript(b, end.lastApplied, id, interval)
  {
    var start := Transcript(b, s.lastApplied, id, interval);
    if ops == [] {
      JoinNothing(start);
    } else {
      var before, op := ops[..|ops| - 1], ops[|ops| - 1];
      assert forall o | o in before :: o in ops;
      ContinuesTranscript(b, s, before, id, interval);
      if op.CommitOp? {
        var (mid, out) := RunFrom(s, before, id, interval);
        var marked := MarkCommitted(mid, op.n);
        DrainReplays(b, marked, id, interval);
        DrainStopsAtTheGap(marked, id, interval);
        JoinAssociates(start, out, Drain(marked, id, interval).1);
      }
    }
  }

  // ---------- A checkpoint that takes the state back ----------

  function AddsOne(timestamp: int): ClientRequest {
    ClientRequest("c", timestamp, Operation(Add, "", "1"), "")
  }

  /** Numbers 1 and 2 each add 1 to the empty key. */
  function Ones(): Batches {
    map[1 := [AddsOne(1)], 2 := [AddsOne(2)]]
  }

  /** Each number is executed as soon as its batch is there. */
  function RunOnes(): seq<StoreOp> {
    [] + [AddOp(1, Some([AddsOne(1)]))] + [CommitOp(1)] + [AddOp(2, Some([AddsOne(2)]))] + [CommitOp(2)]
  }

  lemma OneIsAdded(values: Values, timestamp: int)
    ensures RunBatch(values, [AddsOne(timestamp)]).0 == values["" := Wrap64(ValueOf(values, "") + 1)]
  {
    var reqs := [AddsOne(timestamp)];
    AtoiOfItoa(1);
    assert Itoa(1) == "1" && reqs[..0] == [];
    assert RunBatch(values, []) == (values, []);
  }

  lemma ValuesOfOnes()
    ensures ValueOf(ValuesAfter(Ones(), 1), "") == 1 && ValueOf(ValuesAfter(Ones(), 2), "") == 2
    ensures Digest(ValuesAfter(Ones(), 1)) == "1"
  {
    OneIsAdded(map[], 1);
    OneIsAdded(ValuesAfter(Ones(), 1), 2);
    assert ValueOf(ValuesAfter(Ones(), 1), "") == 1;
    assert ValueOf(ValuesAfter(Ones(), 2), "") == 2;
  }

  lemma {:induction false} RunsKeepStable(s: StoreState, ops: seq<StoreOp>, id: string, interval: Positive)
    ensures RunFrom(s, ops, id, interval).0.lastStable == s.lastStable
  {
    if ops != [] {
      RunsKeepStable(s, ops[..|ops| - 1], id, interval);
      var op := ops[|ops| - 1];
      if op.CommitOp? {
        DrainStopsAtTheGap(MarkCommitted(RunFrom(s, ops[..|ops| - 1], id, interval).0, op.n), id, interval);
      }
    }
  }

  lemma OnesAreEffective(n: int)
    ensures Effective(RunOnes(), n) <==> n == 1 || n == 2
  {
    var add1, add2 := AddOp(1, Some([AddsOne(1)])), AddOp(2, Some([AddsOne(2)]));
    LastOp([], add1, n);
    LastOp([] + [add1], CommitOp(1), n);
    LastOp([] + [add1] + [CommitOp(1)], add2, n);
    LastOp([] + [add1] + [CommitOp(1)] + [add2], CommitOp(2), n);
  }

  lemma OnesAreExecuted(id: string, interval: Positive)
    ensures var s := RunFrom(NEW_STORE, RunOnes(), id, interval).0;
            Follows(Ones(), s) && s.lastApplied == 2 && 1 in s.committed && s.lastStable.None?
  {
    RunReplays(Ones(), RunOnes(), id, interval);
    RunsKeepStable(NEW_STORE, RunOnes(), id, interval);
    OnesAreEffective(1);
    OnesAreEffective(2);
    OnesAreEffective(3);
  }

  /**
   * A store that has executed 1 and 2 learns that number 1 is stable, with the right digest: it still counts 2 as
   * applied, but its values are those of 1.
   */
  lemma {:induction false} StabilisingGoesBack(id: string, interval: Positive)
    ensures var s := RunFrom(NEW_STORE, RunOnes(), id, interval).0;
            var s' := Stabilize(s, [Checkpoint(1, "1", id, 0)]);
            && s.lastApplied == 2 && SameValues(s.values, ValuesAfter(Ones(), 2))
            && s'.lastApplied == 2 && SameValues(s'.values, ValuesAfter(Ones(), 1))
            && ValueOf(s.values, "") == 2 && ValueOf(s'.values, "") == 1
  {
    var s, b := RunFrom(NEW_STORE, RunOnes(), id, interval).0, Ones();
    OnesAreExecuted(id, interval);
    ValuesOfOnes();
    ReplayStaysOnEmptyKey(b, 1);
    StabilisedValues(b, s, [Checkpoint(1, "1", id, 0)]);
  }

  lemma StabilisedValues(b: Batches, s: StoreState, proof: Proof)
    requires StableNumber(s) < proof[0].seqNo && HasStaleEntry(s, proof[0].seqNo) && proof[0].seqNo >= 0
    requires var values := ValuesAfter(b, proof[0].seqNo); OnlyEmptyKey(values) && proof[0].digest == Digest(values)
    ensures SameValues(Stabilize(s, proof).values, ValuesAfter(b, proof[0].seqNo))
  {
    DigestRestores(ValuesAfter(b, proof[0].seqNo));
  }
}
