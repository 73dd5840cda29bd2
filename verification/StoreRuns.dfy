/** What the store of `pbft/store.go` does over whole runs: replay, checkpoints, state transfer, bookkeeping. */
module StoreRuns {
  import opened Messages
  import opened StoreModel

  /** The one batch that belongs to each number. */
  type Batches = map<int, seq<ClientRequest>>

  function BatchAt(b: Batches, n: int): seq<ClientRequest> {
    if n in b then b[n] else []
  }

  /** The values after executing 1..k one by one. */
  function ValuesAfter(b: Batches, k: nat): Values {
    if k == 0 then map[] else RunBatch(ValuesAfter(b, k - 1), BatchAt(b, k)).0
  }

  /** Everything returned while executing 1..k one by one. */
  function Transcript(b: Batches, k: nat, id: string, interval: Positive): Output {
    if k == 0 then NO_OUTPUT
    else Join(Transcript(b, k - 1, id, interval), Entry(ValuesAfter(b, k - 1), BatchAt(b, k), k, id, interval))
  }

  // ---------- The apply loop ----------

  /** The values are those of 1..lastApplied, and every executable entry has its batch. */
  ghost predicate Follows(b: Batches, s: StoreState) {
    && s.lastApplied >= 0 && s.values == ValuesAfter(b, s.lastApplied)
    && (forall n | n in s.requests :: n in b && s.requests[n] == Some(b[n]))
    && (forall n | n in s.committed && s.committed[n].Some? :: n in s.requests)
  }

  lemma {:induction false} DrainStopsAtTheGap(s: StoreState, id: string, interval: Positive)
    ensures var end := Drain(s, id, interval).0;
            && end == s.(values := end.values, lastApplied := end.lastApplied)
            && s.lastApplied <= end.lastApplied
            && (forall n | s.lastApplied < n <= end.lastApplied :: Lookup(s.committed, n).Some?)
            && Lookup(s.committed, end.lastApplied + 1).None?
    decreases |Backlog(s)|
  {
    if Lookup(s.committed, s.lastApplied + 1).Some? {
      BacklogShrinks(s);
      DrainStopsAtTheGap(ExecuteNext(s), id, interval);
    }
  }

  lemma {:induction false} DrainReplays(b: Batches, s: StoreState, id: string, interval: Positive)
    requires Follows(b, s)
    ensures var (end, out) := Drain(s, id, interval);
            && Follows(b, end)
            && Join(Transcript(b, s.lastApplied, id, interval), out) == Transcript(b, end.lastApplied, id, interval)
    decreases |Backlog(s)|
  {
    var n := s.lastApplied + 1;
    if Lookup(s.committed, n).Some? {
      BacklogShrinks(s);
      var next := ExecuteNext(s);
      assert Contents(Lookup(s.requests, n)) == BatchAt(b, n);
      DrainReplays(b, next, id, interval);
      JoinAssociates(Transcript(b, s.lastApplied, id, interval), Entry(s.values, BatchAt(b, n), n, id, interval),
                     Drain(next, id, interval).1);
    } else {
      JoinNothing(Transcript(b, s.lastApplied, id, interval));
    }
  }

  // ---------- Commit order does not matter ----------

  datatype StoreOp = AddOp(n: int, batch: Batch) | CommitOp(n: int)

  function RunFrom(s: StoreState, ops: seq<StoreOp>, id: string, interval: Positive): (StoreState, Output) {
    if ops == [] then (s, NO_OUTPUT)
    else
      var (before, out) := RunFrom(s, ops[..|ops| - 1], id, interval);
      match ops[|ops| - 1]
      case AddOp(n, batch) => (AddRequests(before, n, batch), out)
      case CommitOp(n) => var (after, more) := Commit(before, n, id, interval); (after, Join(out, more))
  }

  ghost predicate FixedBatches(b: Batches, ops: seq<StoreOp>) {
    forall op | op in ops && op.AddOp? :: op.n in b && op.batch == Some(b[op.n])
  }

  /** The batch of number n has been added. */
  predicate Known(ops: seq<StoreOp>, n: int) {
    ops != [] && (Known(ops[..|ops| - 1], n) || (ops[|ops| - 1].AddOp? && ops[|ops| - 1].n == n))
  }

  /** Number n was committed at a time when its batch was known; a `Commit` before that writes a nil entry. */
  predicate Effective(ops: seq<StoreOp>, n: int) {
    ops != [] && (Effective(ops[..|ops| - 1], n) || (ops[|ops| - 1] == CommitOp(n) && Known(ops[..|ops| - 1], n)))
  }

  ghost predicate LongestPrefix(k: nat, ops: seq<StoreOp>) {
    && (forall n | 1 <= n <= k :: Effective(ops, n))
    && !Effective(ops, k + 1)
  }

  /** The two maps hold exactly the known batches and the effective commits. */
  ghost predicate Tracks(s: StoreState, ops: seq<StoreOp>) {
    && (forall n :: Known(ops, n) <==> n in s.requests)
    && (forall n :: Effective(ops, n) <==> Lookup(s.committed, n).Some?)
  }

  /** Where a fresh store stands after `ops`. */
  ghost predicate Replayed(b: Batches, ops: seq<StoreOp>, s: StoreState, out: Output, id: string, interval: Positive) {
    && Follows(b, s) && Tracks(s, ops)
    && out == Transcript(b, s.lastApplied, id, interval)
    && LongestPrefix(s.lastApplied, ops)
  }

  lemma LastOp(before: seq<StoreOp>, op: StoreOp, n: int)
    ensures Known(before + [op], n) <==> Known(before, n) || (op.AddOp? && op.n == n)
    ensures Effective(before + [op], n) <==> Effective(before, n) || (op == CommitOp(n) && Known(before, n))
  {
    assert (before + [op])[..|before|] == before;
  }

  lemma AddTracks(before: seq<StoreOp>, op: StoreOp, s: StoreState, k: nat)
    requires Tracks(s, before) && op.AddOp? && LongestPrefix(k, before)
    ensures Tracks(AddRequests(s, op.n, op.batch), before + [op]) && LongestPrefix(k, before + [op])
  {
    forall n
      ensures Known(before + [op], n) <==> Known(before, n) || op.n == n
      ensures Effective(before + [op], n) <==> Effective(before, n)
    {
      LastOp(before, op, n);
    }
  }

  lemma CommitTracks(b: Batches, before: seq<StoreOp>, op: StoreOp, s: StoreState)
    requires Follows(b, s) && Tracks(s, before) && op.CommitOp?
    ensures Follows(b, MarkCommitted(s, op.n)) && Tracks(MarkCommitted(s, op.n), before + [op])
    ensures forall n | Effective(before, n) :: Effective(before + [op], n)
  {
    forall n
      ensures Known(before + [op], n) <==> Known(before, n)
      ensures Effective(before + [op], n) <==> Effective(before, n) || (op.n == n && Known(before, n))
    {
      LastOp(before, op, n);
    }
  }

  /** After a `Commit`, the applied numbers are the longest effective prefix again. */
  lemma CommitPrefix(b: Batches, before: seq<StoreOp>, op: StoreOp, s: StoreState, id: string, interval: Positive)
    requires Follows(b, s) && Tracks(s, before) && op.CommitOp? && LongestPrefix(s.lastApplied, before)
    ensures var after := Commit(s, op.n, id, interval).0;
            after.lastApplied >= 0 && Tracks(after, before + [op]) && LongestPrefix(after.lastApplied, before + [op])
  {
    var marked := MarkCommitted(s, op.n);
    CommitTracks(b, before, op, s);
    DrainStopsAtTheGap(marked, id, interval);
    var end := Drain(marked, id, interval).0;
    forall n | 1 <= n <= end.lastApplied ensures Effective(before + [op], n) {
      assert n <= s.lastApplied ==> Effective(before, n);
      assert n > s.lastApplied ==> Lookup(marked.committed, n).Some?;
    }
  }

  lemma CommitReplays(b: Batches, before: seq<StoreOp>, op: StoreOp, s: StoreState, out: Output, id: string,
                      interval: Positive)
    requires Replayed(b, before, s, out, id, interval) && op.CommitOp?
    ensures var (after, more) := Commit(s, op.n, id, interval);
            Replayed(b, before + [op], after, Join(out, more), id, interval)
  {
    CommitPrefix(b, before, op, s, id, interval);
    DrainReplays(b, MarkCommitted(s, op.n), id, interval);
  }

  lemma FixedBatchesOfPrefix(b: Batches, ops: seq<StoreOp>)
    requires FixedBatches(b, ops) && ops != []
    ensures FixedBatches(b, ops[..|ops| - 1]) && ops == ops[..|ops| - 1] + [ops[|ops| - 1]]
    ensures var op := ops[|ops| - 1]; op.AddOp? ==> op.n in b && op.batch == Some(b[op.n])
  {
    assert forall o | o in ops[..|ops| - 1] :: o in ops;
  }

  lemma AddReplays(b: Batches, before: seq<StoreOp>, op: StoreOp, s: StoreState, out: Output, id: string,
                   interval: Positive)
    requires Replayed(b, before, s, out, id, interval) && op.AddOp? && op.n in b && op.batch == Some(b[op.n])
    ensures Replayed(b, before + [op], AddRequests(s, op.n, op.batch), out, id, interval)
  {
    AddTracks(before, op, s, s.lastApplied);
  }

  lemma {:induction false} RunReplays(b: Batches, ops: seq<StoreOp>, id: string, interval: Positive)
    requires FixedBatches(b, ops)
    ensures var (s, out) := RunFrom(NEW_STORE, ops, id, interval); Replayed(b, ops, s, out, id, interval)
  {
    if ops != [] {
      var before, op := ops[..|ops| - 1], ops[|ops| - 1];
      FixedBatchesOfPrefix(b, ops);
      RunReplays(b, before, id, interval);
      var (s, out) := RunFrom(NEW_STORE, before, id, interval);
      match op
      case AddOp(_, _) => AddReplays(b, before, op, s, out, id, interval);
      case CommitOp(_) => CommitReplays(b, before, op, s, out, id, interval);
    }
  }

  /**
   * With one batch per number, the calls may come in any order and any number of times: the state, the
   * results and the checkpoints are those of executing the longest gap-free committed prefix one by one.
   */
  lemma CommitOrderDoesNotMatter(b: Batches, ops: seq<StoreOp>, id: string, interval: Positive)
    requires FixedBatches(b, ops)
    ensures var (s, out) := RunFrom(NEW_STORE, ops, id, interval);
            && s.lastApplied >= 0 && LongestPrefix(s.lastApplied, ops)
            && s.values == ValuesAfter(b, s.lastApplied)
            && out == Transcript(b, s.lastApplied, id, interval)
  {
    RunReplays(b, ops, id, interval);
  }

  /** Two runs that committed the same numbers agree on everything they returned. */
  lemma {:induction false} SameCommitsSameResults(b: Batches, ops: seq<StoreOp>, ops': seq<StoreOp>, id: string,
                                                  interval: Positive)
    requires FixedBatches(b, ops) && FixedBatches(b, ops')
    requires forall n :: Effective(ops, n) <==> Effective(ops', n)
    ensures var (s, out), (s', out') := RunFrom(NEW_STORE, ops, id, interval), RunFrom(NEW_STORE, ops', id, interval);
            s.lastApplied == s'.lastApplied && s.values == s'.values && out == out'
  {
    RunReplays(b, ops, id, interval);
    RunReplays(b, ops', id, interval);
  }

  /** When every batch is added before its number's first `Commit`, every committed number counts. */
  lemma {:induction false} AddedFirstAllEffective(ops: seq<StoreOp>, n: int)
    requires forall i | 0 <= i < |ops| && ops[i].CommitOp? :: Known(ops[..i], ops[i].n)
    ensures Effective(ops, n) <==> CommitOp(n) in ops
  {
    if ops != [] {
      var before, op := ops[..|ops| - 1], ops[|ops| - 1];
      forall i | 0 <= i < |before| && before[i].CommitOp? ensures Known(before[..i], before[i].n) {
        assert before[..i] == ops[..i] && before[i] == ops[i];
      }
      AddedFirstAllEffective(before, n);
      assert ops == before + [op];
    }
  }

  // ---------- Checkpoints ----------

  /** The checkpoint of number n: the digest of exactly the prefix 1..n. */
  function CheckpointOf(b: Batches, n: nat, id: string): Checkpoint {
    Checkpoint(n, Digest(ValuesAfter(b, n)), id, 0)
  }

  /** The multiples of the interval among 1..k. */
  function Multiples(k: nat, interval: Positive): seq<nat> {
    if k == 0 then []
    else if k % interval == 0 then Multiples(k - 1, interval) + [k]
    else Multiples(k - 1, interval)
  }

  /** They are these numbers and no others, in increasing order. */
  lemma {:induction false} MultiplesAreExact(k: nat, interval: Positive, n: nat)
    ensures n in Multiples(k, interval) <==> 1 <= n <= k && n % interval == 0
    ensures forall i | 0 <= i < |Multiples(k, interval)| :: Multiples(k, interval)[i] <= k
    ensures forall i, j | 0 <= i < j < |Multiples(k, interval)| :: Multiples(k, interval)[i] < Multiples(k, interval)[j]
  {
    if k > 0 {
      MultiplesAreExact(k - 1, interval, n);
    }
  }

  /** The checkpoints of `numbers`, in this order. */
  function CheckpointsOf(b: Batches, numbers: seq<nat>, id: string): seq<Checkpoint> {
    if numbers == [] then []
    else CheckpointsOf(b, numbers[..|numbers| - 1], id) + [CheckpointOf(b, numbers[|numbers| - 1], id)]
  }

  lemma {:induction false} CheckpointsAreExact(b: Batches, k: nat, id: string, interval: Positive)
    ensures Transcript(b, k, id, interval).checkpoints == CheckpointsOf(b, Multiples(k, interval), id)
  {
    if k > 0 {
      CheckpointsAreExact(b, k - 1, id, interval);
      var before, taken := Multiples(k - 1, interval), Taken(ValuesAfter(b, k), k, id, interval);
      assert Transcript(b, k, id, interval).checkpoints == Transcript(b, k - 1, id, interval).checkpoints + taken;
      if k % interval == 0 {
        assert (before + [k])[..|before|] == before;
        assert taken == [CheckpointOf(b, k, id)];
      } else {
        assert taken == [];
      }
    }
  }

  /** Over any run without stabilisation, every replica emits exactly the checkpoints of its executed prefix. */
  lemma RunsEmitExactCheckpoints(b: Batches, ops: seq<StoreOp>, id: string, interval: Positive)
    requires FixedBatches(b, ops)
    ensures var (s, out) := RunFrom(NEW_STORE, ops, id, interval);
            s.lastApplied >= 0 && out.checkpoints == CheckpointsOf(b, Multiples(s.lastApplied, interval), id)
  {
    RunReplays(b, ops, id, interval);
    CheckpointsAreExact(b, RunFrom(NEW_STORE, ops, id, interval).0.lastApplied, id, interval);
  }
}
