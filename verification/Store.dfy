/**
 * The ordered execution store of `pbft/store.go`, as a value with one function per locked method.
 * `Stores.Store` is the object that carries these out in place.
 */
module StoreModel {
  import opened Messages
  import opened Decimal

  type Values = map<string, int>

  /** A checkpoint proof is indexed at 0 without a test, so it is never empty. */
  type Proof = p: seq<Checkpoint> | |p| > 0 witness [Checkpoint(0, "", "", 0)]

  type Positive = x: int | x > 0 witness 1

  datatype CheckpointId = CheckpointId(seqNo: int, digest: string)

  datatype StoreState = StoreState(unstable: map<CheckpointId, Proof>, lastStable: Option<Proof>,
                                   values: Values, requests: map<int, Batch>,
                                   lastApplied: int, committed: map<int, Batch>)

  const NEW_STORE := StoreState(map[], None, map[], map[], 0, map[])

  /** What one `Commit` call returns. */
  datatype Output = Output(requests: seq<ClientRequest>, results: seq<string>, checkpoints: seq<Checkpoint>)

  const NO_OUTPUT := Output([], [], [])

  function Join(a: Output, b: Output): Output {
    Output(a.requests + b.requests, a.results + b.results, a.checkpoints + b.checkpoints)
  }

  lemma JoinNothing(a: Output)
    ensures Join(NO_OUTPUT, a) == a == Join(a, NO_OUTPUT)
  {
  }

  lemma JoinAssociates(a: Output, b: Output, c: Output)
    ensures Join(Join(a, b), c) == Join(a, Join(b, c))
  {
  }

  /** Go's map lookup: an absent key and a nil value look the same. */
  function Lookup(m: map<int, Batch>, n: int): Batch {
    if n in m then m[n] else None
  }

  function Contents(b: Batch): seq<ClientRequest> {
    if b.Some? then b.value else []
  }

  function ValueOf(values: Values, key: string): int {
    if key in values then values[key] else 0
  }

  /** `State.apply` without its printed result: an operand that does not parse changes nothing. */
  function Update(values: Values, op: Operation): Values {
    match (op.kind, Atoi(op.value))
    case (Add, Some(x)) => values[op.key := Wrap64(ValueOf(values, op.key) + x)]
    case (Sub, Some(x)) => values[op.key := Wrap64(ValueOf(values, op.key) - x)]
    case _ => values
  }

  /** Applies a batch in order; every request answers with the printed value of its key. */
  function RunBatch(values: Values, reqs: seq<ClientRequest>): (r: (Values, seq<string>))
    ensures |r.1| == |reqs|
  {
    if reqs == [] then (values, [])
    else
      var (before, results) := RunBatch(values, reqs[..|reqs| - 1]);
      var op := reqs[|reqs| - 1].operation;
      var after := Update(before, op);
      (after, results + [Itoa(ValueOf(after, op.key))])
  }

  function Digest(values: Values): string {
    Itoa(ValueOf(values, ""))
  }

  /** The checkpoint taken after executing number n, at each multiple of the interval. */
  function Taken(values: Values, n: int, id: string, interval: Positive): seq<Checkpoint> {
    if n % interval == 0 then [Checkpoint(n, Digest(values), id, 0)] else []
  }

  /** What executing number `n` adds to the output: its batch with the results, and its checkpoint. */
  function Entry(values: Values, reqs: seq<ClientRequest>, n: int, id: string, interval: Positive): Output {
    Output(reqs, RunBatch(values, reqs).1, Taken(RunBatch(values, reqs).0, n, id, interval))
  }

  function StableNumber(s: StoreState): int {
    if s.lastStable.None? then 0 else s.lastStable.value[0].seqNo
  }

  function Backlog(s: StoreState): set<int> {
    set n | n in s.committed && n > s.lastApplied
  }

  function ExecuteNext(s: StoreState): StoreState {
    var n := s.lastApplied + 1;
    s.(values := RunBatch(s.values, Contents(Lookup(s.requests, n))).0, lastApplied := n)
  }

  /** The apply loop: execute while the next number is committed. */
  function Drain(s: StoreState, id: string, interval: Positive): (r: (StoreState, Output))
    ensures |r.1.results| == |r.1.requests|
    decreases |Backlog(s)|
  {
    var n := s.lastApplied + 1;
    if Lookup(s.committed, n).None? then (s, NO_OUTPUT)
    else
      var next := ExecuteNext(s);
      BacklogShrinks(s);
      var (end, rest) := Drain(next, id, interval);
      (end, Join(Entry(s.values, Contents(Lookup(s.requests, n)), n, id, interval), rest))
  }

  lemma BacklogShrinks(s: StoreState)
    requires s.lastApplied + 1 in s.committed
    ensures |Backlog(ExecuteNext(s))| < |Backlog(s)|
  {
    assert Backlog(s) == Backlog(ExecuteNext(s)) + {s.lastApplied + 1};
  }

  function AddRequests(s: StoreState, n: int, batch: Batch): StoreState {
    s.(requests := s.requests[n := batch])
  }

  function MarkCommitted(s: StoreState, n: int): StoreState {
    s.(committed := s.committed[n := Lookup(s.requests, n)])
  }

  function Commit(s: StoreState, n: int, id: string, interval: Positive): (StoreState, Output) {
    Drain(MarkCommitted(s, n), id, interval)
  }

  // ---------- Checkpoints ----------

  function Max(a: int, b: int): int {
    if a < b then b else a
  }

  /** `stabilizeCheckpoint`: older entries go, and the values restart from the digest if any committed entry went. */
  function Stabilize(s: StoreState, proof: Proof): StoreState {
    var k := proof[0].seqNo;
    if StableNumber(s) >= k then s
    else
      StoreState(
        map id | id in s.unstable && s.unstable[id][0].seqNo > k :: s.unstable[id],
        Some(proof),
        if exists n :: n in s.committed && n <= k then Update(map[], Operation(Add, "", proof[0].digest)) else s.values,
        map n | n in s.requests && n > k :: s.requests[n],
        Max(s.lastApplied, k),
        map n | n in s.committed && n > k :: s.committed[n])
  }

  function IdOf(c: Checkpoint): CheckpointId {
    CheckpointId(c.seqNo, c.digest)
  }

  function AddVote(s: StoreState, c: Checkpoint): StoreState {
    var earlier: seq<Checkpoint> := if IdOf(c) in s.unstable then s.unstable[IdOf(c)] else [];
    s.(unstable := s.unstable[IdOf(c) := earlier + [c]])
  }

  /** Votes are counted per message; the (2f+1)-th makes the checkpoint stable and is reported. */
  function AddCheckpoint(s: StoreState, f: nat, c: Checkpoint): (StoreState, Option<int>) {
    if c.seqNo < StableNumber(s) then (s, None)
    else
      var voted := AddVote(s, c);
      var proof := voted.unstable[IdOf(c)];
      if |proof| == 2 * f + 1 then (Stabilize(voted, proof), Some(proof[0].seqNo)) else (voted, None)
  }

  function UpdateLastStable(s: StoreState, proof: Proof): StoreState {
    var k := proof[0].seqNo;
    s.(lastStable := if s.lastStable.None? || StableNumber(s) < k then Some(proof) else s.lastStable,
       lastApplied := Max(s.lastApplied, k))
  }
}
