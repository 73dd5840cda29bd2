/** `pbft/store.go` in its own form: objects whose methods update the maps and counters in place. */
module Stores {
  import opened Messages
  import opened Decimal
  import opened StoreModel
  import opened Quorums

  class State {
    var value: Values

    constructor ()
      ensures value == map[]
    {
      value := map[];
    }

    method Apply(op: Operation) returns (result: string)
      modifies this
      ensures value == Update(old(value), op)
      ensures result == Itoa(ValueOf(value, op.key))
    {
      var operand := 0;
      if op.kind == Add || op.kind == Sub {
        match Atoi(op.value) {
          case None => return Itoa(ValueOf(value, op.key));
          case Some(x) => operand := x;
        }
      }
      match op.kind {
        case Add => value := value[op.key := Wrap64(ValueOf(value, op.key) + operand)];
        case Sub => value := value[op.key := Wrap64(ValueOf(value, op.key) - operand)];
        case _ =>
      }
      return Itoa(ValueOf(value, op.key));
    }
  }

  class Store {
    const id: string
    const f: nat
    const interval: Positive

    var unstable: map<CheckpointId, Proof>
    var lastStable: Option<Proof>
    var state: State
    var requests: map<int, Batch>
    var lastApplied: int
    var committed: map<int, Batch>

    ghost function Model(): StoreState
      reads this, state
    {
      StoreState(unstable, lastStable, state.value, requests, lastApplied, committed)
    }

    constructor (id: string, f: nat, interval: Positive)
      ensures Model() == NEW_STORE
      ensures this.id == id && this.f == f && this.interval == interval
      ensures fresh(state)
    {
      this.id, this.f, this.interval := id, f, interval;
      unstable, lastStable, requests, lastApplied, committed := map[], None, map[], 0, map[];
      state := new State();
    }

    method GetStableNumber() returns (n: int)
      ensures n == StableNumber(Model())
    {
      n := if lastStable.None? then 0 else lastStable.value[0].seqNo;
    }

    method UpdateLastStableCheckpoint(proof: Proof)
      modifies this
      ensures Model() == UpdateLastStable(old(Model()), proof) && state == old(state)
    {
      if lastStable.None? || lastStable.value[0].seqNo < proof[0].seqNo {
        lastStable := Some(proof);
      }
      if lastApplied < proof[0].seqNo {
        lastApplied := proof[0].seqNo;
      }
    }

    method AddRequests(n: int, batch: Batch)
      modifies this
      ensures Model() == StoreModel.AddRequests(old(Model()), n, batch) && state == old(state)
    {
      requests := requests[n := batch];
    }

    method Commit(n: int) returns (out: Output)
      modifies this, state
      ensures (Model(), out) == StoreModel.Commit(old(Model()), n, id, interval)
      ensures state == old(state)
    {
      committed := committed[n := if n in requests then requests[n] else None];
      out := NO_OUTPUT;
      ghost var (end, whole) := Drain(Model(), id, interval);
      JoinNothing(whole);
      while lastApplied + 1 in committed && committed[lastApplied + 1].Some?
        invariant state == old(state)
        invariant Drain(Model(), id, interval).0 == end && Join(out, Drain(Model(), id, interval).1) == whole
        decreases |Backlog(Model())|
      {
        BacklogShrinks(Model());
        ghost var before := Model();
        var entry := ExecuteOne();
        JoinAssociates(out, entry, Drain(Model(), id, interval).1);
        out := Join(out, entry);
      }
      JoinNothing(out);
    }

    /** The body of the apply loop. */
    method ExecuteOne() returns (entry: Output)
      modifies this, state
      ensures Model() == ExecuteNext(old(Model())) && state == old(state)
      ensures entry == Entry(old(state.value), old(Contents(Lookup(requests, lastApplied + 1))),
                             old(lastApplied) + 1, id, interval)
    {
      var k := lastApplied + 1;
      var reqs := Contents(if k in requests then requests[k] else None);
      var results := ApplyAll(reqs);
      var checkpoints := TakeCheckpoint(k);
      lastApplied := k;
      entry := Output(reqs, results, checkpoints);
    }

    method TakeCheckpoint(n: int) returns (taken: seq<Checkpoint>)
      ensures taken == Taken(state.value, n, id, interval)
    {
      taken := [];
      if n % interval == 0 {
        taken := [Checkpoint(n, Itoa(ValueOf(state.value, "")), id, 0)];
      }
    }

    /** The inner loop of `Commit`. */
    method ApplyAll(reqs: seq<ClientRequest>) returns (results: seq<string>)
      modifies state
      ensures (state.value, results) == RunBatch(old(state.value), reqs)
    {
      results := [];
      for i := 0 to |reqs|
        invariant (state.value, results) == RunBatch(old(state.value), reqs[..i])
      {
        assert reqs[..i + 1][..i] == reqs[..i];
        var result := state.Apply(reqs[i].operation);
        results := results + [result];
      }
      assert reqs[..|reqs|] == reqs;
    }

    method AddCheckpointRequest(c: Checkpoint) returns (stable: Option<int>)
      modifies this, state
      ensures (Model(), stable) == AddCheckpoint(old(Model()), f, c)
      ensures state == old(state) || fresh(state)
    {
      var current := GetStableNumber();
      if c.seqNo < current {
        return None;
      }
      var key := CheckpointId(c.seqNo, c.digest);
      var proof: seq<Checkpoint> := [];
      if key in unstable {
        proof := unstable[key];
      }
      proof := proof + [c];
      unstable := unstable[key := proof];
      if |proof| == 2 * f + 1 {
        StabilizeCheckpoint(proof);
        return Some(proof[0].seqNo);
      }
      return None;
    }

    method StabilizeCheckpoint(proof: Proof)
      modifies this, state
      ensures Model() == Stabilize(old(Model()), proof)
      ensures state == old(state) || fresh(state)
    {
      var current := GetStableNumber();
      var k := proof[0].seqNo;
      if current >= k {
        return;
      }
      ghost var before := Model();
      lastStable := Some(proof);
      unstable := DropStaleProofs(unstable, k);
      var haveStaleState;
      requests, haveStaleState := DropStale(requests, k);
      committed, haveStaleState := DropStale(committed, k);
      if haveStaleState {
        state := new State();
        var _ := state.Apply(Operation(Add, "", proof[0].digest));
      }
      if lastApplied < k {
        lastApplied := k;
      }
    }
  }

  /** The delete loops over `requests` and `committedRequests`; the second one also notes whether anything went. */
  method DropStale<T>(m: map<int, T>, k: int) returns (kept: map<int, T>, dropped: bool)
    ensures kept == map n | n in m && n > k :: m[n]
    ensures dropped <==> exists n :: n in m && n <= k
  {
    kept, dropped := m, false;
    var unseen := m.Keys;
    while unseen != {}
      invariant unseen <= m.Keys
      invariant kept == map n | n in m && (n in unseen || n > k) :: m[n]
      invariant dropped <==> exists n :: n in m && n !in unseen && n <= k
    {
      SomeMember(unseen);
      var n :| n in unseen;
      unseen := unseen - {n};
      if n <= k {
        kept := kept - {n};
        dropped := true;
      }
    }
  }

  method DropStaleProofs(m: map<CheckpointId, Proof>, k: int) returns (kept: map<CheckpointId, Proof>)
    ensures kept == map id | id in m && m[id][0].seqNo > k :: m[id]
  {
    kept := m;
    var unseen := m.Keys;
    while unseen != {}
      invariant unseen <= kept.Keys <= m.Keys
      invariant forall id | id in kept :: kept[id] == m[id]
      invariant forall id | id in m && id !in unseen :: id in kept <==> m[id][0].seqNo > k
    {
      var id :| id in unseen;
      unseen := unseen - {id};
      if m[id][0].seqNo <= k {
        kept := kept - {id};
      }
    }
  }
}
