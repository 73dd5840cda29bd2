/**
 * Checkpoint votes are counted per message (`AddCheckpointRequest` in `pbft/store.go`), not per replica: one faulty
 * backup makes any checkpoint it likes stable, by sending it often enough.
 */
module FalseCheckpoint {
  import opened Messages
  import opened StoreModel
  import opened Replicas
  import opened Systems
  import opened FirstView
  import opened StableAgreement
  import opened Scripts

  /** q hears the vote j times. */
  function Hears(q: string, c: Checkpoint, j: nat): seq<Action> {
    if j == 0 then [] else Hears(q, c, j - 1) + [Action(q, OnCheckpoint(c))]
  }

  function Copies(c: Checkpoint, j: nat): (cs: seq<Checkpoint>)
    ensures |cs| == j
  {
    if j == 0 then [] else Copies(c, j - 1) + [c]
  }

  lemma FirstCopy(c: Checkpoint, j: nat)
    requires j > 0
    ensures Copies(c, j)[0] == c
  {
    if j > 1 {
      FirstCopy(c, j - 1);
    }
  }

  /** The store that has counted j votes, and nothing else. */
  function Counting(c: Checkpoint, j: nat): StoreState {
    if j == 0 then NEW_STORE else NEW_STORE.(unstable := map[IdOf(c) := Copies(c, j)])
  }

  lemma CountsOneMore(f: nat, c: Checkpoint, j: nat)
    requires c.seqNo > 0 && j < 2 * f
    ensures AddCheckpoint(Counting(c, j), f, c) == (Counting(c, j + 1), None)
  {
    assert Counting(c, j).unstable[IdOf(c) := Copies(c, j + 1)] == map[IdOf(c) := Copies(c, j + 1)];
  }

  lemma CountsTheLast(f: nat, c: Checkpoint)
    requires c.seqNo > 0
    ensures var (s, stable) := AddCheckpoint(Counting(c, 2 * f), f, c);
            && stable == Some(c.seqNo) && s.lastStable == Some(Copies(c, 2 * f + 1)) && s.lastApplied == c.seqNo
            && s.values == map[]
  {
    FirstCopy(c, 2 * f + 1);
    var voted := AddVote(Counting(c, 2 * f), c);
    assert voted.unstable[IdOf(c)] == Copies(c, 2 * f + 1);
  }

  lemma TakesVote(w: World, run: seq<Action>, q: string, c: Checkpoint, r': Replica)
    requires q in After(w, run).nodes && HandleCheckpoint(w.At(q), After(w, run).nodes[q], c) == Quiet(r')
    ensures var run' := run + [Action(q, OnCheckpoint(c))];
            q in After(w, run').nodes && After(w, run').nodes[q] == r' && Log(w, run') == Log(w, run)
  {
    var a := Action(q, OnCheckpoint(c));
    OneAction(w, run, a);
    ActsQuietly(w, run, q, OnCheckpoint(c), r');
    assert Log(w, run) + [] == Log(w, run);
  }

  /** q after j votes. */
  function Counter(w: World, q: string, c: Checkpoint, j: nat): Replica {
    NewReplica(w.At(q)).(store := Counting(c, j))
  }

  ghost predicate HasCounted(w: World, q: string, c: Checkpoint, j: nat) {
    var run := Hears(q, c, j);
    && q in After(w, run).nodes && Log(w, run) == [] && After(w, run).nodes[q] == Counter(w, q, c, j)
  }

  lemma CounterCounts(w: World, q: string, c: Checkpoint, j: nat)
    requires c.seqNo > 0 && j < 2 * w.F()
    ensures HandleCheckpoint(w.At(q), Counter(w, q, c, j), c) == Quiet(Counter(w, q, c, j + 1))
  {
    CountsOneMore(w.F(), c, j);
  }

  lemma OneMoreIsCounted(w: World, q: string, c: Checkpoint, j: nat)
    requires c.seqNo > 0 && j < 2 * w.F() && HasCounted(w, q, c, j)
    ensures HasCounted(w, q, c, j + 1)
  {
    CounterCounts(w, q, c, j);
    TakesVote(w, Hears(q, c, j), q, c, Counter(w, q, c, j + 1));
  }

  lemma NoneIsCounted(w: World, q: string, c: Checkpoint)
    requires q in w.Correct()
    ensures HasCounted(w, q, c, 0)
  {
  }

  lemma {:induction false} AllAreCounted(w: World, q: string, c: Checkpoint, j: nat)
    requires q in w.Correct() && c.seqNo > 0 && j <= 2 * w.F()
    ensures HasCounted(w, q, c, j)
  {
    if j == 0 {
      NoneIsCounted(w, q, c);
    } else {
      var i: nat := j - 1;
      AllAreCounted(w, q, c, i);
      OneMoreIsCounted(w, q, c, i);
      assert i + 1 == j;
    }
  }

  lemma {:induction false} OnlyHears(q: string, c: Checkpoint, j: nat)
    ensures |Hears(q, c, j)| == j && forall a | a in Hears(q, c, j) :: a == Action(q, OnCheckpoint(c))
  {
    if j > 0 {
      OnlyHears(q, c, j - 1);
    }
  }

  lemma StaysInView(w: World, run: seq<Action>, q: string, c: Checkpoint)
    requires Primary(w) !in w.byz && c.replica != q && forall a | a in run :: a == Action(q, OnCheckpoint(c))
    ensures FirstViewRun(w, run) && NoEcho(run)
  {
    assert forall i | 0 <= i < |run| :: run[i] in run;
  }

  /** The store after the last vote. */
  ghost predicate TookIt(w: World, s: StoreState, c: Checkpoint) {
    s.lastStable == Some(Copies(c, 2 * w.F() + 1)) && s.lastApplied == c.seqNo && s.values == map[]
  }

  lemma LastVoteCounts(w: World, q: string, c: Checkpoint)
    requires c.seqNo > 0 && q in w.Correct()
    ensures var run := Hears(q, c, 2 * w.F() + 1);
            q in After(w, run).nodes && Log(w, run) == [] && TookIt(w, StoreOf(w, run, q), c)
  {
    AllAreCounted(w, q, c, 2 * w.F());
    CountsTheLast(w.F(), c);
    TakesVote(w, Hears(q, c, 2 * w.F()), q, c, HandleCheckpoint(w.At(q), Counter(w, q, c, 2 * w.F()), c).replica);
  }

  /**
   * In a run in which the first primary is correct and one backup is not: 2F+1 times the backup's vote, for whatever
   * number and digest, and a correct replica takes it for stable and for executed, though there is no request yet.
   */
  lemma {:induction false} OneVoterIsEnough(w: World, q: string, c: Checkpoint)
    requires q in w.Correct() && Primary(w) !in w.byz && c.replica in w.byz && c.seqNo > 0
    ensures var run := Hears(q, c, 2 * w.F() + 1);
            && FirstViewRun(w, run) && NoEcho(run) && (forall a | a in run :: a == Action(q, OnCheckpoint(c)))
            && q in After(w, run).nodes && Log(w, run) == [] && TookIt(w, StoreOf(w, run, q), c)
            && !IsRight(w, run, q) && !AllGenuine(w, run, q)
  {
    OnlyHears(q, c, 2 * w.F() + 1);
    StaysInView(w, Hears(q, c, 2 * w.F() + 1), q, c);
    LastVoteCounts(w, q, c);
    NotGenuine(w, q, c);
  }

  lemma NotGenuine(w: World, q: string, c: Checkpoint)
    requires q in w.Correct() && c.seqNo > 0
    ensures !AllGenuine(w, Hears(q, c, 2 * w.F() + 1), q)
  {
    var n, run := 2 * w.F(), Hears(q, c, 2 * w.F() + 1);
    AllAreCounted(w, q, c, n);
    OnlyHears(q, c, n);
    assert run[..n] == Hears(q, c, n) && run[n] == Action(q, OnCheckpoint(c));
    LastJumpIsFalse(w, Hears(q, c, n), q, c);
    assert !GenuineAt(w, run[..n], run[n], q);
  }

  lemma LastJumpIsFalse(w: World, run: seq<Action>, q: string, c: Checkpoint)
    requires c.seqNo > 0 && q in After(w, run).nodes && Log(w, run) == []
    requires After(w, run).nodes[q] == Counter(w, q, c, 2 * w.F())
    ensures !GenuineAt(w, run, Action(q, OnCheckpoint(c)), q)
  {
    FirstCopy(c, 2 * w.F() + 1);
    var voted := AddVote(Counting(c, 2 * w.F()), c);
    assert voted.unstable[IdOf(c)] == Copies(c, 2 * w.F() + 1);
  }
}
