/**
 * Replicated-log agreement: in every run under one correct primary in which no checkpoint becomes stable,
 * each correct replica has executed a prefix of the primary's log, with the results of replaying it.
 */
module Agreement {
  import opened Messages
  import opened StoreModel
  import opened StoreRuns
  import opened Replicas
  import opened Systems
  import opened FirstView

  function RequestAt(log: seq<ClientRequest>, n: int): ClientRequest
    requires 1 <= n <= |log|
  {
    log[n - 1]
  }

  /** One request per number. */
  function BatchesOf(log: seq<ClientRequest>): Batches {
    map n | 1 <= n <= |log| :: [RequestAt(log, n)]
  }

  /** What q has executed so far: the requests with their results, and the checkpoints it took. */
  ghost function Executed(w: World, run: seq<Action>, q: string): Output {
    if run == [] then NO_OUTPUT
    else
      var before, s, a := Executed(w, run[..|run| - 1], q), After(w, run[..|run| - 1]), run[|run| - 1];
      if a.who == q && a.input.RunTask? && a.input.task.CommittedTask? && Enabled(w, s, a)
      then Join(before, Commit(s.nodes[q].store, a.input.task.seqNo, q, w.interval).1)
      else before
  }

  ghost predicate NothingStable(s: System) {
    forall q | q in s.nodes :: s.nodes[q].store.lastStable.None?
  }

  ghost predicate NeverStable(w: World, run: seq<Action>) {
    forall i | 0 <= i <= |run| :: NothingStable(After(w, run[..i]))
  }

  // ---------- Replaying a growing log ----------

  ghost predicate Replays(log: seq<ClientRequest>, s: StoreState) {
    Follows(BatchesOf(log), s) && s.lastApplied <= |log|
  }

  lemma {:induction false} ReplayDependsOnBatches(b: Batches, b': Batches, k: nat)
    requires forall n | 1 <= n <= k :: BatchAt(b, n) == BatchAt(b', n)
    ensures ValuesAfter(b, k) == ValuesAfter(b', k)
  {
    if k > 0 {
      ReplayDependsOnBatches(b, b', k - 1);
    }
  }

  lemma {:induction false} TranscriptDependsOnBatches(b: Batches, b': Batches, k: nat, id: string, interval: Positive)
    requires forall n | 1 <= n <= k :: BatchAt(b, n) == BatchAt(b', n)
    ensures Transcript(b, k, id, interval) == Transcript(b', k, id, interval)
  {
    if k > 0 {
      TranscriptDependsOnBatches(b, b', k - 1, id, interval);
      ReplayDependsOnBatches(b, b', k - 1);
    }
  }

  lemma LongerLog(log: seq<ClientRequest>, more: seq<ClientRequest>, k: nat, id: string, interval: Positive)
    requires k <= |log|
    ensures ValuesAfter(BatchesOf(log + more), k) == ValuesAfter(BatchesOf(log), k)
    ensures Transcript(BatchesOf(log + more), k, id, interval) == Transcript(BatchesOf(log), k, id, interval)
  {
    var b, b' := BatchesOf(log), BatchesOf(log + more);
    assert forall n | 1 <= n <= k :: RequestAt(log + more, n) == RequestAt(log, n);
    ReplayDependsOnBatches(b, b', k);
    TranscriptDependsOnBatches(b, b', k, id, interval);
  }

  lemma ReplaysLongerLog(log: seq<ClientRequest>, more: seq<ClientRequest>, s: StoreState)
    requires Replays(log, s)
    ensures Replays(log + more, s)
  {
    LongerLog(log, more, s.lastApplied, "", 1);
    assert forall n | 1 <= n <= |log| :: RequestAt(log + more, n) == RequestAt(log, n);
  }

  /** The results of executing 1..k one by one. */
  function ResultsAfter(b: Batches, k: nat): seq<string> {
    if k == 0 then [] else ResultsAfter(b, k - 1) + RunBatch(ValuesAfter(b, k - 1), BatchAt(b, k)).1
  }

  lemma {:induction false} TranscriptResults(b: Batches, k: nat, id: string, interval: Positive)
    ensures Transcript(b, k, id, interval).results == ResultsAfter(b, k)
  {
    if k > 0 {
      TranscriptResults(b, k - 1, id, interval);
    }
  }

  function RequestsAfter(b: Batches, k: nat): seq<ClientRequest> {
    if k == 0 then [] else RequestsAfter(b, k - 1) + BatchAt(b, k)
  }

  lemma {:induction false} TranscriptRequests(b: Batches, k: nat, id: string, interval: Positive)
    ensures Transcript(b, k, id, interval).requests == RequestsAfter(b, k)
  {
    if k > 0 {
      TranscriptRequests(b, k - 1, id, interval);
    }
  }

  /** The i-th request of the log is the i-th executed. */
  lemma {:induction false} RequestsOfLog(log: seq<ClientRequest>, k: nat)
    requires k <= |log|
    ensures RequestsAfter(BatchesOf(log), k) == log[..k]
  {
    if k > 0 {
      RequestsOfLog(log, k - 1);
      assert BatchAt(BatchesOf(log), k) == [RequestAt(log, k)];
      assert log[..k] == log[..k - 1] + [log[k - 1]];
    }
  }

  /** The results of replaying a whole log, one per request. */
  function Results(log: seq<ClientRequest>): seq<string> {
    ResultsAfter(BatchesOf(log), |log|)
  }

  lemma OneResult(log: seq<ClientRequest>, k: nat)
    requires 0 < k <= |log|
    ensures var b := BatchesOf(log); |ResultsAfter(b, k)| == |ResultsAfter(b, k - 1)| + 1
  {
    assert BatchAt(BatchesOf(log), k) == [RequestAt(log, k)];
  }

  lemma {:induction false} OneResultEach(log: seq<ClientRequest>, n: nat)
    requires n <= |log|
    ensures |ResultsAfter(BatchesOf(log), n)| == n
  {
    if n == 0 {
      NoResults(BatchesOf(log));
    } else {
      OneResultEach(log, n - 1);
      OneResult(log, n);
    }
  }

  lemma NoResults(b: Batches)
    ensures ResultsAfter(b, 0) == []
  {
  }

  lemma {:induction false} ResultsOfPrefix(b: Batches, k: nat, n: nat)
    requires k <= n
    ensures ResultsAfter(b, k) <= ResultsAfter(b, n)
  {
    if k < n {
      ResultsOfPrefix(b, k, n - 1);
    }
  }

  // ---------- Steps ----------

  lemma AddReplays(log: seq<ClientRequest>, s: StoreState, n: int, batch: Batch)
    requires Replays(log, s) && BatchFits(log, n, batch)
    ensures Replays(log, StoreModel.AddRequests(s, n, batch))
  {
  }

  lemma CommitReplays(log: seq<ClientRequest>, s: StoreState, n: int, id: string, interval: Positive)
    requires Replays(log, s)
    ensures var (s', out) := Commit(s, n, id, interval);
            && Replays(log, s')
            && Join(Transcript(BatchesOf(log), s.lastApplied, id, interval), out)
               == Transcript(BatchesOf(log), s'.lastApplied, id, interval)
  {
    var marked := MarkCommitted(s, n);
    DrainReplays(BatchesOf(log), marked, id, interval);
    DrainStopsAtTheGap(marked, id, interval);
    var k := Drain(marked, id, interval).0.lastApplied;
    if k > s.lastApplied {
      assert Lookup(marked.committed, k).Some?;
    }
  }

  lemma UnstableVote(s: StoreState, f: nat, c: Checkpoint)
    requires s.lastStable.None? && AddCheckpoint(s, f, c).0.lastStable.None?
    ensures AddCheckpoint(s, f, c).0 == s.(unstable := AddCheckpoint(s, f, c).0.unstable)
  {
  }

  /** A step that leaves the store alone, adds a batch of the log to it, or votes for a checkpoint. */
  ghost predicate PlainStoreStep(log: seq<ClientRequest>, f: nat, s: StoreState, s': StoreState) {
    || s' == s
    || (exists n :: n in s'.requests && BatchFits(log, n, s'.requests[n])
               && s' == StoreModel.AddRequests(s, n, s'.requests[n]))
    || (exists c :: s' == AddCheckpoint(s, f, c).0)
    || (exists proof: Proof :: s' == UpdateLastStable(s, proof))
  }

  lemma OtherInputsKeepStore(cfg: Config, r: Replica, input: Input)
    requires !input.OnCheckpoint? && !input.OnPrePrepare? && !input.OnStatus? && !input.OnNewView? && !input.RunTask?
    ensures Step(cfg, r, input).replica.store == r.store
  {
  }

  lemma StoreStep(w: World, s: System, a: Action, log: seq<ClientRequest>)
    requires SystemFits(w, log, s) && Enabled(w, s, a) && StaysInFirstView(w, s, a)
    requires !(a.input.RunTask? && a.input.task.CommittedTask?)
    ensures PlainStoreStep(log, w.F(), s.nodes[a.who].store, Step(w.At(a.who), s.nodes[a.who], a.input).replica.store)
  {
    var r := s.nodes[a.who];
    var store' := Step(w.At(a.who), r, a.input).replica.store;
    if a.input.OnCheckpoint? {
      assert store' == AddCheckpoint(r.store, w.F(), a.input.checkpoint).0;
    } else if a.input.OnStatus? {
      StatusStoreStep(w.At(a.who), r, a.input.lastStable, a.input.proof, log);
    } else if a.input.OnPrePrepare? {
      PrePrepareStoreStep(w.At(a.who), r, a.input.preprepare, a.input.batch, log);
    } else if a.input.RunTask? {
      assert TaskFits(w, a.who, log, r.cells, a.input.task);
      TaskStoreStep(w, a.who, r.(tasks := r.tasks - multiset{a.input.task}), a.input.task, log);
    } else {
      OtherInputsKeepStore(w.At(a.who), r, a.input);
    }
  }

  lemma StatusStoreStep(cfg: Config, r: Replica, k: int, proof: seq<Checkpoint>, log: seq<ClientRequest>)
    ensures PlainStoreStep(log, cfg.F(), r.store, HandleStatus(cfg, r, k, proof).replica.store)
  {
    var store' := HandleStatus(cfg, r, k, proof).replica.store;
    if store' != r.store {
      assert store' == UpdateLastStable(r.store, proof);
    }
  }

  lemma PrePrepareStoreStep(cfg: Config, r: Replica, pp: PrePrepare, batch: Batch, log: seq<ClientRequest>)
    requires BatchFits(log, pp.seqNo, batch)
    ensures PlainStoreStep(log, cfg.F(), r.store, HandlePrePrepare(cfg, r, pp, batch).replica.store)
  {
    var store' := HandlePrePrepare(cfg, r, pp, batch).replica.store;
    if store' != r.store {
      assert pp.seqNo in store'.requests && store'.requests[pp.seqNo] == batch;
    }
  }

  lemma TaskStoreStep(w: World, q: string, r: Replica, t: Task, log: seq<ClientRequest>)
    requires TaskFits(w, q, log, r.cells, t) && (HasRef(t) ==> t.ref < |r.cells|) && !t.CommittedTask?
    ensures PlainStoreStep(log, w.F(), r.store, Perform(w.At(q), r, t).replica.store)
  {
    var store' := Perform(w.At(q), r, t).replica.store;
    if t.CheckpointTask? {
      assert store' == AddCheckpoint(r.store, w.F(), t.checkpoint).0;
    } else if t.AddToStoreTask? {
      assert r.cells[t.ref].votes.preprepare.value.seqNo in store'.requests;
    }
  }

  lemma PlainStepReplays(log: seq<ClientRequest>, f: nat, s: StoreState, s': StoreState)
    requires Replays(log, s) && s.lastStable.None? && s'.lastStable.None? && PlainStoreStep(log, f, s, s')
    ensures Replays(log, s') && s'.lastApplied == s.lastApplied
  {
    if exists c :: s' == AddCheckpoint(s, f, c).0 {
      var c :| s' == AddCheckpoint(s, f, c).0;
      UnstableVote(s, f, c);
      var unstable := s'.unstable;
      assert s' == s.(unstable := unstable);
    } else if s' != s {
      var n :| n in s'.requests && BatchFits(log, n, s'.requests[n])
               && s' == StoreModel.AddRequests(s, n, s'.requests[n]);
      AddReplays(log, s, n, s'.requests[n]);
    }
  }

  /** Where q stands: its store replays the log, and it has executed the transcript of what it applied. */
  ghost predicate InStep(w: World, run: seq<Action>, q: string) {
    && q in After(w, run).nodes
    && var s := After(w, run).nodes[q].store;
       && Replays(Log(w, run), s)
       && Executed(w, run, q) == Transcript(BatchesOf(Log(w, run)), s.lastApplied, q, w.interval)
  }

  /** The last action of a run executes at q. */
  lemma CommitKeepsInStep(w: World, before: seq<Action>, q: string, n: int)
    requires InStep(w, before, q)
    requires Enabled(w, After(w, before), Action(q, RunTask(CommittedTask(n))))
    ensures var s', log := Commit(After(w, before).nodes[q].store, n, q, w.interval).0, Log(w, before);
            && Replays(log, s')
            && Executed(w, before + [Action(q, RunTask(CommittedTask(n)))], q)
               == Transcript(BatchesOf(log), s'.lastApplied, q, w.interval)
  {
    var a := Action(q, RunTask(CommittedTask(n)));
    assert (before + [a])[..|before|] == before;
    CommitReplays(Log(w, before), After(w, before).nodes[q].store, n, q, w.interval);
  }

  lemma OtherStepKeepsInStep(w: World, before: seq<Action>, a: Action)
    requires InStep(w, before, a.who) && SystemFits(w, Log(w, before), After(w, before))
    requires Enabled(w, After(w, before), a) && StaysInFirstView(w, After(w, before), a)
    requires !(a.input.RunTask? && a.input.task.CommittedTask?)
    requires After(w, before).nodes[a.who].store.lastStable.None?
    requires Step(w.At(a.who), After(w, before).nodes[a.who], a.input).replica.store.lastStable.None?
    ensures var s := After(w, before);
            var s', log := Step(w.At(a.who), s.nodes[a.who], a.input).replica.store, Log(w, before);
            && Replays(log, s')
            && Executed(w, before + [a], a.who) == Transcript(BatchesOf(log), s'.lastApplied, a.who, w.interval)
  {
    assert (before + [a])[..|before|] == before;
    var s, log := After(w, before), Log(w, before);
    StoreStep(w, s, a, log);
    PlainStepReplays(log, w.F(), s.nodes[a.who].store, Step(w.At(a.who), s.nodes[a.who], a.input).replica.store);
  }

  lemma CommittedStore(w: World, q: string, r: Replica, n: int)
    requires CommittedTask(n) in r.tasks
    ensures Step(w.At(q), r, RunTask(CommittedTask(n))).replica.store == Commit(r.store, n, q, w.interval).0
  {
  }

  lemma OwnStepKeepsInStep(w: World, before: seq<Action>, a: Action)
    requires InStep(w, before, a.who) && SystemFits(w, Log(w, before), After(w, before))
    requires Enabled(w, After(w, before), a) && StaysInFirstView(w, After(w, before), a)
    requires NothingStable(After(w, before)) && NothingStable(Act(w, After(w, before), a))
    ensures var s', log := Act(w, After(w, before), a).nodes[a.who].store, Log(w, before);
            && Replays(log, s')
            && Executed(w, before + [a], a.who) == Transcript(BatchesOf(log), s'.lastApplied, a.who, w.interval)
  {
    var s, s' := After(w, before), Act(w, After(w, before), a);
    assert s'.nodes[a.who] == Step(w.At(a.who), s.nodes[a.who], a.input).replica;
    assert s.nodes[a.who].store.lastStable.None? && s'.nodes[a.who].store.lastStable.None?;
    if a.input.RunTask? && a.input.task.CommittedTask? {
      var n := a.input.task.seqNo;
      CommittedStore(w, a.who, s.nodes[a.who], n);
      assert a == Action(a.who, RunTask(CommittedTask(n)));
      CommitKeepsInStep(w, before, a.who, n);
    } else {
      OtherStepKeepsInStep(w, before, a);
    }
  }

  lemma ActionKeepsInStep(w: World, before: seq<Action>, a: Action, q: string)
    requires InStep(w, before, q) && SystemFits(w, Log(w, before), After(w, before))
    requires StaysInFirstView(w, After(w, before), a)
    requires NothingStable(After(w, before)) && NothingStable(Act(w, After(w, before), a))
    ensures InStep(w, before + [a], q)
  {
    var s, log := After(w, before), Log(w, before);
    assert (before + [a])[..|before|] == before;
    if Enabled(w, s, a) {
      if a.who == q {
        OwnStepKeepsInStep(w, before, a);
      }
      var more, store' := Logged(Step(w.At(a.who), s.nodes[a.who], a.input).sent), Act(w, s, a).nodes[q].store;
      ReplaysLongerLog(log, more, store');
      LongerLog(log, more, store'.lastApplied, q, w.interval);
    }
  }

  lemma RunWithoutLast(w: World, run: seq<Action>)
    requires FirstViewRun(w, run) && NeverStable(w, run) && run != []
    ensures var before, a := run[..|run| - 1], run[|run| - 1];
            && FirstViewRun(w, before) && NeverStable(w, before) && before + [a] == run
            && StaysInFirstView(w, After(w, before), a)
            && NothingStable(After(w, before)) && NothingStable(Act(w, After(w, before), a))
  {
    var before := run[..|run| - 1];
    assert forall i | 0 <= i <= |before| :: before[..i] == run[..i];
    assert run[..|before|] == before && run[..|run|] == run;
    assert NothingStable(After(w, run[..|before|])) && NothingStable(After(w, run[..|run|]));
  }

  lemma {:induction false} EveryoneIsInStep(w: World, run: seq<Action>, q: string)
    requires FirstViewRun(w, run) && NeverStable(w, run) && q in w.Correct()
    ensures InStep(w, run, q)
  {
    if run != [] {
      RunWithoutLast(w, run);
      EveryoneIsInStep(w, run[..|run| - 1], q);
      RunsFit(w, run[..|run| - 1]);
      ActionKeepsInStep(w, run[..|run| - 1], run[|run| - 1], q);
    }
  }

  /** The first k requests of the log, in order, each with its result in a replay, and the checkpoints due by k. */
  ghost predicate IsPrefixOf(out: Output, log: seq<ClientRequest>, k: int, id: string, interval: Positive) {
    && 0 <= k <= |log| && out.requests == log[..k]
    && |Results(log)| == |log| && out.results == Results(log)[..k]
    && out.checkpoints == CheckpointsOf(BatchesOf(log), Multiples(k, interval), id)
  }

  lemma TranscriptOfLog(log: seq<ClientRequest>, k: nat, id: string, interval: Positive)
    requires k <= |log|
    ensures IsPrefixOf(Transcript(BatchesOf(log), k, id, interval), log, k, id, interval)
  {
    TranscriptRequests(BatchesOf(log), k, id, interval);
    RequestsOfLog(log, k);
    TranscriptResults(BatchesOf(log), k, id, interval);
    OneResultEach(log, k);
    OneResultEach(log, |log|);
    ResultsOfPrefix(BatchesOf(log), k, |log|);
    CheckpointsAreExact(BatchesOf(log), k, id, interval);
  }

  /**
   * Under any reordering, loss and repetition of messages and any prepares and commits of faulty replicas:
   * what a correct replica has executed is a prefix of the primary's log, each request once and in order,
   * answered as in a replay of the log.
   */
  lemma {:induction false} ExecutedIsLogPrefix(w: World, run: seq<Action>, q: string)
    requires FirstViewRun(w, run) && NeverStable(w, run) && q in w.Correct()
    ensures q in After(w, run).nodes
    ensures IsPrefixOf(Executed(w, run, q), Log(w, run), After(w, run).nodes[q].store.lastApplied, q, w.interval)
  {
    EveryoneIsInStep(w, run, q);
    TranscriptOfLog(Log(w, run), After(w, run).nodes[q].store.lastApplied, q, w.interval);
  }

  /** So of any two correct replicas, one has executed a prefix of the other. */
  lemma {:induction false} ReplicasAgree(w: World, run: seq<Action>, q: string, q': string)
    requires FirstViewRun(w, run) && NeverStable(w, run) && q in w.Correct() && q' in w.Correct()
    ensures var e, e' := Executed(w, run, q), Executed(w, run, q');
            || (e.requests <= e'.requests && e.results <= e'.results)
            || (e'.requests <= e.requests && e'.results <= e.results)
  {
    ExecutedIsLogPrefix(w, run, q);
    ExecutedIsLogPrefix(w, run, q');
    var k, k' := After(w, run).nodes[q].store.lastApplied, After(w, run).nodes[q'].store.lastApplied;
    PrefixesCompare(Log(w, run), k, k');
    PrefixesCompare(Results(Log(w, run)), k, k');
  }

  lemma PrefixesCompare<T>(s: seq<T>, k: nat, k': nat)
    requires k <= |s| && k' <= |s|
    ensures if k <= k' then s[..k] <= s[..k'] else s[..k'] <= s[..k]
  {
  }
}
