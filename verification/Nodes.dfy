/**
 * `pbft/node.go` in its own form: one object whose handlers update the view data, the collectors and the store
 * in place.
 */
module Nodes {
  import opened Messages
  import opened Decimal
  import opened Quorums
  import opened VoteCollector
  import opened StoreModel
  import opened TransactionStates
  import opened Replicas
  import S = Stores

  ghost function Cells(states: seq<TransactionState>): (cells: seq<Cell>)
    reads states
    ensures |cells| == |states| && forall i | 0 <= i < |states| :: cells[i] == states[i].Model()
  {
    seq(|states|, i requires 0 <= i < |states| reads states => states[i].Model())
  }

  /**
   * The collectors are numbered, all set up for this replica, and every entry of `TransactionStates` is one of
   * them.
   */
  ghost predicate Wired(cfg: Config, store: S.Store, states: seq<TransactionState>, txns: map<int, nat>) {
    && (forall i | 0 <= i < |states| :: states[i].f == cfg.F() && states[i].id == cfg.id && states[i].position == i)
    && (forall n | n in txns :: txns[n] < |states|)
    && store.id == cfg.id && store.f == cfg.F() && store.interval == cfg.interval
  }

  class Node {
    const cfg: Config
    const store: S.Store

    // `ViewData`
    var view: int
    var leader: string
    var inViewChange: bool
    var inProgress: set<int>
    var lastSeq: int
    var txns: map<int, nat>

    var pending: seq<ClientRequest>

    /** Every collector ever created; `txns` and the started goroutines refer to them by position. */
    var states: seq<TransactionState>
    /** What was started with `go` and has not run yet, except the collectors' own checks. */
    var tasks: multiset<Task>

    ghost predicate Valid()
      reads this
    {
      Wired(cfg, store, states, txns)
    }

    ghost function Model(): Replica
      reads this, store, store.state, states
    {
      Replica(view, leader, inViewChange, inProgress, lastSeq, txns, pending, store.Model(), Cells(states), tasks)
    }

    constructor (cfg: Config)
      ensures Valid() && Model() == NewReplica(cfg)
      ensures this.cfg == cfg && states == [] && fresh(store) && fresh(store.state)
    {
      this.cfg := cfg;
      store := new S.Store(cfg.id, cfg.F(), cfg.interval);
      view, leader, inViewChange, inProgress, lastSeq, txns := 0, cfg.Leader(0), false, {}, 0, map[];
      pending, states, tasks := [], [], multiset{};
    }

    /** The lookup of a collector, which creates a missing one. */
    method TransactionStateOf(n: int) returns (ref: nat)
      requires Valid()
      modifies this`txns, this`states
      ensures Valid() && txns == (if n in old(txns) then old(txns) else old(txns)[n := |old(states)|])
      ensures Cells(states)
              == if n in old(txns) then old(Cells(states)) else old(Cells(states)) + [Cell(n, view, EMPTY, 0)]
      ensures n in txns && txns[n] == ref && ref < |states|
      ensures old(states) <= states && forall i | |old(states)| <= i < |states| :: fresh(states[i])
    {
      if n !in txns {
        var state := new TransactionState(cfg.F(), cfg.id, n, view, |states|);
        Register(n, state);
      }
      ref := txns[n];
    }

    method HandleClientRequest(req: ClientRequest) returns (sent: seq<Message>)
      requires Valid()
      modifies this
      ensures Valid() && Outcome(Model(), sent) == HandleClient(cfg, old(Model()), req)
      ensures old(states) <= states && forall i | |old(states)| <= i < |states| :: fresh(states[i])
    {
      if cfg.id != leader {
        return [MsgForward(leader, req)];
      }
      if inViewChange {
        return [];
      }
      if |inProgress| >= cfg.maxOutstanding {
        pending := pending + [req];
        return [];
      }
      sent := AssignNumber(req);
    }

    /** From the mutex on: the request gets the next number. */
    method AssignNumber(req: ClientRequest) returns (sent: seq<Message>)
      requires Valid() && cfg.id == leader && !inViewChange && |inProgress| < cfg.maxOutstanding
      modifies this
      ensures Valid() && Outcome(Model(), sent) == HandleClient(cfg, old(Model()), req)
      ensures old(states) <= states && forall i | |old(states)| <= i < |states| :: fresh(states[i])
    {
      lastSeq := lastSeq + 1;
      inProgress := inProgress + {lastSeq};
      var pp := PrePrepare(view, lastSeq, cfg.digestOf(req));
      StartNumbered(pp, req);
      sent := [MsgPrePrepare(pp, Some([req]))];
      ClientOutcome(cfg, old(Model()), req, Model());
    }

    method StartNumbered(pp: PrePrepare, req: ClientRequest)
      requires Valid() && pp.view == view
      modifies this`txns, this`states, this`tasks
      ensures Valid() && txns == old(txns)[pp.seqNo := |old(states)|]
      ensures Cells(states) == old(Cells(states)) + [PrePrepareCell(Cell(pp.seqNo, view, EMPTY, 0), cfg.F(), pp)]
      ensures old(states) <= states && forall i | |old(states)| <= i < |states| :: fresh(states[i])
      ensures tasks == old(tasks) + multiset{AddToStoreTask(|old(states)|, Some([req]))}
    {
      var state := NumberedState(pp);
      tasks := tasks + multiset{AddToStoreTask(|states|, Some([req]))};
      Register(pp.seqNo, state);
    }

    method NumberedState(pp: PrePrepare) returns (state: TransactionState)
      ensures fresh(state) && state.f == cfg.F() && state.id == cfg.id && state.position == |states|
      ensures state.Model() == PrePrepareCell(Cell(pp.seqNo, pp.view, EMPTY, 0), cfg.F(), pp)
    {
      state := new TransactionState(cfg.F(), cfg.id, pp.seqNo, pp.view, |states|);
      state.AddPrePrepare(pp);
    }

    /** A new collector becomes the one of number n. */
    method Register(n: int, state: TransactionState)
      requires Valid() && state.f == cfg.F() && state.id == cfg.id && state.position == |states|
      modifies this`txns, this`states
      ensures Valid() && states == old(states) + [state]
      ensures txns == old(txns)[n := |old(states)|] && Cells(states) == old(Cells(states)) + [state.Model()]
    {
      txns := txns[n := |states|];
      states := states + [state];
    }

    method InWaterMark(n: int) returns (b: bool)
      ensures b == InWindow(cfg, Model(), n)
    {
      var stable := store.GetStableNumber();
      b := !(n < stable + 1 || n >= stable + 1 + cfg.window);
    }

    method HandlePrePrepareRequest(pp: PrePrepare, batch: Batch) returns (sent: seq<Message>)
      requires Valid()
      modifies this, store
      ensures Valid() && Outcome(Model(), sent) == HandlePrePrepare(cfg, old(Model()), pp, batch)
      ensures store.state == old(store.state)
      ensures old(states) <= states && forall i | |old(states)| <= i < |states| :: fresh(states[i])
    {
      if cfg.id == leader || inViewChange || pp.view != view {
        return [];
      }
      var inWindow := InWaterMark(pp.seqNo);
      if !inWindow {
        return [];
      }
      sent := AcceptPrePrepare(pp, batch);
    }

    /** From the mutex on: the number is in progress, and both votes are on their way to its collector. */
    method AcceptPrePrepare(pp: PrePrepare, batch: Batch) returns (sent: seq<Message>)
      requires Valid() && cfg.id != leader && !inViewChange && pp.view == view && InWindow(cfg, Model(), pp.seqNo)
      modifies this, store
      ensures Valid() && Outcome(Model(), sent) == HandlePrePrepare(cfg, old(Model()), pp, batch)
      ensures store.state == old(store.state)
      ensures old(states) <= states && forall i | |old(states)| <= i < |states| :: fresh(states[i])
    {
      var own := Vote(pp.view, pp.seqNo, pp.digest, cfg.id);
      StartVotes(pp, own);
      ghost var cells := Cells(states);
      store.AddRequests(pp.seqNo, batch);
      assert Cells(states) == cells;
      sent := [MsgPrepare(own)];
      PrePrepareOutcome(cfg, old(Model()), pp, batch, Model());
    }

    method StartVotes(pp: PrePrepare, own: Vote)
      requires Valid()
      modifies this`inProgress, this`txns, this`states, this`tasks
      ensures Valid() && inProgress == old(inProgress) + {pp.seqNo} && pp.seqNo in txns
      ensures txns == if pp.seqNo in old(txns) then old(txns) else old(txns)[pp.seqNo := |old(states)|]
      ensures Cells(states)
           == if pp.seqNo in old(txns) then old(Cells(states))
              else old(Cells(states)) + [Cell(pp.seqNo, view, EMPTY, 0)]
      ensures old(states) <= states && forall i | |old(states)| <= i < |states| :: fresh(states[i])
      ensures tasks == old(tasks) + multiset{AddPrePrepareTask(txns[pp.seqNo], pp)}
                       + multiset{AddPrepareTask(txns[pp.seqNo], own)}
    {
      inProgress := inProgress + {pp.seqNo};
      var ref := TransactionStateOf(pp.seqNo);
      tasks := tasks + multiset{AddPrePrepareTask(ref, pp)};
      tasks := tasks + multiset{AddPrepareTask(ref, own)};
    }

    method HandlePrepareRequest(v: Vote)
      requires Valid()
      modifies this
      ensures Valid() && Quiet(Model()) == HandlePrepare(cfg, old(Model()), v)
      ensures old(states) <= states && forall i | |old(states)| <= i < |states| :: fresh(states[i])
    {
      if inViewChange || v.view != view {
        return;
      }
      var inWindow := InWaterMark(v.seqNo);
      if inWindow {
        var ref := TransactionStateOf(v.seqNo);
        tasks := tasks + multiset{AddPrepareTask(ref, v)};
      }
    }

    method HandlePreparedTxn(commit: Vote) returns (sent: seq<Message>)
      requires Valid()
      modifies this`tasks
      ensures Valid() && Outcome(Model(), sent) == HandlePrepared(old(Model()), commit)
    {
      tasks := tasks + multiset{HandleCommitTask(commit)};
      sent := [MsgCommit(commit)];
    }

    method HandleCommitRequest(v: Vote)
      requires Valid()
      modifies this
      ensures Valid() && Quiet(Model()) == HandleCommit(cfg, old(Model()), v)
      ensures old(states) <= states && forall i | |old(states)| <= i < |states| :: fresh(states[i])
    {
      if inViewChange || v.view != view {
        return;
      }
      var inWindow := InWaterMark(v.seqNo);
      if inWindow {
        var ref := TransactionStateOf(v.seqNo);
        tasks := tasks + multiset{AddCommitTask(ref, v)};
      }
    }

    method HandleCommittedTxn(n: int) returns (sent: seq<Message>)
      requires Valid()
      modifies this`inProgress, this`pending, this`tasks, store, store.state
      ensures Valid() && Outcome(Model(), sent) == HandleCommitted(cfg, old(Model()), n)
      ensures store.state == old(store.state)
    {
      var out := store.Commit(n);
      assert Cells(states) == old(Cells(states));
      sent := Deliver(n, out);
      CommittedOutcome(cfg, old(Model()), n, out, Model());
    }

    /** What follows the store's `Commit`. */
    method Deliver(n: int, out: Output) returns (sent: seq<Message>)
      requires |out.results| == |out.requests|
      modifies this`inProgress, this`pending, this`tasks
      ensures sent == Announcements(InView(out.checkpoints, view)) + Replies(cfg, view, out)
      ensures inProgress == old(inProgress) - {n}
      ensures var started := old(tasks) + CheckpointTasks(InView(out.checkpoints, view));
              if |inProgress| < cfg.maxOutstanding && |old(pending)| > 0
              then pending == [] && tasks == started + ClientTasks(old(pending))
              else pending == old(pending) && tasks == started
    {
      inProgress := inProgress - {n};
      var announcements := Announce(out.checkpoints);
      var replies := ReplyTo(out);
      RefillPending();
      sent := announcements + replies;
    }

    /** The loop over the checkpoints taken: each gets the view, is handled later and broadcast. */
    method Announce(checkpoints: seq<Checkpoint>) returns (sent: seq<Message>)
      modifies this`tasks
      ensures sent == Announcements(InView(checkpoints, view))
      ensures tasks == old(tasks) + CheckpointTasks(InView(checkpoints, view))
    {
      sent := [];
      ghost var all := InView(checkpoints, view);
      for i := 0 to |checkpoints|
        invariant sent == Announcements(all[..i])
        invariant tasks == old(tasks) + CheckpointTasks(all[..i])
      {
        var c := checkpoints[i].(view := view);
        NextCheckpoint(all, i);
        tasks := tasks + multiset{CheckpointTask(c)};
        sent := sent + [MsgCheckpoint(c)];
      }
      assert all[..|checkpoints|] == all;
    }

    method ReplyTo(out: Output) returns (sent: seq<Message>)
      requires |out.results| == |out.requests|
      ensures sent == Replies(cfg, view, out)
    {
      sent := [];
      for i := 0 to |out.requests|
        invariant sent == Replies(cfg, view, out)[..i]
      {
        var req := out.requests[i];
        sent := sent + [MsgReply(req.callback, view, req.timestamp, req.clientId, cfg.id, out.results[i])];
      }
    }

    /** The loop that starts the pending requests again. */
    method RefillPending()
      modifies this`pending, this`tasks
      ensures if |inProgress| < cfg.maxOutstanding && |old(pending)| > 0
              then pending == [] && tasks == old(tasks) + ClientTasks(old(pending))
              else pending == old(pending) && tasks == old(tasks)
    {
      if |inProgress| < cfg.maxOutstanding && |pending| > 0 {
        var pendings := pending;
        pending := [];
        for i := 0 to |pendings|
          invariant pending == [] && tasks == old(tasks) + ClientTasks(pendings[..i])
        {
          assert pendings[..i + 1][..i] == pendings[..i];
          tasks := tasks + multiset{ClientTask(pendings[i])};
        }
        assert pendings[..|pendings|] == pendings;
      }
    }

    method HandleCheckpointRequest(c: Checkpoint)
      requires Valid()
      modifies this`txns, this`inProgress, store, store.state
      ensures Valid() && Quiet(Model()) == HandleCheckpoint(cfg, old(Model()), c)
      ensures store.state == old(store.state) || fresh(store.state)
    {
      var stable := store.AddCheckpointRequest(c);
      assert Cells(states) == old(Cells(states));
      if stable.Some? {
        DropUpTo(stable.value);
      }
      CheckpointOutcome(cfg, old(Model()), c, Model());
    }

    method DropUpTo(k: int)
      requires Valid()
      modifies this`txns, this`inProgress
      ensures Valid() && txns == map n | n in old(txns) && n > k :: old(txns)[n]
      ensures inProgress == set n | n in old(inProgress) && n > k
    {
      var dropped;
      txns, dropped := S.DropStale(txns, k);
      inProgress := DropNumbers(inProgress, k);
    }

    /** One step of a collector, as a goroutine of its own. */
    method RunAdd(t: Task)
      requires Valid() && t in tasks && IsAdd(t) && t.ref < |states|
      modifies this`tasks, states[t.ref]
      ensures Valid() && Quiet(Model()) == Step(cfg, old(Model()), RunTask(t))
    {
      tasks := tasks - multiset{t};
      AddToState(t, states[t.ref]);
      OneCellChanged(t.ref);
      AddOutcome(cfg, old(Model()), t, Model());
    }

    method AddToState(t: Task, state: TransactionState)
      requires IsAdd(t) && state.f == cfg.F()
      modifies state
      ensures state.Model() == Added(cfg, old(state.Model()), t)
    {
      match t {
        case AddPrePrepareTask(_, pp) => state.AddPrePrepare(pp);
        case AddPrepareTask(_, v) => state.AddPrepare(v);
        case AddCommitTask(_, v) => state.AddCommit(v);
      }
    }

    twostate lemma OneCellChanged(ref: nat)
      requires ref < |states| && states == old(states) && Wired(cfg, store, states, txns)
      requires forall i | 0 <= i < |states| && i != ref :: unchanged(states[i])
      ensures Cells(states) == old(Cells(states))[ref := states[ref].Model()]
    {
    }

    /** `AddToStore`: the requests are filed under the number of the collector's pre-prepare. */
    method RunAddToStore(ref: nat, batch: Batch)
      requires Valid() && AddToStoreTask(ref, batch) in tasks && ref < |states|
      modifies this`tasks, store
      ensures Valid() && Quiet(Model()) == Step(cfg, old(Model()), RunTask(AddToStoreTask(ref, batch)))
    {
      var preprepare := states[ref].preprepare;
      if preprepare.Some? {
        store.AddRequests(preprepare.value.seqNo, batch);
      }
      assert Cells(states) == old(Cells(states));
      tasks := tasks - multiset{AddToStoreTask(ref, batch)};
      AddToStoreOutcome(cfg, old(Model()), ref, batch, Model());
    }

    method RunCheckCallbacks(ref: nat)
      requires Valid() && ref < |states| && states[ref].checks > 0
      modifies this`tasks, states[ref]
      ensures Valid() && Quiet(Model()) == Step(cfg, old(Model()), RunCheck(ref))
    {
      var commit, decided := states[ref].CheckCallbacks();
      OneCellChanged(ref);
      StartCallbacks(commit, decided);
      CheckOutcome(cfg, old(Model()), ref, commit, decided, Model());
    }

    method StartCallbacks(commit: Option<Vote>, decided: Option<int>)
      modifies this`tasks
      ensures tasks == Called(old(tasks), commit, decided)
    {
      if commit.Some? {
        tasks := tasks + multiset{PreparedTask(commit.value)};
      }
      if decided.Some? {
        tasks := tasks + multiset{CommittedTask(decided.value)};
      }
    }

    method GetCurrentPreparedRequests() returns (certs: seq<Certificate>)
      requires Valid()
      ensures ValidRefs(Model()) && IsSnapshot(Model(), cfg.F(), certs)
    {
      certs := [];
      ghost var order: seq<int>, r := [], Model();
      var unseen := txns.Keys;
      while unseen != {}
        invariant unseen <= txns.Keys && SnapshotOfSeen(r, cfg.F(), unseen, order, certs)
      {
        SomeMember(unseen);
        var n :| n in unseen;
        var cert := CertificateFor(n);
        SnapshotGrows(r, cfg.F(), unseen, order, certs, n, cert);
        unseen := unseen - {n};
        if cert.Some? {
          certs, order := certs + [cert.value], order + [n];
        }
      }
      assert IsSnapshotIn(r, cfg.F(), order, certs);
    }

    /** The body of the loop over `TransactionStates`. */
    method CertificateFor(n: int) returns (cert: Option<Certificate>)
      requires Valid() && n in txns
      ensures ValidRefs(Model()) && (cert.Some? <==> HoldsPrepared(Model(), cfg.F(), n))
      ensures cert.Some? ==> EntryCertified(Model(), cfg.F(), n, cert.value)
    {
      var state := states[txns[n]];
      var prepared := state.IsPrepared();
      if !prepared {
        return None;
      }
      var prepares := state.GetPrepares();
      cert := Some(Certificate(state.preprepare, prepares));
    }

    /** The vote `voteViewChange` builds from the node and its store. */
    method VoteViewChange(newView: int) returns (vc: ViewChange)
      requires Valid()
      ensures vc.newView == newView && IsVote(cfg, Model(), vc)
    {
      var stable := store.GetStableNumber();
      var certs := GetCurrentPreparedRequests();
      vc := ViewChange(newView, stable, if store.lastStable.None? then [] else store.lastStable.value, certs, cfg.id);
    }

    method GoToViewChange()
      requires Valid()
      modifies this`inViewChange
      ensures Valid() && Model() == old(Model()).(inViewChange := true)
    {
      inViewChange := true;
    }

    method HandleStatusRequest(from: string) returns (sent: seq<Message>)
      requires Valid()
      ensures Outcome(Model(), sent) == Replicas.HandleStatusRequest(Model(), from)
    {
      var stable := store.GetStableNumber();
      sent := [MsgStatus(from, stable, if store.lastStable.None? then [] else store.lastStable.value)];
    }

    method HandleStatusResponse(lastStable: int, proof: seq<Checkpoint>)
      requires Valid()
      modifies this, store
      ensures Valid() && Quiet(Model()) == HandleStatus(cfg, old(Model()), lastStable, proof)
      ensures store.state == old(store.state) && states == old(states)
    {
      var stable := store.GetStableNumber();
      if lastStable < stable || proof == [] {
        return;
      }
      if lastStable > stable {
        store.UpdateLastStableCheckpoint(proof);
      }
      assert Cells(states) == old(Cells(states));
      var maxView := HighestView(proof);
      SetViewData(maxView, lastStable + 1, cfg.Leader(maxView));
      StatusOutcome(cfg, old(Model()), lastStable, proof, Model());
    }

    /** `NewViewData`. */
    method SetViewData(newView: int, first: int, newLeader: string)
      requires Valid()
      modifies this`view, this`leader, this`inViewChange, this`inProgress, this`lastSeq, this`txns
      ensures Valid() && Model() == EnterView(old(Model()), newView, first, newLeader)
    {
      view, leader, inViewChange, inProgress, lastSeq, txns := newView, newLeader, false, {}, first, map[];
    }

    /** `fatal` is `log.Fatal`: the process ends. */
    method HandleNewViewRequest(nv: NewView) returns (fatal: bool, sent: seq<Message>)
      requires Valid()
      modifies this
      ensures Valid() && (fatal <==> HandleNewView(cfg, old(Model()), nv).None?)
      ensures !fatal ==> HandleNewView(cfg, old(Model()), nv) == Some(Outcome(Model(), sent))
      ensures old(states) <= states && forall i | |old(states)| <= i < |states| :: fresh(states[i])
    {
      fatal, sent := false, [];
      if nv.newView < view {
        return;
      }
      var minSeqNo := SmallestNumber(nv.preprepares);
      if minSeqNo == MAX_INT64 {
        minSeqNo := SmallestStable(nv.votes);
      }
      if minSeqNo == MAX_INT64 {
        fatal := true;
        return;
      }
      SetViewData(nv.newView, minSeqNo, nv.replica);
      sent := InstallAll(nv.preprepares);
    }

    method InstallAll(pps: seq<PrePrepare>) returns (sent: seq<Message>)
      requires Valid()
      modifies this`txns, this`states
      ensures Valid() && Outcome(Model(), sent) == Install(cfg, old(Model()), pps)
      ensures old(states) <= states && forall i | |old(states)| <= i < |states| :: fresh(states[i])
    {
      sent := [];
      for i := 0 to |pps|
        invariant Valid() && Outcome(Model(), sent) == Install(cfg, old(Model()), pps[..i])
        invariant old(states) <= states && forall i | |old(states)| <= i < |states| :: fresh(states[i])
      {
        assert pps[..i + 1][..i] == pps[..i];
        var own := Vote(pps[i].view, pps[i].seqNo, pps[i].digest, cfg.id);
        InstallOne(pps[i], own);
        sent := sent + [MsgPrepare(own)];
      }
      assert pps[..|pps|] == pps;
    }

    method InstallOne(pp: PrePrepare, own: Vote)
      requires Valid()
      modifies this`txns, this`states
      ensures Valid() && txns == old(txns)[pp.seqNo := |old(states)|]
      ensures Cells(states)
           == old(Cells(states))
              + [PrepareCell(PrePrepareCell(Cell(pp.seqNo, view, EMPTY, 0), cfg.F(), pp), cfg.F(), own)]
      ensures old(states) <= states && forall i | |old(states)| <= i < |states| :: fresh(states[i])
    {
      var state := InstalledState(pp, own);
      Register(pp.seqNo, state);
    }

    method InstalledState(pp: PrePrepare, own: Vote) returns (state: TransactionState)
      ensures fresh(state) && state.f == cfg.F() && state.id == cfg.id && state.position == |states|
      ensures state.Model() == PrepareCell(PrePrepareCell(Cell(pp.seqNo, view, EMPTY, 0), cfg.F(), pp), cfg.F(), own)
    {
      state := new TransactionState(cfg.F(), cfg.id, pp.seqNo, view, |states|);
      state.AddPrePrepare(pp);
      state.AddPrepare(own);
    }
  }

  /** The minimum over the re-issued pre-prepares. */
  method SmallestNumber(pps: seq<PrePrepare>) returns (n: int)
    ensures n == MinNumber(pps)
  {
    n := MAX_INT64;
    for i := 0 to |pps|
      invariant n == MinNumber(pps[..i])
    {
      assert pps[..i + 1][..i] == pps[..i];
      n := Min(n, pps[i].seqNo);
    }
    assert pps[..|pps|] == pps;
  }

  method SmallestStable(votes: seq<ViewChange>) returns (n: int)
    ensures n == MinStable(votes)
  {
    n := MAX_INT64;
    for i := 0 to |votes|
      invariant n == MinStable(votes[..i])
    {
      assert votes[..i + 1][..i] == votes[..i];
      n := Min(n, votes[i].lastStable);
    }
    assert votes[..|votes|] == votes;
  }

  method HighestView(proof: seq<Checkpoint>) returns (view: nat)
    ensures view == MaxView(proof)
  {
    view := 0;
    for i := 0 to |proof|
      invariant view == MaxView(proof[..i])
    {
      assert proof[..i + 1][..i] == proof[..i];
      if proof[i].view > view {
        view := proof[i].view;
      }
    }
    assert proof[..|proof|] == proof;
  }

  /** `certs` has one certificate for every prepared entry outside `unseen`. */
  ghost predicate SnapshotOfSeen(r: Replica, f: nat, unseen: set<int>, order: seq<int>, certs: seq<Certificate>)
    requires ValidRefs(r)
  {
    && |certs| == |order| && (forall i | 0 <= i < |certs| :: EntryCertified(r, f, order[i], certs[i]))
    && (forall i | 0 <= i < |order| :: order[i] !in unseen)
    && (forall i, j | 0 <= i < j < |order| :: order[i] != order[j])
    && (forall n | HoldsPrepared(r, f, n) :: n in unseen || n in order)
  }

  lemma SnapshotGrows(r: Replica, f: nat, unseen: set<int>, order: seq<int>, certs: seq<Certificate>, n: int,
                      cert: Option<Certificate>)
    requires ValidRefs(r) && SnapshotOfSeen(r, f, unseen, order, certs) && n in unseen
    requires cert.Some? <==> HoldsPrepared(r, f, n)
    requires cert.Some? ==> EntryCertified(r, f, n, cert.value)
    ensures if cert.Some? then SnapshotOfSeen(r, f, unseen - {n}, order + [n], certs + [cert.value])
            else SnapshotOfSeen(r, f, unseen - {n}, order, certs)
  {
  }

  // ---------- The handlers' outcomes, field by field ----------

  lemma ClientOutcome(cfg: Config, r: Replica, req: ClientRequest, r': Replica)
    requires IsPrimary(cfg, r) && !r.inViewChange && |r.inProgress| < cfg.maxOutstanding
    requires var n := r.lastSeq + 1;
             var pp := PrePrepare(r.view, n, cfg.digestOf(req));
             r' == r.(lastSeq := n, inProgress := r.inProgress + {n}, txns := r.txns[n := |r.cells|],
                      cells := r.cells + [PrePrepareCell(Cell(n, r.view, EMPTY, 0), cfg.F(), pp)],
                      tasks := r.tasks + multiset{AddToStoreTask(|r.cells|, Some([req]))})
    ensures HandleClient(cfg, r, req)
         == Outcome(r', [MsgPrePrepare(PrePrepare(r.view, r.lastSeq + 1, cfg.digestOf(req)), Some([req]))])
  {
  }

  lemma PrePrepareOutcome(cfg: Config, r: Replica, pp: PrePrepare, batch: Batch, r': Replica)
    requires !IsPrimary(cfg, r) && !r.inViewChange && pp.view == r.view && InWindow(cfg, r, pp.seqNo)
    requires var n := pp.seqNo;
             && r' == r.(inProgress := r.inProgress + {n}, txns := r'.txns, cells := r'.cells, tasks := r'.tasks,
                         store := AddRequests(r.store, n, batch))
             && r'.txns == (if n in r.txns then r.txns else r.txns[n := |r.cells|])
             && r'.cells == (if n in r.txns then r.cells else r.cells + [Cell(n, r.view, EMPTY, 0)])
             && r'.tasks == r.tasks + multiset{AddPrePrepareTask(r'.txns[n], pp)}
                            + multiset{AddPrepareTask(r'.txns[n], Vote(pp.view, n, pp.digest, cfg.id))}
    ensures HandlePrePrepare(cfg, r, pp, batch) == Outcome(r', [MsgPrepare(Vote(pp.view, pp.seqNo, pp.digest, cfg.id))])
  {
  }

  lemma CommittedOutcome(cfg: Config, r: Replica, n: int, out: Output, r': Replica)
    requires |out.results| == |out.requests| && (r'.store, out) == Commit(r.store, n, cfg.id, cfg.interval)
    requires var tasks := r.tasks + CheckpointTasks(InView(out.checkpoints, r.view));
             var refills := |r'.inProgress| < cfg.maxOutstanding && |r.pending| > 0;
             && r' == r.(store := r'.store, inProgress := r.inProgress - {n}, pending := r'.pending, tasks := r'.tasks)
             && r'.pending == (if refills then [] else r.pending)
             && r'.tasks == (if refills then tasks + ClientTasks(r.pending) else tasks)
    ensures HandleCommitted(cfg, r, n)
         == Outcome(r', Announcements(InView(out.checkpoints, r.view)) + Replies(cfg, r.view, out))
  {
  }

  lemma CheckpointOutcome(cfg: Config, r: Replica, c: Checkpoint, r': Replica)
    requires var (store, stable) := AddCheckpoint(r.store, cfg.F(), c);
             && r' == r.(txns := r'.txns, inProgress := r'.inProgress, store := store)
             && (stable.None? ==> r'.txns == r.txns && r'.inProgress == r.inProgress)
             && (stable.Some? ==>
                   && r'.txns == (map n | n in r.txns && n > stable.value :: r.txns[n])
                   && r'.inProgress == (set n | n in r.inProgress && n > stable.value))
    ensures Quiet(r') == HandleCheckpoint(cfg, r, c)
  {
  }

  predicate IsAdd(t: Task) {
    t.AddPrePrepareTask? || t.AddPrepareTask? || t.AddCommitTask?
  }

  function Added(cfg: Config, cell: Cell, t: Task): Cell
    requires IsAdd(t)
  {
    match t
    case AddPrePrepareTask(_, pp) => PrePrepareCell(cell, cfg.F(), pp)
    case AddPrepareTask(_, v) => PrepareCell(cell, cfg.F(), v)
    case AddCommitTask(_, v) => CommitCell(cell, cfg.F(), v)
  }

  lemma AddOutcome(cfg: Config, r: Replica, t: Task, r': Replica)
    requires t in r.tasks && IsAdd(t) && t.ref < |r.cells|
    requires r' == r.(cells := r.cells[t.ref := Added(cfg, r.cells[t.ref], t)], tasks := r.tasks - multiset{t})
    ensures Quiet(r') == Step(cfg, r, RunTask(t))
  {
  }

  lemma AddToStoreOutcome(cfg: Config, r: Replica, ref: nat, batch: Batch, r': Replica)
    requires AddToStoreTask(ref, batch) in r.tasks && ref < |r.cells|
    requires var pp := r.cells[ref].votes.preprepare;
             var store := if pp.Some? then AddRequests(r.store, pp.value.seqNo, batch) else r.store;
             r' == r.(store := store, tasks := r.tasks - multiset{AddToStoreTask(ref, batch)})
    ensures Quiet(r') == Step(cfg, r, RunTask(AddToStoreTask(ref, batch)))
  {
  }

  function Called(tasks: multiset<Task>, commit: Option<Vote>, decided: Option<int>): multiset<Task> {
    var tasks' := if commit.Some? then tasks + multiset{PreparedTask(commit.value)} else tasks;
    if decided.Some? then tasks' + multiset{CommittedTask(decided.value)} else tasks'
  }

  lemma CheckOutcome(cfg: Config, r: Replica, ref: nat, commit: Option<Vote>, decided: Option<int>, r': Replica)
    requires ref < |r.cells| && r.cells[ref].checks > 0
    requires var c := Check(r.cells[ref].votes, cfg.id);
             && commit == c.commit && decided == c.decided
             && r' == r.(cells := r.cells[ref := r.cells[ref].(votes := c.votes, checks := r.cells[ref].checks - 1)],
                         tasks := Called(r.tasks, commit, decided))
    ensures Quiet(r') == Step(cfg, r, RunCheck(ref))
  {
  }

  lemma StatusOutcome(cfg: Config, r: Replica, lastStable: int, proof: seq<Checkpoint>, r': Replica)
    requires lastStable >= StableNumber(r.store) && proof != []
    requires var store := if lastStable > StableNumber(r.store) then UpdateLastStable(r.store, proof) else r.store;
             r' == EnterView(r.(store := store), MaxView(proof), lastStable + 1, cfg.Leader(MaxView(proof)))
    ensures Quiet(r') == HandleStatus(cfg, r, lastStable, proof)
  {
  }

  lemma NextCheckpoint(all: seq<Checkpoint>, i: nat)
    requires i < |all|
    ensures Announcements(all[..i + 1]) == Announcements(all[..i]) + [MsgCheckpoint(all[i])]
    ensures CheckpointTasks(all[..i + 1]) == CheckpointTasks(all[..i]) + multiset{CheckpointTask(all[i])}
  {
    assert all[..i + 1][..i] == all[..i];
  }

  /** The delete loop over `InProgressRequests`. */
  method DropNumbers(numbers: set<int>, k: int) returns (kept: set<int>)
    ensures kept == set n | n in numbers && n > k
  {
    kept := numbers;
    var unseen := numbers;
    while unseen != {}
      invariant unseen <= numbers
      invariant kept == set n | n in numbers && (n in unseen || n > k)
    {
      SomeMember(unseen);
      var n :| n in unseen;
      unseen := unseen - {n};
      if n <= k {
        kept := kept - {n};
      }
    }
  }
}