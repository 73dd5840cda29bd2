/**
 * One replica (`pbft/node.go`) as a value: each handler is a function from the replica to the replica and
 * the messages it sends.  What the source starts with `go` is a task that may run at any later time, in
 * any order.  `Nodes.Node` is the object that carries the handlers out in place.
 */
module Replicas {
  import opened Messages
  import opened Quorums
  import opened Decimal
  import opened VoteCollector
  import opened StoreModel
  import opened TransactionStates

  /** The sorted replica ids, `RoundRobin.peerIds`. */
  type Ring = r: seq<string> | |r| > 0 witness [""]

  /** `digestOf` is the digest a primary puts into its pre-prepares; the source leaves it empty. */
  datatype Config = Config(id: string, ring: Ring, maxOutstanding: int, interval: Positive, window: nat,
                           digestOf: ClientRequest -> string)
  {
    function F(): nat {
      MaxFaulty(|ring|)
    }

    function Leader(view: nat): string {
      ring[view % |ring|]
    }
  }

  /** A started goroutine; collectors are referred to by their position in `Replica.cells`. */
  datatype Task =
    | AddPrePrepareTask(ref: nat, preprepare: PrePrepare)
    | AddPrepareTask(ref: nat, vote: Vote)
    | AddCommitTask(ref: nat, vote: Vote)
    | AddToStoreTask(ref: nat, batch: Batch)
    | PreparedTask(commit: Vote)
    | HandleCommitTask(commit: Vote)
    | CommittedTask(seqNo: int)
    | CheckpointTask(checkpoint: Checkpoint)
    | ClientTask(request: ClientRequest)
    | VoteTask(newView: int)

  /** `cells` are all collectors ever created; `txns` is the map `TransactionStates` into them. */
  datatype Replica = Replica(view: int, leader: string, inViewChange: bool, inProgress: set<int>, lastSeq: int,
                             txns: map<int, nat>, pending: seq<ClientRequest>, store: StoreState,
                             cells: seq<Cell>, tasks: multiset<Task>)

  datatype Outcome = Outcome(replica: Replica, sent: seq<Message>)

  function Quiet(r: Replica): Outcome {
    Outcome(r, [])
  }

  function NewReplica(cfg: Config): Replica {
    Replica(0, cfg.Leader(0), false, {}, 0, map[], [], NEW_STORE, [], multiset{})
  }

  /** `NewViewData`: everything but the store, the pending requests and what is already started. */
  function EnterView(r: Replica, view: int, lastSeq: int, leader: string): Replica {
    r.(view := view, leader := leader, inViewChange := false, inProgress := {}, lastSeq := lastSeq, txns := map[])
  }

  function Spawn(r: Replica, task: Task): Replica {
    r.(tasks := r.tasks + multiset{task})
  }

  predicate IsPrimary(cfg: Config, r: Replica) {
    cfg.id == r.leader
  }

  predicate InWindow(cfg: Config, r: Replica, n: int) {
    StableNumber(r.store) < n <= StableNumber(r.store) + cfg.window
  }

  /** The collector of number n, created when there is none. */
  function WithCell(r: Replica, n: int): Replica {
    if n in r.txns then r
    else r.(cells := r.cells + [Cell(n, r.view, EMPTY, 0)], txns := r.txns[n := |r.cells|])
  }

  // ---------- Steps of one collector ----------

  function PrePrepareCell(c: Cell, f: nat, pp: PrePrepare): Cell {
    c.(votes := AddPrePrepare(c.votes, f, pp), checks := c.checks + 1)
  }

  function PrepareCell(c: Cell, f: nat, v: Vote): Cell {
    c.(votes := AddPrepare(c.votes, f, v), checks := if Accepts(c.votes, v) then c.checks + 1 else c.checks)
  }

  function CommitCell(c: Cell, f: nat, v: Vote): Cell {
    c.(votes := AddCommit(c.votes, f, v), checks := if Accepts(c.votes, v) then c.checks + 1 else c.checks)
  }

  // ---------- Handlers ----------

  function HandleClient(cfg: Config, r: Replica, req: ClientRequest): Outcome {
    if !IsPrimary(cfg, r) then Outcome(r, [MsgForward(r.leader, req)])
    else if r.inViewChange then Quiet(r)
    else if |r.inProgress| >= cfg.maxOutstanding then Quiet(r.(pending := r.pending + [req]))
    else
      var n := r.lastSeq + 1;
      var pp := PrePrepare(r.view, n, cfg.digestOf(req));
      var cell := PrePrepareCell(Cell(n, r.view, EMPTY, 0), cfg.F(), pp);
      var r' := r.(lastSeq := n, inProgress := r.inProgress + {n},
                   cells := r.cells + [cell], txns := r.txns[n := |r.cells|]);
      Outcome(Spawn(r', AddToStoreTask(|r.cells|, Some([req]))), [MsgPrePrepare(pp, Some([req]))])
  }

  function HandlePrePrepare(cfg: Config, r: Replica, pp: PrePrepare, batch: Batch): Outcome {
    if IsPrimary(cfg, r) || r.inViewChange || pp.view != r.view || !InWindow(cfg, r, pp.seqNo) then Quiet(r)
    else
      var r1 := WithCell(r.(inProgress := r.inProgress + {pp.seqNo}), pp.seqNo);
      var ref := r1.txns[pp.seqNo];
      var own := Vote(pp.view, pp.seqNo, pp.digest, cfg.id);
      var r2 := Spawn(Spawn(r1, AddPrePrepareTask(ref, pp)), AddPrepareTask(ref, own));
      Outcome(r2.(store := AddRequests(r.store, pp.seqNo, batch)), [MsgPrepare(own)])
  }

  function HandlePrepare(cfg: Config, r: Replica, v: Vote): Outcome {
    if r.inViewChange || v.view != r.view || !InWindow(cfg, r, v.seqNo) then Quiet(r)
    else
      var r1 := WithCell(r, v.seqNo);
      Quiet(Spawn(r1, AddPrepareTask(r1.txns[v.seqNo], v)))
  }

  function HandleCommit(cfg: Config, r: Replica, v: Vote): Outcome {
    if r.inViewChange || v.view != r.view || !InWindow(cfg, r, v.seqNo) then Quiet(r)
    else
      var r1 := WithCell(r, v.seqNo);
      Quiet(Spawn(r1, AddCommitTask(r1.txns[v.seqNo], v)))
  }

  /** `handlePreparedTxn`: the replica's own commit, handled later and broadcast now. */
  function HandlePrepared(r: Replica, commit: Vote): Outcome {
    Outcome(Spawn(r, HandleCommitTask(commit)), [MsgCommit(commit)])
  }

  function InView(cs: seq<Checkpoint>, view: int): (cs': seq<Checkpoint>)
    ensures |cs'| == |cs|
  {
    seq(|cs|, i requires 0 <= i < |cs| => cs[i].(view := view))
  }

  function CheckpointTasks(cs: seq<Checkpoint>): multiset<Task> {
    if cs == [] then multiset{}
    else CheckpointTasks(cs[..|cs| - 1]) + multiset{CheckpointTask(cs[|cs| - 1])}
  }

  function ClientTasks(reqs: seq<ClientRequest>): multiset<Task> {
    if reqs == [] then multiset{}
    else ClientTasks(reqs[..|reqs| - 1]) + multiset{ClientTask(reqs[|reqs| - 1])}
  }

  function Reply(cfg: Config, view: int, req: ClientRequest, result: string): Message {
    MsgReply(req.callback, view, req.timestamp, req.clientId, cfg.id, result)
  }

  function Replies(cfg: Config, view: int, out: Output): seq<Message>
    requires |out.results| == |out.requests|
  {
    seq(|out.requests|, i requires 0 <= i < |out.requests| => Reply(cfg, view, out.requests[i], out.results[i]))
  }

  function Announcements(cs: seq<Checkpoint>): seq<Message> {
    seq(|cs|, i requires 0 <= i < |cs| => MsgCheckpoint(cs[i]))
  }

  /** Below the limit, all pending requests are handled again. */
  function Refill(cfg: Config, r: Replica): Replica {
    if |r.inProgress| < cfg.maxOutstanding && |r.pending| > 0
    then r.(pending := [], tasks := r.tasks + ClientTasks(r.pending)) else r
  }

  /** `handleCommittedTxn`: execute what has become executable, then let the pending requests in again. */
  function HandleCommitted(cfg: Config, r: Replica, n: int): Outcome {
    var (store, out) := Commit(r.store, n, cfg.id, cfg.interval);
    var checkpoints := InView(out.checkpoints, r.view);
    var r1 := r.(store := store, inProgress := r.inProgress - {n}, tasks := r.tasks + CheckpointTasks(checkpoints));
    Outcome(Refill(cfg, r1), Announcements(checkpoints) + Replies(cfg, r.view, out))
  }

  lemma {:induction false} PlainTasks(reqs: seq<ClientRequest>, cs: seq<Checkpoint>)
    ensures forall t | t in ClientTasks(reqs) :: t.ClientTask?
    ensures forall t | t in CheckpointTasks(cs) :: t.CheckpointTask?
  {
    if reqs != [] {
      PlainTasks(reqs[..|reqs| - 1], cs);
    }
    if cs != [] {
      PlainTasks(reqs, cs[..|cs| - 1]);
    }
  }

  /** Besides executing, `handleCommittedTxn` starts only its own checkpoint votes and drained requests. */
  lemma CommittedTasks(cfg: Config, r: Replica, n: int)
    ensures forall t | t in HandleCommitted(cfg, r, n).replica.tasks ::
              t in r.tasks || t.CheckpointTask? || t.ClientTask?
  {
    PlainTasks(r.pending, InView(Commit(r.store, n, cfg.id, cfg.interval).1.checkpoints, r.view));
  }

  lemma CommittedSends(cfg: Config, r: Replica, n: int)
    ensures forall m | m in HandleCommitted(cfg, r, n).sent :: m.MsgCheckpoint? || m.MsgReply?
  {
    var out := Commit(r.store, n, cfg.id, cfg.interval).1;
    assert forall m | m in Announcements(InView(out.checkpoints, r.view)) :: m.MsgCheckpoint?;
    assert forall m | m in Replies(cfg, r.view, out) :: m.MsgReply?;
  }

  function HandleCheckpoint(cfg: Config, r: Replica, c: Checkpoint): Outcome {
    var (store, stable) := AddCheckpoint(r.store, cfg.F(), c);
    match stable
    case None => Quiet(r.(store := store))
    case Some(k) =>
      Quiet(r.(store := store,
               txns := map n | n in r.txns && n > k :: r.txns[n],
               inProgress := set n | n in r.inProgress && n > k))
  }

  function MinNumber(pps: seq<PrePrepare>): int {
    if pps == [] then MAX_INT64 else Min(MinNumber(pps[..|pps| - 1]), pps[|pps| - 1].seqNo)
  }

  function MinStable(votes: seq<ViewChange>): int {
    if votes == [] then MAX_INT64 else Min(MinStable(votes[..|votes| - 1]), votes[|votes| - 1].lastStable)
  }

  function Min(a: int, b: int): int {
    if b < a then b else a
  }

  function FirstNumber(nv: NewView): int {
    if MinNumber(nv.preprepares) != MAX_INT64 then MinNumber(nv.preprepares) else MinStable(nv.votes)
  }

  /** The loop over the re-issued pre-prepares: a fresh collector each, with the replica's own prepare. */
  function Install(cfg: Config, r: Replica, pps: seq<PrePrepare>): Outcome {
    if pps == [] then Quiet(r)
    else
      var before, pp := Install(cfg, r, pps[..|pps| - 1]), pps[|pps| - 1];
      var own := Vote(pp.view, pp.seqNo, pp.digest, cfg.id);
      var cell := PrepareCell(PrePrepareCell(Cell(pp.seqNo, r.view, EMPTY, 0), cfg.F(), pp), cfg.F(), own);
      var r' := before.replica;
      Outcome(r'.(cells := r'.cells + [cell], txns := r'.txns[pp.seqNo := |r'.cells|]),
              before.sent + [MsgPrepare(own)])
  }

  /** `None` where the source calls `log.Fatal`. */
  function HandleNewView(cfg: Config, r: Replica, nv: NewView): Option<Outcome> {
    if nv.newView < r.view then Some(Quiet(r))
    else if FirstNumber(nv) == MAX_INT64 then None
    else Some(Install(cfg, EnterView(r, nv.newView, FirstNumber(nv), nv.replica), nv.preprepares))
  }

  function ProofOf(s: StoreState): seq<Checkpoint> {
    if s.lastStable.None? then [] else s.lastStable.value
  }

  function HandleStatusRequest(r: Replica, from: string): Outcome {
    Outcome(r, [MsgStatus(from, StableNumber(r.store), ProofOf(r.store))])
  }

  function MaxView(proof: seq<Checkpoint>): nat {
    if proof == [] then 0
    else
      var rest, view := MaxView(proof[..|proof| - 1]), proof[|proof| - 1].view;
      if view > rest then view else rest
  }

  /** `verifyStatusResponse`: whether the response replaces the view data. */
  predicate Installs(r: Replica, lastStable: int, proof: seq<Checkpoint>) {
    lastStable >= StableNumber(r.store) && proof != []
  }

  function HandleStatus(cfg: Config, r: Replica, lastStable: int, proof: seq<Checkpoint>): Outcome {
    if !Installs(r, lastStable, proof) then Quiet(r)
    else
      var store := if lastStable > StableNumber(r.store) then UpdateLastStable(r.store, proof) else r.store;
      Quiet(EnterView(r.(store := store), MaxView(proof), lastStable + 1, cfg.Leader(MaxView(proof))))
  }

  /** `runTimer` at the replica: enter the view change and start voting for `newView`. */
  function HandleTimeout(r: Replica, newView: int): Outcome {
    Quiet(Spawn(r.(inViewChange := true), VoteTask(newView)))
  }

  // ---------- Certificates and votes ----------

  ghost predicate ValidRefs(r: Replica) {
    forall n | n in r.txns :: r.txns[n] < |r.cells|
  }

  ghost predicate Certifies(cert: Certificate, c: Collector) {
    cert.preprepare == c.preprepare && Lists(cert.prepares, c.prepares)
  }

  ghost predicate HoldsPrepared(r: Replica, f: nat, n: int)
    requires ValidRefs(r)
  {
    n in r.txns && IsPrepared(r.cells[r.txns[n]].votes, f)
  }

  ghost predicate EntryCertified(r: Replica, f: nat, n: int, cert: Certificate)
    requires ValidRefs(r)
  {
    HoldsPrepared(r, f, n) && Certifies(cert, r.cells[r.txns[n]].votes)
  }

  /** Every prepared entry, once, in some order. */
  ghost predicate RangesOver(r: Replica, f: nat, order: seq<int>)
    requires ValidRefs(r)
  {
    && (forall i, j | 0 <= i < j < |order| :: order[i] != order[j])
    && (forall n | HoldsPrepared(r, f, n) :: n in order)
  }

  ghost predicate IsSnapshotIn(r: Replica, f: nat, order: seq<int>, certs: seq<Certificate>)
    requires ValidRefs(r)
  {
    && RangesOver(r, f, order) && |certs| == |order|
    && forall i | 0 <= i < |certs| :: EntryCertified(r, f, order[i], certs[i])
  }

  /** `GetCurrentPreparedRequests`: one certificate per prepared entry, in whatever order the maps are ranged. */
  ghost predicate IsSnapshot(r: Replica, f: nat, certs: seq<Certificate>)
    requires ValidRefs(r)
  {
    exists order :: IsSnapshotIn(r, f, order, certs)
  }

  ghost predicate IsVote(cfg: Config, r: Replica, vc: ViewChange) {
    && vc.replica == cfg.id
    && vc.lastStable == StableNumber(r.store) && vc.proof == ProofOf(r.store)
    && ValidRefs(r) && IsSnapshot(r, cfg.F(), vc.certificates)
  }

  // ---------- Everything a replica can do ----------

  datatype Input =
    | Client(request: ClientRequest)
    | OnPrePrepare(preprepare: PrePrepare, batch: Batch)
    | OnPrepare(vote: Vote)
    | OnCommit(vote: Vote)
    | OnCheckpoint(checkpoint: Checkpoint)
    | OnStatusRequest(from: string)
    | OnStatus(lastStable: int, proof: seq<Checkpoint>)
    | OnNewView(newView: NewView)
    | Timeout(view: int)
    | CastVote(viewChange: ViewChange)
    | RunTask(task: Task)
    | RunCheck(ref: nat)

  ghost predicate Ready(cfg: Config, r: Replica, input: Input) {
    match input
    case OnNewView(nv) => HandleNewView(cfg, r, nv).Some?
    case CastVote(vc) => VoteTask(vc.newView) in r.tasks && IsVote(cfg, r, vc)
    case RunTask(t) => t in r.tasks && !t.VoteTask? && (HasRef(t) ==> t.ref < |r.cells|)
    case RunCheck(ref) => ref < |r.cells| && r.cells[ref].checks > 0
    case _ => true
  }

  predicate HasRef(t: Task) {
    t.AddPrePrepareTask? || t.AddPrepareTask? || t.AddCommitTask? || t.AddToStoreTask?
  }

  /** A started task runs; it is started no more. */
  ghost function Perform(cfg: Config, r: Replica, t: Task): Outcome
    requires HasRef(t) ==> t.ref < |r.cells|
  {
    match t
    case AddPrePrepareTask(ref, pp) => Quiet(r.(cells := r.cells[ref := PrePrepareCell(r.cells[ref], cfg.F(), pp)]))
    case AddPrepareTask(ref, v) => Quiet(r.(cells := r.cells[ref := PrepareCell(r.cells[ref], cfg.F(), v)]))
    case AddCommitTask(ref, v) => Quiet(r.(cells := r.cells[ref := CommitCell(r.cells[ref], cfg.F(), v)]))
    case AddToStoreTask(ref, batch) =>
      (match r.cells[ref].votes.preprepare
       case None => Quiet(r)
       case Some(pp) => Quiet(r.(store := AddRequests(r.store, pp.seqNo, batch))))
    case PreparedTask(v) => HandlePrepared(r, v)
    case HandleCommitTask(v) => HandleCommit(cfg, r, v)
    case CommittedTask(n) => HandleCommitted(cfg, r, n)
    case CheckpointTask(c) => HandleCheckpoint(cfg, r, c)
    case ClientTask(req) => HandleClient(cfg, r, req)
    case VoteTask(_) => Quiet(r)
  }

  /** `checkCallbacks` of one collector: the callbacks it fires are started as tasks. */
  function CheckCell(cfg: Config, r: Replica, ref: nat): Replica
    requires ref < |r.cells| && r.cells[ref].checks > 0
  {
    var c := Check(r.cells[ref].votes, cfg.id);
    var r1 := r.(cells := r.cells[ref := r.cells[ref].(votes := c.votes, checks := r.cells[ref].checks - 1)]);
    var r2 := if c.commit.Some? then Spawn(r1, PreparedTask(c.commit.value)) else r1;
    if c.decided.Some? then Spawn(r2, CommittedTask(c.decided.value)) else r2
  }

  /** One atomic step; an input whose time has not come does nothing. */
  ghost function Step(cfg: Config, r: Replica, input: Input): Outcome {
    if !Ready(cfg, r, input) then Quiet(r) else
    match input
    case Client(req) => HandleClient(cfg, r, req)
    case OnPrePrepare(pp, batch) => HandlePrePrepare(cfg, r, pp, batch)
    case OnPrepare(v) => HandlePrepare(cfg, r, v)
    case OnCommit(v) => HandleCommit(cfg, r, v)
    case OnCheckpoint(c) => HandleCheckpoint(cfg, r, c)
    case OnStatusRequest(from) => HandleStatusRequest(r, from)
    case OnStatus(k, proof) => HandleStatus(cfg, r, k, proof)
    case OnNewView(nv) => HandleNewView(cfg, r, nv).value
    case Timeout(view) => HandleTimeout(r, view)
    case CastVote(vc) => Outcome(r.(tasks := r.tasks - multiset{VoteTask(vc.newView)}), [MsgViewChange(vc)])
    case RunTask(t) => Perform(cfg, r.(tasks := r.tasks - multiset{t}), t)
    case RunCheck(ref) => Quiet(CheckCell(cfg, r, ref))
  }
}
