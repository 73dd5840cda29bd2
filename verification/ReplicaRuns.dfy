/**
 * Whole runs of one replica (`pbft/node.go`): the watermark window of a backup, and a primary's admission of
 * requests.
 */
module ReplicaRuns {
  import opened Messages
  import opened Quorums
  import opened StoreModel
  import opened StoreRuns
  import opened Replicas

  ghost function After(cfg: Config, inputs: seq<Input>): Replica {
    if inputs == [] then NewReplica(cfg)
    else Step(cfg, After(cfg, inputs[..|inputs| - 1]), inputs[|inputs| - 1]).replica
  }

  predicate AdmitsClient(input: Input) {
    input.Client? || (input.RunTask? && input.task.ClientTask?)
  }

  // ---------- The watermark window ----------

  ghost predicate Windowed(cfg: Config, r: Replica) {
    && (forall n | n in r.txns :: InWindow(cfg, r, n))
    && (forall n | n in r.inProgress :: InWindow(cfg, r, n))
  }

  lemma CheckpointRaisesStable(s: StoreState, f: nat, c: Checkpoint)
    ensures var (s', stable) := AddCheckpoint(s, f, c);
            StableNumber(s') == if stable.Some? then Max(StableNumber(s), stable.value) else StableNumber(s)
  {
  }

  lemma CommitKeepsStable(s: StoreState, n: int, id: string, interval: Positive)
    ensures StableNumber(Commit(s, n, id, interval).0) == StableNumber(s)
  {
    DrainStopsAtTheGap(MarkCommitted(s, n), id, interval);
  }

  lemma CheckpointKeepsWindow(cfg: Config, r: Replica, c: Checkpoint)
    requires Windowed(cfg, r)
    ensures Windowed(cfg, HandleCheckpoint(cfg, r, c).replica)
  {
    CheckpointRaisesStable(r.store, cfg.F(), c);
  }

  lemma MessageKeepsWindow(cfg: Config, r: Replica, input: Input)
    requires Windowed(cfg, r)
    requires input.OnPrePrepare? || input.OnPrepare? || input.OnCommit? || input.OnStatus?
    ensures Windowed(cfg, Step(cfg, r, input).replica)
  {
  }

  lemma TaskKeepsWindow(cfg: Config, r: Replica, t: Task)
    requires Windowed(cfg, r) && (HasRef(t) ==> t.ref < |r.cells|)
    requires t.ClientTask? ==> !IsPrimary(cfg, r)
    ensures Windowed(cfg, Perform(cfg, r, t).replica)
  {
    match t
    case CheckpointTask(c) => CheckpointKeepsWindow(cfg, r, c);
    case CommittedTask(n) => CommitKeepsStable(r.store, n, cfg.id, cfg.interval);
    case _ =>
  }

  ghost predicate TracksNothing(r: Replica, r': Replica) {
    r'.txns == r.txns && r'.inProgress == r.inProgress && r'.store == r.store && r'.lastSeq == r.lastSeq
  }

  lemma CheckTracksNothing(cfg: Config, r: Replica, ref: nat)
    requires ref < |r.cells| && r.cells[ref].checks > 0
    ensures TracksNothing(r, CheckCell(cfg, r, ref))
  {
  }

  /** Everything else leaves both maps alone. */
  lemma OtherInputsTrackNothing(cfg: Config, r: Replica, input: Input)
    requires Ready(cfg, r, input)
    requires input.OnStatusRequest? || input.Timeout? || input.CastVote? || input.RunCheck?
    ensures TracksNothing(r, Step(cfg, r, input).replica)
  {
    match input
    case RunCheck(ref) => CheckTracksNothing(cfg, r, ref);
    case OnStatusRequest(_) =>
    case Timeout(_) =>
    case CastVote(vc) => assert Step(cfg, r, input).replica == r.(tasks := r.tasks - multiset{VoteTask(vc.newView)});
  }

  lemma StepKeepsWindow(cfg: Config, r: Replica, input: Input)
    requires Windowed(cfg, r)
    requires !input.OnNewView? && (AdmitsClient(input) ==> !IsPrimary(cfg, r))
    ensures Windowed(cfg, Step(cfg, r, input).replica)
  {
    if Ready(cfg, r, input) {
      if input.RunTask? {
        TaskKeepsWindow(cfg, r.(tasks := r.tasks - multiset{input.task}), input.task);
      } else if input.OnCheckpoint? {
        CheckpointKeepsWindow(cfg, r, input.checkpoint);
      } else if input.OnPrePrepare? || input.OnPrepare? || input.OnCommit? || input.OnStatus? {
        MessageKeepsWindow(cfg, r, input);
      } else if !input.Client? {
        OtherInputsTrackNothing(cfg, r, input);
      }
    }
  }

  /** No new view is installed, and no client request is handled while the replica leads. */
  ghost predicate BackupRun(cfg: Config, inputs: seq<Input>) {
    forall i | 0 <= i < |inputs| ::
      !inputs[i].OnNewView? && (AdmitsClient(inputs[i]) ==> !IsPrimary(cfg, After(cfg, inputs[..i])))
  }

  /** Through every stable checkpoint, a backup keeps entries only for the numbers of its current window. */
  lemma {:induction false} BackupStaysInWindow(cfg: Config, inputs: seq<Input>)
    requires BackupRun(cfg, inputs)
    ensures var r := After(cfg, inputs);
            Windowed(cfg, r) && |r.txns| <= cfg.window && |r.inProgress| <= cfg.window
  {
    if inputs != [] {
      var before := inputs[..|inputs| - 1];
      assert forall i | 0 <= i < |before| :: before[..i] == inputs[..i];
      BackupStaysInWindow(cfg, before);
      StepKeepsWindow(cfg, After(cfg, before), inputs[|inputs| - 1]);
    }
    var r := After(cfg, inputs);
    assert forall n | n in r.txns.Keys :: InWindow(cfg, r, n);
    IntervalCard(r.txns.Keys, StableNumber(r.store), cfg.window);
    IntervalCard(r.inProgress, StableNumber(r.store), cfg.window);
  }

  // ---------- Admission at the primary ----------

  /** A new view, a timeout, or a status response that is not refused. */
  predicate LeavesView(r: Replica, input: Input) {
    input.OnNewView? || input.Timeout? || (input.OnStatus? && Installs(r, input.lastStable, input.proof))
  }

  ghost predicate StaysInView(cfg: Config, inputs: seq<Input>) {
    forall i | 0 <= i < |inputs| :: !LeavesView(After(cfg, inputs[..i]), inputs[i])
  }

  ghost predicate PrimaryRun(cfg: Config, inputs: seq<Input>) {
    cfg.Leader(0) == cfg.id && cfg.maxOutstanding >= 0 && StaysInView(cfg, inputs)
  }

  lemma StaysInViewBefore(cfg: Config, inputs: seq<Input>)
    requires StaysInView(cfg, inputs) && inputs != []
    ensures var before := inputs[..|inputs| - 1];
            StaysInView(cfg, before) && !LeavesView(After(cfg, before), inputs[|inputs| - 1])
  {
    var before := inputs[..|inputs| - 1];
    assert forall i | 0 <= i < |before| :: before[..i] == inputs[..i];
  }

  // ---------- The window of a primary ----------

  /**
   * Numbers are the primary's own or within the window, and its last one is kept until it is stable; if the
   * primary is always `ahead` of the stable number, so are its entries.
   */
  ghost predicate Tracked(cfg: Config, r: Replica, ahead: bool) {
    var high := StableNumber(r.store) + cfg.window;
    && StableNumber(r.store) >= 0
    && (forall n | n in r.txns :: n <= r.lastSeq || n <= high)
    && (forall n | n in r.inProgress :: n <= r.lastSeq || n <= high)
    && (r.lastSeq > StableNumber(r.store) ==> r.lastSeq in r.txns)
    && (ahead ==> forall n | n in r.txns || n in r.inProgress :: n > StableNumber(r.store))
  }

  predicate IsAhead(r: Replica, ahead: bool) {
    ahead ==> StableNumber(r.store) <= r.lastSeq
  }

  lemma CheckpointKeepsTracked(cfg: Config, r: Replica, c: Checkpoint, ahead: bool)
    requires Tracked(cfg, r, ahead)
    ensures Tracked(cfg, HandleCheckpoint(cfg, r, c).replica, ahead)
  {
    CheckpointRaisesStable(r.store, cfg.F(), c);
  }

  lemma CommittedKeepsTracked(cfg: Config, r: Replica, n: int, ahead: bool)
    requires Tracked(cfg, r, ahead)
    ensures Tracked(cfg, HandleCommitted(cfg, r, n).replica, ahead)
  {
    CommitKeepsStable(r.store, n, cfg.id, cfg.interval);
  }

  lemma CommitKeepsTracked(cfg: Config, r: Replica, v: Vote, ahead: bool)
    requires Tracked(cfg, r, ahead)
    ensures Tracked(cfg, HandleCommit(cfg, r, v).replica, ahead)
  {
  }

  lemma ClientKeepsTracked(cfg: Config, r: Replica, req: ClientRequest, ahead: bool)
    requires IsAhead(r, ahead) && Tracked(cfg, r, ahead)
    ensures Tracked(cfg, HandleClient(cfg, r, req).replica, ahead)
  {
  }

  lemma TaskKeepsTracked(cfg: Config, r: Replica, t: Task, ahead: bool)
    requires IsAhead(r, ahead) && Tracked(cfg, r, ahead) && (HasRef(t) ==> t.ref < |r.cells|)
    ensures Tracked(cfg, Perform(cfg, r, t).replica, ahead)
  {
    match t
    case CheckpointTask(c) => CheckpointKeepsTracked(cfg, r, c, ahead);
    case CommittedTask(n) => CommittedKeepsTracked(cfg, r, n, ahead);
    case HandleCommitTask(v) => CommitKeepsTracked(cfg, r, v, ahead);
    case ClientTask(req) => ClientKeepsTracked(cfg, r, req, ahead);
    case _ =>
  }

  lemma VotesKeepTracked(cfg: Config, r: Replica, input: Input, ahead: bool)
    requires Tracked(cfg, r, ahead) && (input.OnPrePrepare? || input.OnPrepare? || input.OnCommit?)
    ensures Tracked(cfg, Step(cfg, r, input).replica, ahead)
  {
  }

  lemma StepKeepsTracked(cfg: Config, r: Replica, input: Input, ahead: bool)
    requires IsAhead(r, ahead) && Tracked(cfg, r, ahead) && !LeavesView(r, input)
    ensures Tracked(cfg, Step(cfg, r, input).replica, ahead)
  {
    if Ready(cfg, r, input) {
      if input.RunTask? {
        TaskKeepsTracked(cfg, r.(tasks := r.tasks - multiset{input.task}), input.task, ahead);
      } else if input.OnCheckpoint? {
        CheckpointKeepsTracked(cfg, r, input.checkpoint, ahead);
      } else if input.OnPrePrepare? || input.OnPrepare? || input.OnCommit? {
        VotesKeepTracked(cfg, r, input, ahead);
      } else if input.Client? {
        ClientKeepsTracked(cfg, r, input.request, ahead);
      } else if !input.OnStatus? {
        OtherInputsTrackNothing(cfg, r, input);
      }
    }
  }

  /** No checkpoint ever becomes stable that the primary has not numbered itself. */
  ghost predicate AlwaysAhead(cfg: Config, inputs: seq<Input>) {
    forall i | 0 <= i <= |inputs| :: IsAhead(After(cfg, inputs[..i]), true)
  }

  lemma AheadBefore(cfg: Config, inputs: seq<Input>)
    requires AlwaysAhead(cfg, inputs) && inputs != []
    ensures var before := inputs[..|inputs| - 1]; AlwaysAhead(cfg, before) && IsAhead(After(cfg, before), true)
  {
    var before := inputs[..|inputs| - 1];
    assert forall i | 0 <= i <= |before| :: before[..i] == inputs[..i];
    assert inputs[..|before|] == before;
  }

  lemma {:induction false} PrimaryIsTracked(cfg: Config, inputs: seq<Input>, ahead: bool)
    requires StaysInView(cfg, inputs)
    requires ahead ==> AlwaysAhead(cfg, inputs)
    ensures Tracked(cfg, After(cfg, inputs), ahead)
  {
    if inputs != [] {
      var before := inputs[..|inputs| - 1];
      StaysInViewBefore(cfg, inputs);
      if ahead {
        AheadBefore(cfg, inputs);
      }
      PrimaryIsTracked(cfg, before, ahead);
      StepKeepsTracked(cfg, After(cfg, before), inputs[|inputs| - 1], ahead);
    }
  }

  ghost predicate BelowHighMark(cfg: Config, r: Replica) {
    && (forall n | n in r.txns :: n <= StableNumber(r.store) + cfg.window)
    && (forall n | n in r.inProgress :: n <= StableNumber(r.store) + cfg.window)
  }

  /**
   * A primary assigns numbers without looking at the window.  In any run of it, all its entries are below the
   * high mark exactly when the last number it assigned is; and when no checkpoint overtakes it, the entries
   * are in the window exactly then.
   */
  lemma {:induction false} PrimaryKeepsWindowIff(cfg: Config, inputs: seq<Input>)
    requires PrimaryRun(cfg, inputs)
    ensures var r := After(cfg, inputs);
            BelowHighMark(cfg, r) <==> r.lastSeq <= StableNumber(r.store) + cfg.window
    ensures AlwaysAhead(cfg, inputs) ==>
              var r := After(cfg, inputs);
              Windowed(cfg, r) <==> r.lastSeq <= StableNumber(r.store) + cfg.window
  {
    PrimaryIsTracked(cfg, inputs, false);
    if AlwaysAhead(cfg, inputs) {
      PrimaryIsTracked(cfg, inputs, true);
    }
  }

  function Requests(req: ClientRequest, count: nat): seq<Input> {
    if count == 0 then [] else Requests(req, count - 1) + [Client(req)]
  }

  ghost predicate Numbers(cfg: Config, r: Replica, count: nat) {
    IsPrimary(cfg, r) && !r.inViewChange && r.store == NEW_STORE && r.lastSeq == count && |r.inProgress| <= count
  }

  lemma NumbersOneMore(cfg: Config, inputs: seq<Input>, req: ClientRequest, count: nat)
    requires Numbers(cfg, After(cfg, inputs), count) && count < cfg.maxOutstanding
    ensures Numbers(cfg, After(cfg, inputs + [Client(req)]), count + 1)
  {
    assert (inputs + [Client(req)])[..|inputs|] == inputs;
  }

  lemma {:induction false} RequestsAreNumbered(cfg: Config, req: ClientRequest, count: nat)
    requires cfg.Leader(0) == cfg.id && count <= cfg.maxOutstanding
    ensures Numbers(cfg, After(cfg, Requests(req, count)), count)
    ensures forall input | input in Requests(req, count) :: input == Client(req)
  {
    if count > 0 {
      RequestsAreNumbered(cfg, req, count - 1);
      NumbersOneMore(cfg, Requests(req, count - 1), req, count - 1);
    }
  }

  lemma RequestsStayInView(cfg: Config, inputs: seq<Input>, req: ClientRequest)
    requires forall input | input in inputs :: input == Client(req)
    ensures StaysInView(cfg, inputs)
  {
    forall i | 0 <= i < |inputs| ensures !LeavesView(After(cfg, inputs[..i]), inputs[i]) {
      assert inputs[i] in inputs;
    }
  }

  /** And it does leave it: one request more than the window holds suffices, if as many may be outstanding. */
  lemma {:induction false} PrimaryLeavesWindow(cfg: Config, req: ClientRequest)
    requires cfg.Leader(0) == cfg.id && cfg.window < cfg.maxOutstanding
    ensures PrimaryRun(cfg, Requests(req, cfg.window + 1))
    ensures !BelowHighMark(cfg, After(cfg, Requests(req, cfg.window + 1)))
  {
    RequestsAreNumbered(cfg, req, cfg.window + 1);
    RequestsStayInView(cfg, Requests(req, cfg.window + 1), req);
    PrimaryKeepsWindowIff(cfg, Requests(req, cfg.window + 1));
  }

  /** The requests handed to `handleClientRequest` from outside. */
  function Received(inputs: seq<Input>): multiset<ClientRequest> {
    if inputs == [] then multiset{}
    else
      var rest, input := Received(inputs[..|inputs| - 1]), inputs[|inputs| - 1];
      if input.Client? then rest + multiset{input.request} else rest
  }

  function OnlyPrePrepares(sent: seq<Message>): seq<Message> {
    if sent == [] then []
    else
      var rest, m := OnlyPrePrepares(sent[..|sent| - 1]), sent[|sent| - 1];
      if m.MsgPrePrepare? then rest + [m] else rest
  }

  /** Every pre-prepare broadcast so far, in order. */
  ghost function Issued(cfg: Config, inputs: seq<Input>): seq<Message> {
    if inputs == [] then []
    else
      var before, input := inputs[..|inputs| - 1], inputs[|inputs| - 1];
      Issued(cfg, before) + OnlyPrePrepares(Step(cfg, After(cfg, before), input).sent)
  }

  /** The pre-prepare that gives `req` the number n. */
  function Numbering(cfg: Config, req: ClientRequest, n: int): Message {
    MsgPrePrepare(PrePrepare(0, n, cfg.digestOf(req)), Some([req]))
  }

  /** `issued` gives the requests `admitted` the numbers 1, 2, 3, ... in this order. */
  ghost predicate Numbered(cfg: Config, issued: seq<Message>, admitted: seq<ClientRequest>) {
    && |issued| == |admitted|
    && forall i | 0 <= i < |issued| ::
         issued[i] == Numbering(cfg, admitted[i], i + 1)
  }

  /** Each received request is admitted, pending, or on its way back from pending, and counted once. */
  ghost predicate Conserved(received: multiset<ClientRequest>, admitted: seq<ClientRequest>, r: Replica) {
    forall req ::
      received[req] == multiset(admitted)[req] + multiset(r.pending)[req] + r.tasks[ClientTask(req)]
  }

  ghost predicate Admission(cfg: Config, r: Replica, received: multiset<ClientRequest>, issued: seq<Message>,
                            admitted: seq<ClientRequest>) {
    && r.leader == cfg.id && r.view == 0 && !r.inViewChange
    && r.lastSeq == |admitted| && Numbered(cfg, issued, admitted)
    && Conserved(received, admitted, r)
    && |r.inProgress| <= cfg.maxOutstanding
  }

  lemma {:induction false} ClientTasksCount(reqs: seq<ClientRequest>, req: ClientRequest)
    ensures ClientTasks(reqs)[ClientTask(req)] == multiset(reqs)[req]
  {
    if reqs != [] {
      ClientTasksCount(reqs[..|reqs| - 1], req);
      assert reqs == reqs[..|reqs| - 1] + [reqs[|reqs| - 1]];
    }
  }

  lemma {:induction false} CheckpointTasksCount(cs: seq<Checkpoint>, req: ClientRequest)
    ensures CheckpointTasks(cs)[ClientTask(req)] == 0
  {
    if cs != [] {
      CheckpointTasksCount(cs[..|cs| - 1], req);
    }
  }

  lemma {:induction false} NoPrePrepares(sent: seq<Message>)
    requires forall m | m in sent :: !m.MsgPrePrepare?
    ensures OnlyPrePrepares(sent) == []
  {
    if sent != [] {
      NoPrePrepares(sent[..|sent| - 1]);
    }
  }

  lemma NumberedGrows(cfg: Config, issued: seq<Message>, admitted: seq<ClientRequest>, req: ClientRequest)
    requires Numbered(cfg, issued, admitted)
    ensures var m := Numbering(cfg, req, |admitted| + 1);
            Numbered(cfg, issued + OnlyPrePrepares([m]), admitted + [req])
  {
    var m := Numbering(cfg, req, |admitted| + 1);
    assert [m][..0] == [] && OnlyPrePrepares([m]) == [m];
  }

  lemma ClientIsPending(cfg: Config, r: Replica, req: ClientRequest, received: multiset<ClientRequest>,
                        issued: seq<Message>, admitted: seq<ClientRequest>)
    requires Admission(cfg, r, received, issued, admitted) && |r.inProgress| >= cfg.maxOutstanding
    ensures HandleClient(cfg, r, req).sent == []
    ensures Admission(cfg, HandleClient(cfg, r, req).replica, received + multiset{req}, issued, admitted)
  {
  }

  lemma ClientIsNumbered(cfg: Config, r: Replica, req: ClientRequest, received: multiset<ClientRequest>,
                         issued: seq<Message>, admitted: seq<ClientRequest>)
    requires Admission(cfg, r, received, issued, admitted) && |r.inProgress| < cfg.maxOutstanding
    ensures var o := HandleClient(cfg, r, req);
            && o.sent == [Numbering(cfg, req, |admitted| + 1)]
            && Admission(cfg, o.replica, received + multiset{req}, issued + OnlyPrePrepares(o.sent), admitted + [req])
  {
    NumberedGrows(cfg, issued, admitted, req);
    var r' := HandleClient(cfg, r, req).replica;
    assert r'.pending == r.pending && forall q :: r'.tasks[ClientTask(q)] == r.tasks[ClientTask(q)];
    assert Conserved(received + multiset{req}, admitted + [req], r');
  }

  /** One call of `handleClientRequest`: the request is pending or has the next number. */
  lemma ClientIsAdmitted(cfg: Config, r: Replica, req: ClientRequest, received: multiset<ClientRequest>,
                         issued: seq<Message>, admitted: seq<ClientRequest>) returns (admitted': seq<ClientRequest>)
    requires Admission(cfg, r, received, issued, admitted)
    ensures var o := HandleClient(cfg, r, req);
            Admission(cfg, o.replica, received + multiset{req}, issued + OnlyPrePrepares(o.sent), admitted')
  {
    if |r.inProgress| >= cfg.maxOutstanding {
      admitted' := admitted;
      ClientIsPending(cfg, r, req, received, issued, admitted);
      assert issued + [] == issued;
    } else {
      admitted' := admitted + [req];
      ClientIsNumbered(cfg, r, req, received, issued, admitted);
    }
  }

  /** A drained request is handled as if it had just arrived. */
  lemma DrainedIsAdmitted(cfg: Config, r: Replica, req: ClientRequest, received: multiset<ClientRequest>,
                          issued: seq<Message>, admitted: seq<ClientRequest>) returns (admitted': seq<ClientRequest>)
    requires Admission(cfg, r, received, issued, admitted) && ClientTask(req) in r.tasks
    ensures var o := HandleClient(cfg, r.(tasks := r.tasks - multiset{ClientTask(req)}), req);
            Admission(cfg, o.replica, received, issued + OnlyPrePrepares(o.sent), admitted')
  {
    var r' := r.(tasks := r.tasks - multiset{ClientTask(req)});
    assert received[req] >= r.tasks[ClientTask(req)] >= 1;
    assert Admission(cfg, r', received - multiset{req}, issued, admitted);
    admitted' := ClientIsAdmitted(cfg, r', req, received - multiset{req}, issued, admitted);
    assert received - multiset{req} + multiset{req} == received;
  }

  /** A step that neither admits nor forgets a request. */
  ghost predicate AdmitsNothing(r: Replica, o: Outcome) {
    var r' := o.replica;
    && r'.leader == r.leader && r'.view == r.view && r'.inViewChange == r.inViewChange
    && r'.lastSeq == r.lastSeq && r'.pending == r.pending && r'.inProgress <= r.inProgress
    && (forall req :: r'.tasks[ClientTask(req)] == r.tasks[ClientTask(req)])
    && forall m | m in o.sent :: !m.MsgPrePrepare?
  }

  lemma CheckAdmitsNothing(cfg: Config, r: Replica, ref: nat)
    requires ref < |r.cells| && r.cells[ref].checks > 0
    ensures AdmitsNothing(r, Quiet(CheckCell(cfg, r, ref)))
  {
  }

  lemma CheckpointAdmitsNothing(cfg: Config, r: Replica, c: Checkpoint)
    ensures AdmitsNothing(r, HandleCheckpoint(cfg, r, c))
  {
  }

  lemma MessageAdmitsNothing(cfg: Config, r: Replica, input: Input)
    requires r.leader == cfg.id && !LeavesView(r, input) && !input.Client? && !input.RunTask?
    ensures AdmitsNothing(r, Step(cfg, r, input))
  {
    if Ready(cfg, r, input) {
      match input
      case RunCheck(ref) => CheckAdmitsNothing(cfg, r, ref);
      case OnCheckpoint(c) => CheckpointAdmitsNothing(cfg, r, c);
      case _ =>
    }
  }

  lemma TaskAdmitsNothing(cfg: Config, r: Replica, t: Task)
    requires HasRef(t) ==> t.ref < |r.cells|
    requires !t.ClientTask? && !t.CommittedTask?
    ensures AdmitsNothing(r, Perform(cfg, r, t))
  {
    if t.CheckpointTask? {
      CheckpointAdmitsNothing(cfg, r, t.checkpoint);
    }
  }

  lemma CommittedKeepsAdmission(cfg: Config, r: Replica, n: int, received: multiset<ClientRequest>,
                                issued: seq<Message>, admitted: seq<ClientRequest>)
    requires Admission(cfg, r, received, issued, admitted)
    ensures Admission(cfg, HandleCommitted(cfg, r, n).replica, received, issued, admitted)
  {
    forall req
      ensures multiset(r.pending)[req] + r.tasks[ClientTask(req)]
           == (var r' := HandleCommitted(cfg, r, n).replica; multiset(r'.pending)[req] + r'.tasks[ClientTask(req)])
    {
      ClientTasksCount(r.pending, req);
      CheckpointTasksCount(InView(Commit(r.store, n, cfg.id, cfg.interval).1.checkpoints, r.view), req);
    }
    SubsetCard(r.inProgress - {n}, r.inProgress);
  }

  lemma NothingKeepsAdmission(cfg: Config, r: Replica, o: Outcome, received: multiset<ClientRequest>,
                              issued: seq<Message>, admitted: seq<ClientRequest>)
    requires Admission(cfg, r, received, issued, admitted) && AdmitsNothing(r, o)
    ensures Admission(cfg, o.replica, received, issued + OnlyPrePrepares(o.sent), admitted)
  {
    SubsetCard(o.replica.inProgress, r.inProgress);
    NoPrePrepares(o.sent);
    assert issued + [] == issued;
  }

  lemma CommittedAdmits(cfg: Config, r: Replica, n: int, received: multiset<ClientRequest>,
                        issued: seq<Message>, admitted: seq<ClientRequest>)
    requires Admission(cfg, r, received, issued, admitted)
    ensures var o := HandleCommitted(cfg, r, n);
            Admission(cfg, o.replica, received, issued + OnlyPrePrepares(o.sent), admitted)
  {
    CommittedKeepsAdmission(cfg, r, n, received, issued, admitted);
    CommittedSends(cfg, r, n);
    NoPrePrepares(HandleCommitted(cfg, r, n).sent);
    assert issued + [] == issued;
  }

  lemma TaskAdmits(cfg: Config, r: Replica, t: Task, received: multiset<ClientRequest>, issued: seq<Message>,
                   admitted: seq<ClientRequest>) returns (admitted': seq<ClientRequest>)
    requires Admission(cfg, r, received, issued, admitted) && t in r.tasks && (HasRef(t) ==> t.ref < |r.cells|)
    ensures var o := Perform(cfg, r.(tasks := r.tasks - multiset{t}), t);
            Admission(cfg, o.replica, received, issued + OnlyPrePrepares(o.sent), admitted')
  {
    var r' := r.(tasks := r.tasks - multiset{t});
    if t.ClientTask? {
      admitted' := DrainedIsAdmitted(cfg, r, t.request, received, issued, admitted);
    } else {
      admitted' := admitted;
      OtherTaskLeaves(cfg, r, t, received, issued, admitted);
      if t.CommittedTask? {
        CommittedAdmits(cfg, r', t.seqNo, received, issued, admitted);
      } else {
        TaskAdmitsNothing(cfg, r', t);
        NothingKeepsAdmission(cfg, r', Perform(cfg, r', t), received, issued, admitted);
      }
    }
  }

  lemma OtherTaskLeaves(cfg: Config, r: Replica, t: Task, received: multiset<ClientRequest>, issued: seq<Message>,
                        admitted: seq<ClientRequest>)
    requires Admission(cfg, r, received, issued, admitted) && !t.ClientTask?
    ensures Admission(cfg, r.(tasks := r.tasks - multiset{t}), received, issued, admitted)
  {
  }

  /** The last step of a primary's run. */
  lemma StepAdmits(cfg: Config, r: Replica, input: Input, received: multiset<ClientRequest>, issued: seq<Message>,
                   admitted: seq<ClientRequest>) returns (admitted': seq<ClientRequest>)
    requires Admission(cfg, r, received, issued, admitted) && !LeavesView(r, input)
    ensures var o := Step(cfg, r, input);
            Admission(cfg, o.replica, if input.Client? then received + multiset{input.request} else received,
                      issued + OnlyPrePrepares(o.sent), admitted')
  {
    if input.Client? {
      admitted' := ClientIsAdmitted(cfg, r, input.request, received, issued, admitted);
    } else if input.RunTask? && Ready(cfg, r, input) {
      admitted' := TaskAdmits(cfg, r, input.task, received, issued, admitted);
    } else {
      admitted' := admitted;
      if !input.RunTask? {
        MessageAdmitsNothing(cfg, r, input);
      }
      NothingKeepsAdmission(cfg, r, Step(cfg, r, input), received, issued, admitted);
    }
  }

  lemma {:induction false} PrimaryAdmits(cfg: Config, inputs: seq<Input>) returns (admitted: seq<ClientRequest>)
    requires PrimaryRun(cfg, inputs)
    ensures Admission(cfg, After(cfg, inputs), Received(inputs), Issued(cfg, inputs), admitted)
  {
    admitted := [];
    if inputs != [] {
      var before := inputs[..|inputs| - 1];
      StaysInViewBefore(cfg, inputs);
      admitted := PrimaryAdmits(cfg, before);
      admitted := StepAdmits(cfg, After(cfg, before), inputs[|inputs| - 1], Received(before),
                             Issued(cfg, before), admitted);
    }
  }

  /**
   * At a primary that stays in its view, the broadcast pre-prepares carry the numbers 1, 2, 3, ... once
   * each, one request per number; every received request is either among these or still waiting, with
   * the right multiplicity; and no more than `maxOutstanding` numbers are in progress.
   */
  lemma {:induction false} PrimaryConservesRequests(cfg: Config, inputs: seq<Input>)
    requires PrimaryRun(cfg, inputs)
    ensures var r := After(cfg, inputs);
            && |Issued(cfg, inputs)| == r.lastSeq
            && |r.inProgress| <= cfg.maxOutstanding
            && exists admitted ::
                 Numbered(cfg, Issued(cfg, inputs), admitted) && Conserved(Received(inputs), admitted, r)
  {
    var admitted := PrimaryAdmits(cfg, inputs);
  }
}
