/**
 * N replicas joined by a network that may lose, reorder and repeat messages: `sent` only grows and any of
 * it may be delivered to anyone at any time.  Members of `byz` may say anything, but only under their own id.
 */
module Systems {
  import opened Messages
  import opened Quorums
  import opened StoreModel
  import opened Replicas

  datatype World = World(ring: Ring, byz: set<string>, maxOutstanding: int, interval: Positive, window: nat,
                         digestOf: ClientRequest -> string)
  {
    function At(q: string): Config {
      Config(q, ring, maxOutstanding, interval, window, digestOf)
    }

    function F(): nat {
      MaxFaulty(|ring|)
    }

    function Ids(): set<string> {
      set q | q in ring
    }

    function Correct(): set<string> {
      Ids() - byz
    }
  }

  datatype System = System(nodes: map<string, Replica>, sent: set<Message>)

  datatype Action = Action(who: string, input: Input)

  function Start(w: World): System {
    System(map q | q in w.Correct() :: NewReplica(w.At(q)), {})
  }

  /** Sender ids of prepares and commits are authentic.  Everything else a replica may receive is unconstrained. */
  predicate Authentic(w: World, sent: set<Message>, input: Input) {
    match input
    case OnPrepare(v) => v.replica in w.byz || MsgPrepare(v) in sent
    case OnCommit(v) => v.replica in w.byz || MsgCommit(v) in sent
    case _ => true
  }

  /** A replica hears its own broadcast; the source sends to the others only. */
  predicate Echoes(a: Action) {
    match a.input
    case OnPrepare(v) => v.replica == a.who
    case OnCommit(v) => v.replica == a.who
    case OnCheckpoint(c) => c.replica == a.who
    case _ => false
  }

  ghost predicate NoEcho(run: seq<Action>) {
    forall a | a in run :: !Echoes(a)
  }

  ghost predicate Enabled(w: World, s: System, a: Action) {
    a.who in s.nodes && Ready(w.At(a.who), s.nodes[a.who], a.input) && Authentic(w, s.sent, a.input)
  }

  function SetOf(sent: seq<Message>): set<Message> {
    set m | m in sent
  }

  ghost function Act(w: World, s: System, a: Action): System {
    if !Enabled(w, s, a) then s
    else
      var o := Step(w.At(a.who), s.nodes[a.who], a.input);
      System(s.nodes[a.who := o.replica], s.sent + SetOf(o.sent))
  }

  ghost function After(w: World, run: seq<Action>): System {
    if run == [] then Start(w) else Act(w, After(w, run[..|run| - 1]), run[|run| - 1])
  }
}
