/**
 * The per-request vote collector of `pbft/transaction_state.go`, as a value with one function per
 * atomic step.  `TransactionStates.TransactionState` is the object that carries these steps out in place.
 */
module VoteCollector {
  import opened Messages
  import opened Quorums

  type VoteMap = map<string, Vote>

  datatype Collector = Collector(digest: string, preprepare: Option<PrePrepare>,
                                 prepares: VoteMap, commits: VoteMap,
                                 prepared: bool, committed: bool)

  const EMPTY := Collector("", None, map[], map[], false, false)

  function Matching(votes: VoteMap, digest: string): VoteMap {
    map k | k in votes && votes[k].digest == digest :: votes[k]
  }

  function AddPrePrepare(c: Collector, f: nat, pp: PrePrepare): Collector {
    if c.digest == pp.digest then c.(preprepare := Some(pp))
    else
      var prepares, commits := Matching(c.prepares, pp.digest), Matching(c.commits, pp.digest);
      Collector(pp.digest, Some(pp), prepares, commits,
                c.prepared && |prepares| >= 2 * f, c.committed && |commits| > 2 * f)
  }

  /** An empty digest accepts every vote. */
  predicate Accepts(c: Collector, vote: Vote) {
    c.digest == "" || c.digest == vote.digest
  }

  function AddPrepare(c: Collector, f: nat, vote: Vote): Collector {
    if !Accepts(c, vote) then c
    else
      var prepares := c.prepares[vote.replica := vote];
      c.(prepares := prepares, prepared := c.prepared || |prepares| == 2 * f)
  }

  function AddCommit(c: Collector, f: nat, vote: Vote): Collector {
    if !Accepts(c, vote) then c
    else
      var commits := c.commits[vote.replica := vote];
      c.(commits := commits, committed := c.committed || |commits| == 2 * f + 1)
  }

  predicate IsPrepared(c: Collector, f: nat) {
    |c.prepares| >= 2 * f
  }

  /** What one run of `checkCallbacks` leaves behind and which callbacks it starts. */
  datatype Checked = Checked(votes: Collector, commit: Option<Vote>, decided: Option<int>)

  function Check(c: Collector, id: string): Checked {
    match c.preprepare
    case None => Checked(c, None, None)
    case Some(pp) =>
      Checked(c.(prepared := false, committed := false),
              if c.prepared then Some(Vote(pp.view, pp.seqNo, pp.digest, id)) else None,
              if c.committed then Some(pp.seqNo) else None)
  }

  // ---------- Every state a collector can reach ----------

  ghost predicate Uniform(votes: VoteMap, digest: string) {
    forall k | k in votes :: votes[k].replica == k && (digest != "" ==> votes[k].digest == digest)
  }

  /** Each flag is backed by its count, and `digest` is that of the current pre-prepare. */
  ghost predicate Backed(c: Collector, f: nat) {
    && c.digest == (if c.preprepare.Some? then c.preprepare.value.digest else "")
    && Uniform(c.prepares, c.digest) && Uniform(c.commits, c.digest)
    && (c.prepared ==> |c.prepares| >= 2 * f)
    && (c.committed ==> |c.commits| >= 2 * f + 1)
  }

  lemma InsertCard(votes: VoteMap, vote: Vote)
    ensures |votes[vote.replica := vote]| == if vote.replica in votes then |votes| else |votes| + 1
    ensures votes[vote.replica := vote].Keys == votes.Keys + {vote.replica}
  {
    assert votes[vote.replica := vote].Keys == votes.Keys + {vote.replica};
  }

  lemma MatchingCard(votes: VoteMap, digest: string)
    ensures |Matching(votes, digest)| <= |votes|
  {
    SubsetCard(Matching(votes, digest).Keys, votes.Keys);
  }

  lemma AddPrePrepareKeepsBacked(c: Collector, f: nat, pp: PrePrepare)
    requires Backed(c, f)
    ensures Backed(AddPrePrepare(c, f, pp), f)
  {
  }

  lemma AddPrepareKeepsBacked(c: Collector, f: nat, vote: Vote)
    requires Backed(c, f)
    ensures Backed(AddPrepare(c, f, vote), f)
  {
    InsertCard(c.prepares, vote);
  }

  lemma AddCommitKeepsBacked(c: Collector, f: nat, vote: Vote)
    requires Backed(c, f)
    ensures Backed(AddCommit(c, f, vote), f)
  {
    InsertCard(c.commits, vote);
  }

  // ---------- Runs of one collector ----------

  datatype Event =
    | SeePrePrepare(preprepare: PrePrepare)
    | SeePrepare(prepare: Vote)
    | SeeCommit(commit: Vote)
    | CheckRuns

  /** A collector, the checks spawned but not yet run, and the callbacks fired so far. */
  datatype History = History(votes: Collector, checks: nat, prepared: seq<Vote>, decided: seq<int>)

  function Observe(f: nat, id: string, events: seq<Event>): History {
    if events == [] then History(EMPTY, 0, [], [])
    else Next(f, id, Observe(f, id, events[..|events| - 1]), events[|events| - 1])
  }

  function Next(f: nat, id: string, h: History, event: Event): History {
    match event
    case SeePrePrepare(pp) => h.(votes := AddPrePrepare(h.votes, f, pp), checks := h.checks + 1)
    case SeePrepare(v) =>
      h.(votes := AddPrepare(h.votes, f, v), checks := if Accepts(h.votes, v) then h.checks + 1 else h.checks)
    case SeeCommit(v) =>
      h.(votes := AddCommit(h.votes, f, v), checks := if Accepts(h.votes, v) then h.checks + 1 else h.checks)
    case CheckRuns =>
      if h.checks == 0 then h
      else
        var r := Check(h.votes, id);
        History(r.votes, h.checks - 1,
                if r.commit.Some? then h.prepared + [r.commit.value] else h.prepared,
                if r.decided.Some? then h.decided + [r.decided.value] else h.decided)
  }

  lemma {:induction false} RunsAreBacked(f: nat, id: string, events: seq<Event>)
    ensures Backed(Observe(f, id, events).votes, f)
  {
    if events != [] {
      var before := events[..|events| - 1];
      RunsAreBacked(f, id, before);
      var c, event := Observe(f, id, before).votes, events[|events| - 1];
      match event
      case SeePrePrepare(pp) => AddPrePrepareKeepsBacked(c, f, pp);
      case SeePrepare(v) => AddPrepareKeepsBacked(c, f, v);
      case SeeCommit(v) => AddCommitKeepsBacked(c, f, v);
      case CheckRuns =>
    }
  }

  /** The replicas whose vote in `votes` carries `digest`. */
  function Supporters(votes: VoteMap, digest: string): set<string> {
    set k | k in votes && votes[k].replica == k && votes[k].digest == digest
  }

  /**
   * Whatever arrived before, in whatever order and however often: a fired callback names the
   * pre-prepare the collector holds, and a quorum of distinct replicas voted for its digest.
   */
  lemma FiredCallbacksAreCertified(f: nat, id: string, events: seq<Event>)
    ensures var c := Observe(f, id, events).votes;
            var r := Check(c, id);
            && (r.commit.Some? ==>
                  && c.preprepare.Some?
                  && r.commit.value
                     == Vote(c.preprepare.value.view, c.preprepare.value.seqNo, c.preprepare.value.digest, id)
                  && |c.prepares| >= 2 * f
                  && (c.preprepare.value.digest != "" ==> |Supporters(c.prepares, c.preprepare.value.digest)| >= 2 * f))
            && (r.decided.Some? ==>
                  && c.preprepare.Some?
                  && r.decided.value == c.preprepare.value.seqNo
                  && |c.commits| >= 2 * f + 1
                  && (c.preprepare.value.digest != "" ==>
                      |Supporters(c.commits, c.preprepare.value.digest)| >= 2 * f + 1))
  {
    RunsAreBacked(f, id, events);
    var c := Observe(f, id, events).votes;
    if c.preprepare.Some? && c.preprepare.value.digest != "" {
      assert Supporters(c.prepares, c.digest) == c.prepares.Keys;
      assert Supporters(c.commits, c.digest) == c.commits.Keys;
    }
  }

  lemma NextNeverPrepared(id: string, h: History, event: Event)
    requires !h.votes.prepared && h.prepared == []
    ensures var h' := Next(0, id, h, event); !h'.votes.prepared && h'.prepared == []
  {
    if event.SeePrepare? {
      InsertCard(h.votes.prepares, event.prepare);
    }
  }

  /** With no faults to tolerate (F = 0) the equality test can never succeed: the prepared callback never fires. */
  lemma {:induction false} NeverPreparedWithoutFaults(id: string, events: seq<Event>)
    ensures !Observe(0, id, events).votes.prepared && Observe(0, id, events).prepared == []
  {
    if events != [] {
      NeverPreparedWithoutFaults(id, events[..|events| - 1]);
      NextNeverPrepared(id, Observe(0, id, events[..|events| - 1]), events[|events| - 1]);
    }
  }

  // ---------- No lost wake-up ----------

  /** A reached quorum has fired, or its flag is up; and while a flag can fire, a check is still to run. */
  ghost predicate Awake(f: nat, h: History) {
    && (h.votes.preprepare.Some? && (h.votes.prepared || h.votes.committed) ==> h.checks > 0)
    && (|h.votes.prepares| >= 2 * f > 0 ==> h.votes.prepared || h.prepared != [])
    && (|h.votes.commits| >= 2 * f + 1 ==> h.votes.committed || h.decided != [])
  }

  lemma NextStaysAwake(f: nat, id: string, h: History, event: Event)
    requires Awake(f, h)
    ensures Awake(f, Next(f, id, h, event))
  {
    var c := h.votes;
    match event
    case SeePrePrepare(pp) => MatchingCard(c.prepares, pp.digest); MatchingCard(c.commits, pp.digest);
    case SeePrepare(v) => InsertCard(c.prepares, v);
    case SeeCommit(v) => InsertCard(c.commits, v);
    case CheckRuns =>
  }

  lemma {:induction false} RunsStayAwake(f: nat, id: string, events: seq<Event>)
    ensures Awake(f, Observe(f, id, events))
  {
    if events != [] {
      RunsStayAwake(f, id, events[..|events| - 1]);
      NextStaysAwake(f, id, Observe(f, id, events[..|events| - 1]), events[|events| - 1]);
    }
  }

  // ---------- Which pre-prepare a quorum is announced for ----------

  datatype Phase = Preparing | Committing

  function Quorum(phase: Phase, f: nat): nat {
    if phase.Preparing? then 2 * f else 2 * f + 1
  }

  function VotesOf(phase: Phase, c: Collector): VoteMap {
    if phase.Preparing? then c.prepares else c.commits
  }

  function Flag(phase: Phase, c: Collector): bool {
    if phase.Preparing? then c.prepared else c.committed
  }

  /** The callback of this phase has fired for `pp`. */
  predicate Announced(phase: Phase, id: string, h: History, pp: PrePrepare) {
    if phase.Preparing? then Vote(pp.view, pp.seqNo, pp.digest, id) in h.prepared else pp.seqNo in h.decided
  }

  /**
   * The last pre-prepare came when a quorum was held whose flag was already spent, its own callback not having
   * fired before, and no vote has raised the flag since.
   */
  predicate Overtaken(phase: Phase, f: nat, id: string, events: seq<Event>) {
    events != []
    && var before, c := events[..|events| - 1], Observe(f, id, events).votes;
       && !Flag(phase, c)
       && match events[|events| - 1]
          case SeePrePrepare(pp) =>
            !Announced(phase, id, Observe(f, id, before), pp) && |VotesOf(phase, c)| >= Quorum(phase, f)
          case _ => Overtaken(phase, f, id, before)
  }

  ghost predicate Accounted(phase: Phase, f: nat, id: string, h: History, overtaken: bool) {
    var c, pp := h.votes, h.votes.preprepare;
    if overtaken then pp.Some? && !Flag(phase, c) && |VotesOf(phase, c)| >= Quorum(phase, f)
                      && !Announced(phase, id, h, pp.value)
    else |VotesOf(phase, c)| >= Quorum(phase, f) ==> Flag(phase, c) || (pp.Some? && Announced(phase, id, h, pp.value))
  }

  lemma VoteKeepsAccount(phase: Phase, f: nat, id: string, h: History, event: Event, overtaken: bool)
    requires f >= 1 && Accounted(phase, f, id, h, overtaken) && (event.SeePrepare? || event.SeeCommit?)
    ensures var h' := Next(f, id, h, event); Accounted(phase, f, id, h', overtaken && !Flag(phase, h'.votes))
  {
    match event
    case SeePrepare(v) => InsertCard(h.votes.prepares, v);
    case SeeCommit(v) => InsertCard(h.votes.commits, v);
  }

  lemma CheckKeepsAccount(phase: Phase, f: nat, id: string, h: History, overtaken: bool)
    requires Accounted(phase, f, id, h, overtaken)
    ensures var h' := Next(f, id, h, CheckRuns); Accounted(phase, f, id, h', overtaken && !Flag(phase, h'.votes))
  {
  }

  lemma {:induction false} RunsAreAccounted(phase: Phase, f: nat, id: string, events: seq<Event>)
    requires f >= 1
    ensures Accounted(phase, f, id, Observe(f, id, events), Overtaken(phase, f, id, events))
  {
    if events != [] {
      var before, event := events[..|events| - 1], events[|events| - 1];
      RunsAreAccounted(phase, f, id, before);
      var h, overtaken := Observe(f, id, before), Overtaken(phase, f, id, before);
      match event
      case SeePrePrepare(_) =>
      case CheckRuns => CheckKeepsAccount(phase, f, id, h, overtaken);
      case _ => VoteKeepsAccount(phase, f, id, h, event, overtaken);
    }
  }

  /**
   * Under any traffic, once no check is outstanding: of a quorum that is held, the callback has fired for the
   * current pre-prepare exactly unless that pre-prepare was overtaken.
   */
  lemma {:induction false} NoLostWakeUp(phase: Phase, f: nat, id: string, events: seq<Event>)
    requires f >= 1 && Observe(f, id, events).checks == 0 && Observe(f, id, events).votes.preprepare.Some?
    requires |VotesOf(phase, Observe(f, id, events).votes)| >= Quorum(phase, f)
    ensures var h := Observe(f, id, events);
            Announced(phase, id, h, h.votes.preprepare.value) <==> !Overtaken(phase, f, id, events)
  {
    RunsStayAwake(f, id, events);
    RunsAreAccounted(phase, f, id, events);
  }

  /** Pre-prepares for one number and view, none with an empty digest before one with another. */
  ghost predicate Steady(events: seq<Event>) {
    var pps := PrePrepares(events);
    forall i, j | 0 <= i < j < |pps| ::
      pps[i].view == pps[j].view && pps[i].seqNo == pps[j].seqNo && (pps[i].digest == "" ==> pps[j].digest == "")
  }

  lemma {:induction false} CurrentIsLast(f: nat, id: string, events: seq<Event>)
    ensures var pps, pp := PrePrepares(events), Observe(f, id, events).votes.preprepare;
            if pps == [] then pp.None? else pp == Some(pps[|pps| - 1])
  {
    if events != [] {
      CurrentIsLast(f, id, events[..|events| - 1]);
    }
  }

  /** A new pre-prepare that keeps to the rule purges everything, or nothing, or leaves its own flag up. */
  lemma SteadyArrival(phase: Phase, f: nat, id: string, h: History, pp: PrePrepare)
    requires f >= 1 && Backed(h.votes, f) && Accounted(phase, f, id, h, false)
    requires match h.votes.preprepare
             case None => true
             case Some(p) => p.view == pp.view && p.seqNo == pp.seqNo && (p.digest == "" ==> pp.digest == "")
    ensures var c := AddPrePrepare(h.votes, f, pp);
            |VotesOf(phase, c)| >= Quorum(phase, f) ==> Flag(phase, c) || Announced(phase, id, h, pp)
  {
    var c := h.votes;
    MatchingCard(c.prepares, pp.digest);
    MatchingCard(c.commits, pp.digest);
    if c.digest != pp.digest && c.preprepare.Some? {
      assert Matching(c.prepares, pp.digest) == map[] && Matching(c.commits, pp.digest) == map[];
    }
  }

  lemma {:induction false} SteadyIsNeverOvertaken(phase: Phase, f: nat, id: string, events: seq<Event>)
    requires f >= 1 && Steady(events)
    ensures !Overtaken(phase, f, id, events)
  {
    if events != [] {
      var before, event := events[..|events| - 1], events[|events| - 1];
      SteadyBefore(events);
      SteadyIsNeverOvertaken(phase, f, id, before);
      if event.SeePrePrepare? {
        RunsAreBacked(f, id, before);
        RunsAreAccounted(phase, f, id, before);
        CurrentIsLast(f, id, before);
        SteadyArrival(phase, f, id, Observe(f, id, before), event.preprepare);
      }
    }
  }

  lemma SteadyBefore(events: seq<Event>)
    requires events != [] && Steady(events)
    ensures Steady(events[..|events| - 1])
    ensures var pps, event := PrePrepares(events[..|events| - 1]), events[|events| - 1];
            event.SeePrePrepare? && pps != [] ==>
              var p, pp := pps[|pps| - 1], event.preprepare;
              p.view == pp.view && p.seqNo == pp.seqNo && (p.digest == "" ==> pp.digest == "")
  {
    var before, pps := PrePrepares(events[..|events| - 1]), PrePrepares(events);
    assert forall i | 0 <= i < |before| :: before[i] == pps[i];
    if events[|events| - 1].SeePrePrepare? && before != [] {
      assert pps[|before| - 1] == before[|before| - 1] && pps[|before|] == events[|events| - 1].preprepare;
    }
  }

  /** So then every quorum is announced for the current pre-prepare. */
  lemma {:induction false} SteadyTrafficIsAnnounced(phase: Phase, f: nat, id: string, events: seq<Event>)
    requires f >= 1 && Steady(events)
    requires Observe(f, id, events).checks == 0 && Observe(f, id, events).votes.preprepare.Some?
    requires |VotesOf(phase, Observe(f, id, events).votes)| >= Quorum(phase, f)
    ensures Announced(phase, id, Observe(f, id, events), Observe(f, id, events).votes.preprepare.value)
  {
    SteadyIsNeverOvertaken(phase, f, id, events);
    NoLostWakeUp(phase, f, id, events);
  }

  /** Two prepares fire under an empty digest; then the pre-prepare they are for arrives. */
  function EmptyDigestFirst(d: string, a: string, b: string): seq<Event> {
    [] + [SeePrePrepare(PrePrepare(0, 1, ""))] + [SeePrepare(Vote(0, 1, d, a))] + [SeePrepare(Vote(0, 1, d, b))]
    + [CheckRuns] + [CheckRuns] + [CheckRuns] + [SeePrePrepare(PrePrepare(0, 1, d))] + [CheckRuns]
  }

  lemma Observed(f: nat, id: string, before: seq<Event>, event: Event)
    ensures Observe(f, id, before + [event]) == Next(f, id, Observe(f, id, before), event)
  {
    assert (before + [event])[..|before|] == before;
  }

  /** Its quorum is held and every check has run, but the only announcement is for the empty digest. */
  lemma {:induction false} EmptyDigestOvertakes(id: string, d: string, a: string, b: string)
    requires d != "" && a != b
    ensures var h := Observe(1, id, EmptyDigestFirst(d, a, b));
            && h.checks == 0 && h.votes.preprepare == Some(PrePrepare(0, 1, d)) && |h.votes.prepares| >= 2
            && h.prepared == [Vote(0, 1, "", id)]
            && !Announced(Preparing, id, h, h.votes.preprepare.value)
  {
    var p, va, vb := SeePrePrepare(PrePrepare(0, 1, "")), Vote(0, 1, d, a), Vote(0, 1, d, b);
    FiresUnderEmptyDigest(id, d, a, b);
    var fired := [] + [p] + [SeePrepare(va)] + [SeePrepare(vb)] + [CheckRuns] + [CheckRuns] + [CheckRuns];
    Observed(1, id, fired, SeePrePrepare(PrePrepare(0, 1, d)));
    Observed(1, id, fired + [SeePrePrepare(PrePrepare(0, 1, d))], CheckRuns);
    var prepares := Observe(1, id, fired).votes.prepares;
    assert Matching(prepares, d) == prepares;
  }

  lemma FiresUnderEmptyDigest(id: string, d: string, a: string, b: string)
    requires d != "" && a != b
    ensures var p := SeePrePrepare(PrePrepare(0, 1, ""));
            var h := Observe(1, id, [] + [p] + [SeePrepare(Vote(0, 1, d, a))] + [SeePrepare(Vote(0, 1, d, b))]
                                    + [CheckRuns] + [CheckRuns] + [CheckRuns]);
            && h.checks == 0 && h.prepared == [Vote(0, 1, "", id)] && h.decided == []
            && h.votes == Collector("", Some(PrePrepare(0, 1, "")), map[a := Vote(0, 1, d, a), b := Vote(0, 1, d, b)],
                                    map[], false, false)
  {
    var p, va, vb := SeePrePrepare(PrePrepare(0, 1, "")), SeePrepare(Vote(0, 1, d, a)), SeePrepare(Vote(0, 1, d, b));
    Observed(1, id, [], p);
    Observed(1, id, [] + [p], va);
    Observed(1, id, [] + [p] + [va], vb);
    var voted := [] + [p] + [va] + [vb];
    assert Observe(1, id, voted).votes.prepares == map[a := va.prepare, b := vb.prepare];
    assert Observe(1, id, voted).votes.prepares.Keys == {a, b};
    Observed(1, id, voted, CheckRuns);
    Observed(1, id, voted + [CheckRuns], CheckRuns);
    Observed(1, id, voted + [CheckRuns] + [CheckRuns], CheckRuns);
  }

  // ---------- Exactly once ----------

  /** The prepares (commits) that arrived, in order. */
  function Prepares(events: seq<Event>): seq<Vote> {
    if events == [] then []
    else
      var rest, e := Prepares(events[..|events| - 1]), events[|events| - 1];
      if e.SeePrepare? then rest + [e.prepare] else rest
  }

  function Commits(events: seq<Event>): seq<Vote> {
    if events == [] then []
    else
      var rest, e := Commits(events[..|events| - 1]), events[|events| - 1];
      if e.SeeCommit? then rest + [e.commit] else rest
  }

  function PrePrepares(events: seq<Event>): seq<PrePrepare> {
    if events == [] then []
    else
      var rest, e := PrePrepares(events[..|events| - 1]), events[|events| - 1];
      if e.SeePrePrepare? then rest + [e.preprepare] else rest
  }

  predicate Matches(vote: Vote, digest: string) {
    digest == "" || vote.digest == digest
  }

  /** Who voted for `digest`. */
  function Senders(votes: seq<Vote>, digest: string): set<string> {
    set v | v in votes && Matches(v, digest) :: v.replica
  }

  ghost predicate DistinctSenders(votes: seq<Vote>) {
    forall i, j | 0 <= i < j < |votes| :: votes[i].replica != votes[j].replica
  }

  /** One pre-prepare at most, and no replica votes twice in the same phase. */
  ghost predicate OneVoteEach(events: seq<Event>) {
    |PrePrepares(events)| <= 1 && DistinctSenders(Prepares(events)) && DistinctSenders(Commits(events))
  }

  /** `m` holds one vote of everybody who voted for `digest`. */
  ghost predicate Counted(m: VoteMap, digest: string, arrived: seq<Vote>) {
    && m.Keys == Senders(arrived, digest)
    && forall k | k in m :: m[k] in arrived && m[k].replica == k
  }

  lemma VoteIsCounted(m: VoteMap, digest: string, arrived: seq<Vote>, vote: Vote)
    requires Counted(m, digest, arrived) && DistinctSenders(arrived + [vote])
    ensures vote.replica !in m
    ensures Counted(if Matches(vote, digest) then m[vote.replica := vote] else m, digest, arrived + [vote])
  {
    var after := arrived + [vote];
    assert forall v | v in arrived :: v in after;
    assert after[|arrived|] == vote;
    forall i | 0 <= i < |arrived| ensures arrived[i].replica != vote.replica {
      assert after[i].replica != after[|arrived|].replica;
    }
    assert Senders(after, digest) == Senders(arrived, digest) + if Matches(vote, digest) then {vote.replica} else {};
  }

  lemma DigestIsCounted(m: VoteMap, arrived: seq<Vote>, digest: string)
    requires Counted(m, "", arrived) && DistinctSenders(arrived)
    ensures Counted(if digest == "" then m else Matching(m, digest), digest, arrived)
  {
    forall v | v in arrived && Matches(v, digest) ensures v.replica in m && m[v.replica] == v {
      assert Matches(v, "");
    }
  }

  function Once(fired: nat, flag: bool): nat {
    fired + if flag then 1 else 0
  }

  /** Fired and about to fire, together, exactly when the quorum is there. */
  ghost predicate FiredOnce(f: nat, id: string, h: History) {
    && Once(|h.prepared|, h.votes.prepared) == (if |h.votes.prepares| >= 2 * f then 1 else 0)
    && Once(|h.decided|, h.votes.committed) == (if |h.votes.commits| >= 2 * f + 1 then 1 else 0)
    && match h.votes.preprepare
       case None => h.prepared == [] && h.decided == []
       case Some(pp) =>
         && (h.prepared == [] || h.prepared == [Vote(pp.view, pp.seqNo, pp.digest, id)])
         && (h.decided == [] || h.decided == [pp.seqNo])
  }

  /** Where a run in which nobody votes twice stands: nothing is lost, nothing counted twice. */
  ghost predicate Tallied(f: nat, id: string, h: History, events: seq<Event>) {
    && Counted(h.votes.prepares, h.votes.digest, Prepares(events))
    && Counted(h.votes.commits, h.votes.digest, Commits(events))
    && PrePrepares(events) == (if h.votes.preprepare.Some? then [h.votes.preprepare.value] else [])
    && h.votes.digest == (if h.votes.preprepare.Some? then h.votes.preprepare.value.digest else "")
    && FiredOnce(f, id, h)
  }

  lemma LastEvent(before: seq<Event>, event: Event)
    ensures PrePrepares(before + [event])
           == if event.SeePrePrepare? then PrePrepares(before) + [event.preprepare] else PrePrepares(before)
    ensures Prepares(before + [event])
           == if event.SeePrepare? then Prepares(before) + [event.prepare] else Prepares(before)
    ensures Commits(before + [event]) == if event.SeeCommit? then Commits(before) + [event.commit] else Commits(before)
  {
    assert (before + [event])[..|before|] == before;
  }

  lemma PrePrepareIsTallied(f: nat, id: string, h: History, before: seq<Event>, pp: PrePrepare)
    requires f >= 1 && Tallied(f, id, h, before) && OneVoteEach(before + [SeePrePrepare(pp)])
    ensures Tallied(f, id, Next(f, id, h, SeePrePrepare(pp)), before + [SeePrePrepare(pp)])
  {
    LastEvent(before, SeePrePrepare(pp));
    DigestIsCounted(h.votes.prepares, Prepares(before), pp.digest);
    DigestIsCounted(h.votes.commits, Commits(before), pp.digest);
    MatchingCard(h.votes.prepares, pp.digest);
    MatchingCard(h.votes.commits, pp.digest);
  }

  lemma NewPrepareFiresOnce(f: nat, id: string, h: History, v: Vote)
    requires f >= 1 && FiredOnce(f, id, h) && v.replica !in h.votes.prepares
    ensures FiredOnce(f, id, Next(f, id, h, SeePrepare(v)))
  {
    InsertCard(h.votes.prepares, v);
  }

  lemma NewCommitFiresOnce(f: nat, id: string, h: History, v: Vote)
    requires f >= 1 && FiredOnce(f, id, h) && v.replica !in h.votes.commits
    ensures FiredOnce(f, id, Next(f, id, h, SeeCommit(v)))
  {
    InsertCard(h.votes.commits, v);
  }

  lemma PrepareIsTallied(f: nat, id: string, h: History, before: seq<Event>, v: Vote)
    requires f >= 1 && Tallied(f, id, h, before) && OneVoteEach(before + [SeePrepare(v)])
    ensures Tallied(f, id, Next(f, id, h, SeePrepare(v)), before + [SeePrepare(v)])
  {
    LastEvent(before, SeePrepare(v));
    VoteIsCounted(h.votes.prepares, h.votes.digest, Prepares(before), v);
    NewPrepareFiresOnce(f, id, h, v);
  }

  lemma CommitIsTallied(f: nat, id: string, h: History, before: seq<Event>, v: Vote)
    requires f >= 1 && Tallied(f, id, h, before) && OneVoteEach(before + [SeeCommit(v)])
    ensures Tallied(f, id, Next(f, id, h, SeeCommit(v)), before + [SeeCommit(v)])
  {
    LastEvent(before, SeeCommit(v));
    VoteIsCounted(h.votes.commits, h.votes.digest, Commits(before), v);
    NewCommitFiresOnce(f, id, h, v);
  }

  lemma EarlierVotesAreDistinct(events: seq<Event>)
    requires OneVoteEach(events) && events != []
    ensures OneVoteEach(events[..|events| - 1])
  {
    var before := events[..|events| - 1];
    assert forall i | 0 <= i < |Prepares(before)| :: Prepares(before)[i] == Prepares(events)[i];
    assert forall i | 0 <= i < |Commits(before)| :: Commits(before)[i] == Commits(events)[i];
  }

  lemma CheckIsTallied(f: nat, id: string, h: History, before: seq<Event>)
    requires f >= 1 && Tallied(f, id, h, before)
    ensures Tallied(f, id, Next(f, id, h, CheckRuns), before + [CheckRuns])
  {
    LastEvent(before, CheckRuns);
  }

  lemma EventIsTallied(f: nat, id: string, h: History, before: seq<Event>, event: Event)
    requires f >= 1 && Tallied(f, id, h, before) && OneVoteEach(before + [event])
    ensures Tallied(f, id, Next(f, id, h, event), before + [event])
  {
    match event
    case SeePrePrepare(pp) => PrePrepareIsTallied(f, id, h, before, pp);
    case SeePrepare(v) => PrepareIsTallied(f, id, h, before, v);
    case SeeCommit(v) => CommitIsTallied(f, id, h, before, v);
    case CheckRuns => CheckIsTallied(f, id, h, before);
  }

  lemma {:induction false} RunsAreTallied(f: nat, id: string, events: seq<Event>)
    requires f >= 1 && OneVoteEach(events)
    ensures Tallied(f, id, Observe(f, id, events), events)
  {
    if events != [] {
      var before, event := events[..|events| - 1], events[|events| - 1];
      EarlierVotesAreDistinct(events);
      RunsAreTallied(f, id, before);
      assert before + [event] == events;
      EventIsTallied(f, id, Observe(f, id, before), before, event);
    }
  }

  /**
   * One pre-prepare and one vote per replica and phase, in any order, with the checks run at any later
   * time: when no check is outstanding, each callback has fired exactly once if its quorum of votes for
   * the pre-prepare's digest arrived, and never otherwise.
   */
  lemma ExactlyOnce(f: nat, id: string, events: seq<Event>, pp: PrePrepare)
    requires f >= 1 && OneVoteEach(events) && PrePrepares(events) == [pp]
    requires Observe(f, id, events).checks == 0
    ensures var h := Observe(f, id, events);
            && h.prepared == (if |Senders(Prepares(events), pp.digest)| >= 2 * f
                              then [Vote(pp.view, pp.seqNo, pp.digest, id)] else [])
            && h.decided == (if |Senders(Commits(events), pp.digest)| >= 2 * f + 1 then [pp.seqNo] else [])
  {
    RunsAreTallied(f, id, events);
    RunsStayAwake(f, id, events);
    var c := Observe(f, id, events).votes;
    assert |c.prepares| == |c.prepares.Keys| && |c.commits| == |c.commits.Keys|;
  }

  /** Until the pre-prepare is there, neither callback fires, however many votes arrive. */
  lemma {:induction false} NothingFiresWithoutPrePrepare(f: nat, id: string, events: seq<Event>)
    requires PrePrepares(events) == []
    ensures Observe(f, id, events).votes.preprepare.None?
    ensures Observe(f, id, events).prepared == [] && Observe(f, id, events).decided == []
  {
    if events != [] {
      assert PrePrepares(events[..|events| - 1]) <= PrePrepares(events);
      NothingFiresWithoutPrePrepare(f, id, events[..|events| - 1]);
    }
  }

  /**
   * Why a second vote of the same replica must be ruled out above: with every check run, a repeated
   * prepare makes the callback fire again exactly when it lands on the threshold.
   */
  lemma RepeatedPrepareFiresAgainIff(f: nat, id: string, events: seq<Event>, vote: Vote)
    requires f >= 1 && Observe(f, id, events).checks == 0
    requires Observe(f, id, events).votes.preprepare.Some?
    requires vote.replica in Observe(f, id, events).votes.prepares
    ensures var c := Observe(f, id, events).votes;
            var again := Next(f, id, Next(f, id, Observe(f, id, events), SeePrepare(vote)), CheckRuns);
            (again.prepared != Observe(f, id, events).prepared) == (Accepts(c, vote) && |c.prepares| == 2 * f)
  {
    RunsStayAwake(f, id, events);
    InsertCard(Observe(f, id, events).votes.prepares, vote);
  }

  /** And a repeated commit likewise: past 2F+1 of them, none makes the callback fire again. */
  lemma {:induction false} RepeatedCommitFiresAgainIff(f: nat, id: string, events: seq<Event>, vote: Vote)
    requires f >= 1 && Observe(f, id, events).checks == 0
    requires Observe(f, id, events).votes.preprepare.Some?
    requires vote.replica in Observe(f, id, events).votes.commits
    ensures var c := Observe(f, id, events).votes;
            var again := Next(f, id, Next(f, id, Observe(f, id, events), SeeCommit(vote)), CheckRuns);
            (again.decided != Observe(f, id, events).decided) == (Accepts(c, vote) && |c.commits| == 2 * f + 1)
  {
    RunsStayAwake(f, id, events);
    InsertCard(Observe(f, id, events).votes.commits, vote);
  }
}
