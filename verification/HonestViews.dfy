/** Runs through new views in which nobody lies: every new-view message is one that its leader could announce. */
module HonestViews {
  import opened Messages
  import opened Systems
  import opened ViewChangeRules
  import opened CrashFaults

  /** Votes of distinct replicas for the view, all of them sent. */
  ghost predicate WereSent(s: System, votes: Votes, view: int) {
    forall k | k in votes :: MsgViewChange(votes[k]) in s.sent && votes[k].replica == k && votes[k].newView == view
  }

  /** The leader of nv's view can announce nv. */
  ghost predicate CanAnnounce(w: World, s: System, nv: NewView) {
    && 0 <= nv.newView && nv.replica == w.At(nv.replica).Leader(nv.newView)
    && exists votes :: WereSent(s, votes, nv.newView) && IsAnnouncement(nv, votes, nv.newView, w.F(), nv.replica)
  }

  ghost predicate HonestAction(w: World, s: System, a: Action) {
    if a.input.OnNewView? then CanAnnounce(w, s, a.input.newView) else HonestMessage(s, a)
  }

  /** Nobody lies, and views may change any number of times. */
  ghost predicate HonestRun(w: World, run: seq<Action>) {
    w.byz == {} && forall i | 0 <= i < |run| :: HonestAction(w, After(w, run[..i]), run[i])
  }

  lemma HonestRunGoesOn(w: World, run: seq<Action>, a: Action)
    requires HonestRun(w, run) && HonestAction(w, After(w, run), a)
    ensures HonestRun(w, run + [a])
  {
    assert (run + [a])[..|run|] == run;
    assert forall i | 0 <= i < |run| :: (run + [a])[..i] == run[..i];
  }

  lemma HonestRunBefore(w: World, run: seq<Action>)
    requires HonestRun(w, run) && run != []
    ensures HonestRun(w, run[..|run| - 1]) && HonestAction(w, After(w, run[..|run| - 1]), run[|run| - 1])
  {
    var before := run[..|run| - 1];
    assert forall i | 0 <= i < |before| :: before[..i] == run[..i];
    assert run[..|before|] == before;
  }

  lemma HonestRunPrefix(w: World, run: seq<Action>, i: nat)
    requires HonestRun(w, run) && i <= |run|
    ensures HonestRun(w, run[..i])
  {
    assert forall j | 0 <= j < i :: run[..i][..j] == run[..j];
  }

  lemma CrashRunIsHonest(w: World, run: seq<Action>)
    requires CrashRun(w, run)
    ensures HonestRun(w, run)
  {
  }
}
