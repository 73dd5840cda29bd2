/** Honest new views: votes that show the certificate of one number, their announcement, and entering the view. */
module NewViewScenes {
  import opened Messages
  import opened Quorums
  import opened Decimal
  import opened VoteCollector
  import opened StoreModel
  import opened Replicas
  import opened Systems
  import opened ViewChangeRules
  import opened HonestViews
  import opened Scripts
  import opened Scenes
  import opened JointScenes

  // ---------- Votes that show one certificate ----------

  lemma ListedBackers(list: seq<Vote>, m: VoteMap, x: Item)
    requires Lists(list, m) && forall k | k in m :: m[k] == Own(x, k)
    ensures m.Keys <= Backers(list, PP(x))
  {
    forall k | k in m ensures k in Backers(list, PP(x)) {
      assert m[k] in list;
    }
  }

  /** The vote of a replica that holds x's certificate. */
  lemma ShownIsValid(r: Replica, x: Item, prep: set<string>, vc: ViewChange)
    requires x.n in r.txns && Stage(r, x, r.txns[x.n], true, prep, {}, false, false) && |prep| == 2
    requires ShowsIt(r, x.n, vc)
    ensures |vc.certificates| == 1 && Offers(vc.certificates[0], 1, PP(x))
  {
    var votes := r.cells[r.txns[x.n]].votes;
    assert |votes.prepares| == |prep|;
    var c := vc.certificates[0];
    assert c in vc.certificates && Certifies(c, votes);
    ListedBackers(c.prepares, votes.prepares, x);
    SubsetCard(prep, Backers(c.prepares, PP(x)));
  }

  /** The vote says nothing, or shows x's certificate. */
  ghost predicate ShowsAtMost(vc: ViewChange, x: Item) {
    vc.lastStable == 0 && forall c | c in vc.certificates :: Offers(c, 1, PP(x))
  }

  /** Numbers 1 to x's, with nothing in the gaps. */
  function Gapped(view: int, x: Item): seq<PrePrepare>
    requires x.n >= 0
  {
    seq(x.n, i requires 0 <= i < x.n => PrePrepare(view, i + 1, if i + 1 == x.n then x.digest else "nil"))
  }

  lemma OnlyXIsOffered(votes: Votes, x: Item, pp: PrePrepare)
    requires forall k | k in votes :: ShowsAtMost(votes[k], x)
    requires Offered(votes, 0, 1, pp)
    ensures pp == PP(x)
  {
    var k, i :| k in votes && 0 <= i < |votes[k].certificates| && Offers(votes[k].certificates[i], 1, pp);
    assert votes[k].certificates[i] in votes[k].certificates;
  }

  lemma RangeOfOne(votes: Votes, x: Item, k: string)
    requires x.n >= 1 && (forall k | k in votes :: ShowsAtMost(votes[k], x))
    requires k in votes && |votes[k].certificates| == 1
    ensures IsRange(votes, 0, x.n) && !HasNilPrePrepare(votes)
  {
    forall k, i | k in votes && 0 <= i < |votes[k].certificates|
      ensures votes[k].certificates[i].preprepare == Some(PP(x))
    {
      assert votes[k].certificates[i] in votes[k].certificates;
    }
    assert IsStable(votes, 0);
    assert votes[k].certificates[0].preprepare.value.seqNo == x.n;
  }

  /** What a leader makes of such votes, at least one of which shows the certificate. */
  lemma ReissueOfOne(votes: Votes, x: Item, k: string, view: int)
    requires x.n >= 1 && (forall k | k in votes :: ShowsAtMost(votes[k], x))
    requires k in votes && |votes[k].certificates| == 1
    ensures IsReissue(votes, view, 1, Gapped(view, x)) && !HasNilPrePrepare(votes)
  {
    RangeOfOne(votes, x, k);
    var chosen := map[x.n := PP(x)];
    forall pp | Offered(votes, 0, 1, pp) ensures pp == PP(x) {
      OnlyXIsOffered(votes, x, pp);
    }
    assert votes[k].certificates[0] in votes[k].certificates && Offered(votes, 0, 1, PP(x));
    assert Selects(votes, 0, 1, chosen);
    assert Reissues(view, 0, x.n, chosen, Gapped(view, x));
  }

  /** Votes for view 1: that of a shows x's certificate, the others do or say nothing. */
  ghost predicate VotesAreIn(w: World, s: System, a: string, votes: Votes, x: Item) {
    && WereSent(s, votes, 1) && (forall k | k in votes :: ShowsAtMost(votes[k], x))
    && a in votes && |votes[a].certificates| == 1
  }

  lemma ThreeVoters(votes: Votes, a: string, b: string, c: string)
    requires forall k :: k in votes <==> k in [a, b, c]
    ensures votes.Keys == {a, b, c} && forall k | k in votes :: k == a || k == b || k == c
  {
    var qs := [a, b, c];
    assert forall k :: k in qs <==> k == a || k == b || k == c;
  }

  lemma AllWereSent(s: System, nodes: map<string, Replica>, qs: seq<string>, n: int, view: int, votes: Votes)
    requires AllVoted(s, nodes, qs, n, view, votes)
    ensures WereSent(s, votes, view)
    ensures forall k | k in votes ::
              k in nodes && ShowsIt(nodes[k], n, votes[k]) && votes[k].lastStable == StableNumber(nodes[k].store)
  {
  }

  lemma ThreeList(a: string, b: string, c: string, votes: Votes)
    requires |votes| == 3 && votes.Keys == {a, b, c} && forall k | k in votes :: votes[k].replica == k
    ensures ListsVotes([votes[a], votes[b], votes[c]], votes)
  {
  }

  // ---------- Announcing ----------

  /** The message of a leader with these votes, which `proof` lists. */
  function Announcing(view: int, id: string, proof: seq<ViewChange>, x: Item): NewView
    requires x.n >= 0
  {
    NewView(view, proof, Gapped(view, x), id)
  }

  lemma LeaderCanAnnounce(w: World, s: System, votes: Votes, proof: seq<ViewChange>, x: Item, k: string, view: nat,
                          id: string)
    requires w.F() == 1 && |votes| >= 3 && ListsVotes(proof, votes) && WereSent(s, votes, view)
    requires x.n >= 1 && (forall k | k in votes :: ShowsAtMost(votes[k], x))
    requires k in votes && |votes[k].certificates| == 1 && w.At(id).Leader(view) == id
    ensures CanAnnounce(w, s, Announcing(view, id, proof, x))
  {
    ReissueOfOne(votes, x, k, view);
    assert IsAnnouncement(Announcing(view, id, proof, x), votes, view, 1, id);
  }

  lemma CanStillAnnounce(w: World, s: System, s': System, nv: NewView)
    requires CanAnnounce(w, s, nv) && s.sent <= s'.sent
    ensures CanAnnounce(w, s', nv)
  {
    var votes :| WereSent(s, votes, nv.newView) && IsAnnouncement(nv, votes, nv.newView, w.F(), nv.replica);
    assert WereSent(s', votes, nv.newView);
  }

  // ---------- Entering ----------

  /** q has entered the view, and holds y's pre-prepare and its own prepare, which it has sent. */
  ghost predicate HasEntered(w: World, s: System, q: string, y: Item) {
    && HasPrepared(w, s, q, y) && OnlyCollects(s.nodes[q], y.n) && y.n in s.nodes[q].txns
    && s.nodes[q].store.lastStable.None?
  }

  lemma EntersWith(w: World, q: string, r: Replica, nv: NewView, y: Item)
    requires w.F() == 1 && r.view <= nv.newView == y.view && nv.preprepares == [PP(y)]
    requires 1 <= y.n < MAX_INT64 && y.n <= w.window && r.store.lastStable.None?
    ensures HandleNewView(w.At(q), r, nv).Some?
    ensures var o := HandleNewView(w.At(q), r, nv).value;
            && o == Outcome(o.replica, [MsgPrepare(Own(y, q))])
            && Backs(o.replica, w, q, y, {q}) && OnlyCollects(o.replica, y.n) && y.n in o.replica.txns
            && o.replica.store.lastStable.None?
  {
    assert nv.preprepares[..0] == [];
    assert MinNumber(nv.preprepares[..0]) == MAX_INT64 && MinNumber(nv.preprepares) == y.n;
    var r0 := EnterView(r, nv.newView, y.n, nv.replica);
    assert Install(w.At(q), r0, nv.preprepares[..0]) == Quiet(r0);
    InsertCard(map[], Own(y, q));
  }

  lemma Enters(w: World, run: seq<Action>, q: string, nv: NewView, y: Item) returns (run': seq<Action>)
    requires w.F() == 1 && q in After(w, run).nodes && CanAnnounce(w, After(w, run), nv)
    requires After(w, run).nodes[q].view <= nv.newView == y.view && nv.preprepares == [PP(y)]
    requires 1 <= y.n < MAX_INT64 && y.n <= w.window && After(w, run).nodes[q].store.lastStable.None?
    ensures Walks(w, run, run', q) && HasEntered(w, After(w, run'), q, y)
  {
    var r, a := After(w, run).nodes[q], Action(q, OnNewView(nv));
    EntersWith(w, q, r, nv, y);
    ActsAloud(w, run, q, OnNewView(nv), HandleNewView(w.At(q), r, nv).value.replica, MsgPrepare(Own(y, q)));
    if HonestRun(w, run) {
      HonestRunGoesOn(w, run, a);
    }
    run' := run + [a];
  }

  /** All may enter the view of the message. */
  ghost predicate MayEnter(s: System, qs: seq<string>, view: int) {
    forall q | q in qs :: q in s.nodes && s.nodes[q].view <= view && s.nodes[q].store.lastStable.None?
  }

  ghost predicate AllHaveEntered(w: World, s: System, qs: seq<string>, y: Item) {
    forall q | q in qs :: HasEntered(w, s, q, y)
  }

  lemma OneMoreEntered(w: World, s: System, s': System, qs: seq<string>, y: Item)
    requires qs != [] && AllHaveEntered(w, s, Front(qs), y) && OthersStay(s, s', qs) && HasEntered(w, s', Last(qs), y)
    ensures AllHaveEntered(w, s', qs, y)
  {
    SplitLast(qs);
  }

  lemma LastEnters(w: World, run: seq<Action>, run1: seq<Action>, qs: seq<string>, nv: NewView, y: Item)
      returns (run': seq<Action>)
    requires w.F() == 1 && Distinct(After(w, run), qs) && qs != [] && CanAnnounce(w, After(w, run), nv)
    requires MayEnter(After(w, run), qs, nv.newView) && nv.newView == y.view && nv.preprepares == [PP(y)]
    requires 1 <= y.n < MAX_INT64 && y.n <= w.window && TheyWalk(w, run, run1, Front(qs))
    ensures Walks(w, run1, run', Last(qs)) && HasEntered(w, After(w, run'), Last(qs), y)
  {
    LastIsUntouched(w, run, run1, qs);
    CanStillAnnounce(w, After(w, run), After(w, run1), nv);
    run' := Enters(w, run1, Last(qs), nv, y);
  }

  lemma {:induction false} AllEnter(w: World, run: seq<Action>, qs: seq<string>, nv: NewView, y: Item)
      returns (run': seq<Action>)
    requires w.F() == 1 && Distinct(After(w, run), qs) && CanAnnounce(w, After(w, run), nv)
    requires MayEnter(After(w, run), qs, nv.newView) && nv.newView == y.view && nv.preprepares == [PP(y)]
    requires 1 <= y.n < MAX_INT64 && y.n <= w.window
    ensures TheyWalk(w, run, run', qs) && AllHaveEntered(w, After(w, run'), qs, y)
  {
    run' := run;
    if qs != [] {
      OneLess(After(w, run), qs);
      var run1 := AllEnter(w, run, Front(qs), nv, y);
      run' := LastEnters(w, run, run1, qs, nv, y);
      TheOthersStay(w, run, run1, run', qs);
      OneMoreEntered(w, After(w, run1), After(w, run'), qs, y);
    }
  }
}
