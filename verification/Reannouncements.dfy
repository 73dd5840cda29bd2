/**
 * The leader announces its new view again with every vote that comes after the 2F+1-th (`handleViewChange` in
 * `pbft/view_changer/view_changer.go`), and `handleNewViewRequest` in `pbft/node.go` accepts the view it is in.
 */
module Reannouncements {
  import opened Messages
  import opened StoreModel
  import opened Replicas

  /** Every current collector is fresh: no prepare but the replica's own. */
  ghost predicate OnlyOwnPrepares(cfg: Config, r: Replica) {
    ValidRefs(r) && forall n | n in r.txns :: r.cells[r.txns[n]].votes.prepares.Keys <= {cfg.id}
  }

  lemma {:induction false} InstallsFresh(cfg: Config, r: Replica, pps: seq<PrePrepare>)
    requires r.txns == map[]
    ensures OnlyOwnPrepares(cfg, Install(cfg, r, pps).replica) && r.cells <= Install(cfg, r, pps).replica.cells
    ensures Install(cfg, r, pps).replica.store == r.store
  {
    if pps != [] {
      InstallsFresh(cfg, r, pps[..|pps| - 1]);
    }
  }

  lemma FreshIsNotPrepared(cfg: Config, r: Replica, n: int)
    requires cfg.F() >= 1 && OnlyOwnPrepares(cfg, r)
    ensures !HoldsPrepared(r, cfg.F(), n)
  {
    if n in r.txns {
      var prepares := r.cells[r.txns[n]].votes.prepares;
      assert |prepares| == |prepares.Keys|;
      assert prepares.Keys == {} || prepares.Keys == {cfg.id};
    }
  }

  lemma FirstIsPrepared(r: Replica, f: nat, order: seq<int>, certs: seq<Certificate>)
    requires ValidRefs(r) && IsSnapshotIn(r, f, order, certs) && certs != []
    ensures HoldsPrepared(r, f, order[0])
  {
    assert EntryCertified(r, f, order[0], certs[0]);
  }

  /**
   * Whatever a replica holds when a new view is announced, for the first time or again: its collectors keep their
   * certificates, but a vote it casts before it has taken further prepares carries none.
   */
  lemma {:induction false} AnnouncementEmptiesTheVote(cfg: Config, r: Replica, nv: NewView, newView: int,
                                                      vc: ViewChange)
    requires cfg.F() >= 1 && r.view <= nv.newView && HandleNewView(cfg, r, nv).Some?
    requires IsVote(cfg, HandleTimeout(HandleNewView(cfg, r, nv).value.replica, newView).replica, vc)
    ensures vc.certificates == [] && vc.lastStable == StableNumber(r.store)
    ensures r.cells <= HandleNewView(cfg, r, nv).value.replica.cells
  {
    var r' := HandleTimeout(HandleNewView(cfg, r, nv).value.replica, newView).replica;
    InstallsFresh(cfg, EnterView(r, nv.newView, FirstNumber(nv), nv.replica), nv.preprepares);
    var order :| IsSnapshotIn(r', cfg.F(), order, vc.certificates);
    FreshHasNoCertificates(cfg, r', order, vc.certificates);
  }

  lemma FreshHasNoCertificates(cfg: Config, r: Replica, order: seq<int>, certs: seq<Certificate>)
    requires cfg.F() >= 1 && OnlyOwnPrepares(cfg, r) && IsSnapshotIn(r, cfg.F(), order, certs)
    ensures certs == []
  {
    if certs != [] {
      FirstIsPrepared(r, cfg.F(), order, certs);
      FreshIsNotPrepared(cfg, r, order[0]);
    }
  }
}
