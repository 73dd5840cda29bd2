/** What a correct replica puts into its view-change vote, and what the receiver's test makes of it. */
module Certificates {
  import opened Messages
  import opened VoteCollector
  import opened TransactionStates
  import opened Replicas
  import opened Systems
  import opened PreparedQuorum
  import opened ViewChangeRules

  lemma BackersAreSupporters(w: World, sent: set<Message>, cell: Cell, cert: Certificate)
    requires CellOk(w, sent, cell) && Certifies(cert, cell.votes) && cell.votes.preprepare.Some?
    ensures var pp := cell.votes.preprepare.value;
            Backers(cert.prepares, pp) == Supporters(cell.votes.prepares, pp.digest)
  {
    var pp, prepares := cell.votes.preprepare.value, cell.votes.prepares;
    forall k | k in Backers(cert.prepares, pp) ensures k in Supporters(prepares, pp.digest) {
      var v :| v in cert.prepares && v.digest == pp.digest && v.replica == k;
      var k' :| k' in prepares && prepares[k'] == v;
    }
    forall k | k in Supporters(prepares, pp.digest) ensures k in Backers(cert.prepares, pp) {
      assert prepares[k] in cert.prepares;
    }
  }

  lemma CertificateOfCell(w: World, sent: set<Message>, cell: Cell, cert: Certificate)
    requires CellOk(w, sent, cell) && Certifies(cert, cell.votes) && cert.preprepare.Some?
    requires IsPrepared(cell.votes, w.F())
    ensures var pp := cert.preprepare.value;
            && pp.seqNo == cell.seqNo
            && (ValidCertificate(cert.prepares, pp, w.F())
                <==> |Supporters(cell.votes.prepares, pp.digest)| >= 2 * w.F())
            && (pp.digest != "" ==> ValidCertificate(cert.prepares, pp, w.F()))
  {
    BackersAreSupporters(w, sent, cell, cert);
    if cert.preprepare.value.digest != "" {
      assert Supporters(cell.votes.prepares, cert.preprepare.value.digest) == cell.votes.prepares.Keys;
    }
  }

  lemma EntryCell(r: Replica, f: nat, n: int, cert: Certificate) returns (ref: nat)
    requires ValidRefs(r) && EntryCertified(r, f, n, cert)
    ensures ref < |r.cells| && IsPrepared(r.cells[ref].votes, f) && Certifies(cert, r.cells[ref].votes)
  {
    ref := r.txns[n];
  }

  lemma SnapshotCell(r: Replica, f: nat, certs: seq<Certificate>, cert: Certificate) returns (ref: nat)
    requires ValidRefs(r) && IsSnapshot(r, f, certs) && cert in certs
    ensures ref < |r.cells| && IsPrepared(r.cells[ref].votes, f) && Certifies(cert, r.cells[ref].votes)
  {
    var order :| IsSnapshotIn(r, f, order, certs);
    var i :| 0 <= i < |certs| && certs[i] == cert;
    ref := EntryCell(r, f, order[i], cert);
  }

  /**
   * In any run of the system, the certificate of an entry passes the receiver's test exactly when 2F of the
   * held prepares carry the digest of the held pre-prepare; for a non-empty digest, all of them do.
   */
  lemma {:induction false} HonestCertificateAcceptedIff(w: World, run: seq<Action>, q: string, ref: nat,
                                                        cert: Certificate)
    requires q in After(w, run).nodes && ref < |After(w, run).nodes[q].cells|
    requires var votes := After(w, run).nodes[q].cells[ref].votes; IsPrepared(votes, w.F()) && Certifies(cert, votes)
    requires cert.preprepare.Some?
    ensures var pp, cell := cert.preprepare.value, After(w, run).nodes[q].cells[ref];
            && pp.seqNo == cell.seqNo
            && (ValidCertificate(cert.prepares, pp, w.F())
                <==> |Supporters(cell.votes.prepares, pp.digest)| >= 2 * w.F())
            && (pp.digest != "" ==> ValidCertificate(cert.prepares, pp, w.F()))
  {
    CellIsOk(w, run, q, ref);
    CertificateOfCell(w, After(w, run).sent, After(w, run).nodes[q].cells[ref], cert);
  }

  /**
   * So whatever order the maps are ranged in, a correct replica's vote carries no certificate with a digest
   * that fails.
   */
  lemma {:induction false} HonestVoteIsAccepted(w: World, run: seq<Action>, q: string, vc: ViewChange)
    requires q in After(w, run).nodes && IsVote(w.At(q), After(w, run).nodes[q], vc)
    ensures forall cert | cert in vc.certificates && cert.preprepare.Some? && cert.preprepare.value.digest != "" ::
              ValidCertificate(cert.prepares, cert.preprepare.value, w.F())
  {
    var r := After(w, run).nodes[q];
    forall cert | cert in vc.certificates && cert.preprepare.Some? && cert.preprepare.value.digest != ""
      ensures ValidCertificate(cert.prepares, cert.preprepare.value, w.F())
    {
      var ref := SnapshotCell(r, w.F(), vc.certificates, cert);
      HonestCertificateAcceptedIff(w, run, q, ref, cert);
    }
  }

  /** A prepared entry whose pre-prepare has not arrived. */
  ghost predicate PreparedBlindly(r: Replica, f: nat, n: int)
    requires ValidRefs(r)
  {
    HoldsPrepared(r, f, n) && r.cells[r.txns[n]].votes.preprepare.None?
  }

  lemma BlindEntryIsListed(r: Replica, f: nat, order: seq<int>, certs: seq<Certificate>, n: int) returns (i: nat)
    requires ValidRefs(r) && IsSnapshotIn(r, f, order, certs) && PreparedBlindly(r, f, n)
    ensures i < |certs| && certs[i].preprepare.None?
  {
    i :| i < |order| && order[i] == n;
    assert EntryCertified(r, f, order[i], certs[i]);
  }

  lemma NilComesFromBlindEntry(r: Replica, f: nat, n: int, cert: Certificate)
    requires ValidRefs(r) && EntryCertified(r, f, n, cert)
    ensures cert.preprepare.None? <==> PreparedBlindly(r, f, n)
  {
  }

  /** The vote carries a certificate without a pre-prepare. */
  ghost predicate CarriesNil(vc: ViewChange) {
    exists i :: 0 <= i < |vc.certificates| && vc.certificates[i].preprepare.None?
  }

  /** A vote makes the new leader dereference nil exactly when its sender has such an entry. */
  lemma {:induction false} VoteCrashesLeaderIff(cfg: Config, r: Replica, vc: ViewChange)
    requires IsVote(cfg, r, vc)
    ensures CarriesNil(vc) <==> exists n :: PreparedBlindly(r, cfg.F(), n)
  {
    var order :| IsSnapshotIn(r, cfg.F(), order, vc.certificates);
    if n :| PreparedBlindly(r, cfg.F(), n) {
      var i := BlindEntryIsListed(r, cfg.F(), order, vc.certificates, n);
      assert vc.certificates[i].preprepare.None?;
    } else {
      forall i | 0 <= i < |vc.certificates| ensures vc.certificates[i].preprepare.Some? {
        NilComesFromBlindEntry(r, cfg.F(), order[i], vc.certificates[i]);
      }
    }
  }

  lemma CellIsOk(w: World, run: seq<Action>, q: string, ref: nat)
    requires q in After(w, run).nodes && ref < |After(w, run).nodes[q].cells|
    ensures CellOk(w, After(w, run).sent, After(w, run).nodes[q].cells[ref])
  {
    RunsAreOk(w, run);
    var s := After(w, run);
    assert NodeOk(w, s.sent, q, Held(w, run), s.nodes[q]);
  }
}
