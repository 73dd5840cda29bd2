/**
 * Round-robin leaders (`pbft/leader_election/round_robin.go`): the peers are collected from a map, in any
 * order, and sorted; view v is led by number v modulo their count.
 */
module LeaderElection {
  import opened Messages
  import opened Arithmetic
  import Replicas

  /** Go's order of strings. */
  predicate Less(a: string, b: string) {
    b != "" && (a == "" || a[0] < b[0] || (a[0] == b[0] && Less(a[1..], b[1..])))
  }

  ghost predicate Sorted(ids: seq<string>) {
    forall i, j | 0 <= i < j < |ids| :: Less(ids[i], ids[j])
  }

  /** Go's `%` takes the sign of the dividend. */
  function Remainder(a: int, b: int): int
    requires b > 0
  {
    if a >= 0 then a % b else -(-a % b)
  }

  /** `None` where the source divides by zero or indexes below 0. */
  function LeaderOf(ids: seq<string>, view: int): Option<string> {
    if ids == [] || Remainder(view, |ids|) < 0 then None else Some(ids[Remainder(view, |ids|)])
  }

  class RoundRobin {
    const peerIds: seq<string>

    constructor (peers: set<string>)
      ensures Sorted(peerIds) && forall p :: p in peerIds <==> p in peers
    {
      var ids: seq<string> := [];
      var unseen := peers;
      while unseen != {}
        invariant unseen <= peers
        invariant forall p :: p in ids <==> p in peers && p !in unseen
        invariant forall i, j | 0 <= i < j < |ids| :: ids[i] != ids[j]
      {
        var p :| p in unseen;
        unseen := unseen - {p};
        ids := ids + [p];
      }
      ids := Sort(ids);
      peerIds := ids;
    }

    method GetLeader(view: int) returns (leader: Option<string>)
      ensures leader == LeaderOf(peerIds, view)
    {
      if |peerIds| == 0 {
        return None;
      }
      var i := Remainder(view, |peerIds|);
      leader := if i < 0 then None else Some(peerIds[i]);
    }
  }

  /** `slices.Sort`, here by insertion. */
  method Sort(ids: seq<string>) returns (sorted: seq<string>)
    requires forall i, j | 0 <= i < j < |ids| :: ids[i] != ids[j]
    ensures Sorted(sorted) && forall p :: p in sorted <==> p in ids
  {
    sorted := [];
    for i := 0 to |ids|
      invariant Sorted(sorted) && forall p :: p in sorted <==> p in ids[..i]
    {
      assert ids[..i + 1] == ids[..i] + [ids[i]];
      sorted := Insert(sorted, ids[i]);
    }
    assert ids[..|ids|] == ids;
  }

  method Insert(sorted: seq<string>, id: string) returns (longer: seq<string>)
    requires Sorted(sorted) && id !in sorted
    ensures Sorted(longer) && forall p :: p in longer <==> p in sorted || p == id
  {
    var k := 0;
    while k < |sorted| && Less(sorted[k], id)
      invariant k <= |sorted| && forall i | 0 <= i < k :: Less(sorted[i], id)
    {
      k := k + 1;
    }
    longer := sorted[..k] + [id] + sorted[k..];
    InsertIsSorted(sorted, id, k);
  }

  lemma InsertIsSorted(sorted: seq<string>, id: string, k: nat)
    requires Sorted(sorted) && k <= |sorted| && id !in sorted
    requires forall i | 0 <= i < k :: Less(sorted[i], id)
    requires k < |sorted| ==> !Less(sorted[k], id)
    ensures Sorted(sorted[..k] + [id] + sorted[k..])
  {
    var longer := sorted[..k] + [id] + sorted[k..];
    forall j | k <= j < |sorted| ensures Less(id, sorted[j]) {
      Trichotomy(sorted[k], id);
      if j > k {
        Transitive(id, sorted[k], sorted[j]);
      }
    }
    forall i, j | 0 <= i < j < |longer| ensures Less(longer[i], longer[j]) {
      assert longer[i] == if i < k then sorted[i] else if i == k then id else sorted[i - 1];
      assert longer[j] == if j < k then sorted[j] else if j == k then id else sorted[j - 1];
    }
  }

  lemma {:induction false} Trichotomy(a: string, b: string)
    ensures a != b ==> Less(a, b) || Less(b, a)
    ensures !(Less(a, b) && Less(b, a)) && !Less(a, a)
  {
    if a != "" {
      Trichotomy(a[1..], if b == "" then "" else b[1..]);
      if b != "" && a[0] == b[0] && a[1..] == b[1..] {
        assert a == [a[0]] + a[1..] == b;
      }
    }
  }

  lemma {:induction false} Transitive(a: string, b: string, c: string)
    requires Less(a, b) && Less(b, c)
    ensures Less(a, c)
  {
    if a != "" && a[0] == b[0] && b[0] == c[0] {
      Transitive(a[1..], b[1..], c[1..]);
    }
  }

  /** A strictly sorted list is determined by its members. */
  lemma {:induction false} SortedIsCanonical(ids: seq<string>, ids': seq<string>)
    requires Sorted(ids) && Sorted(ids') && forall p :: p in ids <==> p in ids'
    ensures ids == ids'
  {
    if ids == [] {
      if ids' != [] {
        SomeFirst(ids');
      }
    } else {
      assert ids[0] in ids' && ids'[0] in ids;
      SameFirst(ids, ids');
      forall p ensures p in ids[1..] <==> p in ids'[1..] {
        RestMembers(ids, p);
        RestMembers(ids', p);
      }
      SortedIsCanonical(ids[1..], ids'[1..]);
      assert ids == [ids[0]] + ids[1..] && ids' == [ids'[0]] + ids'[1..];
    }
  }

  lemma SomeFirst(ids: seq<string>)
    requires ids != []
    ensures exists p :: p in ids
  {
    assert ids[0] in ids;
  }

  lemma SameFirst(ids: seq<string>, ids': seq<string>)
    requires Sorted(ids) && Sorted(ids') && ids != [] && ids' != []
    requires ids[0] in ids' && ids'[0] in ids
    ensures ids[0] == ids'[0]
  {
    Trichotomy(ids[0], ids'[0]);
  }

  lemma RestMembers(ids: seq<string>, p: string)
    requires Sorted(ids) && ids != []
    ensures p in ids[1..] <==> p in ids && p != ids[0]
  {
    Trichotomy(ids[0], ids[0]);
  }

  /** Two replicas with the same peers, however their maps are ranged, agree on the leader of every view. */
  lemma SamePeersSameLeader(ids: seq<string>, ids': seq<string>, view: int)
    requires Sorted(ids) && Sorted(ids') && forall p :: p in ids <==> p in ids'
    ensures LeaderOf(ids, view) == LeaderOf(ids', view)
  {
    SortedIsCanonical(ids, ids');
  }

  /** The replicas of the other modules use this leader. */
  lemma ConfiguredLeader(cfg: Replicas.Config, view: nat)
    ensures LeaderOf(cfg.ring, view) == Some(cfg.Leader(view))
  {
  }

  /** So two replicas with the same peers enter every view under the same leader. */
  lemma {:induction false} SameConfiguredLeader(cfg: Replicas.Config, cfg': Replicas.Config, view: nat)
    requires Sorted(cfg.ring) && Sorted(cfg'.ring) && forall p :: p in cfg.ring <==> p in cfg'.ring
    ensures cfg.Leader(view) == cfg'.Leader(view)
  {
    SamePeersSameLeader(cfg.ring, cfg'.ring, view);
    ConfiguredLeader(cfg, view);
    ConfiguredLeader(cfg', view);
  }

  lemma ShiftedRemainder(start: nat, i: nat, n: nat)
    requires i < n
    ensures (start + i) % n == if start % n + i < n then start % n + i else start % n + i - n
  {
    var q, r := start / n, start % n;
    QuotientAndRemainder(start, n);
    if r + i < n {
      DivisionIs(start + i, n, q, r + i);
    } else {
      assert (q + 1) * n == q * n + n;
      DivisionIs(start + i, n, q + 1, r + i - n);
    }
  }

  ghost predicate Leads(ids: seq<string>, view: int, p: string) {
    LeaderOf(ids, view) == Some(p)
  }

  lemma LeadsAt(ids: seq<string>, start: nat, i: nat, k: nat)
    requires Sorted(ids) && i < |ids| && k < |ids|
    ensures Leads(ids, start + i, ids[k])
            <==> k == if start % |ids| + i < |ids| then start % |ids| + i else start % |ids| + i - |ids|
  {
    QuotientAndRemainder(start, |ids|);
    ShiftedRemainder(start, i, |ids|);
    if ids[(start + i) % |ids|] == ids[k] {
      OnlyOnce(ids, (start + i) % |ids|, k);
    }
  }

  /** Among any N consecutive views every replica leads exactly one. */
  lemma EachLeadsOnce(ids: seq<string>, start: nat, p: string) returns (view: nat)
    requires Sorted(ids) && p in ids
    ensures start <= view < start + |ids| && Leads(ids, view, p)
    ensures forall v | start <= v < start + |ids| && Leads(ids, v, p) :: v == view
  {
    var k :| 0 <= k < |ids| && ids[k] == p;
    QuotientAndRemainder(start, |ids|);
    var r := start % |ids|;
    view := if k >= r then start + k - r else start + k - r + |ids|;
    LeadsAt(ids, start, view - start, k);
    forall v | start <= v < start + |ids| && Leads(ids, v, p) ensures v == view {
      LeadsAt(ids, start, v - start, k);
    }
  }

  lemma OnlyOnce(ids: seq<string>, i: nat, j: nat)
    requires Sorted(ids) && i < |ids| && j < |ids| && ids[i] == ids[j]
    ensures i == j
  {
    Trichotomy(ids[i], ids[i]);
  }

  /** There is no leader exactly without peers, or for a negative view that is no multiple of their number. */
  lemma {:induction false} NoLeaderIff(ids: seq<string>, view: int)
    ensures LeaderOf(ids, view).None? <==> ids == [] || (view < 0 && view % |ids| != 0)
  {
    if ids != [] && view < 0 {
      var n := |ids|;
      var q, r := -view / n, -view % n;
      QuotientAndRemainder(-view, n);
      assert -q * n == -(q * n);
      if r == 0 {
        DivisionIs(view, n, -q, 0);
      } else {
        assert (-q - 1) * n == -(q * n) - n;
        DivisionIs(view, n, -q - 1, n - r);
      }
    }
  }
}
