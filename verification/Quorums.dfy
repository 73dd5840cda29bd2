/** The fault bound of `pbft/configs/config.go` and `client/config.go`, and what quorums of that size share. */
module Quorums {

  /** `Config.F`; Go's division truncates, so no peers at all gives 0. */
  function MaxFaulty(n: nat): (f: nat)
    ensures n > 0 ==> 3 * f + 1 <= n <= 3 * f + 3
  {
    if n == 0 then 0 else (n - 1) / 3
  }

  lemma SubsetCard<T>(a: set<T>, b: set<T>)
    requires a <= b
    ensures |a| <= |b|
  {
    assert a + (b - a) == b;
  }

  lemma SomeMember(s: set<int>)
    requires s != {}
    ensures exists n :: n in s
  {
    if forall n :: n !in s {}
  }

  lemma {:induction false} MembersCard(ids: seq<string>)
    ensures |set q | q in ids| <= |ids|
  {
    if ids != [] {
      var before, last := ids[..|ids| - 1], ids[|ids| - 1];
      MembersCard(before);
      assert (set q | q in ids) == (set q | q in before) + {last};
    }
  }

  /** Two vote sets of size 2f+1 among 3f+1 replicas have f+1 replicas in common. */
  lemma QuorumsIntersect(all: set<string>, f: nat, a: set<string>, b: set<string>)
    requires |all| <= 3 * f + 1 && a <= all && b <= all
    requires |a| >= 2 * f + 1 && |b| >= 2 * f + 1
    ensures |a * b| >= f + 1
  {
    SubsetCard(a + b, all);
  }

  /** Removing at most f faulty members from 2f+1 leaves f+1. */
  lemma QuorumMinusFaulty(a: set<string>, faulty: set<string>, f: nat)
    requires |a| >= 2 * f + 1 && |faulty| <= f
    ensures |a - faulty| >= f + 1
  {
    SubsetCard(a * faulty, faulty);
    assert a == (a - faulty) + (a * faulty);
  }

  lemma IntervalCard(s: set<int>, lo: int, width: nat)
    requires forall x | x in s :: lo < x <= lo + width
    ensures |s| <= width
  {
    if width == 0 {
      assert forall x :: x !in s;
    } else {
      IntervalCard(s - {lo + width}, lo, width - 1);
      assert s <= (s - {lo + width}) + {lo + width};
      SubsetCard(s, (s - {lo + width}) + {lo + width});
    }
  }
}
