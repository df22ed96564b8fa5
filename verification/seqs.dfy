/** Small facts about sequences used by the queues of the scheduler. */
module Seqs {

  /** No element occurs twice. */
  predicate NoDup<T(==)>(s: seq<T>) {
    forall i, j :: 0 <= i < j < |s| ==> s[i] != s[j]
  }

  /** Every element is strictly smaller than the ones after it. */
  predicate StrictlyAscending(s: seq<int>) {
    forall i, j :: 0 <= i < j < |s| ==> s[i] < s[j]
  }

  /** The sequence without its element at index `k`; everything else keeps its order. */
  function RemoveAt<T>(s: seq<T>, k: nat): (r: seq<T>)
    requires k < |s|
    ensures |r| == |s| - 1
    ensures multiset(r) + multiset{s[k]} == multiset(s)
    ensures forall j :: 0 <= j < k ==> r[j] == s[j]
    ensures forall j :: k <= j < |r| ==> r[j] == s[j + 1]
  {
    assert s == s[..k] + [s[k]] + s[k+1..];
    s[..k] + s[k+1..]
  }

  /** In a sequence without duplicates every value occurs at most once. */
  lemma {:induction false} NoDupCount<T>(s: seq<T>, x: T)
    requires NoDup(s)
    ensures multiset(s)[x] <= 1
  {
    if |s| > 0 {
      var t := s[1..];
      assert s == [s[0]] + t;
      assert NoDup(t) by {
        forall i, j | 0 <= i < j < |t| ensures t[i] != t[j] {
          assert t[i] == s[i + 1] && t[j] == s[j + 1];
        }
      }
      NoDupCount(t, x);
      if s[0] == x {
        assert x !in t by {
          forall j | 0 <= j < |t| ensures t[j] != x {
            assert t[j] == s[j + 1];
          }
        }
      }
    }
  }

  /** A prefix of a prefix is a prefix. */
  lemma PrefixTrans<T>(a: seq<T>, b: seq<T>, c: seq<T>)
    requires |a| <= |b| && b[..|a|] == a
    requires |b| <= |c| && c[..|b|] == b
    ensures c[..|a|] == a
  {
    assert c[..|a|] == c[..|b|][..|a|];
  }

  /** The tail of a strictly ascending sequence lies strictly above its head:
      a value is removed from the front at most once. */
  lemma TailAboveHead(s: seq<int>)
    requires StrictlyAscending(s) && |s| > 0
    ensures StrictlyAscending(s[1..])
    ensures forall j :: 0 <= j < |s[1..]| ==> s[0] < s[1..][j]
    ensures s[0] !in s[1..]
  {
  }
}
