/** Sequence helpers shared by the stores: the linear lookups that stand for
    `SELECT … WHERE key = ?` on a table held in insertion order. */
module Seqs {
  import opened Wrappers

  /** The first element of `s` satisfying `p`, or `None` if there is none. */
  function FindFirst<T>(s: seq<T>, p: T -> bool): (r: Option<T>)
    ensures r.None? <==> forall i | 0 <= i < |s| :: !p(s[i])
    ensures r.Some? ==> r.value in s && p(r.value)
    ensures r.Some? ==> exists i | 0 <= i < |s| :: s[i] == r.value && forall j | 0 <= j < i :: !p(s[j])
  {
    if s == [] then None
    else if p(s[0]) then Some(s[0])
    else
      var r := FindFirst(s[1..], p);
      assert forall i | 0 < i < |s| :: s[i] == s[1..][i - 1];
      r
  }

  /** Appending an element that fails `p` does not change what `FindFirst` finds. */
  lemma {:induction false} FindFirstAppendMiss<T>(s: seq<T>, x: T, p: T -> bool)
    requires !p(x)
    ensures FindFirst(s + [x], p) == FindFirst(s, p)
  {
    if s != [] {
      assert (s + [x])[1..] == s[1..] + [x];
      FindFirstAppendMiss(s[1..], x, p);
    }
  }

  /** When exactly one element satisfies `p`, `FindFirst` returns it. */
  lemma FindFirstUnique<T>(s: seq<T>, k: nat, p: T -> bool)
    requires k < |s| && p(s[k])
    requires forall i | 0 <= i < |s| && i != k :: !p(s[i])
    ensures FindFirst(s, p) == Some(s[k])
  {
  }
}
