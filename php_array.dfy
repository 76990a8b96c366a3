/** The PHP array operations the checkers rely on: key lookup
    (array_key_exists and `$a[$k]`), keyed assignment (`$a[$k] = $x`),
    appending (`$a[] = $x`), array_keys and range. */
module PhpArray {
  import opened PhpValue

  /** array_keys: the keys in iteration order. */
  function KeySeq(es: seq<Entry>): (ks: seq<Key>)
    ensures |ks| == |es|
    ensures forall i :: 0 <= i < |es| ==> ks[i] == es[i].key
  {
    seq(|es|, i requires 0 <= i < |es| => es[i].key)
  }

  /** array_key_exists($k, $a) */
  predicate HasKey(es: seq<Entry>, k: Key) {
    exists i :: 0 <= i < |es| && es[i].key == k
  }

  /** No element occurs twice. */
  predicate Distinct<T(==)>(s: seq<T>) {
    forall i, j :: 0 <= i < j < |s| ==> s[i] != s[j]
  }

  /** A well-formed PHP array never holds the same key twice. */
  predicate UniqueKeys(es: seq<Entry>) {
    Distinct(KeySeq(es))
  }

  /** `$a[$k]` when array_key_exists($k, $a), None otherwise. */
  function Lookup(es: seq<Entry>, k: Key): (r: Option<Value>)
    ensures r.Some? <==> HasKey(es, k)
  {
    if |es| == 0 then None
    else if es[0].key == k then Some(es[0].val)
    else
      assert forall i :: 1 <= i < |es| ==> es[i] == es[1..][i - 1];
      Lookup(es[1..], k)
  }

  /** In a well-formed array the entry at position j is what its key finds. */
  lemma {:induction false} LookupAt(es: seq<Entry>, j: nat)
    requires j < |es| && UniqueKeys(es)
    ensures Lookup(es, es[j].key) == Some(es[j].val)
  {
    if j > 0 {
      assert es[0].key != es[j].key;
      assert es[1..][j - 1] == es[j];
      LookupAt(es[1..], j - 1);
    }
  }

  /** `$a[$k] = $x`: overwrites the value in place when the key exists,
      appends a new entry otherwise. */
  function ArraySet(es: seq<Entry>, k: Key, x: Value): seq<Entry> {
    if |es| == 0 then [Entry(k, x)]
    else if es[0].key == k then [Entry(k, x)] + es[1..]
    else [es[0]] + ArraySet(es[1..], k, x)
  }

  /** After `$a[$k] = $x`, k holds x and every other key holds what it held. */
  lemma {:induction false} ArraySetLookup(es: seq<Entry>, k: Key, x: Value, k': Key)
    ensures Lookup(ArraySet(es, k, x), k') == if k' == k then Some(x) else Lookup(es, k')
  {
    if |es| > 0 && es[0].key != k {
      var rest := ArraySet(es[1..], k, x);
      assert ([es[0]] + rest)[1..] == rest;
      ArraySetLookup(es[1..], k, x, k');
    }
  }

  /** `$a[$k] = $x` keeps the key order when k exists and appends k at the
      end otherwise. */
  lemma {:induction false} ArraySetKeys(es: seq<Entry>, k: Key, x: Value)
    ensures HasKey(es, k) ==> KeySeq(ArraySet(es, k, x)) == KeySeq(es)
    ensures !HasKey(es, k) ==> ArraySet(es, k, x) == es + [Entry(k, x)]
  {
    if |es| > 0 && es[0].key != k {
      ArraySetKeys(es[1..], k, x);
      assert forall i :: 1 <= i < |es| ==> es[i] == es[1..][i - 1];
      assert es == [es[0]] + es[1..];
    }
  }

  /** `$list[] = $x` repeated from an empty array: the values keyed 0..n-1. */
  function ListOf(xs: seq<Value>): (es: seq<Entry>)
    ensures |es| == |xs|
    ensures forall i :: 0 <= i < |xs| ==> es[i] == Entry(IntKey(i), xs[i])
  {
    seq(|xs|, i requires 0 <= i < |xs| => Entry(IntKey(i), xs[i]))
  }

  /** The values of an array in iteration order. */
  function Values(es: seq<Entry>): (vs: seq<Value>)
    ensures |vs| == |es|
    ensures forall i :: 0 <= i < |es| ==> vs[i] == es[i].val
  {
    seq(|es|, i requires 0 <= i < |es| => es[i].val)
  }

  /** PHP's range($lo, $hi) with step 1: counts up when lo <= hi and DOWN
      otherwise, so range(0, -1) is [0, -1], never the empty list. */
  function Range(lo: int, hi: int): seq<int>
    decreases if lo <= hi then hi - lo else lo - hi
  {
    if lo == hi then [lo]
    else if lo < hi then [lo] + Range(lo + 1, hi)
    else [lo] + Range(lo - 1, hi)
  }

  lemma {:induction false} RangeUp(lo: int, hi: int)
    requires lo <= hi
    ensures |Range(lo, hi)| == hi - lo + 1
    ensures forall i :: 0 <= i < |Range(lo, hi)| ==> Range(lo, hi)[i] == lo + i
    decreases hi - lo
  {
    if lo < hi {
      RangeUp(lo + 1, hi);
    }
  }

  lemma {:induction false} RangeDown(lo: int, hi: int)
    requires hi <= lo
    ensures |Range(lo, hi)| == lo - hi + 1
    ensures forall i :: 0 <= i < |Range(lo, hi)| ==> Range(lo, hi)[i] == lo - i
    decreases lo - hi
  {
    if hi < lo {
      RangeDown(lo - 1, hi);
    }
  }

  /** The ints of a list as array keys (what `===` compares array_keys with). */
  function IntKeys(ns: seq<int>): (ks: seq<Key>)
    ensures |ks| == |ns|
    ensures forall i :: 0 <= i < |ns| ==> ks[i] == IntKey(ns[i])
  {
    seq(|ns|, i requires 0 <= i < |ns| => IntKey(ns[i]))
  }
}
