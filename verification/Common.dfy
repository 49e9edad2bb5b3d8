/** Shared value types. */
module Common {

  datatype Option<+T> = None | Some(value: T)

  datatype Result<+T, +E> = Ok(value: T) | Err(error: E)

  /** Seconds since the Unix epoch. Durations are differences of these. */
  type Time = int

  /** Tenants, clients, users, token families and records are identified by UUIDs. */
  type Id = nat

  /** SHA-256: an injective function of the text it hashes. */
  datatype Hash = Sha256(preimage: string)

  /** The rows of `rows` whose key satisfies `keep`: what remains after a SQL DELETE of the others. */
  function Keeping<K(!new), V>(rows: map<K, V>, keep: V -> bool): (kept: map<K, V>)
    ensures forall k :: k in kept <==> k in rows && keep(rows[k])
    ensures forall k :: k in kept ==> kept[k] == rows[k]
  {
    map k | k in rows && keep(rows[k]) :: rows[k]
  }

  predicate Increasing(xs: seq<int>) {
    forall i, j :: 0 <= i < j < |xs| ==> xs[i] < xs[j]
  }

  predicate Within(xs: seq<int>, lo: int, hi: int) {
    forall i :: 0 <= i < |xs| ==> lo <= xs[i] <= hi
  }

  /** A strictly increasing sequence of integers within lo..hi has at most hi - lo + 1 elements. */
  lemma {:induction false} IncreasingFitsRange(xs: seq<int>, lo: int, hi: int)
    requires Increasing(xs) && Within(xs, lo, hi)
    ensures |xs| == 0 || |xs| <= hi - lo + 1
  {
    if |xs| > 1 {
      var last := xs[|xs| - 1];
      var init := xs[..|xs| - 1];
      assert forall i :: 0 <= i < |init| ==> init[i] < last;
      IncreasingFitsRange(init, lo, last - 1);
    }
  }

  lemma {:induction false} SubsetIsSmaller<T>(a: set<T>, b: set<T>)
    requires a <= b
    ensures |a| <= |b|
  {
    if x :| x in a {
      SubsetIsSmaller(a - {x}, b - {x});
    }
  }
}
