/**
 * BTreeMap<&str, &str>, the type of every localized `names` table in the
 * geoip2 records: an association list whose keys are strictly ascending
 * in Rust's order on `str`.
 */
module NameTable {
  import opened Wrappers

  /**
   * Rust's `Ord` for `str`: lexicographic on UTF-8 bytes, which is the
   * same as lexicographic on code points; a proper prefix is smaller.
   */
  predicate Less(a: string, b: string)
    decreases |a|
  {
    if a == [] then b != []
    else if b == [] then false
    else if a[0] != b[0] then a[0] < b[0]
    else Less(a[1..], b[1..])
  }

  lemma {:induction false} LessIrreflexive(a: string)
    ensures !Less(a, a)
    decreases |a|
  {
    if a != [] {
      LessIrreflexive(a[1..]);
    }
  }

  lemma {:induction false} LessTransitive(a: string, b: string, c: string)
    requires Less(a, b) && Less(b, c)
    ensures Less(a, c)
    decreases |a|
  {
    if a != [] && b != [] && c != [] && a[0] == b[0] && b[0] == c[0] {
      LessTransitive(a[1..], b[1..], c[1..]);
    }
  }

  lemma {:induction false} LessTotal(a: string, b: string)
    ensures a == b || Less(a, b) || Less(b, a)
    decreases |a|
  {
    if a != [] && b != [] && a[0] == b[0] {
      LessTotal(a[1..], b[1..]);
      if a[1..] == b[1..] {
        assert a == [a[0]] + a[1..] && b == [b[0]] + b[1..];
      }
    }
  }

  /** The keys of a BTreeMap appear once each, in ascending order. */
  predicate Ascending(m: seq<(string, string)>) {
    forall i, j :: 0 <= i < j < |m| ==> Less(m[i].0, m[j].0)
  }

  type Names = m: seq<(string, string)> | Ascending(m) witness []

  /** Keys of a Names table are pairwise distinct. */
  lemma KeysDistinct(m: Names, i: int, j: int)
    requires 0 <= i < |m| && 0 <= j < |m| && i != j
    ensures m[i].0 != m[j].0
  {
    if i < j {
      if m[i].0 == m[j].0 { LessIrreflexive(m[i].0); }
    } else {
      if m[i].0 == m[j].0 { LessIrreflexive(m[j].0); }
    }
  }

  /** BTreeMap::get. */
  function Get(m: seq<(string, string)>, key: string): (r: Option<string>)
    ensures r.Some? ==> (key, r.value) in m
    ensures r.None? ==> forall i :: 0 <= i < |m| ==> m[i].0 != key
  {
    if m == [] then None
    else if m[0].0 == key then Some(m[0].1)
    else Get(m[1..], key)
  }

  /** In a Names table, `get` finds exactly the value stored under the key. */
  lemma {:induction false} GetFinds(m: Names, key: string, v: string)
    ensures Get(m, key) == Some(v) <==> (key, v) in m
  {
    if (key, v) in m {
      var j :| 0 <= j < |m| && m[j] == (key, v);
      var r := Get(m, key);
      assert m[j].0 == key;
      var i :| 0 <= i < |m| && m[i] == (key, r.value);
      if i != j { KeysDistinct(m, i, j); }
    }
  }

  /**
   * The first entry in iteration order (`into_iter().next()`) holds the
   * smallest key of the table.
   */
  lemma FirstIsSmallest(m: Names)
    requires m != []
    ensures forall i :: 0 < i < |m| ==> Less(m[0].0, m[i].0)
  {
  }
}
