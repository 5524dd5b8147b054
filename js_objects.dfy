/**
 * JavaScript objects as the code builds them. An object literal or an
 * `Object.entries(...)` list is a sequence of key/value entries in insertion
 * order; `entries.reduce((o, [k, v]) => ({...o, [k]: v}), {})` is `Assign`.
 */
module JsObjects {
  import opened Wrappers

  type Entries<V> = seq<(string, V)>

  /** A JavaScript object never holds the same key twice. */
  predicate DistinctKeys<V>(e: Entries<V>)
  {
    forall i, j :: 0 <= i < j < |e| ==> e[i].0 != e[j].0
  }

  /** The values of the entries are pairwise distinct (an injective mapping). */
  predicate DistinctValues(e: Entries<string>)
  {
    forall i, j :: 0 <= i < j < |e| ==> e[i].1 != e[j].1
  }

  function KeySet<V>(e: Entries<V>): set<string>
  {
    set i | 0 <= i < |e| :: e[i].0
  }

  function ValueSet(e: Entries<string>): set<string>
  {
    set i | 0 <= i < |e| :: e[i].1
  }

  /** Spreading entries one by one into an object, front to back: a later key overwrites an earlier one. */
  function Assign<V>(e: Entries<V>): map<string, V>
    decreases |e|
  {
    if e == [] then map[] else Assign(e[..|e| - 1])[e[|e| - 1].0 := e[|e| - 1].1]
  }

  /** The object has exactly the keys of the entries. */
  lemma {:induction false} AssignKeys<V>(e: Entries<V>)
    ensures Assign(e).Keys == KeySet(e)
    decreases |e|
  {
    if e != [] {
      var p := e[..|e| - 1];
      AssignKeys(p);
      assert KeySet(e) == KeySet(p) + {e[|e| - 1].0} by {
        forall k | k in KeySet(e) ensures k in KeySet(p) + {e[|e| - 1].0} {
          var i :| 0 <= i < |e| && e[i].0 == k;
          if i < |e| - 1 { assert p[i] == e[i]; }
        }
        forall k | k in KeySet(p) ensures k in KeySet(e) {
          var i :| 0 <= i < |p| && p[i].0 == k;
          assert e[i] == p[i];
        }
      }
    }
  }

  /** The value stored under a key is that of the key's last entry. */
  lemma {:induction false} AssignLastWins<V>(e: Entries<V>, i: nat)
    requires i < |e|
    requires forall j :: i < j < |e| ==> e[j].0 != e[i].0
    ensures e[i].0 in Assign(e) && Assign(e)[e[i].0] == e[i].1
    decreases |e|
  {
    if i < |e| - 1 {
      var p := e[..|e| - 1];
      assert p[i] == e[i];
      AssignLastWins(p, i);
    }
  }

  /** Every value of the object comes from an entry with that key. */
  lemma {:induction false} AssignValueFromEntry<V>(e: Entries<V>, k: string)
    requires k in Assign(e)
    ensures exists i :: 0 <= i < |e| && e[i].0 == k && e[i].1 == Assign(e)[k]
    decreases |e|
  {
    var last := |e| - 1;
    if e[last].0 != k {
      var p := e[..last];
      AssignValueFromEntry(p, k);
      var i :| 0 <= i < |p| && p[i].0 == k && p[i].1 == Assign(p)[k];
      assert e[i] == p[i];
    }
  }

  /** With distinct keys, every entry is stored under its own key. */
  lemma AssignDistinct<V>(e: Entries<V>)
    requires DistinctKeys(e)
    ensures Assign(e).Keys == KeySet(e)
    ensures forall i :: 0 <= i < |e| ==> Assign(e)[e[i].0] == e[i].1
  {
    AssignKeys(e);
    forall i | 0 <= i < |e| ensures Assign(e)[e[i].0] == e[i].1 {
      AssignLastWins(e, i);
    }
  }

  /** `object[key]` on the object the entries describe; `None` is `undefined`. */
  function Get<V>(e: Entries<V>, k: string): Option<V>
  {
    var m := Assign(e);
    if k in m then Some(m[k]) else None
  }

  function Swapped(e: Entries<string>): (r: Entries<string>)
    ensures |r| == |e|
    ensures forall i :: 0 <= i < |e| ==> r[i] == (e[i].1, e[i].0)
  {
    seq(|e|, i requires 0 <= i < |e| => (e[i].1, e[i].0))
  }

  /** lodash `invert`: keys become values and values keys; on a repeated value the later key wins. */
  function Invert(e: Entries<string>): map<string, string>
  {
    Assign(Swapped(e))
  }

  /** The inverted object's keys are exactly the values of the original. */
  lemma InvertKeys(e: Entries<string>)
    ensures Invert(e).Keys == ValueSet(e)
  {
    AssignKeys(Swapped(e));
    assert KeySet(Swapped(e)) == ValueSet(e) by {
      forall v | v in ValueSet(e) ensures v in KeySet(Swapped(e)) {
        var i :| 0 <= i < |e| && e[i].1 == v;
        assert Swapped(e)[i].0 == v;
      }
    }
  }

  /** For an injective mapping, inverting maps each value back to its own key. */
  lemma InvertInjective(e: Entries<string>, i: nat)
    requires DistinctValues(e) && i < |e|
    ensures e[i].1 in Invert(e) && Invert(e)[e[i].1] == e[i].0
  {
    AssignLastWins(Swapped(e), i);
  }

  /** For an injective object, the inverse is injective too: two values map back to the same key only if they are equal. */
  lemma InvertIsInjective(e: Entries<string>, v: string, w: string)
    requires DistinctKeys(e)
    requires v in Invert(e) && w in Invert(e) && Invert(e)[v] == Invert(e)[w]
    ensures v == w
  {
    AssignValueFromEntry(Swapped(e), v);
    AssignValueFromEntry(Swapped(e), w);
    var i :| 0 <= i < |e| && Swapped(e)[i].0 == v && Swapped(e)[i].1 == Invert(e)[v];
    var j :| 0 <= j < |e| && Swapped(e)[j].0 == w && Swapped(e)[j].1 == Invert(e)[w];
    assert e[i].0 == e[j].0;
  }
}
