/**
  Python dict literals. `{k1: v1, k2: v2, **other, ...}` builds a dictionary
  from its entries in order, a later entry with the same key replacing an
  earlier one. The field tables and their flat copies are such literals.
 */
module Dicts {
  import opened Values

  type Entries<V> = seq<(string, V)>

  /** The keys an entry list mentions. */
  function KeysOf<V>(entries: Entries<V>): set<string> {
    set i | 0 <= i < |entries| :: entries[i].0
  }

  /** No entry after position `i` uses the key of entry `i`. */
  predicate LastFor<V>(entries: Entries<V>, i: int)
    requires 0 <= i < |entries|
  {
    forall j :: i < j < |entries| ==> entries[j].0 != entries[i].0
  }

  /** No key is listed twice. */
  predicate UniqueKeys<V>(entries: Entries<V>) {
    forall i, j :: 0 <= i < j < |entries| ==> entries[i].0 != entries[j].0
  }

  /** No string is listed twice. */
  predicate Distinct(s: seq<string>) {
    forall i, j :: 0 <= i < j < |s| ==> s[i] != s[j]
  }

  /** A set holding exactly the elements of a list without repeats has the list's length. */
  lemma {:induction false} DistinctCard(s: seq<string>, ks: set<string>)
    requires Distinct(s)
    requires forall k :: k in ks <==> k in s
    ensures |ks| == |s|
    decreases |s|
  {
    if s != [] {
      var n := |s| - 1;
      var rest := ks - {s[n]};
      assert forall k :: k in rest <==> k in s[..n] by {
        forall k ensures k in rest <==> k in s[..n] {
          if k in s[..n] {
            var i :| 0 <= i < n && s[..n][i] == k;
            assert s[i] == k;
          }
        }
      }
      DistinctCard(s[..n], rest);
    }
  }

  /** `d.get(k)`, keeping "missing" apart from every stored value. */
  function Lookup<V>(d: map<string, V>, k: string): Option<V> {
    if k in d then Some(d[k]) else None
  }

  /** The dictionary a literal with these entries evaluates to. */
  function Literal<V>(entries: Entries<V>): (d: map<string, V>)
    ensures d.Keys == KeysOf(entries)
    ensures forall i :: 0 <= i < |entries| && LastFor(entries, i) ==> d[entries[i].0] == entries[i].1
    decreases |entries|
  {
    if entries == [] then map[]
    else
      var n := |entries| - 1;
      var prefix := entries[..n];
      assert forall i :: 0 <= i < n ==> prefix[i] == entries[i];
      assert KeysOf(entries) == KeysOf(prefix) + {entries[n].0};
      assert forall i :: 0 <= i < n && LastFor(entries, i) ==> LastFor(prefix, i);
      Literal(prefix)[entries[n].0 := entries[n].1]
  }

  /** With distinct keys every entry is found as written, and there are as many keys as entries. */
  lemma {:induction false} UniqueLiteral<V>(entries: Entries<V>)
    requires UniqueKeys(entries)
    ensures forall i :: 0 <= i < |entries| ==> Literal(entries)[entries[i].0] == entries[i].1
    ensures |Literal(entries)| == |entries|
    decreases |entries|
  {
    if entries != [] {
      var n := |entries| - 1;
      var prefix := entries[..n];
      assert UniqueKeys(prefix);
      UniqueLiteral(prefix);
      assert entries[n].0 !in Literal(prefix);
      assert Literal(entries).Keys == Literal(prefix).Keys + {entries[n].0};
    }
  }
}
