/**
 The store's on-disk form. `saveDedup` turns every inner `Map` into a plain
 object and writes the object of all chats; start-up reads it back through
 `Object.entries`. The JSON text itself is abstracted to the ordered
 entries that `Object.entries` yields, and a read that fails (no file, or
 content `JSON.parse` rejects) to its own constructor.
 */
module Persistence {
  import opened DedupStore

  /** What start-up finds on disk. */
  datatype Persisted =
    | NoFile
    | Unparsable
    | Parsed(chats: seq<(string, seq<(string, int)>)>)

  /** The keys of the entries. */
  function KeySet<V>(es: seq<(string, V)>): (ks: set<string>)
    ensures forall i :: 0 <= i < |es| ==> es[i].0 in ks
    decreases |es|
  {
    if |es| == 0 then {} else KeySet(es[..|es| - 1]) + {es[|es| - 1].0}
  }

  /** Every key of the entries comes from some entry. */
  lemma {:induction false} KeyIndex<V>(es: seq<(string, V)>, k: string) returns (i: nat)
    requires k in KeySet(es)
    ensures i < |es| && es[i].0 == k
    decreases |es|
  {
    var n := |es| - 1;
    if es[n].0 == k {
      i := n;
    } else {
      i := KeyIndex(es[..n], k);
    }
  }

  lemma KeySetSnoc<V>(es: seq<(string, V)>, e: (string, V))
    ensures KeySet(es + [e]) == KeySet(es) + {e.0}
  {
    assert (es + [e])[..|es|] == es;
  }

  /** No key occurs twice, as in the entries of an object or a `Map`. */
  predicate UniqueKeys<V>(es: seq<(string, V)>) {
    forall i, j :: 0 <= i < j < |es| ==> es[i].0 != es[j].0
  }

  /** No later entry has the key of entry `i`. */
  predicate LastOccurrence<V>(es: seq<(string, V)>, i: int)
    requires 0 <= i < |es|
  {
    forall j :: i < j < |es| ==> es[j].0 != es[i].0
  }

  /** `new Map(entries)`, or a loop of `map.set(k, v)` over the entries: a
      later entry for the same key replaces an earlier one. */
  function FromEntries<V>(es: seq<(string, V)>): (m: map<string, V>)
    ensures m.Keys == KeySet(es)
    decreases |es|
  {
    if |es| == 0 then map[]
    else FromEntries(es[..|es| - 1])[es[|es| - 1].0 := es[|es| - 1].1]
  }

  /** The value of a key is the one of its last entry. */
  lemma {:induction false} FromEntriesLastWins<V>(es: seq<(string, V)>, i: nat)
    requires i < |es| && LastOccurrence(es, i)
    ensures es[i].0 in FromEntries(es) && FromEntries(es)[es[i].0] == es[i].1
    decreases |es|
  {
    var n := |es| - 1;
    if i < n {
      var front := es[..n];
      assert LastOccurrence(front, i) by {
        forall j | i < j < n ensures front[j].0 != front[i].0 {
          assert front[j] == es[j];
        }
      }
      FromEntriesLastWins(front, i);
    }
  }

  /** Entries with distinct keys that agree with `m` on every key of `m`
      rebuild exactly `m`. */
  lemma FromUniqueEntries<V>(es: seq<(string, V)>, m: map<string, V>)
    requires UniqueKeys(es) && KeySet(es) == m.Keys
    requires forall i :: 0 <= i < |es| ==> es[i].0 in m && es[i].1 == m[es[i].0]
    ensures FromEntries(es) == m
  {
    var r := FromEntries(es);
    forall k | k in m
      ensures r[k] == m[k]
    {
      var i := KeyIndex(es, k);
      FromEntriesLastWins(es, i);
    }
  }

  /** The entries of each chat of a parsed file, turned into inner maps. */
  function Inflate(cs: seq<(string, seq<(string, int)>)>): (loaded: seq<(string, Inner)>)
    ensures |loaded| == |cs|
    ensures forall i :: 0 <= i < |cs| ==> loaded[i] == (cs[i].0, FromEntries(cs[i].1))
    ensures KeySet(loaded) == KeySet(cs)
    decreases |cs|
  {
    if |cs| == 0 then []
    else
      var n := |cs| - 1;
      var front := Inflate(cs[..n]);
      KeySetSnoc(front, (cs[n].0, FromEntries(cs[n].1)));
      assert cs == cs[..n] + [cs[n]];
      KeySetSnoc(cs[..n], cs[n]);
      front + [(cs[n].0, FromEntries(cs[n].1))]
  }

  /** The start-up load loop: a missing or unparsable file gives the empty
      store, otherwise every chat's entries become its inner map. */
  function Load(p: Persisted): (s: Store)
    ensures !p.Parsed? ==> s == map[]
    ensures p.Parsed? ==> s.Keys == KeySet(p.chats)
  {
    match p
    case Parsed(cs) => FromEntries(Inflate(cs))
    case _ => map[]
  }

  /** In a loaded store, a chat holds the entries of its last occurrence in
      the file. */
  lemma LoadLastWins(cs: seq<(string, seq<(string, int)>)>, i: nat)
    requires i < |cs| && LastOccurrence(cs, i)
    ensures Load(Parsed(cs))[cs[i].0] == FromEntries(cs[i].1)
  {
    var loaded := Inflate(cs);
    assert LastOccurrence(loaded, i);
    FromEntriesLastWins(loaded, i);
  }

  /** `Object.fromEntries(map)`: the map's entries, each key once, in an order
      this model leaves open. */
  method ToEntries<V>(m: map<string, V>) returns (es: seq<(string, V)>)
    ensures UniqueKeys(es)
    ensures KeySet(es) == m.Keys
    ensures FromEntries(es) == m
  {
    es := [];
    var rest := m.Keys;
    while rest != {}
      invariant rest <= m.Keys
      invariant KeySet(es) == m.Keys - rest
      invariant UniqueKeys(es)
      invariant forall i :: 0 <= i < |es| ==> es[i].0 in m && es[i].1 == m[es[i].0]
      decreases rest
    {
      var k :| k in rest;
      KeySetSnoc(es, (k, m[k]));
      es := es + [(k, m[k])];
      rest := rest - {k};
    }
    FromUniqueEntries(es, m);
  }

  /** `saveDedup`: every chat, including one whose inner map is empty, is
      written with all of its first-seen records, and loading the result
      gives back the same store. */
  method Save(store: Store) returns (doc: seq<(string, seq<(string, int)>)>)
    ensures UniqueKeys(doc)
    ensures forall i :: 0 <= i < |doc| ==> UniqueKeys(doc[i].1)
    ensures Load(Parsed(doc)) == store
  {
    doc := [];
    var rest := store.Keys;
    while rest != {}
      invariant rest <= store.Keys
      invariant KeySet(doc) == store.Keys - rest
      invariant UniqueKeys(doc)
      invariant forall i :: 0 <= i < |doc| ==>
        && doc[i].0 in store
        && UniqueKeys(doc[i].1)
        && FromEntries(doc[i].1) == store[doc[i].0]
      decreases rest
    {
      var c :| c in rest;
      var inner := ToEntries(store[c]);
      KeySetSnoc(doc, (c, inner));
      doc := doc + [(c, inner)];
      rest := rest - {c};
    }
    var loaded := Inflate(doc);
    assert UniqueKeys(loaded);
    FromUniqueEntries(loaded, store);
  }
}
