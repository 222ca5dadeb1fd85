/** The attribute table of a parse status: a string-to-string map that
    `withAttribute` updates one key at a time and that the default method
    `withAttributes` of ParseStatusBuilderType fills from a whole map. */
module Attributes {

  type Table = map<string, string>

  /** One (name, value) pair handed to `withAttribute`. */
  type Entry = (string, string)

  /** The table after one `withAttribute(name, value)` call per entry, in
      the order of `entries`. */
  function PutAll(table: Table, entries: seq<Entry>): Table
    decreases |entries|
  {
    if entries == [] then table
    else PutAll(table[entries[0].0 := entries[0].1], entries[1..])
  }

  /** `entries` lists every entry of `m` exactly once, in some order: what
      a loop over `m.entrySet()` visits, whatever order the map iterates in. */
  ghost predicate Enumerates(entries: seq<Entry>, m: Table)
  {
    && (forall i :: 0 <= i < |entries| ==> entries[i].0 in m && m[entries[i].0] == entries[i].1)
    && (forall i, j :: 0 <= i < j < |entries| ==> entries[i].0 != entries[j].0)
    && (forall k :: k in m ==> exists i :: 0 <= i < |entries| && entries[i].0 == k)
  }

  /** One more `withAttribute` call after a sequence of them overwrites just
      its own key: the last write wins. */
  lemma {:induction false} PutAllAppend(table: Table, entries: seq<Entry>, e: Entry)
    ensures PutAll(table, entries + [e]) == PutAll(table, entries)[e.0 := e.1]
    decreases |entries|
  {
    if entries != [] {
      assert (entries + [e])[1..] == entries[1..] + [e];
      PutAllAppend(table[entries[0].0 := entries[0].1], entries[1..], e);
    }
  }

  /** Visiting one more entry of the map, under a key not yet visited, keeps
      the visit an enumeration of the part of the map seen so far. */
  lemma EnumeratesExtend(entries: seq<Entry>, m: Table, k: string, v: string)
    requires Enumerates(entries, m)
    requires k !in m
    ensures Enumerates(entries + [(k, v)], m[k := v])
  {
    var es := entries + [(k, v)];
    forall x | x in m || x == k
      ensures exists i :: 0 <= i < |es| && es[i].0 == x
    {
      if x == k {
        assert es[|entries|].0 == x;
      } else {
        var i :| 0 <= i < |entries| && entries[i].0 == x;
        assert es[i].0 == x;
      }
    }
  }

  /** Calling `withAttribute` once per entry of `m`, in any enumeration
      order, gives the old table overridden by `m`: keys of `m` take the
      value from `m`, every other key keeps its old value. */
  lemma {:induction false} PutAllEnumeration(table: Table, entries: seq<Entry>, m: Table)
    requires Enumerates(entries, m)
    ensures PutAll(table, entries) == table + m
    decreases |entries|
  {
    if entries == [] {
      assert m == map[];
    } else {
      var e := entries[0];
      var rest := entries[1..];
      var m' := m - {e.0};
      forall k | k in m'
        ensures exists i :: 0 <= i < |rest| && rest[i].0 == k
      {
        var i :| 0 <= i < |entries| && entries[i].0 == k;
        assert i != 0;
        assert rest[i - 1].0 == k;
      }
      forall i | 0 <= i < |rest|
        ensures rest[i].0 in m' && m'[rest[i].0] == rest[i].1
      {
        assert entries[i + 1] == rest[i];
        assert entries[0].0 != entries[i + 1].0;
      }
      forall i, j | 0 <= i < j < |rest| ensures rest[i].0 != rest[j].0 {
        assert entries[i + 1] == rest[i] && entries[j + 1] == rest[j];
      }
      assert Enumerates(rest, m');
      PutAllEnumeration(table[e.0 := e.1], rest, m');
      assert table[e.0 := e.1] + m' == table + m;
    }
  }

  /** The table `withAttributes(m)` leaves behind does not depend on the
      order in which the map's entries are visited. */
  lemma {:induction false} PutAllOrderIrrelevant(table: Table, first: seq<Entry>, second: seq<Entry>, m: Table)
    requires Enumerates(first, m) && Enumerates(second, m)
    ensures PutAll(table, first) == PutAll(table, second)
  {
    PutAllEnumeration(table, first, m);
    PutAllEnumeration(table, second, m);
  }
}
