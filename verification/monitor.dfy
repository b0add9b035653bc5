/**
 * The result monitor (`MonitorResultado`): a map from term to count, seeded with the
 * trimmed target words at 0, grown by `merge(termo, qtd, Integer::sum)` for every map
 * message, and rendered as one row per key plus a grand total.
 */
module Monitor {
  import opened JavaText
  import opened Messages
  import Sums

  type Counts = map<string, int>

  /** The constructor: every initial word, trimmed, becomes a key with count 0. */
  function Seed(words: seq<string>): (m: Counts)
    ensures m.Keys == set k | 0 <= k < |words| :: Trim(words[k])
    ensures forall key :: key in m ==> m[key] == 0
    decreases |words|
  {
    if |words| == 0 then map[]
    else
      var prefix := words[..|words| - 1];
      SeedKeysStep(words, prefix);
      Seed(prefix)[Trim(words[|words| - 1]) := 0]
  }

  lemma SeedKeysStep(words: seq<string>, prefix: seq<string>)
    requires |words| > 0 && prefix == words[..|words| - 1]
    ensures (set k | 0 <= k < |words| :: Trim(words[k]))
      == (set k | 0 <= k < |prefix| :: Trim(prefix[k])) + {Trim(words[|words| - 1])}
  {
    assert forall k :: 0 <= k < |prefix| ==> prefix[k] == words[k];
  }

  /** `merge(t, q, Integer::sum)`: adds q to the count of t, inserting t with q if absent.
      The key is used exactly as received; every other key keeps its count. */
  function Merge(m: Counts, t: string, q: int): (r: Counts)
    ensures r.Keys == m.Keys + {t}
    ensures r[t] == (if t in m then m[t] + q else q)
    ensures forall key :: key in m && key != t ==> r[key] == m[key]
  {
    m[t := if t in m then m[t] + q else q]
  }

  /** The count of a term, 0 when it is not a key. */
  function Get(m: Counts, t: string): int {
    if t in m then m[t] else 0
  }

  /** Merging a sequence of events, in the order they are delivered. */
  function Fold(m: Counts, es: seq<Event>): Counts
    decreases |es|
  {
    if |es| == 0 then m else Fold(Merge(m, es[0].term, es[0].occurrences), es[1..])
  }

  /** The listener: a map message is merged into its own term, any other message leaves
      the map alone; either way the grand total grows by exactly what was merged. */
  function Receive(m: Counts, msg: Message): (r: Counts)
    ensures !msg.MapMessage? ==> r == m
    ensures msg.MapMessage? ==> r.Keys == m.Keys + {msg.event.term}
    ensures msg.MapMessage? ==> var e := msg.event;
      r[e.term] == (if e.term in m then m[e.term] + e.occurrences else e.occurrences)
    ensures msg.MapMessage? ==> forall key :: key in m && key != msg.event.term ==> r[key] == m[key]
    ensures MapSum(r) == MapSum(m) + (if msg.MapMessage? then msg.event.occurrences else 0)
  {
    match msg
    case MapMessage(e) => MergeTotal(m, e.term, e.occurrences); Merge(m, e.term, e.occurrences)
    case _ => m
  }

  // ---------------------------------------------------------------------------
  // The grand total: the sum of all counts, whatever order the keys are visited in.

  ghost function Pick(keys: set<string>): string
    requires keys != {}
  {
    var k :| k in keys; k
  }

  ghost function SumOver(m: Counts, keys: set<string>): int
    requires keys <= m.Keys
    decreases keys
  {
    if keys == {} then 0 else var k := Pick(keys); m[k] + SumOver(m, keys - {k})
  }

  ghost function MapSum(m: Counts): int {
    SumOver(m, m.Keys)
  }

  lemma {:induction false} SumOverRemove(m: Counts, keys: set<string>, k: string)
    requires keys <= m.Keys && k in keys
    ensures SumOver(m, keys) == m[k] + SumOver(m, keys - {k})
    decreases keys
  {
    var p := Pick(keys);
    if p != k {
      SumOverRemove(m, keys - {p}, k);
      SumOverRemove(m, keys - {k}, p);
      assert keys - {p} - {k} == keys - {k} - {p};
    }
  }

  lemma {:induction false} SumOverFrame(m1: Counts, m2: Counts, keys: set<string>)
    requires keys <= m1.Keys && keys <= m2.Keys
    requires forall k :: k in keys ==> m1[k] == m2[k]
    ensures SumOver(m1, keys) == SumOver(m2, keys)
    decreases keys
  {
    if keys != {} {
      SumOverFrame(m1, m2, keys - {Pick(keys)});
    }
  }

  /** A merge adds exactly its quantity to the grand total. */
  lemma MergeTotal(m: Counts, t: string, q: int)
    ensures MapSum(Merge(m, t, q)) == MapSum(m) + q
  {
    var r := Merge(m, t, q);
    if t in m {
      assert r.Keys == m.Keys;
      SumOverRemove(r, r.Keys, t);
      SumOverRemove(m, m.Keys, t);
      SumOverFrame(m, r, m.Keys - {t});
    } else {
      assert r.Keys - {t} == m.Keys;
      SumOverRemove(r, r.Keys, t);
      SumOverFrame(m, r, m.Keys);
    }
  }

  /** After a sequence of events, the grand total has grown by their total quantity. */
  lemma {:induction false} FoldTotal(m: Counts, es: seq<Event>)
    ensures MapSum(Fold(m, es)) == MapSum(m) + OccurrenceTotal(es)
    decreases |es|
  {
    if |es| > 0 {
      MergeTotal(m, es[0].term, es[0].occurrences);
      FoldTotal(Merge(m, es[0].term, es[0].occurrences), es[1..]);
    }
  }

  lemma {:induction false} SeedTotal(words: seq<string>)
    ensures MapSum(Seed(words)) == 0
  {
    var m := Seed(words);
    var z: Counts := map k | k in m.Keys :: 0;
    assert m == z;
    ZeroSum(z, z.Keys);
  }

  lemma {:induction false} ZeroSum(m: Counts, keys: set<string>)
    requires keys <= m.Keys && forall k :: k in m ==> m[k] == 0
    ensures SumOver(m, keys) == 0
    decreases keys
  {
    if keys != {} {
      ZeroSum(m, keys - {Pick(keys)});
    }
  }

  /** From a fresh seed, n unit events give a grand total of n. */
  lemma UnitEventsTotal(words: seq<string>, es: seq<Event>)
    requires AllUnit(es)
    ensures MapSum(Fold(Seed(words), es)) == |es|
  {
    SeedTotal(words);
    FoldTotal(Seed(words), es);
    UnitTotalIsLength(es);
  }

  // ---------------------------------------------------------------------------
  // Contents of the final map and independence from delivery order.

  /** After merging a sequence, a term is a key iff it was one or some event carried it,
      and its count is its initial count plus the quantities of its events. */
  lemma {:induction false} FoldContents(m: Counts, es: seq<Event>, t: string)
    ensures t in Fold(m, es) <==> t in m || exists k :: 0 <= k < |es| && es[k].term == t
    ensures Get(Fold(m, es), t) == Get(m, t) + TermTotal(es, t)
    decreases |es|
  {
    if |es| > 0 {
      var m' := Merge(m, es[0].term, es[0].occurrences);
      FoldContents(m', es[1..], t);
      if t in m' && t !in m {
        assert es[0].term == t;
      }
      if exists k :: 0 <= k < |es[1..]| && es[1..][k].term == t {
        var k :| 0 <= k < |es[1..]| && es[1..][k].term == t;
        assert es[k + 1].term == t;
      }
      if exists k :: 0 <= k < |es| && es[k].term == t {
        var k :| 0 <= k < |es| && es[k].term == t;
        if k > 0 {
          assert es[1..][k - 1].term == t;
        }
      }
    }
  }

  /** Two merges in either order give the same map. */
  lemma MergeCommutes(m: Counts, a: Event, b: Event)
    ensures Merge(Merge(m, a.term, a.occurrences), b.term, b.occurrences)
         == Merge(Merge(m, b.term, b.occurrences), a.term, a.occurrences)
  {
  }

  lemma {:induction false} FoldConcat(m: Counts, a: seq<Event>, b: seq<Event>)
    ensures Fold(m, a + b) == Fold(Fold(m, a), b)
    decreases |a|
  {
    if |a| == 0 {
      assert a + b == b;
    } else {
      assert (a + b)[1..] == a[1..] + b;
      FoldConcat(Merge(m, a[0].term, a[0].occurrences), a[1..], b);
    }
  }

  /** An event can be merged first instead of after a prefix. */
  lemma {:induction false} FoldHoist(m: Counts, prefix: seq<Event>, e: Event)
    ensures Fold(m, prefix + [e]) == Fold(Merge(m, e.term, e.occurrences), prefix)
    decreases |prefix|
  {
    if |prefix| == 0 {
      assert prefix + [e] == [e];
    } else {
      var x := prefix[0];
      assert (prefix + [e])[1..] == prefix[1..] + [e];
      FoldHoist(Merge(m, x.term, x.occurrences), prefix[1..], e);
      MergeCommutes(m, x, e);
    }
  }

  /** Delivering an event from the middle of a sequence first gives the same map. */
  lemma FoldRemoveAt(m: Counts, b: seq<Event>, i: nat)
    requires i < |b|
    ensures Fold(m, b) == Fold(Merge(m, b[i].term, b[i].occurrences), b[..i] + b[i + 1..])
  {
    var e := b[i];
    var m' := Merge(m, e.term, e.occurrences);
    assert b == (b[..i] + [e]) + b[i + 1..];
    FoldConcat(m, b[..i] + [e], b[i + 1..]);
    FoldHoist(m, b[..i], e);
    FoldConcat(m', b[..i], b[i + 1..]);
  }

  /** The final map depends only on the multiset of delivered events: every delivery
      order of the same events gives the same counts. */
  lemma {:induction false} FoldPermutation(m: Counts, a: seq<Event>, b: seq<Event>)
    requires multiset(a) == multiset(b)
    ensures Fold(m, a) == Fold(m, b)
    decreases |a|
  {
    if |a| == 0 {
      assert |b| == |multiset(b)| == 0;
    } else {
      var e := a[0];
      var i := Sums.MatchFirst(a, b);
      FoldPermutation(Merge(m, e.term, e.occurrences), a[1..], b[..i] + b[i + 1..]);
      FoldRemoveAt(m, b, i);
    }
  }

  // ---------------------------------------------------------------------------
  // The statistics text written by `atualizarTela`.

  datatype StatsLine = Header | Row(term: string, count: int) | Divider | TotalLine(total: int)

  /** Sum of the counts along an enumeration of keys. */
  function SumInOrder(m: Counts, order: seq<string>): int
    requires forall k :: 0 <= k < |order| ==> order[k] in m
    decreases |order|
  {
    if |order| == 0 then 0 else m[order[0]] + SumInOrder(m, order[1..])
  }

  /** Summing along any duplicate-free enumeration gives the grand total of those keys. */
  lemma {:induction false} SumInOrderIsSumOver(m: Counts, order: seq<string>)
    requires forall k :: 0 <= k < |order| ==> order[k] in m
    requires forall i, j :: 0 <= i < j < |order| ==> order[i] != order[j]
    ensures SumInOrder(m, order) == SumOver(m, set k | 0 <= k < |order| :: order[k])
    decreases |order|
  {
    var keys := set k | 0 <= k < |order| :: order[k];
    if |order| > 0 {
      var tail := order[1..];
      var tailKeys := set k | 0 <= k < |tail| :: tail[k];
      SumInOrderIsSumOver(m, tail);
      assert tailKeys == keys - {order[0]} by {
        forall x | x in keys - {order[0]} ensures x in tailKeys {
          var k :| 0 <= k < |order| && order[k] == x;
          assert tail[k - 1] == x;
        }
      }
      SumOverRemove(m, keys, order[0]);
    }
  }

  /** One row per key, in the given order, each with the key's count. */
  function Rows(m: Counts, order: seq<string>): (rows: seq<StatsLine>)
    requires forall k :: 0 <= k < |order| ==> order[k] in m
    ensures |rows| == |order|
    ensures forall i :: 0 <= i < |order| ==> rows[i] == Row(order[i], m[order[i]])
  {
    seq(|order|, i requires 0 <= i < |order| => Row(order[i], m[order[i]]))
  }

  lemma RowsCover(m: Counts, order: seq<string>)
    requires forall k :: 0 <= k < |order| ==> order[k] in m
    ensures forall key :: key in order ==> Row(key, m[key]) in Rows(m, order)
  {
    forall key | key in order ensures Row(key, m[key]) in Rows(m, order) {
      var i :| 0 <= i < |order| && order[i] == key;
      assert Rows(m, order)[i] == Row(key, m[key]);
    }
  }

  lemma SnapshotTotal(m: Counts, order: seq<string>)
    requires forall i, j :: 0 <= i < j < |order| ==> order[i] != order[j]
    requires forall key :: key in m <==> key in order
    ensures forall k :: 0 <= k < |order| ==> order[k] in m
    ensures SumInOrder(m, order) == MapSum(m)
  {
    assert m.Keys == set k | 0 <= k < |order| :: order[k];
    SumInOrderIsSumOver(m, order);
  }

  /** The snapshot: a header, one row per key in the map's iteration order, a divider
      and the grand total. Each key appears in exactly one row, with its count, and the
      total is the sum of all counts. */
  function Snapshot(m: Counts, order: seq<string>): (lines: seq<StatsLine>)
    requires forall i, j :: 0 <= i < j < |order| ==> order[i] != order[j]
    requires forall key :: key in m <==> key in order
    ensures |lines| == |order| + 3
    ensures lines[0] == Header && lines[|lines| - 2] == Divider
    ensures lines[|lines| - 1] == TotalLine(MapSum(m))
    ensures forall i :: 1 <= i < |lines| - 2 ==>
      lines[i].Row? && lines[i].term in m && lines[i].count == m[lines[i].term]
    ensures forall key :: key in m ==> Row(key, m[key]) in lines
    ensures forall i, j :: 1 <= i < j < |lines| - 2 ==> lines[i].term != lines[j].term
  {
    SnapshotTotal(m, order);
    RowsCover(m, order);
    var rows := Rows(m, order);
    var lines := [Header] + rows + [Divider, TotalLine(SumInOrder(m, order))];
    assert forall i :: 1 <= i <= |order| ==> lines[i] == rows[i - 1];
    lines
  }
}
