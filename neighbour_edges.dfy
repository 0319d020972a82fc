/**
 * The neighbour walk the CSV creators share: genes are visited in list
 * order, and a gene is joined to the gene just before it when both share
 * the grouping key (contig, or organism and chromosome) and both have a
 * start. Each join is written twice, as the 3' edge `previous,current`
 * and as the 5' edge `current,previous`.
 */
module NeighbourEdges {
  import opened Wrappers
  import opened Strings

  /** What the walk looks at in one gene: its id, the key two neighbours must share, and whether its start is set (truthy). */
  datatype Slot<K> = Slot(id: int, key: K, started: bool)

  /** Gene `i` is joined to gene `i - 1`; the first gene never is. */
  predicate Linked<K(==)>(slots: seq<Slot<K>>, i: nat)
    requires i < |slots|
  {
    i > 0 && slots[i - 1].key == slots[i].key && slots[i - 1].started && slots[i].started
  }

  /** The joins among the first `n` genes, as (previous id, current id), in walk order. */
  function Links<K(==)>(slots: seq<Slot<K>>, n: nat): (links: seq<(int, int)>)
    requires n <= |slots|
    ensures |links| <= n
    ensures n > 0 ==> |links| < n
  {
    if n == 0 then []
    else Links(slots, n - 1) + (if Linked(slots, n - 1) then [(slots[n - 2].id, slots[n - 1].id)] else [])
  }

  /** A pair is a join exactly when it is two consecutive genes that share a key and both have a start. */
  lemma {:induction false} LinksMembers<K>(slots: seq<Slot<K>>, n: nat, p: (int, int))
    requires n <= |slots|
    ensures p in Links(slots, n) <==> exists i :: 0 < i < n && Linked(slots, i) && p == (slots[i - 1].id, slots[i].id)
  {
    if n > 0 {
      LinksMembers(slots, n - 1, p);
    }
  }

  /** Ids that rise by one along the list give joins of consecutive ids. */
  lemma {:induction false} LinksConsecutive<K>(slots: seq<Slot<K>>, n: nat, first: int)
    requires n <= |slots|
    requires forall i :: 0 <= i < |slots| ==> slots[i].id == first + i
    ensures forall p :: p in Links(slots, n) ==> p.1 == p.0 + 1 && first < p.1 < first + n
  {
    forall p | p in Links(slots, n) ensures p.1 == p.0 + 1 && first < p.1 < first + n {
      LinksMembers(slots, n, p);
    }
  }

  /** `str(a) + "," + str(b) + "\n"`. */
  function EdgeLine(a: int, b: int): string
  {
    IntToString(a) + "," + IntToString(b) + "\n"
  }

  function ThreePrimeLines(links: seq<(int, int)>): (lines: seq<string>)
    ensures |lines| == |links| && forall i :: 0 <= i < |links| ==> lines[i] == EdgeLine(links[i].0, links[i].1)
  {
    seq(|links|, i requires 0 <= i < |links| => EdgeLine(links[i].0, links[i].1))
  }

  function FivePrimeLines(links: seq<(int, int)>): (lines: seq<string>)
    ensures |lines| == |links| && forall i :: 0 <= i < |links| ==> lines[i] == EdgeLine(links[i].1, links[i].0)
  {
    seq(|links|, i requires 0 <= i < |links| => EdgeLine(links[i].1, links[i].0))
  }

  lemma IntToStringNoComma(i: int)
    ensures ',' !in IntToString(i)
  {
    var d := NatToString(if i < 0 then -i else i);
    assert forall k :: 0 <= k < |d| ==> IsDigit(d[k]);
    if i < 0 {
      assert IntToString(i) == "-" + d;
      assert forall k :: 0 <= k < |"-" + d| ==> ("-" + d)[k] != ',' by {
        forall k | 0 <= k < |"-" + d| ensures ("-" + d)[k] != ',' {
          if k > 0 { assert ("-" + d)[k] == d[k - 1]; }
        }
      }
    }
  }

  /** An edge line determines its two ids. */
  lemma EdgeLineInjective(a: int, b: int, c: int, d: int)
    requires EdgeLine(a, b) == EdgeLine(c, d)
    ensures a == c && b == d
  {
    var s := EdgeLine(a, b);
    var sa, sb, sc, sd := IntToString(a), IntToString(b), IntToString(c), IntToString(d);
    IntToStringNoComma(a);
    IntToStringNoComma(c);
    assert s == sa + ("," + sb + "\n") && s == sc + ("," + sd + "\n");
    assert s[|sa|] == ',' && s[|sc|] == ',';
    assert s[..|sa|] == sa && s[..|sc|] == sc;
    FirstIndexAt(s, ',', |sa|);
    FirstIndexAt(s, ',', |sc|);
    assert s[|sa| + 1..|s| - 1] == sb && s[|sc| + 1..|s| - 1] == sd;
    ParseIntOfIntToString(a);
    ParseIntOfIntToString(b);
    ParseIntOfIntToString(c);
    ParseIntOfIntToString(d);
  }

  /** The 3' file holds `a,b` exactly when the 5' file holds `b,a`. */
  lemma EdgesPaired(links: seq<(int, int)>, a: int, b: int)
    ensures EdgeLine(a, b) in ThreePrimeLines(links) <==> EdgeLine(b, a) in FivePrimeLines(links)
  {
    var three, five := ThreePrimeLines(links), FivePrimeLines(links);
    if EdgeLine(a, b) in three {
      var i :| 0 <= i < |three| && three[i] == EdgeLine(a, b);
      EdgeLineInjective(links[i].0, links[i].1, a, b);
      assert five[i] == EdgeLine(b, a);
    }
    if EdgeLine(b, a) in five {
      var i :| 0 <= i < |five| && five[i] == EdgeLine(b, a);
      EdgeLineInjective(links[i].1, links[i].0, b, a);
      assert three[i] == EdgeLine(a, b);
    }
  }

  /** The 3' file holds `a,b` exactly when gene `b` is joined to the gene `a` just before it. */
  lemma ThreePrimeMembers<K>(slots: seq<Slot<K>>, n: nat, a: int, b: int)
    requires n <= |slots|
    ensures EdgeLine(a, b) in ThreePrimeLines(Links(slots, n)) <==>
            exists i :: 0 < i < n && Linked(slots, i) && a == slots[i - 1].id && b == slots[i].id
  {
    var links := Links(slots, n);
    var three := ThreePrimeLines(links);
    LinksMembers(slots, n, (a, b));
    if EdgeLine(a, b) in three {
      var k :| 0 <= k < |three| && three[k] == EdgeLine(a, b);
      EdgeLineInjective(links[k].0, links[k].1, a, b);
      assert links[k] == (a, b) && (a, b) in links;
    }
    if exists i :: 0 < i < n && Linked(slots, i) && a == slots[i - 1].id && b == slots[i].id {
      var k :| 0 <= k < |links| && links[k] == (a, b);
      assert three[k] == EdgeLine(a, b);
    }
  }

  /** One more gene adds its join, if it has one, at the end. */
  lemma LinksStep<K>(slots: seq<Slot<K>>, i: nat)
    requires i < |slots|
    ensures ThreePrimeLines(Links(slots, i + 1)) ==
            ThreePrimeLines(Links(slots, i)) + (if Linked(slots, i) then [EdgeLine(slots[i - 1].id, slots[i].id)] else [])
    ensures FivePrimeLines(Links(slots, i + 1)) ==
            FivePrimeLines(Links(slots, i)) + (if Linked(slots, i) then [EdgeLine(slots[i].id, slots[i - 1].id)] else [])
  {
  }

  // ---- the walk ----

  /** The first gene whose row cannot be written (`None` in `rows`). */
  function FirstMissing(rows: seq<Option<string>>): (r: Option<nat>)
    ensures r.None? <==> forall i :: 0 <= i < |rows| ==> rows[i].Some?
    ensures r.Some? ==> r.value < |rows| && rows[r.value].None? && forall i :: 0 <= i < r.value ==> rows[i].Some?
  {
    if |rows| == 0 then None
    else if rows[0].None? then Some(0)
    else match FirstMissing(rows[1..])
      case None =>
        assert forall i :: 1 <= i < |rows| ==> rows[i] == rows[1..][i - 1];
        None
      case Some(k) =>
        assert forall i :: 1 <= i <= k + 1 ==> rows[i] == rows[1..][i - 1];
        Some(k + 1)
  }

  /** The rows of the first `n` genes. */
  function Written(rows: seq<Option<string>>, n: nat): (lines: seq<string>)
    requires n <= |rows| && forall i :: 0 <= i < n ==> rows[i].Some?
    ensures |lines| == n && forall i :: 0 <= i < n ==> lines[i] == rows[i].value
  {
    seq(n, i requires 0 <= i < n => rows[i].value)
  }

  /** How many rows the walk writes: all, or those before the first that fails. */
  function RowsReached(rows: seq<Option<string>>): (n: nat)
    ensures n <= |rows|
    ensures forall i :: 0 <= i < n ==> rows[i].Some?
  {
    match FirstMissing(rows)
    case None => |rows|
    case Some(k) => k
  }

  /** How many genes the walk visits: a failing gene's join is written before its row fails. */
  function GenesReached(rows: seq<Option<string>>): (n: nat)
    ensures RowsReached(rows) <= n <= |rows|
    ensures n == |rows| <==> FirstMissing(rows).None? || FirstMissing(rows) == Some(|rows| - 1)
  {
    match FirstMissing(rows)
    case None => |rows|
    case Some(k) => k + 1
  }

  /**
   * The walk over genes in list order: for each gene, its join with the
   * previous gene goes to both edge files, then its row goes to the node
   * file; a row that cannot be written raises TypeError (`ok` false),
   * leaving what was written so far.
   */
  method Walk<K(==)>(slots: seq<Slot<K>>, rows: seq<Option<string>>)
    returns (nodes: seq<string>, three: seq<string>, five: seq<string>, ok: bool)
    requires |slots| == |rows|
    ensures ok <==> FirstMissing(rows).None?
    ensures nodes == Written(rows, RowsReached(rows))
    ensures three == ThreePrimeLines(Links(slots, GenesReached(rows)))
    ensures five == FivePrimeLines(Links(slots, GenesReached(rows)))
  {
    nodes, three, five := [], [], [];
    var prev: Option<Slot<K>> := None;
    for i := 0 to |slots|
      invariant forall j :: 0 <= j < i ==> rows[j].Some?
      invariant prev == if i == 0 then None else Some(slots[i - 1])
      invariant nodes == Written(rows, i)
      invariant three == ThreePrimeLines(Links(slots, i))
      invariant five == FivePrimeLines(Links(slots, i))
    {
      var cur := slots[i];
      LinksStep(slots, i);
      if prev.Some? && prev.value.key == cur.key && prev.value.started && cur.started {
        three := three + [EdgeLine(prev.value.id, cur.id)];
        five := five + [EdgeLine(cur.id, prev.value.id)];
      }
      if rows[i].None? {
        assert FirstMissing(rows) == Some(i);
        ok := false;
        return;
      }
      assert Written(rows, i + 1) == Written(rows, i) + [rows[i].value];
      nodes := nodes + [rows[i].value];
      prev := Some(cur);
    }
    ok := true;
  }
}
