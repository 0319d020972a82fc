/**
 * What the query managers of both servers share: a Python dict filled one
 * record at a time (kept as its items, in insertion order, which is the
 * order `dict.items()` hands them back), a list extended record by record,
 * the normalisation every search term goes through, and the distinct,
 * ordered values a listing query returns.
 */
module QueryCommon {
  import opened Wrappers
  import opened Strings
  import opened Seqs
  import opened Sorting

  /** The keys of a dict, in insertion order. */
  function Keys<V>(items: seq<(string, V)>): (keys: seq<string>)
    ensures |keys| == |items|
    ensures forall i :: 0 <= i < |items| ==> keys[i] == items[i].0
  {
    seq(|items|, i requires 0 <= i < |items| => items[i].0)
  }

  /** Where key `k` sits, if the dict holds it. */
  function Position<V>(items: seq<(string, V)>, k: string): (r: Option<nat>)
    ensures r.Some? ==> r.value < |items| && items[r.value].0 == k
    ensures r.None? <==> forall i :: 0 <= i < |items| ==> items[i].0 != k
  {
    if |items| == 0 then None
    else if items[|items| - 1].0 == k then Some(|items| - 1)
    else Position(items[..|items| - 1], k)
  }

  /** `d[k] = v`: a key already present keeps its place and gets the new value, a new key goes last. */
  function Put<V>(items: seq<(string, V)>, k: string, v: V): (r: seq<(string, V)>)
    ensures Keys(r) == if k in Keys(items) then Keys(items) else Keys(items) + [k]
    ensures (k, v) in r
    ensures forall p :: p in r ==> p == (k, v) || p in items
    ensures forall p :: p in items && p.0 != k ==> p in r
  {
    match Position(items, k)
    case Some(i) =>
      var r := items[i := (k, v)];
      assert Keys(r) == Keys(items);
      assert forall p :: p in r ==> p == (k, v) || p in items by {
        forall p | p in r ensures p == (k, v) || p in items {
          var j :| 0 <= j < |r| && r[j] == p;
          if j != i {
            assert items[j] == p;
          }
        }
      }
      r
    case None =>
      assert k !in Keys(items);
      var r := items + [(k, v)];
      assert Keys(r) == Keys(items) + [k];
      r
  }

  /** The dict a loop `d[key(record)] = value(record)` leaves, from an empty dict. */
  function Nodes<V>(items: seq<(string, V)>): seq<(string, V)>
  {
    if |items| == 0 then []
    else
      var last := items[|items| - 1];
      Put(Nodes(items[..|items| - 1]), last.0, last.1)
  }

  /** The dict holds each key once, in the order the keys first came. */
  lemma {:induction false} NodesKeys<V>(items: seq<(string, V)>)
    ensures Keys(Nodes(items)) == Distinct(Keys(items))
    ensures NoRepeats(Keys(Nodes(items)))
  {
    if |items| > 0 {
      var front := items[..|items| - 1];
      var last := items[|items| - 1];
      NodesKeys(front);
      var keys := Keys(items);
      assert keys[..|keys| - 1] == Keys(front);
      assert keys[|keys| - 1] == last.0;
      assert Nodes(items) == Put(Nodes(front), last.0, last.1);
    }
  }

  /** Every entry of the dict is one of the records' (key, value) pairs. */
  lemma {:induction false} NodesFrom<V>(items: seq<(string, V)>)
    ensures forall p :: p in Nodes(items) ==> p in items
  {
    if |items| > 0 {
      var front := items[..|items| - 1];
      var last := items[|items| - 1];
      NodesFrom(front);
      PrefixMembers(items, |items| - 1);
      assert Nodes(items) == Put(Nodes(front), last.0, last.1);
    }
  }

  /** The record that last set a key is the entry the dict keeps for it. */
  lemma {:induction false} NodesLast<V>(items: seq<(string, V)>, i: nat)
    requires i < |items|
    requires forall j :: i < j < |items| ==> items[j].0 != items[i].0
    ensures items[i] in Nodes(items)
  {
    var front := items[..|items| - 1];
    if i < |items| - 1 {
      NodesLast(front, i);
      assert front[i] == items[i];
    }
  }

  /** The list a loop `l.append(...)` per record leaves, from an empty list. */
  function Flatten<E(!new)>(lists: seq<seq<E>>): (r: seq<E>)
    ensures forall x :: x in r <==> exists k :: 0 <= k < |lists| && x in lists[k]
  {
    if |lists| == 0 then []
    else
      var front := lists[..|lists| - 1];
      var r := Flatten(front) + lists[|lists| - 1];
      assert forall k :: 0 <= k < |front| ==> lists[k] == front[k];
      r
  }

  /** One more record: the dict of a prefix one record longer. */
  lemma NodesStep<V>(items: seq<(string, V)>, i: nat)
    requires i < |items|
    ensures Nodes(items[..i + 1]) == Put(Nodes(items[..i]), items[i].0, items[i].1)
  {
    assert items[..i + 1][..i] == items[..i];
  }

  /** One more record: the list of a prefix one record longer. */
  lemma FlattenStep<E(!new)>(lists: seq<seq<E>>, i: nat)
    requires i < |lists|
    ensures Flatten(lists[..i + 1]) == Flatten(lists[..i]) + lists[i]
  {
    assert lists[..i + 1][..i] == lists[..i];
  }

  /**
   * One pass over a query's records: each record sets one dict entry and
   * appends its relations (none, one or two) to a list.
   */
  method Collect<V, E(!new)>(items: seq<(string, V)>, links: seq<seq<E>>) returns (nodes: seq<(string, V)>, edges: seq<E>)
    requires |items| == |links|
    ensures nodes == Nodes(items) && edges == Flatten(links)
  {
    nodes, edges := [], [];
    for i := 0 to |items|
      invariant nodes == Nodes(items[..i]) && edges == Flatten(links[..i])
    {
      assert items[..i + 1][..i] == items[..i];
      assert links[..i + 1][..i] == links[..i];
      nodes := Put(nodes, items[i].0, items[i].1);
      edges := edges + links[i];
    }
    assert items[..|items|] == items;
    assert links[..|links|] == links;
  }

  /**
   * A search term as the server reads it: stripped, a tab (an escaped
   * underscore) turned back into `_`, every `?` (the marker of missing data
   * in the project database) dropped, and the wildcard `*` made empty.
   */
  function NormaliseTerm(term: string): (r: string)
    ensures '\t' !in r && '?' !in r
    ensures r != "*"
    ensures |r| <= |term|
  {
    var cleaned := RemoveChar(ReplaceChar(Strip(term), '\t', '_'), '?');
    if cleaned == "*" then "" else cleaned
  }

  /** A term with nothing to strip, no tab, no `?` and not the wildcard reaches the query unchanged. */
  lemma NormaliseCleanTerm(term: string)
    requires |term| == 0 || (!IsWhitespace(term[0]) && !IsWhitespace(term[|term| - 1]))
    requires '\t' !in term && '?' !in term && term != "*"
    ensures NormaliseTerm(term) == term
  {
    if |term| > 0 {
      StripLeftKeeps(term);
      StripRightKeeps(term);
    }
    assert ReplaceChar(term, '\t', '_') == term;
  }

  /** A wildcard, padded or not, asks for nothing. */
  lemma NormaliseWildcard(term: string)
    requires Strip(term) == "*"
    ensures NormaliseTerm(term) == ""
  {
    assert ReplaceChar("*", '\t', '_') == "*";
    assert RemoveChar("*", '?') == "*";
  }

  /** `RETURN DISTINCT ... ORDER BY ...`: each value once, in code-point order. */
  function Distinctly(values: seq<string>): (r: seq<string>)
    ensures forall v :: v in r <==> v in values
    ensures NoRepeats(r)
    ensures SortedBy(r, StrLeq)
  {
    var d := Distinct(values);
    var r := SortBy(d, StrLeq);
    StrLeqTotalPreorder();
    SortBySorted(d, StrLeq);
    NoRepeatsPermutation(d, r);
    assert forall v :: v in r <==> v in multiset(d);
    r
  }
}
