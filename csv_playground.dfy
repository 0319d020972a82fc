/**
 * The CSV playground script: the import files of a whole database in one
 * run. The genes of all annotation files are walked with ids 1, 2, 3, ...
 * into the gene node and 3'/5' neighbour files; every protein of the
 * protein tables gets the next protein id, a node row and a coding edge to
 * its gene; and every MCL cluster of each cluster file becomes all ordered
 * pairs of its proteins, with the file's clustering sensitivity.
 *
 * Files are the lists of lines written to them. The gene list, the
 * protein tables (one per annotation file) and the lines of each cluster
 * file are inputs; each cluster file comes with the text of its
 * sensitivity as `str` prints it.
 */
module CsvPlayground {
  import opened Wrappers
  import opened Strings
  import opened Seqs
  import opened NeighbourEdges
  import GeneNodeCsv
  import AnnotationParser
  import ClusterParser

  type Gene = AnnotationParser.Gene
  type GeneKey = GeneNodeCsv.GeneKey

  /** A protein of a protein table: its name, its description and the fields of the gene that codes for it. */
  datatype Protein = Protein(name: string, desc: string, gene: Gene)

  const ProteinHeader := "proteinId:ID(Protein),name,description\n"
  const CodingHeader := ":START_ID(Gene),:END_ID(Protein)\n"
  const HomologHeader := ":START_ID(Protein),sensitivity,:END_ID(Protein)\n"

  // ---- genes ----

  /** The gene-to-id dictionary the gene walk leaves: genes are numbered from 1. */
  function GeneIds(geneList: seq<Gene>): map<GeneKey, int>
  {
    GeneNodeCsv.IdDict(map[], GeneNodeCsv.Keys(geneList), 0)
  }

  /**
   * The gene files: their headers, then the walk with ids from 1 and
   * joining always asked for. The walk is the gene node creator's.
   */
  method WriteGenes(geneList: seq<Gene>) returns (nodes: seq<string>, three: seq<string>, five: seq<string>, geneIds: map<GeneKey, int>)
    ensures nodes == [GeneNodeCsv.NodeHeader] + GeneNodeCsv.Rows(geneList, 0)
    ensures three == [GeneNodeCsv.EdgeHeader] + ThreePrimeLines(Links(GeneNodeCsv.Slots(geneList, 0, true), |geneList|))
    ensures five == [GeneNodeCsv.EdgeHeader] + FivePrimeLines(Links(GeneNodeCsv.Slots(geneList, 0, true), |geneList|))
    ensures geneIds == GeneIds(geneList)
  {
    nodes := [GeneNodeCsv.NodeHeader];
    three := [GeneNodeCsv.EdgeHeader];
    five := [GeneNodeCsv.EdgeHeader];
    var rows, threeRows, fiveRows, dict, lastId :=
      GeneNodeCsv.WalkGenes(GeneNodeCsv.Slots(geneList, 0, true), GeneNodeCsv.Rows(geneList, 0), GeneNodeCsv.Keys(geneList), 0, map[]);
    nodes := nodes + rows;
    three := three + threeRows;
    five := five + fiveRows;
    geneIds := dict;
  }

  /**
   * Gene `i` of the list has id `i + 1`, and the 3' file joins `i` to
   * `i + 1` exactly when the two genes share organism and chromosome and
   * both have a start.
   */
  lemma GeneJoinsFromOne(geneList: seq<Gene>, a: int, b: int)
    ensures EdgeLine(a, b) in ThreePrimeLines(Links(GeneNodeCsv.Slots(geneList, 0, true), |geneList|)) <==>
            0 < a < |geneList| && b == a + 1 &&
            geneList[a - 1].organism == geneList[a].organism && geneList[a - 1].chromosome == geneList[a].chromosome &&
            |geneList[a - 1].start| > 0 && |geneList[a].start| > 0
  {
    GeneNodeCsv.GeneJoins(geneList, 0, true, a, b);
    if 0 < a < |geneList| && b == a + 1 {
      assert GeneNodeCsv.GenesJoined(geneList, true, a) <==>
             geneList[a - 1].organism == geneList[a].organism && geneList[a - 1].chromosome == geneList[a].chromosome &&
             |geneList[a - 1].start| > 0 && |geneList[a].start| > 0;
    }
  }

  // ---- proteins ----

  /** `str(prot_id) + "," + name + "," + description + "\n"`. */
  function ProteinRow(id: int, p: Protein): string
  {
    IntToString(id) + "," + p.name + "," + p.desc + "\n"
  }

  /** The first protein whose gene is not in the gene dictionary (KeyError), if any. */
  function FirstUnknown(prots: seq<Protein>, geneIds: map<GeneKey, int>): (r: Option<nat>)
    ensures r.None? <==> forall i :: 0 <= i < |prots| ==> GeneNodeCsv.Key(prots[i].gene) in geneIds
    ensures r.Some? ==> r.value < |prots| && GeneNodeCsv.Key(prots[r.value].gene) !in geneIds &&
                        forall i :: 0 <= i < r.value ==> GeneNodeCsv.Key(prots[i].gene) in geneIds
  {
    if |prots| == 0 then None
    else if GeneNodeCsv.Key(prots[0].gene) !in geneIds then Some(0)
    else
      var r := FirstUnknown(prots[1..], geneIds);
      assert forall i :: 1 <= i < |prots| ==> prots[i] == prots[1..][i - 1];
      if r.None? then None else Some(r.value + 1)
  }

  /** How many proteins the loop numbers: all, or up to and including the first with an unknown gene. */
  function Numbered(prots: seq<Protein>, geneIds: map<GeneKey, int>): (n: nat)
    ensures n <= |prots|
  {
    var k := FirstUnknown(prots, geneIds);
    if k.None? then |prots| else k.value + 1
  }

  /** How many coding rows the loop writes: the proteins before the first unknown gene. */
  function Coded(prots: seq<Protein>, geneIds: map<GeneKey, int>): (n: nat)
    ensures n <= |prots| && forall i :: 0 <= i < n ==> GeneNodeCsv.Key(prots[i].gene) in geneIds
  {
    var k := FirstUnknown(prots, geneIds);
    if k.None? then |prots| else k.value
  }

  /** The protein node rows, numbering from 1. */
  function NodeRows(prots: seq<Protein>): (rows: seq<string>)
    ensures |rows| == |prots|
  {
    seq(|prots|, i requires 0 <= i < |prots| => ProteinRow(i + 1, prots[i]))
  }

  /** The coding rows `gene id,protein id`, numbering proteins from 1. */
  function CodingRows(prots: seq<Protein>, geneIds: map<GeneKey, int>): (rows: seq<string>)
    requires forall i :: 0 <= i < |prots| ==> GeneNodeCsv.Key(prots[i].gene) in geneIds
    ensures |rows| == |prots|
  {
    seq(|prots|, i requires 0 <= i < |prots| => EdgeLine(geneIds[GeneNodeCsv.Key(prots[i].gene)], i + 1))
  }

  /** The name-to-id dictionary after numbering `prots` from 1, later names overwriting. */
  function NameIds(prots: seq<Protein>): map<string, int>
    decreases |prots|
  {
    if |prots| == 0 then map[]
    else NameIds(prots[..|prots| - 1])[prots[|prots| - 1].name := |prots|]
  }

  /** The dictionary's keys in insertion order: a name keeps the place of its first occurrence. */
  function NameOrder(prots: seq<Protein>): seq<string>
    decreases |prots|
  {
    if |prots| == 0 then []
    else
      var front := NameOrder(prots[..|prots| - 1]);
      if prots[|prots| - 1].name in front then front else front + [prots[|prots| - 1].name]
  }

  /**
   * What the protein loop has written and recorded: the protein node and
   * coding rows, the name-to-id dictionary with its keys in insertion
   * order, and the last protein id given out.
   */
  datatype Proteins = Proteins(nodes: seq<string>, coding: seq<string>, ids: map<string, int>, order: seq<string>, count: int)

  /**
   * The loop over `prots`: every protein up to the first with an unknown
   * gene takes the next id, has its name recorded and its node row
   * written; a coding row follows for each of them but that last one.
   */
  function Outcome(prots: seq<Protein>, geneIds: map<GeneKey, int>): Proteins
  {
    var n := Numbered(prots, geneIds);
    Proteins(NodeRows(prots[..n]), CodingRows(prots[..Coded(prots, geneIds)], geneIds), NameIds(prots[..n]), NameOrder(prots[..n]), n)
  }

  /** One more protein after proteins whose genes are all known. */
  lemma OutcomeStep(prots: seq<Protein>, p: Protein, geneIds: map<GeneKey, int>)
    requires FirstUnknown(prots, geneIds).None?
    ensures FirstUnknown(prots + [p], geneIds).None? <==> GeneNodeCsv.Key(p.gene) in geneIds
    ensures var s := Outcome(prots, geneIds);
            var id := |prots| + 1;
            Outcome(prots + [p], geneIds) ==
              Proteins(s.nodes + [ProteinRow(id, p)],
                       if GeneNodeCsv.Key(p.gene) in geneIds then s.coding + [EdgeLine(geneIds[GeneNodeCsv.Key(p.gene)], id)] else s.coding,
                       s.ids[p.name := id], if p.name in s.ids then s.order else s.order + [p.name], id)
  {
    var all := prots + [p];
    assert all[..|all|] == all && prots[..|prots|] == prots;
    assert all[..|all| - 1] == prots && all[|all| - 1] == p;
    assert forall i :: 0 <= i < |prots| ==> all[i] == prots[i];
    var known := GeneNodeCsv.Key(p.gene) in geneIds;
    if known {
      assert FirstUnknown(all, geneIds).None?;
    } else {
      assert FirstUnknown(all, geneIds) == Some(|prots|);
    }
    assert Numbered(all, geneIds) == |all|;
    NameOrderKeys(prots);
    assert NameIds(all) == NameIds(prots)[p.name := |all|];
    assert NameOrder(all) == if p.name in NameIds(prots) then NameOrder(prots) else NameOrder(prots) + [p.name];
    NodeRowsAppend(prots, p);
    if known {
      CodingRowsAppend(prots, p, geneIds);
    }
  }

  lemma NodeRowsAppend(prots: seq<Protein>, p: Protein)
    ensures NodeRows(prots + [p]) == NodeRows(prots) + [ProteinRow(|prots| + 1, p)]
  {
    var all := prots + [p];
    assert forall i :: 0 <= i < |prots| ==> all[i] == prots[i];
  }

  lemma CodingRowsAppend(prots: seq<Protein>, p: Protein, geneIds: map<GeneKey, int>)
    requires forall i :: 0 <= i < |prots| ==> GeneNodeCsv.Key(prots[i].gene) in geneIds
    requires GeneNodeCsv.Key(p.gene) in geneIds
    ensures forall i :: 0 <= i < |prots + [p]| ==> GeneNodeCsv.Key((prots + [p])[i].gene) in geneIds
    ensures CodingRows(prots + [p], geneIds) == CodingRows(prots, geneIds) + [EdgeLine(geneIds[GeneNodeCsv.Key(p.gene)], |prots| + 1)]
  {
    var all := prots + [p];
    assert forall i :: 0 <= i < |prots| ==> all[i] == prots[i];
    var rows := CodingRows(all, geneIds);
    var front := CodingRows(prots, geneIds);
    assert forall i :: 0 <= i < |prots| ==> rows[i] == front[i];
  }

  /** After a protein with an unknown gene, further proteins change nothing. */
  lemma OutcomeStops(prots: seq<Protein>, more: seq<Protein>, geneIds: map<GeneKey, int>)
    requires FirstUnknown(prots, geneIds).Some?
    ensures FirstUnknown(prots + more, geneIds) == FirstUnknown(prots, geneIds)
    ensures Outcome(prots + more, geneIds) == Outcome(prots, geneIds)
  {
    var k := FirstUnknown(prots, geneIds).value;
    var all := prots + more;
    assert all[k] == prots[k];
    assert forall i :: 0 <= i < k ==> all[i] == prots[i];
    assert FirstUnknown(all, geneIds).value == k;
    assert all[..k + 1] == prots[..k + 1] && all[..k] == prots[..k];
  }

  /** The dictionary's keys in insertion order list each numbered name once. */
  lemma {:induction false} NameOrderKeys(prots: seq<Protein>)
    ensures NoRepeats(NameOrder(prots))
    ensures forall name :: name in NameOrder(prots) <==> name in NameIds(prots)
    decreases |prots|
  {
    if |prots| > 0 {
      NameOrderKeys(prots[..|prots| - 1]);
    }
  }

  /** A name is a key exactly when some protein has it. */
  lemma {:induction false} NameIdsKeys(prots: seq<Protein>, name: string)
    ensures name in NameIds(prots) <==> exists i :: 0 <= i < |prots| && prots[i].name == name
    decreases |prots|
  {
    if |prots| > 0 {
      var front := prots[..|prots| - 1];
      NameIdsKeys(front, name);
      assert forall i :: 0 <= i < |front| ==> front[i] == prots[i];
    }
  }

  /** A name's id is that of its last occurrence. */
  lemma {:induction false} NameIdsLast(prots: seq<Protein>, i: nat)
    requires i < |prots| && forall j :: i < j < |prots| ==> prots[j].name != prots[i].name
    ensures prots[i].name in NameIds(prots) && NameIds(prots)[prots[i].name] == i + 1
    decreases |prots|
  {
    if i < |prots| - 1 {
      var front := prots[..|prots| - 1];
      assert front[i] == prots[i];
      assert forall j :: i < j < |front| ==> front[j] == prots[j];
      NameIdsLast(front, i);
    }
  }

  /** The proteins of all tables, one table after the other. */
  function Concat(tables: seq<seq<Protein>>): seq<Protein>
  {
    if |tables| == 0 then [] else Concat(tables[..|tables| - 1]) + tables[|tables| - 1]
  }

  lemma {:induction false} ConcatAppend(a: seq<seq<Protein>>, b: seq<seq<Protein>>)
    ensures Concat(a + b) == Concat(a) + Concat(b)
    decreases |b|
  {
    if |b| == 0 {
      assert a + b == a;
    } else {
      assert (a + b)[..|a + b| - 1] == a + b[..|b| - 1];
      ConcatAppend(a, b[..|b| - 1]);
    }
  }

  lemma AppendNext<T>(a: seq<T>, b: seq<T>, j: nat)
    requires j < |b|
    ensures a + b[..j + 1] == (a + b[..j]) + [b[j]]
  {
    assert b[..j + 1] == b[..j] + [b[j]];
  }

  lemma AppendRest<T>(a: seq<T>, b: seq<T>, j: nat)
    requires j <= |b|
    ensures (a + b[..j]) + b[j..] == a + b
  {
    assert b[..j] + b[j..] == b;
  }

  /**
   * One pass of the protein loop: number the protein, record its name,
   * write its node row, then look its gene up and write the coding edge.
   * `known` is false where the lookup raises.
   */
  method WriteProtein(ghost done: seq<Protein>, s: Proteins, prot: Protein, geneIds: map<GeneKey, int>)
    returns (t: Proteins, known: bool)
    requires FirstUnknown(done, geneIds).None? && s == Outcome(done, geneIds)
    ensures t == Outcome(done + [prot], geneIds)
    ensures known <==> FirstUnknown(done + [prot], geneIds).None?
  {
    OutcomeStep(done, prot, geneIds);
    var protId := s.count + 1;
    var order := if prot.name in s.ids then s.order else s.order + [prot.name];
    var nodes := s.nodes + [ProteinRow(protId, prot)];
    var key := GeneNodeCsv.Key(prot.gene);
    known := key in geneIds;
    var coding := if known then s.coding + [EdgeLine(geneIds[key], protId)] else s.coding;
    t := Proteins(nodes, coding, s.ids[prot.name := protId], order, protId);
  }

  /**
   * The protein loop over one table, continuing after the proteins `done`
   * of the tables before it, whose genes were all known.
   */
  method WriteTableProteins(ghost done: seq<Protein>, s: Proteins, prots: seq<Protein>, geneIds: map<GeneKey, int>)
    returns (t: Proteins, ok: bool)
    requires FirstUnknown(done, geneIds).None? && s == Outcome(done, geneIds)
    ensures t == Outcome(done + prots, geneIds)
    ensures ok <==> FirstUnknown(done + prots, geneIds).None?
  {
    t := s;
    assert done + prots[..0] == done;
    for j := 0 to |prots|
      invariant FirstUnknown(done + prots[..j], geneIds).None?
      invariant t == Outcome(done + prots[..j], geneIds)
    {
      var known;
      t, known := WriteProtein(done + prots[..j], t, prots[j], geneIds);
      AppendNext(done, prots, j);
      if !known {
        AppendRest(done, prots, j + 1);
        OutcomeStops(done + prots[..j + 1], prots[j + 1..], geneIds);
        return t, false;
      }
    }
    assert prots[..|prots|] == prots;
    ok := true;
  }

  /**
   * The protein loop over every table, numbering on from one table to the
   * next. `last` is the loop variable after the loop: the last protein
   * read, `None` when no table had a protein.
   */
  method WriteProteins(tables: seq<seq<Protein>>, geneIds: map<GeneKey, int>) returns (s: Proteins, ok: bool, last: Option<Protein>)
    ensures s == Outcome(Concat(tables), geneIds)
    ensures ok <==> FirstUnknown(Concat(tables), geneIds).None?
    ensures ok ==> last == if |Concat(tables)| == 0 then None else Some(Concat(tables)[|Concat(tables)| - 1])
  {
    s, last := Proteins([], [], map[], [], 0), None;
    assert s == Outcome([], geneIds);
    for f := 0 to |tables|
      invariant FirstUnknown(Concat(tables[..f]), geneIds).None?
      invariant s == Outcome(Concat(tables[..f]), geneIds)
      invariant last == if |Concat(tables[..f])| == 0 then None else Some(Concat(tables[..f])[|Concat(tables[..f])| - 1])
    {
      assert tables[..f + 1][..f] == tables[..f];
      s, ok := WriteTableProteins(Concat(tables[..f]), s, tables[f], geneIds);
      if !ok {
        assert tables[..f + 1] + tables[f + 1..] == tables;
        ConcatAppend(tables[..f + 1], tables[f + 1..]);
        OutcomeStops(Concat(tables[..f + 1]), Concat(tables[f + 1..]), geneIds);
        return;
      }
      if |tables[f]| > 0 {
        last := Some(tables[f][|tables[f]| - 1]);
      }
    }
    assert tables[..|tables|] == tables;
    ok := true;
  }

  /**
   * `prot_id_dict[prot[0]] = prot_id` after the loop: `None` where `prot`
   * was never bound (NameError).
   */
  function RecordLast(s: Proteins, last: Option<Protein>): (r: Option<Proteins>)
    ensures r.None? <==> last.None?
  {
    if last.None? then None
    else Some(s.(ids := s.ids[last.value.name := s.count]))
  }

  /** After a loop that ended well and read a protein, recording the last one again changes nothing. */
  lemma RecordLastKeeps(prots: seq<Protein>, geneIds: map<GeneKey, int>)
    requires FirstUnknown(prots, geneIds).None? && |prots| > 0
    ensures RecordLast(Outcome(prots, geneIds), Some(prots[|prots| - 1])) == Some(Outcome(prots, geneIds))
  {
    var s := Outcome(prots, geneIds);
    assert prots[..|prots|] == prots;
    assert s.ids[prots[|prots| - 1].name := s.count] == s.ids;
  }

  // ---- names without version ----

  /** `key[:key.rfind(".")]`: the key up to its last dot, or all but its last character when it has none. */
  function NoVersion(key: string): (r: string)
    ensures |r| <= |key|
  {
    var dot := LastIndex(key, '.');
    if dot.Some? then key[..dot.value] else SliceTo(key, -1)
  }

  /** The slice takes off exactly the `.*` the cluster parser puts after each name. */
  lemma NoVersionOfPattern(name: string)
    ensures NoVersion(name + ClusterParser.Wildcard) == name
  {
    var s := name + ClusterParser.Wildcard;
    assert s[|name|] == '.' && s[|name| + 1..] == "*";
    assert s[..|name|] == name;
  }

  /** A key with no dot loses its last character. */
  lemma NoVersionWithoutDot(key: string)
    requires '.' !in key && |key| > 0
    ensures NoVersion(key) + [key[|key| - 1]] == key
  {
    assert key[..|key| - 1] + [key[|key| - 1]] == key;
  }

  /** A versioned accession `base.version` with no dot in the version becomes `base`. */
  lemma NoVersionOfAccession(base: string, version: string)
    requires '.' !in version
    ensures NoVersion(base + "." + version) == base
  {
    var s := base + "." + version;
    assert s[|base|] == '.';
    assert s[|base| + 1..] == version;
    assert s[..|base|] == base;
  }

  /** The dictionary keyed by names without version, built in key order: a later key with the same stem wins. */
  function NoVersionIds(ids: map<string, int>, order: seq<string>): map<string, int>
    requires forall k :: k in order ==> k in ids
    decreases |order|
  {
    if |order| == 0 then map[]
    else NoVersionIds(ids, order[..|order| - 1])[NoVersion(order[|order| - 1]) := ids[order[|order| - 1]]]
  }

  /**
   * A stem is a key exactly when some name has it, and its id is that of
   * the last name in key order with that stem.
   */
  lemma {:induction false} NoVersionLookup(ids: map<string, int>, order: seq<string>, stem: string)
    requires forall k :: k in order ==> k in ids
    ensures stem in NoVersionIds(ids, order) <==> exists i :: 0 <= i < |order| && NoVersion(order[i]) == stem
    ensures forall i :: 0 <= i < |order| && NoVersion(order[i]) == stem && (forall j :: i < j < |order| ==> NoVersion(order[j]) != stem) ==>
              stem in NoVersionIds(ids, order) && NoVersionIds(ids, order)[stem] == ids[order[i]]
    decreases |order|
  {
    if |order| > 0 {
      var front := order[..|order| - 1];
      NoVersionLookup(ids, front, stem);
      assert forall i :: 0 <= i < |front| ==> front[i] == order[i];
    }
  }

  /** The loop over the dictionary's keys, in insertion order. */
  method NoVersionDict(ids: map<string, int>, order: seq<string>) returns (noVersion: map<string, int>)
    requires forall k :: k in order ==> k in ids
    ensures noVersion == NoVersionIds(ids, order)
  {
    noVersion := map[];
    for i := 0 to |order|
      invariant noVersion == NoVersionIds(ids, order[..i])
    {
      assert order[..i + 1][..i] == order[..i];
      var key := order[i];
      noVersion := noVersion[NoVersion(key) := ids[key]];
    }
    assert order[..|order|] == order;
  }

  // ---- homolog clusters ----

  /** `",".join([str(a), sensitivity, str(b) + "\n"])`. */
  function HomologRow(a: int, sensitivity: string, b: int): string
  {
    IntToString(a) + "," + sensitivity + "," + IntToString(b) + "\n"
  }

  /** The pairs of `x` with each of `ys`, in order. */
  function PairsWith(x: int, ys: seq<int>): (pairs: seq<(int, int)>)
    ensures |pairs| == |ys| && forall j :: 0 <= j < |ys| ==> pairs[j] == (x, ys[j])
  {
    seq(|ys|, j requires 0 <= j < |ys| => (x, ys[j]))
  }

  /** `itertools.product(xs, ys)`: every pair, the first component varying slowest. */
  function Product(xs: seq<int>, ys: seq<int>): (pairs: seq<(int, int)>)
    decreases |xs|
  {
    if |xs| == 0 then [] else PairsWith(xs[0], ys) + Product(xs[1..], ys)
  }

  /** The product has `|xs| * |ys|` pairs, and pair `i * |ys| + j` is `(xs[i], ys[j])`. */
  lemma {:induction false} ProductAt(xs: seq<int>, ys: seq<int>, i: nat, j: nat)
    requires i < |xs| && j < |ys|
    ensures |Product(xs, ys)| == |xs| * |ys|
    ensures i * |ys| + j < |Product(xs, ys)| && Product(xs, ys)[i * |ys| + j] == (xs[i], ys[j])
    decreases |xs|
  {
    if i == 0 {
      ProductLength(xs, ys);
    } else {
      ProductAt(xs[1..], ys, i - 1, j);
      assert i * |ys| + j == |ys| + ((i - 1) * |ys| + j);
    }
  }

  lemma {:induction false} ProductLength(xs: seq<int>, ys: seq<int>)
    ensures |Product(xs, ys)| == |xs| * |ys|
    decreases |xs|
  {
    if |xs| > 0 {
      ProductLength(xs[1..], ys);
      assert |xs| * |ys| == |ys| + (|xs| - 1) * |ys|;
    }
  }

  /** The relation rows of one cluster's ids: one per ordered pair. */
  function PairRows(ids: seq<int>, sensitivity: string): (rows: seq<string>)
    ensures |rows| == |Product(ids, ids)|
  {
    RowsOf(Product(ids, ids), sensitivity)
  }

  /** One relation row per pair, in order. */
  function RowsOf(pairs: seq<(int, int)>, sensitivity: string): (rows: seq<string>)
    ensures |rows| == |pairs|
  {
    seq(|pairs|, k requires 0 <= k < |pairs| => HomologRow(pairs[k].0, sensitivity, pairs[k].1))
  }

  /**
   * A cluster of `k` proteins gives `k * k` rows, self-pairs included:
   * row `i * k + j` relates protein `i` to protein `j`.
   */
  lemma PairRowsAt(ids: seq<int>, sensitivity: string, i: nat, j: nat)
    requires i < |ids| && j < |ids|
    ensures |PairRows(ids, sensitivity)| == |ids| * |ids|
    ensures i * |ids| + j < |ids| * |ids| && PairRows(ids, sensitivity)[i * |ids| + j] == HomologRow(ids[i], sensitivity, ids[j])
    ensures HomologRow(ids[i], sensitivity, ids[j]) in PairRows(ids, sensitivity)
  {
    ProductAt(ids, ids, i, j);
    var k := i * |ids| + j;
    var pairs := Product(ids, ids);
    assert RowsOf(pairs, sensitivity)[k] == HomologRow(pairs[k].0, sensitivity, pairs[k].1);
  }

  /** The write loop over the product of a cluster with itself. */
  method WritePairs(ids: seq<int>, sensitivity: string) returns (rows: seq<string>)
    ensures rows == PairRows(ids, sensitivity)
  {
    var pairs := Product(ids, ids);
    ghost var all := RowsOf(pairs, sensitivity);
    rows := [];
    for k := 0 to |pairs|
      invariant rows == all[..k]
    {
      var comb := pairs[k];
      SliceStep(all, k);
      rows := rows + [HomologRow(comb.0, sensitivity, comb.1)];
    }
    assert all[..|pairs|] == all;
  }

  /** The protein ids of a cluster's names, looked up without version; `None` at a missing name (KeyError). */
  function ClusterIds(cluster: seq<string>, noVersion: map<string, int>): (r: Option<seq<int>>)
    ensures r.Some? <==> forall i :: 0 <= i < |cluster| ==> NoVersion(cluster[i]) in noVersion
    ensures r.Some? ==> |r.value| == |cluster| && forall i :: 0 <= i < |cluster| ==> r.value[i] == noVersion[NoVersion(cluster[i])]
  {
    if forall i :: 0 <= i < |cluster| ==> NoVersion(cluster[i]) in noVersion then
      Some(seq(|cluster|, i requires 0 <= i < |cluster| => noVersion[NoVersion(cluster[i])]))
    else None
  }

  /** One cluster's rows, `false` where a name is missing (nothing of that cluster is written). */
  function ClusterRows(cluster: seq<string>, sensitivity: string, noVersion: map<string, int>): (seq<string>, bool)
  {
    var ids := ClusterIds(cluster, noVersion);
    if ids.Some? then (PairRows(ids.value, sensitivity), true) else ([], false)
  }

  /**
   * The rows of a list of items written one after the other, ending at the
   * first item that fails: each item's output is its rows and whether it
   * got through.
   */
  function Emit(outs: seq<(seq<string>, bool)>): (seq<string>, bool)
    decreases |outs|
  {
    if |outs| == 0 then ([], true)
    else
      var r := Emit(outs[..|outs| - 1]);
      if r.1 then (r.0 + outs[|outs| - 1].0, outs[|outs| - 1].1) else r
  }

  /** Once an item has failed, the items after it add nothing. */
  lemma {:induction false} EmitStops(outs: seq<(seq<string>, bool)>, k: nat)
    requires k <= |outs| && !Emit(outs[..k]).1
    ensures Emit(outs) == Emit(outs[..k])
    decreases |outs|
  {
    if k < |outs| {
      var front := outs[..|outs| - 1];
      assert front[..k] == outs[..k];
      EmitStops(front, k);
    } else {
      assert outs[..k] == outs;
    }
  }

  /** The output ends well exactly when every item does. */
  lemma {:induction false} EmitOk(outs: seq<(seq<string>, bool)>)
    ensures Emit(outs).1 <==> forall i :: 0 <= i < |outs| ==> outs[i].1
    decreases |outs|
  {
    if |outs| > 0 {
      var front := outs[..|outs| - 1];
      EmitOk(front);
      assert forall i :: 0 <= i < |front| ==> front[i] == outs[i];
    }
  }

  /** The rows of an item that every item before it lets through are in the output. */
  lemma {:induction false} EmitContains(outs: seq<(seq<string>, bool)>, k: nat, row: string)
    requires k < |outs| && (forall i :: 0 <= i < k ==> outs[i].1) && row in outs[k].0
    ensures row in Emit(outs).0
    decreases |outs|
  {
    var front := outs[..|outs| - 1];
    EmitOk(front);
    if k < |front| {
      assert forall i :: 0 <= i <= k ==> front[i] == outs[i];
      EmitContains(front, k, row);
    }
  }

  /** The output of each cluster of a file. */
  function ClusterOutputs(clusters: seq<seq<string>>, sensitivity: string, noVersion: map<string, int>): (outs: seq<(seq<string>, bool)>)
    ensures |outs| == |clusters|
  {
    seq(|clusters|, c requires 0 <= c < |clusters| => ClusterRows(clusters[c], sensitivity, noVersion))
  }

  /** The rows of one cluster file: its clusters one after the other, ending at the first missing name. */
  function FileRows(clusters: seq<seq<string>>, sensitivity: string, noVersion: map<string, int>): (seq<string>, bool)
  {
    Emit(ClusterOutputs(clusters, sensitivity, noVersion))
  }

  /** The loop over one file's clusters. */
  method WriteClusterFile(clusters: seq<seq<string>>, sensitivity: string, noVersion: map<string, int>)
    returns (rows: seq<string>, ok: bool)
    ensures (rows, ok) == FileRows(clusters, sensitivity, noVersion)
  {
    ghost var outs := ClusterOutputs(clusters, sensitivity, noVersion);
    rows := [];
    for c := 0 to |clusters|
      invariant (rows, true) == Emit(outs[..c])
    {
      assert outs[..c + 1][..c] == outs[..c];
      var cluster := ClusterIds(clusters[c], noVersion);
      if cluster.None? {
        assert rows + [] == rows;
        EmitStops(outs, c + 1);
        return rows, false;
      }
      var pairRows := WritePairs(cluster.value, sensitivity);
      rows := rows + pairRows;
    }
    assert outs[..|clusters|] == outs;
    ok := true;
  }

  /** The output of each cluster file, read by the cluster parser. */
  function FileOutputs(clusterFiles: seq<(seq<string>, string)>, noVersion: map<string, int>): (outs: seq<(seq<string>, bool)>)
    ensures |outs| == |clusterFiles|
  {
    seq(|clusterFiles|, f requires 0 <= f < |clusterFiles| =>
      FileRows(ClusterParser.Clusters(clusterFiles[f].0), clusterFiles[f].1, noVersion))
  }

  /** The homolog rows of every cluster file, each read by a fresh cluster parser. */
  function HomologRows(clusterFiles: seq<(seq<string>, string)>, noVersion: map<string, int>): (seq<string>, bool)
  {
    Emit(FileOutputs(clusterFiles, noVersion))
  }

  /** The loop over the cluster files: a new parser per file, then its clusters. */
  method WriteHomologs(clusterFiles: seq<(seq<string>, string)>, noVersion: map<string, int>) returns (rows: seq<string>, ok: bool)
    ensures (rows, ok) == HomologRows(clusterFiles, noVersion)
  {
    ghost var outs := FileOutputs(clusterFiles, noVersion);
    rows := [];
    for f := 0 to |clusterFiles|
      invariant (rows, true) == Emit(outs[..f])
    {
      assert outs[..f + 1][..f] == outs[..f];
      var clusterParser := new ClusterParser.Parser();
      var exit, clusterList := clusterParser.ParseCluster("MCL", clusterFiles[f].0);
      assert clusterList == ClusterParser.Clusters(clusterFiles[f].0) by {
        assert [] + ClusterParser.Clusters(clusterFiles[f].0) == ClusterParser.Clusters(clusterFiles[f].0);
      }
      var fileRows, fileOk := WriteClusterFile(clusterList, clusterFiles[f].1, noVersion);
      rows := rows + fileRows;
      if !fileOk {
        EmitStops(outs, f + 1);
        return rows, false;
      }
    }
    assert outs[..|clusterFiles|] == outs;
    ok := true;
  }

  /**
   * Every ordered pair of a cluster's protein ids is written, with its
   * file's sensitivity, when all its names are known and nothing before it
   * (earlier files, earlier clusters of its file) has a missing name.
   */
  lemma HomologPairs(clusterFiles: seq<(seq<string>, string)>, noVersion: map<string, int>, f: nat, c: nat, i: nat, j: nat)
    requires f < |clusterFiles|
    requires forall g :: 0 <= g < f ==> FileRows(ClusterParser.Clusters(clusterFiles[g].0), clusterFiles[g].1, noVersion).1
    requires c < |ClusterParser.Clusters(clusterFiles[f].0)|
    requires forall d :: 0 <= d < c ==> ClusterRows(ClusterParser.Clusters(clusterFiles[f].0)[d], clusterFiles[f].1, noVersion).1
    requires forall k :: 0 <= k < |ClusterParser.Clusters(clusterFiles[f].0)[c]| ==>
               NoVersion(ClusterParser.Clusters(clusterFiles[f].0)[c][k]) in noVersion
    requires i < |ClusterParser.Clusters(clusterFiles[f].0)[c]| && j < |ClusterParser.Clusters(clusterFiles[f].0)[c]|
    ensures var cluster := ClusterParser.Clusters(clusterFiles[f].0)[c];
            HomologRow(noVersion[NoVersion(cluster[i])], clusterFiles[f].1, noVersion[NoVersion(cluster[j])]) in
              HomologRows(clusterFiles, noVersion).0
  {
    var clusters := ClusterParser.Clusters(clusterFiles[f].0);
    var sensitivity := clusterFiles[f].1;
    var ids := ClusterIds(clusters[c], noVersion).value;
    PairRowsAt(ids, sensitivity, i, j);
    var row := HomologRow(ids[i], sensitivity, ids[j]);
    var clusterOuts := ClusterOutputs(clusters, sensitivity, noVersion);
    assert clusterOuts[c] == (PairRows(ids, sensitivity), true);
    EmitContains(clusterOuts, c, row);
    EmitContains(FileOutputs(clusterFiles, noVersion), f, row);
  }

  // ---- the whole script ----

  /**
   * What one run leaves: the gene files, the protein files, the homolog
   * file (`None` where the run stopped before opening it) and how the run
   * ended.
   */
  datatype Outputs = Outputs(geneNodes: seq<string>, three: seq<string>, five: seq<string>,
                             proteinNodes: seq<string>, coding: seq<string>,
                             homolog: Option<seq<string>>, exit: Exit)

  /**
   * The script: genes, then proteins (stopping with KeyError at the first
   * unknown gene, before the homolog file is opened), then the homolog
   * file, whose header is written before the script fails with NameError
   * when no protein was read, or with KeyError at the first cluster
   * holding a name without a protein.
   */
  function Playground(geneList: seq<Gene>, tables: seq<seq<Protein>>, clusterFiles: seq<(seq<string>, string)>): Outputs
  {
    var geneIds := GeneIds(geneList);
    var slots := GeneNodeCsv.Slots(geneList, 0, true);
    var prots := Concat(tables);
    var s := Outcome(prots, geneIds);
    var homolog := HomologFile(prots, geneIds, clusterFiles);
    Outputs([GeneNodeCsv.NodeHeader] + GeneNodeCsv.Rows(geneList, 0),
            [GeneNodeCsv.EdgeHeader] + ThreePrimeLines(Links(slots, |geneList|)),
            [GeneNodeCsv.EdgeHeader] + FivePrimeLines(Links(slots, |geneList|)),
            [ProteinHeader] + s.nodes, [CodingHeader] + s.coding, homolog.0, homolog.1)
  }

  /** The dictionary by names without version, built from the proteins' name dictionary in key order. */
  function Stems(prots: seq<Protein>): map<string, int>
  {
    NameOrderKeys(prots);
    NoVersionIds(NameIds(prots), NameOrder(prots))
  }

  /** The homolog file and how the run ends, after the proteins `prots`. */
  function HomologFile(prots: seq<Protein>, geneIds: map<GeneKey, int>, clusterFiles: seq<(seq<string>, string)>): (Option<seq<string>>, Exit)
  {
    if FirstUnknown(prots, geneIds).Some? then (None, Raised("KeyError"))
    else if |prots| == 0 then (Some([HomologHeader]), Raised("NameError"))
    else
      var h := HomologRows(clusterFiles, Stems(prots));
      (Some([HomologHeader] + h.0), if h.1 then Returned else Raised("KeyError"))
  }

  /** The script after the protein loop: line 107, the dictionary without versions, the cluster files. */
  method WriteHomologFile(ghost prots: seq<Protein>, geneIds: map<GeneKey, int>, s: Proteins, ok: bool, last: Option<Protein>,
                          clusterFiles: seq<(seq<string>, string)>)
    returns (homolog: Option<seq<string>>, exit: Exit)
    requires s == Outcome(prots, geneIds) && (ok <==> FirstUnknown(prots, geneIds).None?)
    requires ok ==> last == if |prots| == 0 then None else Some(prots[|prots| - 1])
    ensures (homolog, exit) == HomologFile(prots, geneIds, clusterFiles)
  {
    if !ok {
      return None, Raised("KeyError");
    }
    var rows := [HomologHeader];
    var recorded := RecordLast(s, last);
    if recorded.None? {
      return Some(rows), Raised("NameError");
    }
    RecordLastKeeps(prots, geneIds);
    NameOrderKeys(prots);
    assert prots[..|prots|] == prots;
    var noVersion := NoVersionDict(recorded.value.ids, recorded.value.order);
    var clusterRows, clustersOk := WriteHomologs(clusterFiles, noVersion);
    rows := rows + clusterRows;
    homolog, exit := Some(rows), if clustersOk then Returned else Raised("KeyError");
  }

  /** The script, stage by stage. */
  method RunPlayground(geneList: seq<Gene>, tables: seq<seq<Protein>>, clusterFiles: seq<(seq<string>, string)>)
    returns (out: Outputs)
    ensures out == Playground(geneList, tables, clusterFiles)
  {
    var geneNodes, three, five, geneIds := WriteGenes(geneList);
    var s, ok, last := WriteProteins(tables, geneIds);
    var homolog, exit := WriteHomologFile(Concat(tables), geneIds, s, ok, last, clusterFiles);
    out := Outputs(geneNodes, three, five, [ProteinHeader] + s.nodes, [CodingHeader] + s.coding, homolog, exit);
  }

  /** Every cluster of every file has all its names among the stems. */
  predicate ClustersKnown(clusterFiles: seq<(seq<string>, string)>, noVersion: map<string, int>)
  {
    forall f, c :: 0 <= f < |clusterFiles| && 0 <= c < |ClusterParser.Clusters(clusterFiles[f].0)| ==>
      ClusterIds(ClusterParser.Clusters(clusterFiles[f].0)[c], noVersion).Some?
  }

  /** A cluster file is written through exactly when each of its clusters has all its names known. */
  lemma FileRowsOk(clusters: seq<seq<string>>, sensitivity: string, noVersion: map<string, int>)
    ensures FileRows(clusters, sensitivity, noVersion).1 <==>
            forall c :: 0 <= c < |clusters| ==> ClusterIds(clusters[c], noVersion).Some?
  {
    var outs := ClusterOutputs(clusters, sensitivity, noVersion);
    EmitOk(outs);
    assert forall c :: 0 <= c < |clusters| ==> (outs[c].1 <==> ClusterIds(clusters[c], noVersion).Some?);
  }

  /** The cluster files are written through exactly when every cluster's names are known. */
  lemma HomologRowsOk(clusterFiles: seq<(seq<string>, string)>, noVersion: map<string, int>)
    ensures HomologRows(clusterFiles, noVersion).1 <==> ClustersKnown(clusterFiles, noVersion)
  {
    var outs := FileOutputs(clusterFiles, noVersion);
    EmitOk(outs);
    forall f | 0 <= f < |clusterFiles|
      ensures outs[f].1 <==> forall c :: 0 <= c < |ClusterParser.Clusters(clusterFiles[f].0)| ==>
                               ClusterIds(ClusterParser.Clusters(clusterFiles[f].0)[c], noVersion).Some?
    {
      FileRowsOk(ClusterParser.Clusters(clusterFiles[f].0), clusterFiles[f].1, noVersion);
    }
  }

  /**
   * The run ends normally exactly when every protein's gene is known, some
   * protein was read, and every cluster of every file has all its names
   * among the proteins; it writes no homolog file exactly when a gene is
   * unknown.
   */
  lemma PlaygroundReturns(geneList: seq<Gene>, tables: seq<seq<Protein>>, clusterFiles: seq<(seq<string>, string)>)
    ensures var prots := Concat(tables);
            Playground(geneList, tables, clusterFiles).exit == Returned <==>
              FirstUnknown(prots, GeneIds(geneList)).None? && |prots| > 0 && ClustersKnown(clusterFiles, Stems(prots))
    ensures Playground(geneList, tables, clusterFiles).homolog.None? <==> FirstUnknown(Concat(tables), GeneIds(geneList)).Some?
  {
    HomologRowsOk(clusterFiles, Stems(Concat(tables)));
  }
}
