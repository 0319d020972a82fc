/**
 * The gffutils-based GFF3 parser (`GFF3Parser`): the annotation mapper and
 * feature hierarchy a user configures, the lookup of one annotation field
 * in a record, the attachment of non-hierarchical features to genes, and
 * the conversion of collected annotations into gene and protein nodes.
 *
 * Walking the gffutils database itself is not modelled: the records and
 * the per-gene annotation dictionaries it yields are inputs.
 */
module Gff3Parser {
  import opened Wrappers
  import opened Strings
  import opened Sorting
  import opened Seqs

  /** A value read from a record: gffutils gives start and end as integers and everything else as text. */
  datatype Val = Text(text: string) | Num(n: int)

  /** One GFF3 record: the eight fixed columns and the attributes of the ninth, each with its list of values. */
  datatype Feature = Feature(
    seqid: string,
    source: string,
    featuretype: string,
    start: int,
    end: int,
    score: string,
    strand: string,
    frame: string,
    attributes: map<string, seq<string>>)

  /** The eight fixed columns of a record in the order of the GFF3 format, columns 1 to 8. */
  function Columns(f: Feature): (cols: seq<Val>)
    ensures |cols| == 8
  {
    [Text(f.seqid), Text(f.source), Text(f.featuretype), Num(f.start), Num(f.end),
     Text(f.score), Text(f.strand), Text(f.frame)]
  }

  /**
   * `column_index_2_field`: a digit string names a column, a column
   * number outside 1..8 gives "", and anything else names an attribute
   * whose first value is taken. `None` is the KeyError or IndexError of a
   * missing or empty attribute.
   */
  function ColumnField(f: Feature, index: string): (r: Option<Val>)
    ensures IsDigits(index) ==> r.Some?
    ensures !IsDigits(index) ==>
              (r.Some? <==> index in f.attributes && |f.attributes[index]| > 0) &&
              (r.Some? ==> r.value == Text(f.attributes[index][0]))
  {
    if IsDigits(index) then
      var k := DigitsValue(index);
      if 1 <= k <= 8 then Some(Columns(f)[k - 1]) else Some(Text(""))
    else if index in f.attributes && |f.attributes[index]| > 0 then Some(Text(f.attributes[index][0]))
    else None
  }

  /** Column numbers follow the GFF3 column order: 1 is the sequence id, 4 and 5 the bounds, 7 the strand, 8 the phase. */
  lemma ColumnOrder(f: Feature, k: nat)
    ensures k == 1 ==> ColumnField(f, NatToString(k)) == Some(Text(f.seqid))
    ensures k == 2 ==> ColumnField(f, NatToString(k)) == Some(Text(f.source))
    ensures k == 3 ==> ColumnField(f, NatToString(k)) == Some(Text(f.featuretype))
    ensures k == 4 ==> ColumnField(f, NatToString(k)) == Some(Num(f.start))
    ensures k == 5 ==> ColumnField(f, NatToString(k)) == Some(Num(f.end))
    ensures k == 6 ==> ColumnField(f, NatToString(k)) == Some(Text(f.score))
    ensures k == 7 ==> ColumnField(f, NatToString(k)) == Some(Text(f.strand))
    ensures k == 8 ==> ColumnField(f, NatToString(k)) == Some(Text(f.frame))
    ensures k == 0 || k > 8 ==> ColumnField(f, NatToString(k)) == Some(Text(""))
  {
    assert DigitsValue(NatToString(k)) == k;
  }

  // ---- set_annotation_mapper ----

  /** The five mandatory fields a mapping must mention. */
  predicate Mandatory(m: string)
  {
    Contains(m, "(Start:") && Contains(m, "(Stop:") && Contains(m, "(Contig:") &&
    Contains(m, "(Gene_name:") && Contains(m, "(Protein_name:")
  }

  /** The `;`-separated feature mappings of a space-free mapping text. */
  function Segments(m: string): seq<string>
  {
    Split(Strip(m), ';')
  }

  /**
   * One mapping `feature::(Field:where),...`: the feature name and its
   * comma-separated field list. `None` is the IndexError of a segment with
   * no `::`; only the text between the first and a second `::` is used.
   */
  function ParseSegment(segment: string): (r: Option<(string, seq<string>)>)
    ensures r.None? <==> !Contains(segment, "::")
    ensures r.Some? ==> !Contains(r.value.0, "::") && |r.value.1| >= 1
  {
    match SplitTwo(segment, "::")
    case None => None
    case Some((name, fields)) => Some((name, Split(fields, ',')))
  }

  /** The mapper after storing the segments in order, stopping at the first one without `::`. */
  function Stored(mapper: map<string, seq<string>>, segments: seq<string>): map<string, seq<string>>
    decreases |segments|
  {
    if |segments| == 0 then mapper
    else match ParseSegment(segments[0])
      case None => mapper
      case Some((name, fields)) => Stored(mapper[name := fields], segments[1..])
  }

  predicate AllValid(segments: seq<string>)
  {
    forall i :: 0 <= i < |segments| ==> Contains(segments[i], "::")
  }

  /** A later mapping of the same feature overwrites the earlier one. */
  lemma {:induction false} StoredAppend(mapper: map<string, seq<string>>, segments: seq<string>, last: string)
    requires AllValid(segments) && Contains(last, "::")
    ensures Stored(mapper, segments + [last]) == Stored(mapper, segments)[ParseSegment(last).value.0 := ParseSegment(last).value.1]
    decreases |segments|
  {
    if |segments| == 0 {
      assert ([] + [last])[1..] == [];
    } else {
      var parsed := ParseSegment(segments[0]).value;
      assert (segments + [last])[1..] == segments[1..] + [last];
      assert AllValid(segments[1..]) by {
        forall i | 0 <= i < |segments[1..]| ensures Contains(segments[1..][i], "::") {
          assert segments[1..][i] == segments[i + 1];
        }
      }
      StoredAppend(mapper[parsed.0 := parsed.1], segments[1..], last);
    }
  }

  /**
   * A segment without `::` makes the setter fail, but the mappings before
   * it have been stored already and stay.
   */
  lemma {:induction false} StoredStopsAt(mapper: map<string, seq<string>>, segments: seq<string>, k: nat)
    requires k < |segments| && AllValid(segments[..k]) && !Contains(segments[k], "::")
    ensures Stored(mapper, segments) == Stored(mapper, segments[..k])
    decreases k
  {
    if k > 0 {
      var parsed := ParseSegment(segments[0]);
      assert segments[..k][0] == segments[0];
      assert parsed.Some?;
      var rest := segments[1..][..k - 1];
      assert segments[..k][1..] == rest;
      assert AllValid(rest) by {
        forall i | 0 <= i < |rest| ensures Contains(rest[i], "::") {
          assert rest[i] == segments[..k][i + 1];
        }
      }
      StoredStopsAt(mapper[parsed.value.0 := parsed.value.1], segments[1..], k - 1);
    }
  }

  // ---- set_feature_hierarchy ----

  /** The first piece of a split is empty exactly when the text is empty or starts with the separator. */
  lemma SplitFirstEmpty(s: string, sep: char)
    ensures Split(s, sep)[0] == "" <==> |s| == 0 || s[0] == sep
  {}

  // ---- the non-hierarchical pass: attaching a feature's value to genes ----

  /** The annotation collected for one gene: field name to the values found for it, in order. */
  type Annotation = map<string, seq<Val>>

  predicate Has(a: Annotation, key: string)
  {
    key in a && |a[key]| > 0
  }

  /** One of two intervals contains the other. */
  predicate Nested(start: int, stop: int, geneStart: int, geneStop: int)
  {
    (start <= geneStart && geneStop <= stop) || (start >= geneStart && geneStop >= stop)
  }

  /** Containment does not depend on which interval belongs to the feature and which to the gene. */
  lemma NestedSymmetric(a1: int, a2: int, b1: int, b2: int)
    requires a1 <= a2 && b1 <= b2
    ensures Nested(a1, a2, b1, b2) == Nested(b1, b2, a1, a2)
  {}

  /**
   * What the comparison with one gene does: attach the value, pass the
   * gene by, abandon the feature (the KeyError or IndexError of a missing
   * Contig, Start or Stop, which the handler catches) or crash (a text
   * bound compared with a number: Python's TypeError, which escapes).
   */
  datatype Verdict = Attach | Pass | Abandon | Crash

  function Check(gene: Annotation, seqid: string, start: int, stop: int): Verdict
  {
    if !Has(gene, "Contig") then Abandon
    else if gene["Contig"][0] != Text(seqid) then Pass
    else if !Has(gene, "Start") then Abandon
    else if !gene["Start"][0].Num? then Crash
    else if !Has(gene, "Stop") then Abandon
    else if !gene["Stop"][0].Num? then Crash
    else if Nested(start, stop, gene["Start"][0].n, gene["Stop"][0].n) then Attach
    else Pass
  }

  /** A feature joins a gene exactly when they share the contig and one interval contains the other. */
  lemma CheckAttaches(gene: Annotation, seqid: string, start: int, stop: int)
    ensures Check(gene, seqid, start, stop) == Attach <==>
              Has(gene, "Contig") && gene["Contig"][0] == Text(seqid) &&
              Has(gene, "Start") && gene["Start"][0].Num? && Has(gene, "Stop") && gene["Stop"][0].Num? &&
              Nested(start, stop, gene["Start"][0].n, gene["Stop"][0].n)
  {}

  /** The annotation with `value` added at the end of `key`'s list. */
  function Appended(a: Annotation, key: string, value: Val): (r: Annotation)
    ensures key in r && |r[key]| >= 1 && r[key][|r[key]| - 1] == value
    ensures forall k :: k != key ==> (k in r <==> k in a) && (k in a ==> r[k] == a[k])
  {
    if key in a then a[key := a[key] + [value]] else a[key := [value]]
  }

  /** The position of the first gene that ends the pass over the genes, or the number of genes. */
  function Halt(genes: seq<Annotation>, seqid: string, start: int, stop: int): (k: nat)
    ensures k <= |genes|
    ensures forall j :: 0 <= j < k ==> Check(genes[j], seqid, start, stop) in {Attach, Pass}
    ensures k < |genes| ==> Check(genes[k], seqid, start, stop) in {Abandon, Crash}
  {
    if |genes| == 0 then 0
    else if Check(genes[0], seqid, start, stop) in {Abandon, Crash} then 0
    else
      var k := Halt(genes[1..], seqid, start, stop);
      assert forall j :: 1 <= j < k + 1 ==> genes[j] == genes[1..][j - 1];
      k + 1
  }

  /** The genes after one value is attached: only qualifying genes before the halting one change. */
  function AttachedAll(genes: seq<Annotation>, seqid: string, start: int, stop: int, key: string, value: Val): (r: seq<Annotation>)
    ensures |r| == |genes|
    ensures forall i :: 0 <= i < |genes| ==>
              r[i] == if i < Halt(genes, seqid, start, stop) && Check(genes[i], seqid, start, stop) == Attach
                      then Appended(genes[i], key, value) else genes[i]
  {
    var k := Halt(genes, seqid, start, stop);
    seq(|genes|, i requires 0 <= i < |genes| =>
          if i < k && Check(genes[i], seqid, start, stop) == Attach then Appended(genes[i], key, value) else genes[i])
  }

  /** How a pass over the genes, or over a feature's attributes, ended. */
  datatype Outcome = Done | Abandoned | Crashed

  /**
   * The loop over the genes for one attribute value: every gene before
   * the first failing one that qualifies gets the value, the rest stay as
   * they were, and the failure decides the outcome.
   */
  method AttachToGenes(genes: seq<Annotation>, seqid: string, start: int, stop: int, key: string, value: Val)
    returns (out: seq<Annotation>, outcome: Outcome)
    ensures out == AttachedAll(genes, seqid, start, stop, key, value)
    ensures var k := Halt(genes, seqid, start, stop);
            outcome == (if k == |genes| then Done
                        else if Check(genes[k], seqid, start, stop) == Abandon then Abandoned
                        else Crashed)
  {
    ghost var k := Halt(genes, seqid, start, stop);
    out := genes;
    for i := 0 to |genes|
      invariant i <= k
      invariant |out| == |genes|
      invariant forall j :: 0 <= j < |genes| ==>
                  out[j] == if j < i && Check(genes[j], seqid, start, stop) == Attach then Appended(genes[j], key, value) else genes[j]
    {
      var verdict := Check(genes[i], seqid, start, stop);
      if verdict == Abandon {
        return out, Abandoned;
      } else if verdict == Crash {
        return out, Crashed;
      } else if verdict == Attach {
        out := out[i := Appended(genes[i], key, value)];
      }
    }
    outcome := Done;
  }

  /** Python `s[1:-1]`: the text without its first and last character. */
  function Inner(s: string): (r: string)
    ensures |s| >= 2 ==> r == s[1..|s| - 1]
    ensures |s| < 2 ==> r == ""
  {
    if |s| >= 2 then s[1..|s| - 1] else ""
  }

  /**
   * The attribute loop for one non-hierarchical feature: each entry
   * `(Field:where)` of the feature type's mapping yields a value that is
   * attached to the genes under `Field`; an entry without `:`, a value the
   * record lacks, or a gene lacking a bound abandons the rest of the feature.
   */
  function FeatureAttached(genes: seq<Annotation>, entries: seq<string>, f: Feature): (r: (seq<Annotation>, Outcome))
    ensures |r.0| == |genes|
    decreases |entries|
  {
    if |entries| == 0 then (genes, Done)
    else
      var parts := Split(Inner(entries[0]), ':');
      if |parts| < 2 then (genes, Abandoned)
      else match ColumnField(f, parts[1])
        case None => (genes, Abandoned)
        case Some(value) =>
          var k := Halt(genes, f.seqid, f.start, f.end);
          var next := AttachedAll(genes, f.seqid, f.start, f.end, parts[0], value);
          if k < |genes| then (next, if Check(genes[k], f.seqid, f.start, f.end) == Abandon then Abandoned else Crashed)
          else FeatureAttached(next, entries[1..], f)
  }

  /**
   * The non-hierarchical feature types `set_feature_hierarchy` keeps: the
   * comma list after the first `;`, and none when there is no `;`.
   */
  function NonHierarchic(features: string): (types: seq<string>)
    ensures ';' !in features ==> types == []
    ensures ';' in features ==> |types| >= 1
  {
    var parts := Split(RemoveChar(features, ' '), ';');
    if |parts| >= 2 then Split(parts[1], ',') else []
  }

  /**
   * Whether `gene_annotation_dict` is bound once the non-hierarchical pass
   * is over: only that pass's loop over the genes binds it, so there must
   * be a non-hierarchical type, a record of such a type whose mapped field
   * was read (`valueRead`, decided by the GFF3 database), and some gene.
   */
  predicate DictBound(nonHierarchic: seq<string>, valueRead: bool, annotations: seq<Annotation>)
  {
    |nonHierarchic| > 0 && valueRead && |annotations| > 0
  }

  // ---- converting annotations into nodes ----

  /** A gene node: id, species, contig, start, stop, name, chromosome, strand and phase. */
  datatype GeneNode = GeneNode(
    id: int, species: string, contig: Val, start: Val, stop: Val, name: Val,
    chromosome: Val, strand: Val, phase: Val)

  /** A protein node and the id of the gene coding for it. */
  datatype ProteinNode = ProteinNode(id: int, name: Val, desc: Val, gene: int)

  /** `dict.get(key, "?")[0]`: "?" for a missing field, `None` for the IndexError of an empty list. */
  function Optional(a: Annotation, key: string): (r: Option<Val>)
    ensures key !in a ==> r == Some(Text("?"))
    ensures key in a ==> (r.Some? <==> |a[key]| > 0) && (r.Some? ==> r.value == a[key][0])
  {
    if key !in a then Some(Text("?")) else if |a[key]| > 0 then Some(a[key][0]) else None
  }

  /**
   * The gene node of one annotation: the first value of each mandatory
   * field, "?" for an optional one that is missing; `None` when a lookup
   * fails and the annotation is skipped.
   */
  function GeneOf(a: Annotation, id: int, species: string): (r: Option<GeneNode>)
    ensures r.Some? <==>
              Has(a, "Contig") && Has(a, "Start") && Has(a, "Stop") && Has(a, "Gene_name") &&
              Optional(a, "Chromosome").Some? && Optional(a, "Strand").Some? && Optional(a, "Phase").Some?
    ensures r.Some? ==> r.value.id == id && r.value.species == species &&
                        r.value.contig == a["Contig"][0] && r.value.start == a["Start"][0] &&
                        r.value.stop == a["Stop"][0] && r.value.name == a["Gene_name"][0]
    ensures r.Some? && "Chromosome" !in a ==> r.value.chromosome == Text("?")
    ensures r.Some? && "Strand" !in a ==> r.value.strand == Text("?")
    ensures r.Some? && "Phase" !in a ==> r.value.phase == Text("?")
  {
    if Has(a, "Contig") && Has(a, "Start") && Has(a, "Stop") && Has(a, "Gene_name") then
      match (Optional(a, "Chromosome"), Optional(a, "Strand"), Optional(a, "Phase"))
      case (Some(chromosome), Some(strand), Some(phase)) =>
        Some(GeneNode(id, species, a["Contig"][0], a["Start"][0], a["Stop"][0], a["Gene_name"][0], chromosome, strand, phase))
      case _ => None
    else None
  }

  /**
   * The (name, description) pairs of a gene's proteins, repeats removed;
   * "?" for every description when none were found. `None` is the
   * KeyError of a gene without protein names, which keeps the gene.
   */
  function ProteinPairs(a: Annotation): (r: Option<seq<(Val, Val)>>)
    ensures r.Some? <==> "Protein_name" in a
    ensures r.Some? ==> NoRepeats(r.value)
    ensures r.Some? && "Protein_desc" !in a ==>
              forall i :: 0 <= i < |r.value| ==> r.value[i].1 == Text("?") && r.value[i].0 in a["Protein_name"]
  {
    if "Protein_name" !in a then None
    else
      var names := a["Protein_name"];
      var descs := if "Protein_desc" in a then a["Protein_desc"] else seq(|names|, _ => Text("?"));
      var pairs := Distinct(Zip(names, descs));
      assert "Protein_desc" !in a ==> forall i :: 0 <= i < |pairs| ==> pairs[i].1 == Text("?") && pairs[i].0 in names by {
        if "Protein_desc" !in a {
          forall i | 0 <= i < |pairs| ensures pairs[i].1 == Text("?") && pairs[i].0 in names {
            assert pairs[i] in Zip(names, descs);
          }
        }
      }
      Some(pairs)
  }

  /** The protein nodes of one gene, numbered on from `lastId`. */
  function ProteinsFor(pairs: seq<(Val, Val)>, lastId: int, gene: int): (r: seq<ProteinNode>)
    ensures |r| == |pairs|
    ensures forall i :: 0 <= i < |r| ==> r[i] == ProteinNode(lastId + 1 + i, pairs[i].0, pairs[i].1, gene)
  {
    seq(|pairs|, i requires 0 <= i < |pairs| => ProteinNode(lastId + 1 + i, pairs[i].0, pairs[i].1, gene))
  }

  /** The node lists and the last ids handed out. */
  datatype Nodes = Nodes(genes: seq<GeneNode>, proteins: seq<ProteinNode>, geneId: int, proteinId: int)

  /** One annotation: the gene id moves on first, whether or not the annotation yields a gene. */
  function Step(n: Nodes, a: Annotation, species: string): Nodes
  {
    var id := n.geneId + 1;
    match GeneOf(a, id, species)
    case None => n.(geneId := id)
    case Some(gene) =>
      match ProteinPairs(a)
      case None => n.(genes := n.genes + [gene], geneId := id)
      case Some(pairs) => Nodes(n.genes + [gene], n.proteins + ProteinsFor(pairs, n.proteinId, id), id, n.proteinId + |pairs|)
  }

  function Built(n: Nodes, annotations: seq<Annotation>, species: string): Nodes
    decreases |annotations|
  {
    if |annotations| == 0 then n else Built(Step(n, annotations[0], species), annotations[1..], species)
  }

  /** Ids never exceed the counters, protein ids ascend, and every protein's gene id has been handed out. */
  ghost predicate Consistent(n: Nodes)
  {
    (forall i :: 0 <= i < |n.genes| ==> n.genes[i].id <= n.geneId) &&
    (forall i :: 0 <= i < |n.proteins| ==> n.proteins[i].id <= n.proteinId && n.proteins[i].gene <= n.geneId) &&
    (forall i, j :: 0 <= i < j < |n.proteins| ==> n.proteins[i].id < n.proteins[j].id)
  }

  lemma StepConsistent(n: Nodes, a: Annotation, species: string)
    requires Consistent(n)
    ensures var m := Step(n, a, species);
            Consistent(m) && m.geneId == n.geneId + 1 && m.proteinId >= n.proteinId &&
            |n.genes| <= |m.genes| <= |n.genes| + 1 && m.genes[..|n.genes|] == n.genes &&
            |n.proteins| <= |m.proteins| && m.proteins[..|n.proteins|] == n.proteins &&
            (forall i :: |n.proteins| <= i < |m.proteins| ==>
               |m.genes| == |n.genes| + 1 && m.proteins[i].gene == m.genes[|n.genes|].id) &&
            (GeneOf(a, n.geneId + 1, species).None? ==> m.genes == n.genes && m.proteins == n.proteins)
  {
    var m := Step(n, a, species);
    assert m.genes[..|n.genes|] == n.genes;
    assert m.proteins[..|n.proteins|] == n.proteins;
  }

  /** Protein `i` names the id of a gene at position `fromGene` or later. */
  ghost predicate GeneOfProtein(m: Nodes, fromGene: int, i: int)
    requires 0 <= i < |m.proteins|
  {
    exists j :: 0 <= j < |m.genes| && fromGene <= j && m.genes[j].id == m.proteins[i].gene
  }

  ghost predicate NewProteinsHaveNewGenes(m: Nodes, fromGene: int, fromProtein: int)
  {
    forall i :: 0 <= fromProtein <= i < |m.proteins| ==> GeneOfProtein(m, fromGene, i)
  }

  /**
   * Converting annotations keeps the node lists consistent and only
   * appends to them; every annotation uses up one gene id, skipped or
   * not; and each new protein names the id of a gene added with it.
   */
  lemma {:induction false} BuiltConsistent(n: Nodes, annotations: seq<Annotation>, species: string)
    requires Consistent(n)
    ensures Consistent(Built(n, annotations, species))
    ensures Built(n, annotations, species).geneId == n.geneId + |annotations|
    ensures Built(n, annotations, species).proteinId >= n.proteinId
    ensures var m := Built(n, annotations, species);
            |n.genes| <= |m.genes| && m.genes[..|n.genes|] == n.genes
    ensures var m := Built(n, annotations, species);
            |n.proteins| <= |m.proteins| && m.proteins[..|n.proteins|] == n.proteins
    ensures NewProteinsHaveNewGenes(Built(n, annotations, species), |n.genes|, |n.proteins|)
    decreases |annotations|
  {
    if |annotations| > 0 {
      var s := Step(n, annotations[0], species);
      StepConsistent(n, annotations[0], species);
      BuiltConsistent(s, annotations[1..], species);
      var m := Built(n, annotations, species);
      assert m == Built(s, annotations[1..], species);
      assert m.genes[..|n.genes|] == n.genes by {
        assert m.genes[..|n.genes|] == m.genes[..|s.genes|][..|n.genes|];
      }
      assert m.proteins[..|n.proteins|] == n.proteins by {
        assert m.proteins[..|n.proteins|] == m.proteins[..|s.proteins|][..|n.proteins|];
      }
      forall i | |n.proteins| <= i < |m.proteins|
        ensures GeneOfProtein(m, |n.genes|, i)
      {
        if i < |s.proteins| {
          assert m.proteins[i] == m.proteins[..|s.proteins|][i] == s.proteins[i];
          assert m.genes[|n.genes|] == m.genes[..|s.genes|][|n.genes|] == s.genes[|n.genes|];
          assert m.genes[|n.genes|].id == m.proteins[i].gene;
        } else {
          assert GeneOfProtein(m, |s.genes|, i);
          var j :| |s.genes| <= j < |m.genes| && m.genes[j].id == m.proteins[i].gene;
          assert |n.genes| <= j;
        }
      }
    } else {
      assert Built(n, annotations, species) == n;
      assert n.genes[..|n.genes|] == n.genes;
      assert n.proteins[..|n.proteins|] == n.proteins;
    }
  }

  /**
   * Gene nodes with distinct ids are distinct: every gene built is new, and
   * a repeat-free gene list stays repeat-free, so the set that removes
   * repeats changes nothing but the order.
   */
  lemma BuiltGenesFresh(n: Nodes, annotations: seq<Annotation>, species: string)
    requires Consistent(n)
    ensures var m := Built(n, annotations, species);
            forall i, j :: 0 <= i < |n.genes| <= j < |m.genes| ==> m.genes[i] != m.genes[j]
    ensures NoRepeats(n.genes) ==> NoRepeats(Built(n, annotations, species).genes)
    decreases |annotations|
  {
    if |annotations| > 0 {
      var s := Step(n, annotations[0], species);
      StepConsistent(n, annotations[0], species);
      if NoRepeats(n.genes) && |s.genes| > |n.genes| {
        forall i, j | 0 <= i < j < |s.genes| ensures s.genes[i] != s.genes[j] {
          if j == |n.genes| {
            assert s.genes[j].id == n.geneId + 1;
            assert s.genes[i] == n.genes[i];
          } else {
            assert s.genes[i] == n.genes[i] && s.genes[j] == n.genes[j];
          }
        }
      }
      BuiltGenesFresh(s, annotations[1..], species);
      BuiltConsistent(s, annotations[1..], species);
      var m := Built(n, annotations, species);
      forall i, j | 0 <= i < |n.genes| <= j < |m.genes| ensures m.genes[i] != m.genes[j] {
        assert m.genes[i] == s.genes[i] == n.genes[i];
        if j < |s.genes| {
          assert m.genes[j] == s.genes[j];
          assert s.genes[j].id == n.geneId + 1;
        }
      }
    }
  }

  // ---- sorting the genes by (contig, start, stop) ----

  /** The order of values: numbers by size, then texts by code points (Python refuses to compare the two). */
  predicate ValLeq(a: Val, b: Val)
  {
    match (a, b)
    case (Num(x), Num(y)) => x <= y
    case (Num(_), Text(_)) => true
    case (Text(_), Num(_)) => false
    case (Text(x), Text(y)) => StrLeq(x, y)
  }

  predicate ValLess(a: Val, b: Val)
  {
    ValLeq(a, b) && a != b
  }

  lemma ValOrder(a: Val, b: Val, c: Val)
    ensures ValLeq(a, b) || ValLeq(b, a)
    ensures ValLeq(a, b) && ValLeq(b, c) ==> ValLeq(a, c)
    ensures ValLeq(a, b) && ValLeq(b, a) ==> a == b
  {
    if a.Text? && b.Text? {
      StrLeqTotal(a.text, b.text);
      if c.Text? && StrLeq(a.text, b.text) && StrLeq(b.text, c.text) {
        StrLeqTrans(a.text, b.text, c.text);
      }
      if ValLeq(a, b) && ValLeq(b, a) {
        StrLeqAntisym(a.text, b.text);
      }
    }
  }

  /** `sorted(key=lambda x: (x[2], x[3], x[4]))`: by contig, then start, then stop. */
  predicate GeneLeq(g: GeneNode, h: GeneNode)
  {
    ValLess(g.contig, h.contig) ||
    (g.contig == h.contig && (ValLess(g.start, h.start) || (g.start == h.start && ValLeq(g.stop, h.stop))))
  }

  lemma GeneLeqTotalPreorder()
    ensures TotalPreorder(GeneLeq)
  {
    forall g: GeneNode, h: GeneNode ensures GeneLeq(g, h) || GeneLeq(h, g) {
      ValOrder(g.contig, h.contig, h.contig);
      ValOrder(g.start, h.start, h.start);
      ValOrder(g.stop, h.stop, h.stop);
    }
    forall g: GeneNode, h: GeneNode, k: GeneNode | GeneLeq(g, h) && GeneLeq(h, k) ensures GeneLeq(g, k) {
      ValOrder(g.contig, h.contig, k.contig);
      ValOrder(h.contig, k.contig, g.contig);
      ValOrder(k.contig, g.contig, h.contig);
      ValOrder(g.start, h.start, k.start);
      ValOrder(h.start, k.start, g.start);
      ValOrder(k.start, g.start, h.start);
      ValOrder(g.stop, h.stop, k.stop);
    }
  }

  /** The sort key of `parse_gff3_file`: contig, start and stop. */
  function SortKey(g: GeneNode): (Val, Val, Val)
  {
    (g.contig, g.start, g.stop)
  }

  /** Genes ordered both ways share their sort key. */
  lemma GeneTie(g: GeneNode, h: GeneNode)
    requires GeneLeq(g, h) && GeneLeq(h, g)
    ensures SortKey(g) == SortKey(h)
  {
    ValOrder(g.contig, h.contig, h.contig);
    ValOrder(g.start, h.start, h.start);
    ValOrder(g.stop, h.stop, h.stop);
  }

  /**
   * `list(set(...))` hands the stable sort of `parse_gff3_file` the genes
   * in hash order, so genes sharing contig, start and stop may come out
   * in any order. Whatever order Python picks, the result is an ordered
   * permutation of the genes, and it is the model's `SortBy` order
   * whenever no two different genes share their sort key.
   */
  lemma TieFreeOrder(genes: seq<GeneNode>, order: seq<GeneNode>)
    requires multiset(order) == multiset(genes) && SortedBy(order, GeneLeq)
    requires forall i, j :: 0 <= i < |genes| && 0 <= j < |genes| && genes[i] != genes[j] ==> SortKey(genes[i]) != SortKey(genes[j])
    ensures order == SortBy(genes, GeneLeq)
  {
    var sorted := SortBy(genes, GeneLeq);
    GeneLeqTotalPreorder();
    SortBySorted(genes, GeneLeq);
    forall i, j | 0 <= i < |sorted| && 0 <= j < |sorted| && GeneLeq(sorted[i], sorted[j]) && GeneLeq(sorted[j], sorted[i])
      ensures sorted[i] == sorted[j]
    {
      GeneTie(sorted[i], sorted[j]);
      assert sorted[i] in multiset(genes) && sorted[j] in multiset(genes);
    }
    SortedUnique(sorted, order, GeneLeq);
  }

  // ---- get_protein_dict ----

  /** Protein name to (id, description, gene id); a later protein of the same name replaces an earlier one. */
  function ProteinDict(proteins: seq<ProteinNode>): map<Val, (int, Val, int)>
  {
    if |proteins| == 0 then map[]
    else
      var last := proteins[|proteins| - 1];
      ProteinDict(proteins[..|proteins| - 1])[last.name := (last.id, last.desc, last.gene)]
  }

  /** A name is in the dictionary iff some protein has it, and it maps to the last protein that has it. */
  lemma {:induction false} ProteinDictLookup(proteins: seq<ProteinNode>, name: Val)
    ensures name in ProteinDict(proteins) <==> exists i :: 0 <= i < |proteins| && proteins[i].name == name
    ensures forall i :: 0 <= i < |proteins| && proteins[i].name == name &&
                        (forall j :: i < j < |proteins| ==> proteins[j].name != name) ==>
                          ProteinDict(proteins)[name] == (proteins[i].id, proteins[i].desc, proteins[i].gene)
  {
    if |proteins| > 0 {
      var front := proteins[..|proteins| - 1];
      ProteinDictLookup(front, name);
      if exists i :: 0 <= i < |proteins| && proteins[i].name == name {
        var i :| 0 <= i < |proteins| && proteins[i].name == name;
        if i < |front| {
          assert front[i].name == name;
        }
      }
      forall i | 0 <= i < |front| && front[i].name == name ensures proteins[i].name == name {}
      forall i | 0 <= i < |proteins| && proteins[i].name == name &&
                 (forall j :: i < j < |proteins| ==> proteins[j].name != name)
        ensures ProteinDict(proteins)[name] == (proteins[i].id, proteins[i].desc, proteins[i].gene)
      {
        if i < |front| {
          assert front[i] == proteins[i];
          forall j | i < j < |front| ensures front[j].name != name {
            assert front[j] == proteins[j];
          }
        }
      }
    }
  }

  /** The parser object: its configuration, its id counters and the node lists it has built. */
  class Parser {
    /** The GFF3 file's base name without extension. */
    const speciesName: string
    var annotationMapper: map<string, seq<string>>
    var featureHierarchy: seq<string>
    var nonHierarchicFeatures: seq<string>
    var geneNodeId: int
    var proteinNodeId: int
    var geneList: seq<GeneNode>
    var proteinList: seq<ProteinNode>

    ghost function State(): Nodes
      reads this
    {
      Nodes(geneList, proteinList, geneNodeId, proteinNodeId)
    }

    ghost predicate Valid()
      reads this
    {
      Consistent(State())
    }

    constructor (path: string, geneNodeId: int, proteinNodeId: int)
      ensures Valid()
      ensures speciesName == Stem(Basename(path))
      ensures this.geneNodeId == geneNodeId && this.proteinNodeId == proteinNodeId
      ensures annotationMapper == map[] && featureHierarchy == [] && nonHierarchicFeatures == []
      ensures geneList == [] && proteinList == []
    {
      speciesName := Stem(Basename(path));
      this.geneNodeId := geneNodeId;
      this.proteinNodeId := proteinNodeId;
      annotationMapper := map[];
      featureHierarchy := [];
      nonHierarchicFeatures := [];
      geneList := [];
      proteinList := [];
    }

    /**
     * `set_annotation_mapper`: spaces are removed; the mapping is refused
     * unless it mentions the five mandatory fields and every segment has a
     * `::`. Segments are stored in order until one fails.
     */
    method SetAnnotationMapper(annoMap: string) returns (ok: bool)
      modifies this`annotationMapper
      ensures var m := RemoveChar(annoMap, ' ');
              ok <==> Mandatory(m) && AllValid(Segments(m))
      ensures var m := RemoveChar(annoMap, ' ');
              annotationMapper == if Mandatory(m) then Stored(old(annotationMapper), Segments(m)) else old(annotationMapper)
    {
      var m := RemoveChar(annoMap, ' ');
      if !Contains(m, "(Start:") || !Contains(m, "(Stop:") || !Contains(m, "(Contig:") ||
         !Contains(m, "(Gene_name:") || !Contains(m, "(Protein_name:") {
        return false;
      }
      var segments := Split(Strip(m), ';');
      for i := 0 to |segments|
        invariant Stored(annotationMapper, segments[i..]) == Stored(old(annotationMapper), segments)
        invariant forall j :: 0 <= j < i ==> Contains(segments[j], "::")
      {
        var parsed := ParseSegment(segments[i]);
        assert segments[i..][0] == segments[i];
        if parsed.None? {
          return false;
        }
        assert segments[i..][1..] == segments[i + 1..];
        annotationMapper := annotationMapper[parsed.value.0 := parsed.value.1];
      }
      assert segments[|segments|..] == [];
      ok := true;
    }

    /**
     * `set_feature_hierarchy`: spaces are removed; the hierarchy is the
     * comma list before the first `;` and the non-hierarchical features the
     * comma list after it. Only an empty hierarchy is refused.
     */
    method SetFeatureHierarchy(features: string) returns (ok: bool)
      modifies this`featureHierarchy, this`nonHierarchicFeatures
      ensures var parts := Split(RemoveChar(features, ' '), ';');
              featureHierarchy == Split(parts[0], ',') &&
              nonHierarchicFeatures == (if |parts| >= 2 then Split(parts[1], ',') else [])
      ensures nonHierarchicFeatures == NonHierarchic(features)
      ensures var f := RemoveChar(features, ' ');
              ok <==> |f| > 0 && f[0] != ';'
    {
      var f := RemoveChar(features, ' ');
      var parts := Split(f, ';');
      featureHierarchy := Split(parts[0], ',');
      nonHierarchicFeatures := if |parts| >= 2 then Split(parts[1], ',') else [];
      SplitFirstEmpty(f, ';');
      ok := featureHierarchy != [""];
    }

    /**
     * The non-hierarchical pass for one record of a feature type: the
     * entries of that type's mapping, each attached to the genes; a type
     * without a mapping is skipped.
     */
    method AttachFeature(genes: seq<Annotation>, featureType: string, f: Feature)
      returns (out: seq<Annotation>, outcome: Outcome)
      ensures featureType !in annotationMapper ==> out == genes && outcome == Abandoned
      ensures featureType in annotationMapper ==> (out, outcome) == FeatureAttached(genes, annotationMapper[featureType], f)
    {
      if featureType !in annotationMapper {
        return genes, Abandoned;
      }
      var entries := annotationMapper[featureType];
      out := genes;
      for i := 0 to |entries|
        invariant FeatureAttached(out, entries[i..], f) == FeatureAttached(genes, entries, f)
      {
        assert entries[i..][0] == entries[i];
        var parts := Split(Inner(entries[i]), ':');
        if |parts| < 2 {
          return out, Abandoned;
        }
        var value := ColumnField(f, parts[1]);
        if value.None? {
          return out, Abandoned;
        }
        var next, result := AttachToGenes(out, f.seqid, f.start, f.end, parts[0], value.value);
        assert entries[i..][1..] == entries[i + 1..];
        if result != Done {
          return next, result;
        }
        out := next;
      }
      assert entries[|entries|..] == [];
      outcome := Done;
    }

    /** The protein loop of one gene: each pair gets the next protein id. */
    method AddProteins(pairs: seq<(Val, Val)>, gene: int)
      modifies this`proteinList, this`proteinNodeId
      ensures proteinList == old(proteinList) + ProteinsFor(pairs, old(proteinNodeId), gene)
      ensures proteinNodeId == old(proteinNodeId) + |pairs|
    {
      for k := 0 to |pairs|
        invariant proteinList == old(proteinList) + ProteinsFor(pairs[..k], old(proteinNodeId), gene)
        invariant proteinNodeId == old(proteinNodeId) + k
      {
        proteinNodeId := proteinNodeId + 1;
        proteinList := proteinList + [ProteinNode(proteinNodeId, pairs[k].0, pairs[k].1, gene)];
        assert ProteinsFor(pairs[..k + 1], old(proteinNodeId), gene) ==
               ProteinsFor(pairs[..k], old(proteinNodeId), gene) + [ProteinNode(proteinNodeId, pairs[k].0, pairs[k].1, gene)];
      }
      assert pairs[..|pairs|] == pairs;
    }

    /** The body of the conversion loop for one annotation. */
    method ConvertOne(a: Annotation)
      modifies this`geneNodeId, this`proteinNodeId, this`geneList, this`proteinList
      ensures State() == Step(old(State()), a, speciesName)
    {
      geneNodeId := geneNodeId + 1;
      var gene := GeneOf(a, geneNodeId, speciesName);
      if gene.Some? {
        geneList := geneList + [gene.value];
        var pairs := ProteinPairs(a);
        if pairs.Some? {
          AddProteins(pairs.value, geneNodeId);
        }
      }
    }

    /**
     * Step 6 of `parse_gff3_file`: each annotation becomes a gene node and
     * its protein nodes; then the genes are ordered by contig, start and
     * stop. The protein list is already ordered by id and repeat-free.
     */
    method Convert(annotations: seq<Annotation>)
      requires Valid()
      modifies this`geneNodeId, this`proteinNodeId, this`geneList, this`proteinList
      ensures Valid()
      ensures var n := Built(old(State()), annotations, speciesName);
              geneList == SortBy(n.genes, GeneLeq) && proteinList == n.proteins &&
              geneNodeId == n.geneId && proteinNodeId == n.proteinId
      ensures SortedBy(geneList, GeneLeq)
      ensures geneNodeId == old(geneNodeId) + |annotations|
    {
      ghost var start := State();
      for i := 0 to |annotations|
        invariant Built(State(), annotations[i..], speciesName) == Built(start, annotations, speciesName)
      {
        assert annotations[i..][0] == annotations[i];
        assert annotations[i..][1..] == annotations[i + 1..];
        ConvertOne(annotations[i]);
      }
      assert annotations[|annotations|..] == [];
      BuiltConsistent(start, annotations, speciesName);
      ghost var built := State();
      geneList := SortBy(geneList, GeneLeq);
      GeneLeqTotalPreorder();
      SortBySorted(built.genes, GeneLeq);
      forall i | 0 <= i < |geneList| ensures geneList[i].id <= geneNodeId {
        assert geneList[i] in multiset(built.genes);
      }
    }

    /**
     * `parse_gff3_file` from the print before step 6: the print names
     * `gene_annotation_dict`, so without a run of the non-hierarchical
     * gene loop it raises UnboundLocalError and nothing is converted;
     * otherwise the annotations are converted.
     */
    method ParseGff3File(annotations: seq<Annotation>, valueRead: bool) returns (exit: Exit)
      requires Valid()
      modifies this`geneNodeId, this`proteinNodeId, this`geneList, this`proteinList
      ensures Valid()
      ensures !DictBound(nonHierarchicFeatures, valueRead, annotations) ==>
                exit == Raised("UnboundLocalError") && State() == old(State())
      ensures DictBound(nonHierarchicFeatures, valueRead, annotations) ==>
                var n := Built(old(State()), annotations, speciesName);
                exit == Returned && geneList == SortBy(n.genes, GeneLeq) && proteinList == n.proteins &&
                geneNodeId == n.geneId && proteinNodeId == n.proteinId
    {
      if !DictBound(nonHierarchicFeatures, valueRead, annotations) {
        return Raised("UnboundLocalError");
      }
      Convert(annotations);
      exit := Returned;
    }

    /** `get_protein_dict`. */
    method GetProteinDict() returns (d: map<Val, (int, Val, int)>)
      ensures d == ProteinDict(proteinList)
    {
      d := map[];
      for i := 0 to |proteinList|
        invariant d == ProteinDict(proteinList[..i])
      {
        var protein := proteinList[i];
        assert proteinList[..i + 1][..i] == proteinList[..i];
        d := d[protein.name := (protein.id, protein.desc, protein.gene)];
      }
      assert proteinList[..|proteinList|] == proteinList;
    }
  }
}
