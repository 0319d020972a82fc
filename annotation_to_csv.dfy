/**
 * The CSV creator for one project (`AnnoToCSV`): each annotation file is
 * parsed into gene and protein nodes, the protein dictionary is kept for
 * the homology step, and the sorted genes are walked to append gene node
 * rows and 3'/5' neighbour edges to the project's CSV files. Gene and
 * protein ids carry over from one file to the next.
 *
 * The CSV files, opened for appending, are lists of the lines appended to
 * them; the JSON dumps are a map from file name to dictionary.
 */
module AnnotationToCsv {
  import opened Wrappers
  import opened Strings
  import opened NeighbourEdges
  import opened Sorting
  import Gff3Parser

  type Val = Gff3Parser.Val
  type GeneNode = Gff3Parser.GeneNode

  /** Python truthiness: a non-zero number or a non-empty text. */
  predicate Truthy(v: Val)
  {
    match v
    case Text(t) => t != ""
    case Num(n) => n != 0
  }

  /** `str(v)`. */
  function Str(v: Val): string
  {
    match v
    case Text(t) => t
    case Num(n) => IntToString(n)
  }

  /** The walk joins genes of one contig whose starts are both set. */
  function Slots(genes: seq<GeneNode>): (slots: seq<Slot<Val>>)
    ensures |slots| == |genes|
    ensures forall i :: 0 <= i < |genes| ==> slots[i] == Slot(genes[i].id, genes[i].contig, Truthy(genes[i].start))
  {
    seq(|genes|, i requires 0 <= i < |genes| => Slot(genes[i].id, genes[i].contig, Truthy(genes[i].start)))
  }

  /**
   * The node row: the nine fields joined by commas. The join takes only
   * text, so a contig, name, chromosome, strand or phase that is a number
   * raises TypeError (`None`).
   */
  function NodeRow(g: GeneNode): (r: Option<string>)
    ensures r.Some? <==> TextFields(g)
  {
    if TextFields(g) then Some(RowText(g)) else None
  }

  predicate TextFields(g: GeneNode)
  {
    g.contig.Text? && g.name.Text? && g.chromosome.Text? && g.strand.Text? && g.phase.Text?
  }

  /** The nine fields of the row, the last with its line end. */
  function Fields(g: GeneNode): (fields: seq<string>)
    requires TextFields(g)
    ensures |fields| == 9 && fields[0] == IntToString(g.id)
  {
    [IntToString(g.id), g.species, g.contig.text, Str(g.start), Str(g.stop), g.name.text,
     g.chromosome.text, g.strand.text, g.phase.text + "\n"]
  }

  function RowText(g: GeneNode): string
    requires TextFields(g)
  {
    JoinText(Fields(g), ",")
  }

  /** The row of each gene, in list order. */
  function NodeRows(genes: seq<GeneNode>): (rows: seq<Option<string>>)
    ensures |rows| == |genes| && forall i :: 0 <= i < |genes| ==> rows[i] == NodeRow(genes[i])
  {
    seq(|genes|, i requires 0 <= i < |genes| => NodeRow(genes[i]))
  }

  /** What the walk over `genes` writes to the three files, and how it ends. */
  datatype Walked = Walked(nodes: seq<string>, three: seq<string>, five: seq<string>, exit: Exit)

  function WalkOf(genes: seq<GeneNode>): Walked
  {
    var rows := NodeRows(genes);
    Walked(Written(rows, RowsReached(rows)),
           ThreePrimeLines(Links(Slots(genes), GenesReached(rows))),
           FivePrimeLines(Links(Slots(genes), GenesReached(rows))),
           if FirstMissing(rows).None? then Returned else Raised("TypeError"))
  }

  /** Gene `i` follows gene `i - 1` on the same contig and both have a start. */
  predicate Joined(genes: seq<GeneNode>, i: nat)
    requires 0 < i < |genes|
  {
    genes[i - 1].contig == genes[i].contig && Truthy(genes[i - 1].start) && Truthy(genes[i].start)
  }

  /** Among the first `n` genes, the joins are exactly the neighbours on one contig that both have a start. */
  lemma JoinsUpTo(genes: seq<GeneNode>, n: nat, a: int, b: int)
    requires n <= |genes|
    ensures EdgeLine(a, b) in ThreePrimeLines(Links(Slots(genes), n)) <==>
            exists i :: 0 < i < n && Joined(genes, i) && a == genes[i - 1].id && b == genes[i].id
  {
    var slots := Slots(genes);
    ThreePrimeMembers(slots, n, a, b);
    assert forall i :: 0 < i < n ==> (Linked(slots, i) <==> Joined(genes, i));
  }

  /**
   * The 3' file of a walk holds `a,b` exactly when gene `b` follows gene
   * `a` on the same contig, both with a start, and the walk got as far as
   * `b`; the 5' file then holds `b,a`.
   */
  lemma WalkJoinsNeighbours(genes: seq<GeneNode>, a: int, b: int)
    ensures EdgeLine(a, b) in WalkOf(genes).three <==>
            exists i :: 0 < i < GenesReached(NodeRows(genes)) && Joined(genes, i) && a == genes[i - 1].id && b == genes[i].id
    ensures EdgeLine(a, b) in WalkOf(genes).three <==> EdgeLine(b, a) in WalkOf(genes).five
  {
    var n := GenesReached(NodeRows(genes));
    JoinsUpTo(genes, n, a, b);
    EdgesPaired(Links(Slots(genes), n), a, b);
  }

  /** A node row starts with the gene's id and a comma. */
  lemma RowStartsWithId(g: GeneNode)
    requires NodeRow(g).Some?
    ensures var id := IntToString(g.id) + ",";
            |id| <= |NodeRow(g).value| && NodeRow(g).value[..|id|] == id
  {
    var f := Fields(g);
    assert f[0] == IntToString(g.id);
    assert JoinText(f, ",") == f[0] + "," + JoinText(f[1..], ",");
    assert NodeRow(g).value == RowText(g);
  }

  /** The nodes the GFF3 parser builds for a file from the given ids. */
  function Converted(geneId: int, proteinId: int, path: string, annotations: seq<Gff3Parser.Annotation>): Gff3Parser.Nodes
  {
    Gff3Parser.Built(Gff3Parser.Nodes([], [], geneId, proteinId), annotations, Stem(Basename(path)))
  }

  /** Its gene list, ordered by contig, start and stop. */
  function SortedGenes(geneId: int, proteinId: int, path: string, annotations: seq<Gff3Parser.Annotation>): seq<GeneNode>
  {
    SortBy(Converted(geneId, proteinId, path, annotations).genes, Gff3Parser.GeneLeq)
  }

  class Creator {
    const filePath: string
    const csvPath: string
    var geneNodeId: int
    var proteinNodeId: int
    /** Lines appended to `gene_nodes.csv`, `gene_5nb.csv` and `gene_3nb.csv`. */
    var geneNodes: seq<string>
    var gene5nb: seq<string>
    var gene3nb: seq<string>
    /** The `<species>_protein_dict.json` files written. */
    var proteinDicts: map<string, map<Val, (int, Val, int)>>

    constructor (projId: string)
      ensures filePath == "Projects/" + projId + "/Files" && csvPath == "Projects/" + projId + "/CSV"
      ensures geneNodeId == 0 && proteinNodeId == 0
      ensures geneNodes == [] && gene5nb == [] && gene3nb == [] && proteinDicts == map[]
    {
      filePath := "Projects/" + projId + "/Files";
      csvPath := "Projects/" + projId + "/CSV";
      geneNodeId := 0;
      proteinNodeId := 0;
      geneNodes := [];
      gene5nb := [];
      gene3nb := [];
      proteinDicts := map[];
    }

    /** The walk over the sorted genes, appended to the three CSV files. */
    method WalkGenes(genes: seq<GeneNode>) returns (exit: Exit)
      modifies this`geneNodes, this`gene5nb, this`gene3nb
      ensures var w := WalkOf(genes);
              exit == w.exit && geneNodes == old(geneNodes) + w.nodes &&
              gene3nb == old(gene3nb) + w.three && gene5nb == old(gene5nb) + w.five
    {
      var nodes, three, five, ok := Walk(Slots(genes), NodeRows(genes));
      geneNodes := geneNodes + nodes;
      gene3nb := gene3nb + three;
      gene5nb := gene5nb + five;
      exit := if ok then Returned else Raised("TypeError");
    }

    /**
     * `set_annotation_mapper` then `set_feature_hierarchy`; their outcomes
     * are not looked at, and neither touches the ids or the node lists.
     */
    static method Configure(annoParser: Gff3Parser.Parser, annoMapping: string, featHierarchy: string)
      modifies annoParser
      ensures annoParser.State() == old(annoParser.State())
      ensures annoParser.nonHierarchicFeatures == Gff3Parser.NonHierarchic(featHierarchy)
    {
      var mappingOk := annoParser.SetAnnotationMapper(annoMapping);
      var hierarchyOk := annoParser.SetFeatureHierarchy(featHierarchy);
    }

    /**
     * The gff3 branch of `create_csv` up to the walk: a parser for the file
     * starting from the given ids, configured with the mapping and the
     * hierarchy, parses the file. Unless the parse raises, its sorted gene
     * list, protein dictionary and last ids are handed back.
     */
    static method ParseGff3(path: string, geneId: int, proteinId: int, annoMapping: string, featHierarchy: string,
                            annotations: seq<Gff3Parser.Annotation>, valueRead: bool)
      returns (exit: Exit, geneList: seq<GeneNode>, proteinDict: map<Val, (int, Val, int)>, lastGeneId: int, lastProteinId: int)
      ensures !Gff3Parser.DictBound(Gff3Parser.NonHierarchic(featHierarchy), valueRead, annotations) ==>
                exit == Raised("UnboundLocalError")
      ensures Gff3Parser.DictBound(Gff3Parser.NonHierarchic(featHierarchy), valueRead, annotations) ==>
                var n := Converted(geneId, proteinId, path, annotations);
                exit == Returned &&
                geneList == SortBy(n.genes, Gff3Parser.GeneLeq) && proteinDict == Gff3Parser.ProteinDict(n.proteins) &&
                lastGeneId == n.geneId == geneId + |annotations| && lastProteinId == n.proteinId >= proteinId
    {
      var annoParser := new Gff3Parser.Parser(path, geneId, proteinId);
      Configure(annoParser, annoMapping, featHierarchy);
      ghost var start := annoParser.State();
      assert start == Gff3Parser.Nodes([], [], geneId, proteinId);
      Gff3Parser.BuiltConsistent(start, annotations, annoParser.speciesName);
      exit := annoParser.ParseGff3File(annotations, valueRead);
      geneList := annoParser.geneList;
      proteinDict := annoParser.GetProteinDict();
      lastGeneId := annoParser.geneNodeId;
      lastProteinId := annoParser.proteinNodeId;
    }

    /**
     * The gff3 branch of `create_csv` up to the walk: the parser runs from
     * the current ids; unless it raises, the counters then take its last
     * ids and its protein dictionary is dumped. The sorted gene list is
     * handed back.
     */
    method ParseAndStore(speciesName: string, annofileName: string, annoMapping: string, featHierarchy: string,
                         annotations: seq<Gff3Parser.Annotation>, valueRead: bool) returns (exit: Exit, genes: seq<GeneNode>)
      modifies this`geneNodeId, this`proteinNodeId, this`proteinDicts
      ensures !Gff3Parser.DictBound(Gff3Parser.NonHierarchic(featHierarchy), valueRead, annotations) ==>
                exit == Raised("UnboundLocalError") && unchanged(this)
      ensures Gff3Parser.DictBound(Gff3Parser.NonHierarchic(featHierarchy), valueRead, annotations) ==>
                var n := Converted(old(geneNodeId), old(proteinNodeId), filePath + "/" + annofileName, annotations);
                exit == Returned &&
                geneNodeId == n.geneId == old(geneNodeId) + |annotations| && proteinNodeId == n.proteinId >= old(proteinNodeId) &&
                proteinDicts == old(proteinDicts)[speciesName + "_protein_dict.json" := Gff3Parser.ProteinDict(n.proteins)] &&
                genes == SortBy(n.genes, Gff3Parser.GeneLeq)
    {
      var proteinDict, lastGeneId, lastProteinId;
      exit, genes, proteinDict, lastGeneId, lastProteinId :=
        ParseGff3(filePath + "/" + annofileName, geneNodeId, proteinNodeId, annoMapping, featHierarchy, annotations, valueRead);
      if exit.Raised? {
        return;
      }
      geneNodeId := lastGeneId;
      proteinNodeId := lastProteinId;
      proteinDicts := proteinDicts[speciesName + "_protein_dict.json" := proteinDict];
    }

    /**
     * The gff3 branch of `create_csv`: parse and store, then walk the
     * sorted genes, unless the parse raises.
     */
    method CreateGff3(speciesName: string, annofileName: string, annoMapping: string, featHierarchy: string,
                      annotations: seq<Gff3Parser.Annotation>, valueRead: bool) returns (exit: Exit)
      modifies this
      ensures !Gff3Parser.DictBound(Gff3Parser.NonHierarchic(featHierarchy), valueRead, annotations) ==>
                exit == Raised("UnboundLocalError") && unchanged(this)
      ensures Gff3Parser.DictBound(Gff3Parser.NonHierarchic(featHierarchy), valueRead, annotations) ==>
                var n := Converted(old(geneNodeId), old(proteinNodeId), filePath + "/" + annofileName, annotations);
                geneNodeId == n.geneId == old(geneNodeId) + |annotations| && proteinNodeId == n.proteinId >= old(proteinNodeId) &&
                proteinDicts == old(proteinDicts)[speciesName + "_protein_dict.json" := Gff3Parser.ProteinDict(n.proteins)]
      ensures Gff3Parser.DictBound(Gff3Parser.NonHierarchic(featHierarchy), valueRead, annotations) ==>
                var w := WalkOf(SortedGenes(old(geneNodeId), old(proteinNodeId), filePath + "/" + annofileName, annotations));
                exit == w.exit && geneNodes == old(geneNodes) + w.nodes &&
                gene3nb == old(gene3nb) + w.three && gene5nb == old(gene5nb) + w.five
    {
      var genes;
      exit, genes := ParseAndStore(speciesName, annofileName, annoMapping, featHierarchy, annotations, valueRead);
      if exit.Raised? {
        return;
      }
      exit := WalkGenes(genes);
    }

    /**
     * `create_csv`: a gff3 file goes through the GFF3 parser, which raises
     * UnboundLocalError when its non-hierarchical gene loop never ran. A
     * csv file raises AttributeError, because the CSV parser has no
     * `parse_gff3_file`; any other type leaves the parser unbound.
     */
    method CreateCsv(speciesName: string, annofileName: string, annofileType: string, annoMapping: string,
                     featHierarchy: string, annotations: seq<Gff3Parser.Annotation>, valueRead: bool) returns (exit: Exit)
      modifies this
      ensures annofileType == "csv" ==> exit == Raised("AttributeError") && unchanged(this)
      ensures annofileType != "csv" && annofileType != "gff3" ==> exit == Raised("UnboundLocalError") && unchanged(this)
      ensures annofileType == "gff3" && !Gff3Parser.DictBound(Gff3Parser.NonHierarchic(featHierarchy), valueRead, annotations) ==>
                exit == Raised("UnboundLocalError") && unchanged(this)
      ensures annofileType == "gff3" && Gff3Parser.DictBound(Gff3Parser.NonHierarchic(featHierarchy), valueRead, annotations) ==>
                var n := Converted(old(geneNodeId), old(proteinNodeId), filePath + "/" + annofileName, annotations);
                geneNodeId == n.geneId == old(geneNodeId) + |annotations| && proteinNodeId == n.proteinId >= old(proteinNodeId) &&
                proteinDicts == old(proteinDicts)[speciesName + "_protein_dict.json" := Gff3Parser.ProteinDict(n.proteins)]
      ensures annofileType == "gff3" && Gff3Parser.DictBound(Gff3Parser.NonHierarchic(featHierarchy), valueRead, annotations) ==>
                var w := WalkOf(SortedGenes(old(geneNodeId), old(proteinNodeId), filePath + "/" + annofileName, annotations));
                exit == w.exit && geneNodes == old(geneNodes) + w.nodes &&
                gene3nb == old(gene3nb) + w.three && gene5nb == old(gene5nb) + w.five
    {
      if annofileType == "csv" {
        exit := Raised("AttributeError");
      } else if annofileType != "gff3" {
        exit := Raised("UnboundLocalError");
      } else {
        exit := CreateGff3(speciesName, annofileName, annoMapping, featHierarchy, annotations, valueRead);
      }
    }
  }
}
