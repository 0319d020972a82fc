/**
 * The gene node CSV creator (`GeneToCSV`): the annotation files of a
 * project are parsed into one gene list, and the list is walked to write
 * the gene node file and the 5'/3' neighbour edge files, numbering genes on
 * from the last id of the project's dump and recording every gene's id in
 * the dump's gene-to-id dictionary.
 *
 * The three output files are opened for writing, so each run replaces
 * them: they are the line lists `nodeLines`, `fiveLines` and `threeLines`.
 * The project dump is read once by the constructor (`None` where the
 * pickle file does not exist) and updated in memory only: nothing in the
 * class writes it back.
 */
module GeneNodeCsv {
  import opened Wrappers
  import opened Strings
  import opened Seqs
  import opened NeighbourEdges
  import AnnotationParser
  import QueryCommon

  type Gene = AnnotationParser.Gene
  type Props = AnnotationParser.Props

  /** The gene-to-id dictionary's key: organism, chromosome, strand, start and name. */
  type GeneKey = (string, string, string, string, string)

  /** The pickled project dump; a key it does not hold is `None`. */
  datatype Dump = Dump(lastGeneId: Option<int>, geneIdDict: Option<map<GeneKey, int>>)

  const NodeHeader := "geneId:ID(Gene),organism,chromosome,strand,start:INT,end:INT,name\n"
  const EdgeHeader := ":START_ID(Gene),:END_ID(Gene)\n"

  function Key(g: Gene): GeneKey
  {
    (g.organism, g.chromosome, g.strand, g.start, g.name)
  }

  /** The node row of a gene with its id: all fields are text, so the join never fails. */
  function NodeRow(id: int, g: Gene): string
  {
    IntToString(id) + "," + Fields(g)
  }

  /** The gene's own fields of its node row, after the id. */
  function Fields(g: Gene): string
  {
    g.organism + "," + g.chromosome + "," + g.strand + "," + g.start + "," + g.end + "," + g.name + "\n"
  }

  /**
   * What the walk looks at: genes are numbered on from `last`; two
   * neighbours are joined when joining is asked for, they share organism
   * and chromosome, and both starts are non-empty.
   */
  function Slots(genes: seq<Gene>, last: int, connectNb: bool): (slots: seq<Slot<(string, string)>>)
    ensures |slots| == |genes|
  {
    seq(|genes|, i requires 0 <= i < |genes| =>
      Slot(last + 1 + i, (genes[i].organism, genes[i].chromosome), connectNb && |genes[i].start| > 0))
  }

  /** The node rows of the genes numbered on from `last`. */
  function Rows(genes: seq<Gene>, last: int): (rows: seq<string>)
    ensures |rows| == |genes|
  {
    seq(|genes|, i requires 0 <= i < |genes| => NodeRow(last + 1 + i, genes[i]))
  }

  /** A node row's first field is its id, so the row determines the id. */
  lemma NodeRowId(a: int, g: Gene, b: int, h: Gene)
    requires NodeRow(a, g) == NodeRow(b, h)
    ensures a == b
  {
    var s := NodeRow(a, g);
    var sa, sb := IntToString(a), IntToString(b);
    IntToStringNoComma(a);
    IntToStringNoComma(b);
    assert s == sa + ("," + Fields(g)) && s == sb + ("," + Fields(h));
    assert s[|sa|] == ',' && s[|sb|] == ',';
    assert s[..|sa|] == sa && s[..|sb|] == sb;
    FirstIndexAt(s, ',', |sa|);
    FirstIndexAt(s, ',', |sb|);
    ParseIntOfIntToString(a);
    ParseIntOfIntToString(b);
  }

  /** Every gene gets its own id, so no two node rows are the same. */
  lemma RowsDistinct(genes: seq<Gene>, last: int)
    ensures NoRepeats(Rows(genes, last))
  {
    var rows := Rows(genes, last);
    forall i, j | 0 <= i < j < |rows|
      ensures rows[i] != rows[j]
    {
      if rows[i] == rows[j] {
        NodeRowId(last + 1 + i, genes[i], last + 1 + j, genes[j]);
      }
    }
  }

  /** The dictionary keys of the genes, in list order. */
  function Keys(genes: seq<Gene>): (keys: seq<GeneKey>)
    ensures |keys| == |genes|
  {
    seq(|genes|, i requires 0 <= i < |genes| => Key(genes[i]))
  }

  /** The dictionary after recording the keys of the genes numbered on from `last`, one after the other. */
  function IdDict(d: map<GeneKey, int>, keys: seq<GeneKey>, last: int): map<GeneKey, int>
    decreases |keys|
  {
    if |keys| == 0 then d
    else IdDict(d, keys[..|keys| - 1], last)[keys[|keys| - 1] := last + |keys|]
  }

  /**
   * A key is in the dictionary exactly when it was there before or some
   * gene has it, and an old entry no gene has keeps its id.
   */
  lemma {:induction false} IdDictLookup(d: map<GeneKey, int>, keys: seq<GeneKey>, last: int, k: GeneKey)
    ensures k in IdDict(d, keys, last) <==> k in d || k in keys
    ensures k in d && k !in keys ==> k in IdDict(d, keys, last) && IdDict(d, keys, last)[k] == d[k]
    decreases |keys|
  {
    if |keys| > 0 {
      var front := keys[..|keys| - 1];
      IdDictLookup(d, front, last, k);
      assert keys == front + [keys[|keys| - 1]];
    }
  }

  /** A key gets the id of the last gene that has it. */
  lemma {:induction false} IdDictLast(d: map<GeneKey, int>, keys: seq<GeneKey>, last: int, i: nat)
    requires i < |keys|
    requires forall j :: i < j < |keys| ==> keys[j] != keys[i]
    ensures keys[i] in IdDict(d, keys, last) && IdDict(d, keys, last)[keys[i]] == last + 1 + i
    decreases |keys|
  {
    if i < |keys| - 1 {
      var front := keys[..|keys| - 1];
      IdDictLast(d, front, last, i);
    }
  }

  /**
   * The walk over the gene list, given what it looks at of each gene (its
   * slot, its node row and its key): each gene gets the next id and its key
   * is recorded; a join with the previous gene goes to both edge files,
   * then the gene's row goes to the node file.
   */
  method WalkGenes<K(==)>(slots: seq<Slot<K>>, rows: seq<string>, keys: seq<GeneKey>, last: int, dict: map<GeneKey, int>)
    returns (nodes: seq<string>, three: seq<string>, five: seq<string>, newDict: map<GeneKey, int>, lastId: int)
    requires |slots| == |rows| == |keys|
    requires forall i :: 0 <= i < |slots| ==> slots[i].id == last + 1 + i
    ensures nodes == rows
    ensures three == ThreePrimeLines(Links(slots, |slots|))
    ensures five == FivePrimeLines(Links(slots, |slots|))
    ensures newDict == IdDict(dict, keys, last)
    ensures lastId == last + |slots|
  {
    nodes, three, five, newDict := [], [], [], dict;
    var prev: Option<Slot<K>> := None;
    var prevId := last;
    for i := 0 to |slots|
      invariant prevId == last + i
      invariant prev == if i == 0 then None else Some(slots[i - 1])
      invariant nodes == rows[..i]
      invariant three == ThreePrimeLines(Links(slots, i))
      invariant five == FivePrimeLines(Links(slots, i))
      invariant newDict == IdDict(dict, keys[..i], last)
    {
      var cur := slots[i];
      var curId := prevId + 1;
      assert keys[..i + 1][..i] == keys[..i];
      newDict := newDict[keys[i] := curId];
      LinksStep(slots, i);
      if prev.Some? && prev.value.key == cur.key && prev.value.started && cur.started {
        three := three + [EdgeLine(prevId, curId)];
        five := five + [EdgeLine(curId, prevId)];
      }
      assert rows[..i + 1] == rows[..i] + [rows[i]];
      nodes := nodes + [rows[i]];
      prev := Some(cur);
      prevId := curId;
    }
    assert keys[..|slots|] == keys;
    assert rows[..|slots|] == rows;
    lastId := prevId;
  }

  /** Without joining, the edge files stay empty. */
  lemma {:induction false} NoConnectNoEdges(genes: seq<Gene>, last: int, n: nat)
    requires n <= |genes|
    ensures Links(Slots(genes, last, false), n) == []
  {
    if n > 0 {
      NoConnectNoEdges(genes, last, n - 1);
    }
  }

  /** Every edge joins two consecutive new ids. */
  lemma EdgesConsecutive(genes: seq<Gene>, last: int, connectNb: bool)
    ensures forall p :: p in Links(Slots(genes, last, connectNb), |genes|) ==>
              p.1 == p.0 + 1 && last + 1 < p.1 <= last + |genes|
  {
    LinksConsecutive(Slots(genes, last, connectNb), |genes|, last + 1);
  }

  /**
   * The 3' file holds `a,b` exactly when joining is asked for and `b` is
   * the id of a gene whose predecessor `a` shares its organism and
   * chromosome, both with a non-empty start.
   */
  lemma GeneJoins(genes: seq<Gene>, last: int, connectNb: bool, a: int, b: int)
    ensures EdgeLine(a, b) in ThreePrimeLines(Links(Slots(genes, last, connectNb), |genes|)) <==>
            exists i :: 0 < i < |genes| && a == last + i && b == last + 1 + i && GenesJoined(genes, connectNb, i)
  {
    var slots := Slots(genes, last, connectNb);
    ThreePrimeMembers(slots, |genes|, a, b);
    if EdgeLine(a, b) in ThreePrimeLines(Links(slots, |genes|)) {
      LinkedJoined(genes, last, connectNb, a, b);
    }
    if exists i :: 0 < i < |genes| && a == last + i && b == last + 1 + i && GenesJoined(genes, connectNb, i) {
      JoinedLinked(genes, last, connectNb, a, b);
    }
  }

  lemma LinkedJoined(genes: seq<Gene>, last: int, connectNb: bool, a: int, b: int)
    requires exists i :: 0 < i < |genes| && Linked(Slots(genes, last, connectNb), i) &&
                         a == Slots(genes, last, connectNb)[i - 1].id && b == Slots(genes, last, connectNb)[i].id
    ensures exists i :: 0 < i < |genes| && a == last + i && b == last + 1 + i && GenesJoined(genes, connectNb, i)
  {
    var slots := Slots(genes, last, connectNb);
    var i :| 0 < i < |genes| && Linked(slots, i) && a == slots[i - 1].id && b == slots[i].id;
    SlotsLinked(genes, last, connectNb, i);
  }

  lemma JoinedLinked(genes: seq<Gene>, last: int, connectNb: bool, a: int, b: int)
    requires exists i :: 0 < i < |genes| && a == last + i && b == last + 1 + i && GenesJoined(genes, connectNb, i)
    ensures exists i :: 0 < i < |genes| && Linked(Slots(genes, last, connectNb), i) &&
                        a == Slots(genes, last, connectNb)[i - 1].id && b == Slots(genes, last, connectNb)[i].id
  {
    var i :| 0 < i < |genes| && a == last + i && b == last + 1 + i && GenesJoined(genes, connectNb, i);
    SlotsLinked(genes, last, connectNb, i);
  }

  /** Joining is asked for, and gene `i` and its predecessor share organism and chromosome and both have a start. */
  predicate GenesJoined(genes: seq<Gene>, connectNb: bool, i: nat)
    requires 0 < i < |genes|
  {
    connectNb && genes[i - 1].organism == genes[i].organism && genes[i - 1].chromosome == genes[i].chromosome &&
    |genes[i - 1].start| > 0 && |genes[i].start| > 0
  }

  /** Gene `i` is joined to its predecessor exactly when the walk links their slots. */
  lemma SlotsLinked(genes: seq<Gene>, last: int, connectNb: bool, i: nat)
    requires 0 < i < |genes|
    ensures Slots(genes, last, connectNb)[i - 1].id == last + i && Slots(genes, last, connectNb)[i].id == last + 1 + i
    ensures Linked(Slots(genes, last, connectNb), i) <==> GenesJoined(genes, connectNb, i)
  {
    var slots := Slots(genes, last, connectNb);
    assert slots[i - 1] == Slot(last + i, (genes[i - 1].organism, genes[i - 1].chromosome), connectNb && |genes[i - 1].start| > 0);
    assert slots[i] == Slot(last + 1 + i, (genes[i].organism, genes[i].chromosome), connectNb && |genes[i].start| > 0);
  }

  /** A gene of the list read from one of the files. */
  ghost predicate Annotated(paths: seq<string>, tables: seq<seq<Props>>, n: nat, g: Gene)
    requires n <= |paths| == |tables|
  {
    exists p, j :: 0 <= p < n && 0 <= j < |tables[p]| && AnnotationParser.HasMandatory(tables[p][j]) &&
                   g == AnnotationParser.GeneOf(Stem(Basename(paths[p])), tables[p][j])
  }

  /**
   * The gene list of all files: each file's parse, sorted on its own, one
   * file after the other, as `gene_list.extend` builds it.
   */
  function AllGenes(format: string, paths: seq<string>, tables: seq<seq<Props>>): seq<Gene>
    requires |paths| == |tables|
  {
    QueryCommon.Flatten(FileParses(format, paths, tables))
  }

  /** The genes of each file, in file order. */
  function FileParses(format: string, paths: seq<string>, tables: seq<seq<Props>>): (parses: seq<seq<Gene>>)
    requires |paths| == |tables|
    ensures |parses| == |tables|
  {
    seq(|tables|, q requires 0 <= q < |tables| => FileParse(format, paths[q], tables[q]))
  }

  /** The genes one file contributes: its parse, or nothing when the parse fails. */
  function FileParse(format: string, path: string, table: seq<Props>): seq<Gene>
  {
    var parsed := AnnotationParser.ParsedGenes(format, path, table);
    if parsed.Ok? then parsed.value else []
  }


  /** The first file whose parse fails, with its error. */
  function FirstError(format: string, tables: seq<seq<Props>>): (r: Option<string>)
    ensures r.None? <==> forall p :: 0 <= p < |tables| ==> AnnotationParser.ParseError(format, tables[p]).None?
  {
    if |tables| == 0 then None
    else if AnnotationParser.ParseError(format, tables[0]).Some? then AnnotationParser.ParseError(format, tables[0])
    else
      var r := FirstError(format, tables[1..]);
      assert forall p :: 1 <= p < |tables| ==> tables[p] == tables[1..][p - 1];
      r
  }

  /** No file before `p` fails to parse. */
  predicate ParsedBefore(format: string, tables: seq<seq<Props>>, p: nat)
    requires p <= |tables|
  {
    forall q :: 0 <= q < p ==> AnnotationParser.ParseError(format, tables[q]).None?
  }

  /** A file that parses extends the parsed prefix by one. */
  lemma ParsedBeforeNext(format: string, tables: seq<seq<Props>>, p: nat)
    requires p < |tables| && ParsedBefore(format, tables, p)
    requires AnnotationParser.ParseError(format, tables[p]).None?
    ensures ParsedBefore(format, tables, p + 1)
  {
  }

  /** When file `p` is the first whose parse fails, its error is the first error. */
  lemma {:induction false} FirstErrorAt(format: string, tables: seq<seq<Props>>, p: nat)
    requires p < |tables| && ParsedBefore(format, tables, p)
    requires AnnotationParser.ParseError(format, tables[p]).Some?
    ensures FirstError(format, tables) == AnnotationParser.ParseError(format, tables[p])
  {
    if p > 0 {
      assert AnnotationParser.ParseError(format, tables[0]).None?;
      assert forall q :: 0 <= q < p - 1 ==> tables[1..][q] == tables[q + 1];
      FirstErrorAt(format, tables[1..], p - 1);
    }
  }

  /** Appending one more file's genes extends the list to that file. */
  lemma FileGenes(paths: seq<string>, format: string, p: nat, tables: seq<seq<Props>>, genes: seq<Gene>, before: seq<Gene>)
    requires p < |paths| == |tables|
    requires AnnotationParser.ParseError(format, tables[p]).None?
    requires forall g :: g in genes <==>
               exists j :: 0 <= j < |tables[p]| && g == AnnotationParser.GeneOf(Stem(Basename(paths[p])), tables[p][j])
    requires forall g :: g in before <==> Annotated(paths, tables, p, g)
    ensures forall g :: g in before + genes <==> Annotated(paths, tables, p + 1, g)
  {
  }

  /** When the first `n` files parse, their genes one after the other are exactly the genes read from them. */
  lemma {:induction false} AllGenesMembers(format: string, paths: seq<string>, tables: seq<seq<Props>>, n: nat)
    requires n <= |paths| == |tables|
    requires ParsedBefore(format, tables, n)
    ensures forall g :: g in QueryCommon.Flatten(FileParses(format, paths, tables)[..n]) <==> Annotated(paths, tables, n, g)
  {
    if n > 0 {
      var parses := FileParses(format, paths, tables);
      AllGenesMembers(format, paths, tables, n - 1);
      QueryCommon.FlattenStep(parses, n - 1);
      AnnotationParser.ParsedGenesError(format, paths[n - 1], tables[n - 1]);
      AnnotationParser.ParsedGenesContents(format, paths[n - 1], tables[n - 1], Stem(Basename(paths[n - 1])));
      FileGenes(paths, format, n - 1, tables, parses[n - 1], QueryCommon.Flatten(parses[..n - 1]));
    }
  }

  /** The three output files and the dump. */
  datatype Files = Files(nodes: seq<string>, five: seq<string>, three: seq<string>, dump: Dump)

  /**
   * What a run that parses `genes` leaves behind, numbering on from `last`
   * with the dictionary `dict`: headers, then one row per gene and one
   * line per join, and the dump with the last id given out and the keys
   * recorded.
   */
  function Output(genes: seq<Gene>, connectNb: bool, last: int, dict: map<GeneKey, int>): Files
  {
    var links := Links(Slots(genes, last, connectNb), |genes|);
    Files([NodeHeader] + Rows(genes, last), [EdgeHeader] + FivePrimeLines(links), [EdgeHeader] + ThreePrimeLines(links),
          Dump(Some(last + |genes|), Some(IdDict(dict, Keys(genes), last))))
  }

  class GeneToCsv {
    const annoFilePaths: seq<string>
    const outputFilePath: string
    const projectId: string
    const annoFileType: string
    /** The project dump, as read when the object was made and updated since. */
    var dump: Dump
    /** The lines of `<output>_gene_node.csv`, `<output>_gene_5nb.csv` and `<output>_gene_3nb.csv`. */
    var nodeLines: seq<string>
    var fiveLines: seq<string>
    var threeLines: seq<string>

    constructor (annoFilePathList: seq<string>, outputFilePath: string, projectId: string, annoFileType: string, pickled: Option<Dump>)
      ensures annoFilePaths == annoFilePathList && this.outputFilePath == outputFilePath
      ensures this.projectId == projectId && this.annoFileType == annoFileType
      ensures dump == if pickled.Some? then pickled.value else Dump(None, None)
      ensures nodeLines == [] && fiveLines == [] && threeLines == []
    {
      annoFilePaths := annoFilePathList;
      this.outputFilePath := outputFilePath;
      this.projectId := projectId;
      this.annoFileType := annoFileType;
      dump := if pickled.Some? then pickled.value else Dump(None, None);
      nodeLines, fiveLines, threeLines := [], [], [];
    }

    /** `project_dump_dict.get("last_gene_id", 0)`. */
    function LastGeneId(): int
      reads this`dump
    {
      if dump.lastGeneId.Some? then dump.lastGeneId.value else 0
    }

    /** `project_dump_dict.get("gene_id_dict", {})`. */
    function GeneIdDict(): map<GeneKey, int>
      reads this`dump
    {
      if dump.geneIdDict.Some? then dump.geneIdDict.value else map[]
    }

    /**
     * `create_csv` as written: the output files are truncated, then the
     * parse is asked of the annotation parser MODULE, which has no
     * `parse_annotation`; any file in the list raises AttributeError.
     * With no files, the headers are written and the dump keeps its ids.
     */
    method CreateCsvAsWritten(connectNb: bool) returns (exit: Exit)
      modifies this`nodeLines, this`fiveLines, this`threeLines, this`dump
      ensures |annoFilePaths| > 0 ==>
                exit == Raised("AttributeError") && nodeLines == [] && fiveLines == [] && threeLines == [] && dump == old(dump)
      ensures |annoFilePaths| == 0 ==>
                exit == Returned && nodeLines == [NodeHeader] && fiveLines == [EdgeHeader] && threeLines == [EdgeHeader] &&
                dump == Dump(Some(old(LastGeneId())), Some(old(GeneIdDict())))
    {
      var lastGeneId := LastGeneId();
      var geneIdDict := GeneIdDict();
      nodeLines, fiveLines, threeLines := [], [], [];
      if |annoFilePaths| > 0 {
        return Raised("AttributeError");
      }
      nodeLines := nodeLines + [NodeHeader];
      fiveLines := fiveLines + [EdgeHeader];
      threeLines := threeLines + [EdgeHeader];
      dump := Dump(Some(lastGeneId), Some(geneIdDict));
      exit := Returned;
    }

    /**
     * The gene list of all files: each file's genes, sorted, one file after
     * the other; the first file that fails ends the parse with its error.
     * `tables` holds each file's protein table.
     */
    method CollectGenes(tables: seq<seq<Props>>) returns (r: AnnotationParser.Result<seq<Gene>>)
      requires |tables| == |annoFilePaths|
      ensures r.Err? <==> FirstError(annoFileType, tables).Some?
      ensures r.Err? ==> r.error == FirstError(annoFileType, tables).value
      ensures r.Ok? ==> r.value == AllGenes(annoFileType, annoFilePaths, tables)
      ensures r.Ok? ==> forall g :: g in r.value <==> Annotated(annoFilePaths, tables, |tables|, g)
    {
      ghost var parses := FileParses(annoFileType, annoFilePaths, tables);
      var geneList: seq<Gene> := [];
      for p := 0 to |annoFilePaths|
        invariant ParsedBefore(annoFileType, tables, p)
        invariant geneList == QueryCommon.Flatten(parses[..p])
      {
        var extended := ParseFile(tables, p, geneList);
        if extended.Err? {
          FirstErrorAt(annoFileType, tables, p);
          return extended;
        }
        ParsedBeforeNext(annoFileType, tables, p);
        QueryCommon.FlattenStep(parses, p);
        geneList := extended.value;
      }
      assert parses[..|tables|] == parses;
      AllGenesMembers(annoFileType, annoFilePaths, tables, |tables|);
      r := AnnotationParser.Ok(geneList);
    }

    /** One pass of the file loop: the genes of file `p` appended to those of the files before it. */
    method ParseFile(tables: seq<seq<Props>>, p: nat, geneList: seq<Gene>) returns (r: AnnotationParser.Result<seq<Gene>>)
      requires p < |tables| == |annoFilePaths|
      ensures r.Err? <==> AnnotationParser.ParseError(annoFileType, tables[p]).Some?
      ensures r.Err? ==> r.error == AnnotationParser.ParseError(annoFileType, tables[p]).value
      ensures r.Ok? ==> r.value == geneList + FileParse(annoFileType, annoFilePaths[p], tables[p])
    {
      var genes := AnnotationParser.ParseAnnotation(annoFileType, annoFilePaths[p], tables[p]);
      if genes.Err? {
        return AnnotationParser.Err(genes.error);
      }
      r := AnnotationParser.Ok(geneList + genes.value);
    }

    /**
     * The header lines, then the walk over `genes` numbering on from
     * `last`; the dump takes the last id given out and the dictionary.
     */
    method WriteFiles(genes: seq<Gene>, connectNb: bool, last: int, dict: map<GeneKey, int>)
      modifies this`nodeLines, this`fiveLines, this`threeLines, this`dump
      ensures Files(nodeLines, fiveLines, threeLines, dump) == Output(genes, connectNb, last, dict)
    {
      var nodes, three, five, newDict, lastId :=
        WalkGenes(Slots(genes, last, connectNb), Rows(genes, last), Keys(genes), last, dict);
      nodeLines := [NodeHeader] + nodes;
      fiveLines := [EdgeHeader] + five;
      threeLines := [EdgeHeader] + three;
      dump := Dump(Some(lastId), Some(newDict));
    }

    /**
     * `create_csv` with the parse asked of the parser object: the output
     * files are truncated; a file whose parse fails raises its error; then
     * the headers and the walk are written, numbering on from the dump's
     * last id, and the dump takes the new last id and dictionary.
     */
    method CreateCsv(connectNb: bool, tables: seq<seq<Props>>) returns (exit: Exit)
      requires |tables| == |annoFilePaths|
      modifies this`nodeLines, this`fiveLines, this`threeLines, this`dump
      ensures FirstError(annoFileType, tables).Some? ==>
                exit == Raised(FirstError(annoFileType, tables).value) &&
                nodeLines == [] && fiveLines == [] && threeLines == [] && dump == old(dump)
      ensures FirstError(annoFileType, tables).None? ==>
                exit == Returned &&
                Files(nodeLines, fiveLines, threeLines, dump) ==
                  Output(AllGenes(annoFileType, annoFilePaths, tables), connectNb, old(LastGeneId()), old(GeneIdDict()))
    {
      var lastGeneId := LastGeneId();
      var geneIdDict := GeneIdDict();
      nodeLines, fiveLines, threeLines := [], [], [];
      var parsed := CollectGenes(tables);
      if parsed.Err? {
        return Raised(parsed.error);
      }
      WriteFiles(parsed.value, connectNb, lastGeneId, geneIdDict);
      exit := Returned;
    }
  }
}
