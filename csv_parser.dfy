/**
 * The CSV annotation parser (`CSVParser`): each row of a CSV file with a
 * header line is one gene, and its `;`-separated protein names the
 * proteins it codes for. Genes and proteins get consecutive ids; the gene
 * list ends sorted by sequence name, start and stop.
 *
 * The CSV reader is not modelled: the file arrives as its rows, each a map
 * from the header's column names to the row's values.
 */
module CsvParser {
  import opened Wrappers
  import opened Strings
  import opened Sorting

  type Row = map<string, string>

  /** A gene node: id, species, sequence name, start, stop, name, chromosome, strand, frame. */
  datatype Gene = Gene(id: int, species: string, seqName: string, start: int, stop: int, name: string,
                       chromosome: string, strand: string, frame: string)

  /** A protein node: id, name, description and the id of its gene. */
  datatype Protein = Protein(id: int, name: string, desc: string, gene: int)

  /** `row.get(column, "?")`. */
  function Optional(row: Row, column: string): string
  {
    if column in row then row[column] else "?"
  }

  /** An integer column: KeyError when missing, ValueError when not an integer. */
  function IntColumn(row: Row, column: string): Result<int>
  {
    if column !in row then Err("KeyError")
    else match ParseInt(row[column])
      case None => Err("ValueError")
      case Some(n) => Ok(n)
  }

  datatype Result<T> = Ok(value: T) | Err(error: string)

  /**
   * The gene of one row, its fields looked up in the order the list is
   * built: the first missing column or bad integer is the error.
   */
  function GeneOf(row: Row, id: int, species: string): (r: Result<Gene>)
    ensures r.Ok? <==> "seq_name" in row && "gene_name" in row &&
                       IntColumn(row, "start_index").Ok? && IntColumn(row, "stop_index").Ok?
    ensures r.Ok? ==> r.value.id == id && r.value.seqName == row["seq_name"] && r.value.name == row["gene_name"] &&
                      ParseInt(row["start_index"]) == Some(r.value.start) && ParseInt(row["stop_index"]) == Some(r.value.stop) &&
                      r.value.chromosome == Optional(row, "chromosome_name") &&
                      r.value.strand == Optional(row, "strand_orientation") &&
                      r.value.frame == Optional(row, "coding_frame")
  {
    if "seq_name" !in row then Err("KeyError")
    else match IntColumn(row, "start_index")
      case Err(e) => Err(e)
      case Ok(start) =>
        match IntColumn(row, "stop_index")
        case Err(e) => Err(e)
        case Ok(stop) =>
          if "gene_name" !in row then Err("KeyError")
          else Ok(Gene(id, species, row["seq_name"], start, stop, row["gene_name"],
                       Optional(row, "chromosome_name"), Optional(row, "strand_orientation"), Optional(row, "coding_frame")))
  }

  /**
   * The descriptions the proteins of a row get: one each when the counts
   * match, otherwise the first description for every protein.
   */
  function Fitted(descs: seq<string>, n: nat): (r: seq<string>)
    requires |descs| >= 1
    ensures |r| == n
    ensures |descs| == n ==> r == descs
    ensures |descs| != n ==> forall i :: 0 <= i < n ==> r[i] == descs[0]
  {
    if |descs| == n then descs else seq(n, _ => descs[0])
  }

  /** The proteins of a row whose gene has id `gene`, numbered on from `lastId`. */
  function ProteinsOf(row: Row, lastId: int, gene: int): (ps: seq<Protein>)
    requires "protein_name" in row
    ensures var names := Split(row["protein_name"], ';');
            |ps| == |names| &&
            forall i :: 0 <= i < |ps| ==> ps[i].id == lastId + 1 + i && ps[i].name == names[i] && ps[i].gene == gene
  {
    var names := Split(row["protein_name"], ';');
    var descs := Fitted(Split(Optional(row, "protein_description"), ';'), |names|);
    seq(|names|, i requires 0 <= i < |names| => Protein(lastId + 1 + i, names[i], descs[i], gene))
  }

  /** Without a description column every protein is described as "?". */
  lemma NoDescriptionColumn(row: Row, lastId: int, gene: int)
    requires "protein_name" in row && "protein_description" !in row
    ensures forall p :: p in ProteinsOf(row, lastId, gene) ==> p.desc == "?"
  {
    var names := Split(row["protein_name"], ';');
    assert Split("?", ';') == ["?"];
  }

  /** Where the parse stands: the two id counters and the lists built so far. */
  datatype Acc = Acc(geneId: int, proteinId: int, genes: seq<Gene>, proteins: seq<Protein>)

  /** The parse of some rows: all of them, or up to the row that raised `error`. */
  datatype Parse = Done(acc: Acc) | Failed(acc: Acc, error: string)

  /** One row: the gene id moves on first, even when the row then fails. */
  function StepRow(acc: Acc, row: Row, species: string): Parse
  {
    var id := acc.geneId + 1;
    match GeneOf(row, id, species)
    case Err(e) => Failed(acc.(geneId := id), e)
    case Ok(gene) =>
      if "protein_name" !in row then Failed(acc.(geneId := id), "KeyError")
      else
        var ps := ProteinsOf(row, acc.proteinId, id);
        Done(Acc(id, acc.proteinId + |ps|, acc.genes + [gene], acc.proteins + ps))
  }

  function Fold(acc: Acc, rows: seq<Row>, species: string): Parse
    decreases |rows|
  {
    if |rows| == 0 then Done(acc)
    else match StepRow(acc, rows[0], species)
      case Failed(a, e) => Failed(a, e)
      case Done(a) => Fold(a, rows[1..], species)
  }

  /**
   * A full parse only appends: one gene per row, the gene counter moved on
   * by the number of rows and the protein counter by the number of
   * proteins added.
   */
  lemma {:induction false} FoldAppends(acc: Acc, rows: seq<Row>, species: string)
    requires Fold(acc, rows, species).Done?
    ensures var a := Fold(acc, rows, species).acc;
            acc.genes <= a.genes && acc.proteins <= a.proteins &&
            |a.genes| == |acc.genes| + |rows| && a.geneId == acc.geneId + |rows| &&
            a.proteinId == acc.proteinId + |a.proteins| - |acc.proteins|
    decreases |rows|
  {
    if |rows| > 0 {
      FoldAppends(StepRow(acc, rows[0], species).acc, rows[1..], species);
    }
  }

  /** The genes of a full parse are numbered on consecutively from the gene counter, in row order. */
  lemma {:induction false} FoldGeneIds(acc: Acc, rows: seq<Row>, species: string)
    requires Fold(acc, rows, species).Done?
    ensures var a := Fold(acc, rows, species).acc;
            |a.genes| == |acc.genes| + |rows| &&
            forall k :: |acc.genes| <= k < |a.genes| ==> a.genes[k].id == acc.geneId + 1 + k - |acc.genes|
    decreases |rows|
  {
    FoldAppends(acc, rows, species);
    if |rows| > 0 {
      var next := StepRow(acc, rows[0], species).acc;
      FoldGeneIds(next, rows[1..], species);
      FoldAppends(next, rows[1..], species);
      var a := Fold(acc, rows, species).acc;
      assert a.genes[|acc.genes|] == next.genes[|acc.genes|];
    }
  }

  /** Every protein a step adds names the gene the step added, and protein ids keep rising. */
  lemma StepProteins(acc: Acc, row: Row, species: string)
    requires StepRow(acc, row, species).Done?
    ensures var a := StepRow(acc, row, species).acc;
            a.proteins[..|acc.proteins|] == acc.proteins &&
            a.geneId == acc.geneId + 1 && a.genes[|a.genes| - 1].id == a.geneId &&
            a.proteins[|acc.proteins|..] == ProteinsOf(row, acc.proteinId, a.geneId) &&
            |a.proteins| - |acc.proteins| == |Split(row["protein_name"], ';')|
  {
    var a := StepRow(acc, row, species).acc;
    assert a.proteins[..|acc.proteins|] == acc.proteins;
    assert a.proteins[|acc.proteins|..] == ProteinsOf(row, acc.proteinId, a.geneId);
  }

  /** The sort key: sequence name, then start, then stop. */
  predicate GeneLeq(a: Gene, b: Gene)
  {
    StrLess(a.seqName, b.seqName) ||
    (a.seqName == b.seqName && (a.start < b.start || (a.start == b.start && a.stop <= b.stop)))
  }

  lemma GeneLeqTotalPreorder()
    ensures TotalPreorder(GeneLeq)
  {
    forall a: Gene, b: Gene ensures GeneLeq(a, b) || GeneLeq(b, a) {
      StrLessTrichotomy(a.seqName, b.seqName);
    }
    forall a: Gene, b: Gene, c: Gene | GeneLeq(a, b) && GeneLeq(b, c) ensures GeneLeq(a, c) {
      if StrLess(a.seqName, b.seqName) && StrLess(b.seqName, c.seqName) {
        StrLessTrans(a.seqName, b.seqName, c.seqName);
      }
    }
  }

  /** `get_protein_dict`: name to (id, description, gene id); a later protein of the same name wins. */
  function ProteinDict(proteins: seq<Protein>): map<string, (int, string, int)>
  {
    if |proteins| == 0 then map[]
    else
      var last := proteins[|proteins| - 1];
      ProteinDict(proteins[..|proteins| - 1])[last.name := (last.id, last.desc, last.gene)]
  }

  /** A name is in the dictionary iff some protein has it, and it maps to the last protein that has it. */
  lemma {:induction false} ProteinDictLookup(proteins: seq<Protein>, name: string)
    ensures name in ProteinDict(proteins) <==> exists i :: 0 <= i < |proteins| && proteins[i].name == name
    ensures forall i :: 0 <= i < |proteins| && proteins[i].name == name &&
                        (forall j :: i < j < |proteins| ==> proteins[j].name != name) ==>
                          ProteinDict(proteins)[name] == (proteins[i].id, proteins[i].desc, proteins[i].gene)
  {
    if |proteins| > 0 {
      var front := proteins[..|proteins| - 1];
      ProteinDictLookup(front, name);
      if exists i :: 0 <= i < |proteins| && proteins[i].name == name {
        var i :| 0 <= i < |proteins| && proteins[i].name == name;
        if i < |front| {
          assert front[i].name == name;
        }
      }
      forall i | 0 <= i < |proteins| && proteins[i].name == name &&
                 (forall j :: i < j < |proteins| ==> proteins[j].name != name)
        ensures ProteinDict(proteins)[name] == (proteins[i].id, proteins[i].desc, proteins[i].gene)
      {
        if i < |front| {
          assert front[i] == proteins[i];
          forall j | i < j < |front| ensures front[j].name != name {
            assert front[j] == proteins[j];
          }
        }
      }
    }
  }

  /** The exception a failed parse ends in: a missing column is caught and turned into `exit(1)`. */
  function ExitFor(error: string): Exit
  {
    if error == "KeyError" then Raised("SystemExit") else Raised(error)
  }

  class Parser {
    /** The CSV file's base name without extension. */
    const speciesName: string
    var geneId: int
    var proteinId: int
    var geneList: seq<Gene>
    var proteinList: seq<Protein>

    function State(): Acc
      reads this
    {
      Acc(geneId, proteinId, geneList, proteinList)
    }

    constructor (csvFilePath: string, geneId: int, proteinId: int)
      ensures speciesName == Stem(Basename(csvFilePath))
      ensures State() == Acc(geneId, proteinId, [], [])
    {
      speciesName := Stem(Basename(csvFilePath));
      this.geneId := geneId;
      this.proteinId := proteinId;
      geneList := [];
      proteinList := [];
    }

    /** The proteins of one row, appended one at a time with the next id each. */
    method AddProteins(row: Row, gene: int)
      requires "protein_name" in row
      modifies this`proteinId, this`proteinList
      ensures var ps := ProteinsOf(row, old(proteinId), gene);
              proteinList == old(proteinList) + ps && proteinId == old(proteinId) + |ps|
    {
      var names := Split(row["protein_name"], ';');
      var descs := Split(Optional(row, "protein_description"), ';');
      if |descs| != |names| {
        descs := seq(|names|, _ => descs[0]);
      }
      ghost var ps := ProteinsOf(row, proteinId, gene);
      ghost var before := proteinList;
      for i := 0 to |names|
        invariant proteinId == old(proteinId) + i
        invariant proteinList == before + ps[..i]
      {
        proteinId := proteinId + 1;
        proteinList := proteinList + [Protein(proteinId, names[i], descs[i], gene)];
        assert ps[..i + 1] == ps[..i] + [ps[i]];
      }
      assert ps[..|names|] == ps;
    }

    /** One row of the loop. */
    method ParseRow(row: Row) returns (error: Option<string>)
      modifies this`geneId, this`proteinId, this`geneList, this`proteinList
      ensures match StepRow(old(State()), row, speciesName)
              case Done(a) => error == None && State() == a
              case Failed(a, e) => error == Some(e) && State() == a
    {
      geneId := geneId + 1;
      var gene := GeneOf(row, geneId, speciesName);
      if gene.Err? {
        return Some(gene.error);
      }
      if "protein_name" !in row {
        return Some("KeyError");
      }
      AddProteins(row, geneId);
      geneList := geneList + [gene.value];
      error := None;
    }

    /**
     * `parse_csv`: the rows in order, then the gene list sorted by sequence
     * name, start and stop. A missing column ends the program (`exit(1)`);
     * a start or stop that is not an integer raises ValueError; either way
     * the lists stay as they were when the row failed, unsorted.
     */
    method ParseCsv(rows: seq<Row>) returns (exit: Exit)
      modifies this`geneId, this`proteinId, this`geneList, this`proteinList
      ensures match Fold(old(State()), rows, speciesName)
              case Done(a) =>
                exit == Returned && geneId == a.geneId && proteinId == a.proteinId && proteinList == a.proteins &&
                geneList == SortBy(a.genes, GeneLeq) && SortedBy(geneList, GeneLeq) &&
                multiset(geneList) == multiset(a.genes)
              case Failed(a, e) => exit == ExitFor(e) && State() == a
    {
      for i := 0 to |rows|
        invariant Fold(State(), rows[i..], speciesName) == Fold(old(State()), rows, speciesName)
      {
        assert rows[i..][0] == rows[i];
        assert rows[i..][1..] == rows[i + 1..];
        var error := ParseRow(rows[i]);
        if error.Some? {
          return ExitFor(error.value);
        }
      }
      assert rows[|rows|..] == [];
      GeneLeqTotalPreorder();
      SortBySorted(geneList, GeneLeq);
      geneList := SortBy(geneList, GeneLeq);
      exit := Returned;
    }

    /** `get_protein_dict`, one protein at a time. */
    method GetProteinDict() returns (d: map<string, (int, string, int)>)
      ensures d == ProteinDict(proteinList)
    {
      d := map[];
      for i := 0 to |proteinList|
        invariant d == ProteinDict(proteinList[..i])
      {
        assert proteinList[..i + 1][..i] == proteinList[..i];
        d := d[proteinList[i].name := (proteinList[i].id, proteinList[i].desc, proteinList[i].gene)];
      }
      assert proteinList[..|proteinList|] == proteinList;
    }
  }
}
