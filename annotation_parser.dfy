/**
 * The annotation parser front end (`AnnotationParser`): a format name picks
 * the parser, the parser lists the annotated genes without repeats, and the
 * list comes back ordered by organism, chromosome and start.
 *
 * The NCBI RefSeq parser reads a GFF3 file through another parser whose
 * protein table is not part of this model: it arrives here as the gene
 * attributes of each protein, in the table's key order.
 */
module AnnotationParser {
  import opened Wrappers
  import opened Strings
  import opened Sorting
  import opened Seqs

  datatype Result<T> = Ok(value: T) | Err(error: string)

  /** A gene: organism, chromosome, strand, start, end and name; start and end as the attribute text. */
  datatype Gene = Gene(organism: string, chromosome: string, strand: string, start: string, end: string, name: string)

  type Props = map<string, string>

  /** `int(start)`, where it parses. */
  function StartValue(g: Gene): int
  {
    match ParseInt(g.start)
    case Some(n) => n
    case None => 0
  }

  /** Organism, then chromosome, then the start as a number. */
  predicate GeneLeq(a: Gene, b: Gene)
  {
    StrLess(a.organism, b.organism) ||
    (a.organism == b.organism &&
      (StrLess(a.chromosome, b.chromosome) || (a.chromosome == b.chromosome && StartValue(a) <= StartValue(b))))
  }

  lemma GeneLeqTotalPreorder()
    ensures TotalPreorder(GeneLeq)
  {
    forall a: Gene, b: Gene ensures GeneLeq(a, b) || GeneLeq(b, a) {
      StrLessTrichotomy(a.organism, b.organism);
      StrLessTrichotomy(a.chromosome, b.chromosome);
    }
    forall a: Gene, b: Gene, c: Gene | GeneLeq(a, b) && GeneLeq(b, c) ensures GeneLeq(a, c) {
      if StrLess(a.organism, b.organism) && StrLess(b.organism, c.organism) {
        StrLessTrans(a.organism, b.organism, c.organism);
      }
      if StrLess(a.chromosome, b.chromosome) && StrLess(b.chromosome, c.chromosome) {
        StrLessTrans(a.chromosome, b.chromosome, c.chromosome);
      }
    }
  }

  /**
   * `sort_gene_list`: every key is computed first, so one start that is not
   * an integer raises ValueError; otherwise a stable sort by the key.
   */
  function SortGeneList(genes: seq<Gene>): (r: Result<seq<Gene>>)
    ensures r.Err? <==> exists i :: 0 <= i < |genes| && ParseInt(genes[i].start).None?
    ensures r.Err? ==> r.error == "ValueError"
    ensures r.Ok? ==> multiset(r.value) == multiset(genes) && SortedBy(r.value, GeneLeq)
  {
    if exists i :: 0 <= i < |genes| && ParseInt(genes[i].start).None? then Err("ValueError")
    else
      GeneLeqTotalPreorder();
      SortBySorted(genes, GeneLeq);
      Ok(SortBy(genes, GeneLeq))
  }

  /**
   * A list sorted this way has its keys in order: organisms, then
   * chromosomes within one organism, then numeric starts within one
   * chromosome.
   */
  lemma SortedGeneKeys(s: seq<Gene>, i: nat, j: nat)
    requires SortedBy(s, GeneLeq)
    requires i < j < |s|
    ensures StrLeq(s[i].organism, s[j].organism)
    ensures s[i].organism == s[j].organism ==> StrLeq(s[i].chromosome, s[j].chromosome)
    ensures s[i].organism == s[j].organism && s[i].chromosome == s[j].chromosome ==> StartValue(s[i]) <= StartValue(s[j])
  {
    assert GeneLeq(s[i], s[j]);
    StrLessTrichotomy(s[i].organism, s[j].organism);
    StrLessTrichotomy(s[i].chromosome, s[j].chromosome);
    StrLeqTotal(s[i].organism, s[i].organism);
    StrLeqTotal(s[i].chromosome, s[i].chromosome);
  }

  /** The gene attributes the parser requires; the others default to "NA". */
  predicate HasMandatory(props: Props)
  {
    "end" in props && "Name" in props
  }

  function GetOr(props: Props, key: string): string
  {
    if key in props then props[key] else "NA"
  }

  /** The gene one protein points at. */
  function GeneOf(organism: string, props: Props): (g: Gene)
    requires HasMandatory(props)
    ensures g.organism == organism && g.end == props["end"] && g.name == props["Name"]
    ensures g.chromosome == GetOr(props, "seqid") && g.strand == GetOr(props, "strand") && g.start == GetOr(props, "start")
  {
    Gene(organism, GetOr(props, "seqid"), GetOr(props, "strand"), GetOr(props, "start"), props["end"], props["Name"])
  }

  /** The gene of each protein of a table, in table order, repeats kept. */
  function TableGenes(organism: string, proteinGenes: seq<Props>): (genes: seq<Gene>)
    requires forall i :: 0 <= i < |proteinGenes| ==> HasMandatory(proteinGenes[i])
    ensures |genes| == |proteinGenes|
  {
    seq(|proteinGenes|, i requires 0 <= i < |proteinGenes| => GeneOf(organism, proteinGenes[i]))
  }

  /** The genes of a table are the genes of its proteins. */
  lemma TableGenesMembers(organism: string, proteinGenes: seq<Props>)
    requires forall i :: 0 <= i < |proteinGenes| ==> HasMandatory(proteinGenes[i])
    ensures forall g :: g in TableGenes(organism, proteinGenes) <==>
              exists i :: 0 <= i < |proteinGenes| && g == GeneOf(organism, proteinGenes[i])
  {
    var genes := TableGenes(organism, proteinGenes);
    forall g ensures g in genes <==> exists i :: 0 <= i < |proteinGenes| && g == GeneOf(organism, proteinGenes[i]) {
      if g in genes {
        var i :| 0 <= i < |genes| && genes[i] == g;
        assert g == GeneOf(organism, proteinGenes[i]);
      } else {
        forall i | 0 <= i < |proteinGenes| ensures g != GeneOf(organism, proteinGenes[i]) {
          assert genes[i] == GeneOf(organism, proteinGenes[i]);
        }
      }
    }
  }

  /**
   * What `parse_annotation` returns for a format, a file and the file's
   * protein table: KeyError for an unknown format or a gene without an end
   * or a name, else the repeat-free genes sorted by `sort_gene_list`.
   */
  function ParsedGenes(format: string, file: string, proteinGenes: seq<Props>): Result<seq<Gene>>
  {
    if format != "NCBI_refseq" then Err("KeyError")
    else if exists i :: 0 <= i < |proteinGenes| && !HasMandatory(proteinGenes[i]) then Err("KeyError")
    else SortGeneList(Distinct(TableGenes(Stem(Basename(file)), proteinGenes)))
  }

  /**
   * `parse_ncbi_refseq`: one gene per protein, named after the file; a
   * protein whose gene lacks an end or a name raises KeyError. Several
   * proteins of one gene leave one entry.
   */
  method ParseNcbiRefseq(annotationFilePath: string, proteinGenes: seq<Props>) returns (r: Result<seq<Gene>>)
    ensures r.Err? <==> exists i :: 0 <= i < |proteinGenes| && !HasMandatory(proteinGenes[i])
    ensures r.Err? ==> r.error == "KeyError"
    ensures r.Ok? ==> NoRepeats(r.value)
    ensures r.Ok? ==> r.value == Distinct(TableGenes(Stem(Basename(annotationFilePath)), proteinGenes))
    ensures r.Ok? ==> forall g :: g in r.value ==> g.organism == Stem(Basename(annotationFilePath))
    ensures r.Ok? ==> forall i :: 0 <= i < |proteinGenes| ==> GeneOf(Stem(Basename(annotationFilePath)), proteinGenes[i]) in r.value
    ensures r.Ok? ==> forall g :: g in r.value ==>
                        exists i :: 0 <= i < |proteinGenes| && g == GeneOf(Stem(Basename(annotationFilePath)), proteinGenes[i])
  {
    var organismName := Stem(Basename(annotationFilePath));
    var geneList: seq<Gene> := [];
    for i := 0 to |proteinGenes|
      invariant forall k :: 0 <= k < i ==> HasMandatory(proteinGenes[k])
      invariant |geneList| == i
      invariant forall k :: 0 <= k < i ==> geneList[k] == GeneOf(organismName, proteinGenes[k])
    {
      if !HasMandatory(proteinGenes[i]) {
        return Err("KeyError");
      }
      geneList := geneList + [GeneOf(organismName, proteinGenes[i])];
    }
    assert geneList == TableGenes(organismName, proteinGenes);
    TableGenesMembers(organismName, proteinGenes);
    r := Ok(Distinct(geneList));
  }

  /** A list holding exactly the genes of a table has a start that is not an integer exactly when the table has. */
  lemma StartsOfGenes(organism: string, proteinGenes: seq<Props>, genes: seq<Gene>)
    requires forall i :: 0 <= i < |proteinGenes| ==> HasMandatory(proteinGenes[i])
    requires forall g :: g in genes <==> exists i :: 0 <= i < |proteinGenes| && g == GeneOf(organism, proteinGenes[i])
    ensures (exists k :: 0 <= k < |genes| && ParseInt(genes[k].start).None?) <==>
            (exists i :: 0 <= i < |proteinGenes| && ParseInt(GetOr(proteinGenes[i], "start")).None?)
  {
    if exists i :: 0 <= i < |proteinGenes| && ParseInt(GetOr(proteinGenes[i], "start")).None? {
      var i :| 0 <= i < |proteinGenes| && ParseInt(GetOr(proteinGenes[i], "start")).None?;
      var g := GeneOf(organism, proteinGenes[i]);
      assert g in genes;
      var k :| 0 <= k < |genes| && genes[k] == g;
      assert ParseInt(genes[k].start).None?;
    }
    if exists k :: 0 <= k < |genes| && ParseInt(genes[k].start).None? {
      var k :| 0 <= k < |genes| && ParseInt(genes[k].start).None?;
      assert genes[k] in genes;
      var i :| 0 <= i < |proteinGenes| && genes[k] == GeneOf(organism, proteinGenes[i]);
      assert ParseInt(GetOr(proteinGenes[i], "start")).None?;
    }
  }

  /**
   * The error `parse_annotation` raises for a format and a protein table:
   * KeyError for an unknown format or a gene without an end or a name,
   * then ValueError for a start that is not an integer.
   */
  function ParseError(format: string, proteinGenes: seq<Props>): Option<string>
  {
    if format != "NCBI_refseq" then Some("KeyError")
    else if exists i :: 0 <= i < |proteinGenes| && !HasMandatory(proteinGenes[i]) then Some("KeyError")
    else if exists i :: 0 <= i < |proteinGenes| && ParseInt(GetOr(proteinGenes[i], "start")).None? then Some("ValueError")
    else None
  }

  /** Sorting the repeat-free genes of a table: ValueError exactly when a start is not an integer, else the same genes in order. */
  lemma SortedParse(organism: string, proteinGenes: seq<Props>, genes: seq<Gene>)
    requires forall i :: 0 <= i < |proteinGenes| ==> HasMandatory(proteinGenes[i])
    requires forall g :: g in genes <==> exists i :: 0 <= i < |proteinGenes| && g == GeneOf(organism, proteinGenes[i])
    requires NoRepeats(genes)
    ensures var r := SortGeneList(genes);
            (r.Err? <==> exists i :: 0 <= i < |proteinGenes| && ParseInt(GetOr(proteinGenes[i], "start")).None?) &&
            (r.Err? ==> r.error == "ValueError") &&
            (r.Ok? ==> NoRepeats(r.value) && SortedBy(r.value, GeneLeq) &&
                       forall g :: g in r.value <==> exists i :: 0 <= i < |proteinGenes| && g == GeneOf(organism, proteinGenes[i]))
  {
    StartsOfGenes(organism, proteinGenes, genes);
    var r := SortGeneList(genes);
    if r.Ok? {
      NoRepeatsPermutation(genes, r.value);
      forall g ensures g in r.value <==> g in genes {
        assert g in r.value <==> g in multiset(r.value);
      }
    }
  }

  /** The parse of a table fails exactly with the error `ParseError` names. */
  lemma ParsedGenesError(format: string, file: string, proteinGenes: seq<Props>)
    ensures ParsedGenes(format, file, proteinGenes).Err? <==> ParseError(format, proteinGenes).Some?
    ensures ParsedGenes(format, file, proteinGenes).Err? ==>
              ParsedGenes(format, file, proteinGenes).error == ParseError(format, proteinGenes).value
  {
    if format != "NCBI_refseq" || exists i :: 0 <= i < |proteinGenes| && !HasMandatory(proteinGenes[i]) {
      assert ParsedGenes(format, file, proteinGenes) == Err("KeyError");
      assert ParseError(format, proteinGenes) == Some("KeyError");
    } else {
      ParsedStartError(format, file, proteinGenes);
      assert ParseError(format, proteinGenes) ==
             if exists i :: 0 <= i < |proteinGenes| && ParseInt(GetOr(proteinGenes[i], "start")).None?
             then Some("ValueError") else None;
    }
  }

  /** With every end and name present, the parse fails exactly on a start that is not an integer, with ValueError. */
  lemma ParsedStartError(format: string, file: string, proteinGenes: seq<Props>)
    requires format == "NCBI_refseq"
    requires forall i :: 0 <= i < |proteinGenes| ==> HasMandatory(proteinGenes[i])
    ensures ParsedGenes(format, file, proteinGenes).Err? <==>
            exists i :: 0 <= i < |proteinGenes| && ParseInt(GetOr(proteinGenes[i], "start")).None?
    ensures ParsedGenes(format, file, proteinGenes).Err? ==> ParsedGenes(format, file, proteinGenes).error == "ValueError"
  {
    var organism := Stem(Basename(file));
    var d := Distinct(TableGenes(organism, proteinGenes));
    assert ParsedGenes(format, file, proteinGenes) == SortGeneList(d);
    TableStarts(organism, proteinGenes, d);
  }

  /** The repeat-free genes of a table have a start that is not an integer exactly when the table has. */
  lemma TableStarts(organism: string, proteinGenes: seq<Props>, d: seq<Gene>)
    requires forall i :: 0 <= i < |proteinGenes| ==> HasMandatory(proteinGenes[i])
    requires d == Distinct(TableGenes(organism, proteinGenes))
    ensures (exists k :: 0 <= k < |d| && ParseInt(d[k].start).None?) <==>
            (exists i :: 0 <= i < |proteinGenes| && ParseInt(GetOr(proteinGenes[i], "start")).None?)
  {
    TableGenesMembers(organism, proteinGenes);
    StartsOfGenes(organism, proteinGenes, d);
  }

  /**
   * A parse that succeeds holds the gene of every protein, each once,
   * sorted by the key.
   */
  lemma ParsedGenesContents(format: string, file: string, proteinGenes: seq<Props>, organism: string)
    requires ParsedGenes(format, file, proteinGenes).Ok? && organism == Stem(Basename(file))
    ensures var genes := ParsedGenes(format, file, proteinGenes).value;
            NoRepeats(genes) && SortedBy(genes, GeneLeq) &&
            forall g :: g in genes <==> exists i :: 0 <= i < |proteinGenes| && g == GeneOf(organism, proteinGenes[i])
  {
    var d := Distinct(TableGenes(organism, proteinGenes));
    assert ParsedGenes(format, file, proteinGenes) == SortGeneList(d);
    TableGenesMembers(organism, proteinGenes);
    SortedParse(organism, proteinGenes, d);
  }

  /**
   * `parse_annotation`: only "NCBI_refseq" is known, any other format
   * raises KeyError; the parser's genes come back sorted.
   */
  method ParseAnnotation(format: string, file: string, proteinGenes: seq<Props>) returns (r: Result<seq<Gene>>)
    ensures r.Err? <==> ParseError(format, proteinGenes).Some?
    ensures r.Err? ==> r.error == ParseError(format, proteinGenes).value
    ensures r == ParsedGenes(format, file, proteinGenes)
    ensures r.Ok? ==> NoRepeats(r.value) && SortedBy(r.value, GeneLeq)
    ensures r.Ok? ==> forall g :: g in r.value <==>
                        exists i :: 0 <= i < |proteinGenes| && g == GeneOf(Stem(Basename(file)), proteinGenes[i])
  {
    if format != "NCBI_refseq" {
      return Err("KeyError");
    }
    var geneList := ParseNcbiRefseq(file, proteinGenes);
    if geneList.Err? {
      return geneList;
    }
    r := SortGeneList(geneList.value);
    assert r == ParsedGenes(format, file, proteinGenes);
    ParsedGenesError(format, file, proteinGenes);
    if r.Ok? {
      ParsedGenesContents(format, file, proteinGenes, Stem(Basename(file)));
    }
  }
}
