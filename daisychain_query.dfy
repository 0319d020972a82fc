/**
 * The query manager of the Daisychain server (`QueryManagement`): keyword
 * searches over gene nodes, BLAST searches, following one node's relations
 * and listing a project's species and contigs, answered as the JSON graph
 * the web client draws (WEB). The command-line format (CMD) is requested
 * with a call that does not match `send_data_cmd`'s parameters, so every
 * request that reaches it fails.
 *
 * The project database, the BLAST programs and the files they write are not
 * part of this model. What they answer is given as `Answers`: the exception
 * opening the project database raises (if any), the project's genes (for
 * the listings), the rows each Cypher query returns, how the BLAST program
 * ran and the lines of its result file. A request's outcome is the list of
 * replies sent and how the handler ended.
 */
module DaisychainQuery {
  import opened Wrappers
  import opened Strings
  import opened Seqs
  import opened Sorting
  import opened QueryCommon
  import Dispatch

  /** A gene node's properties, in the order the server reads them. */
  datatype Gene = Gene(species: string, contig: string, start: int, stop: int,
                       name: string, descr: string, ntSeq: string)

  /** A protein node's properties: its sequence, and the species and name of the coding gene. */
  datatype Protein = Protein(aaSeq: string, species: string, name: string)

  /** A neighbour relation between two genes, or a gene and the protein it codes for. */
  datatype Rel = Rel(source: string, kind: string, target: string)

  /** A homology between two genes or two proteins, with the clustering sensitivity and the percentage of matching residues. */
  datatype Hmlg = Hmlg(source: string, kind: string, sensitivity: string, percMatch: string, target: string)

  /** The nodes (dict items, in insertion order) and relation lists one request collects. */
  datatype Hits = Hits(genes: seq<(string, Gene)>, proteins: seq<(string, Protein)>,
                       nb: seq<Rel>, geneHmlg: seq<Hmlg>, proteinHmlg: seq<Hmlg>, coding: seq<Rel>)

  /** One outgoing relation of a gene: its type, the gene it leads to and the relation's two properties. */
  datatype Link = Link(kind: string, target: string, sensitivity: string, percMatch: string)

  /** A row of a gene query: a gene, and one outgoing relation to another gene if it has any. */
  datatype GeneRow = GeneRow(id: string, gene: Gene, link: Option<Link>)

  datatype Answers = Answers(
    failure: Option<string>,   // the exception opening the project database raises
    genes: seq<Gene>,          // the project's gene nodes, for the listings
    geneRows: seq<GeneRow>,    // keyword search
    blastRun: ProcessRun,      // the BLAST program
    blastLines: seq<string>,   // its result file, one hit id per line
    blastRows: seq<GeneRow>,   // the genes of the first 20 hits
    relationHits: Hits)        // what the query for a node's relations collects

  const NoHits := Hits([], [], [], [], [], [])

  /** The graph with neither nodes nor edges. */
  const EmptyGraph := "{\"nodes\": [],\"edges\": []}"

  // ---------------------------------------------------------------------
  // Routing

  datatype Route = Search | Blast | Relations | Listing | Unknown

  /**
   * `evaluate_user_request`: SEAR with 7 fields whose last is not BLAST is a
   * keyword search, SEAR with 8 fields whose last is BLAST a BLAST search,
   * RELA needs 5 fields and LIST 3 or 4, each with an all-digit project id;
   * anything else is answered "-8". The second field is read before the
   * length is checked, so a lone SEAR, RELA or LIST fails with IndexError
   * (`None`), as does an empty request.
   */
  function RouteOf(fields: seq<string>): (r: Option<Route>)
    ensures r == None <==> |fields| == 0 || (|fields| == 1 && fields[0] in ["SEAR", "RELA", "LIST"])
    ensures r == Some(Search) <==> |fields| == 7 && fields[0] == "SEAR" && IsDigits(fields[1]) && fields[6] != "BLAST"
    ensures r == Some(Blast) <==> |fields| == 8 && fields[0] == "SEAR" && IsDigits(fields[1]) && fields[7] == "BLAST"
    ensures r == Some(Relations) <==> |fields| == 5 && fields[0] == "RELA" && IsDigits(fields[1])
    ensures r == Some(Listing) <==> 3 <= |fields| <= 4 && fields[0] == "LIST" && IsDigits(fields[1])
  {
    if |fields| == 0 then None
    else if fields[0] == "SEAR" && |fields| < 2 then None
    else if fields[0] == "SEAR" && IsDigits(fields[1]) && |fields| == 7 && fields[6] != "BLAST" then Some(Search)
    else if fields[0] == "SEAR" && IsDigits(fields[1]) && |fields| == 8 && fields[|fields| - 1] == "BLAST" then Some(Blast)
    else if fields[0] == "RELA" && |fields| < 2 then None
    else if fields[0] == "RELA" && IsDigits(fields[1]) && |fields| == 5 then Some(Relations)
    else if fields[0] == "LIST" && |fields| < 2 then None
    else if fields[0] == "LIST" && IsDigits(fields[1]) && 3 <= |fields| <= 4 then Some(Listing)
    else Some(Unknown)
  }

  /** The outcome of one request. */
  function Evaluate(fields: seq<string>, a: Answers): (seq<string>, Exit)
  {
    match RouteOf(fields)
    case None => ([], Raised("IndexError"))
    case Some(Search) => FindNodeResult(fields[1..], a)
    case Some(Blast) => var (replies, exit, _) := BlastResult(fields[1..], a); (replies, exit)
    case Some(Relations) => RelationsResult(fields[1..], a)
    case Some(Listing) => ListingResult(fields[1..], a)
    case Some(Unknown) => (["-8"], Returned)
  }

  method EvaluateUserRequest(fields: seq<string>, a: Answers) returns (replies: seq<string>, exit: Exit)
    ensures (replies, exit) == Evaluate(fields, a)
  {
    var route := RouteOf(fields);
    match route
    case None =>
      replies, exit := [], Raised("IndexError");
    case Some(Search) =>
      replies, exit := FindNode(fields[1..], a);
    case Some(Blast) =>
      var search;
      replies, exit, search := BlastSearchRequest(fields[1..], a);
    case Some(Relations) =>
      replies, exit := FindNodeRelations(fields[1..], a);
    case Some(Listing) =>
      replies, exit := ListItems(fields[1..], a);
    case Some(Unknown) =>
      replies, exit := ["-8"], Returned;
  }

  /**
   * How a request for a graph ends once its nodes and edges are collected:
   * the CMD call fails on its extra argument, and the WEB reply fails when
   * a homology's node id has no number after its first letter.
   */
  function Send(format: string, h: Hits): (seq<string>, Exit)
  {
    if format == "CMD" then ([], Raised("TypeError"))
    else match WebReply(h)
      case None => ([], Raised("ValueError"))
      case Some(reply) => ([reply], Returned)
  }

  method SendData(format: string, h: Hits) returns (replies: seq<string>, exit: Exit)
    ensures (replies, exit) == Send(format, h)
  {
    if format == "CMD" {
      return [], Raised("TypeError");
    }
    var reply := SendDataWeb(h);
    if reply.None? {
      return [], Raised("ValueError");
    }
    replies, exit := [reply.value], Returned;
  }

  // ---------------------------------------------------------------------
  // Collecting gene rows

  function GeneItems(rows: seq<GeneRow>): (r: seq<(string, Gene)>)
    ensures |r| == |rows|
  {
    seq(|rows|, i requires 0 <= i < |rows| => (rows[i].id, rows[i].gene))
  }

  predicate IsNeighbourLink(link: Option<Link>)
  {
    link.Some? && link.value.kind in ["5_NB", "3_NB"]
  }

  predicate IsHomologLink(link: Option<Link>)
  {
    link.Some? && link.value.kind == "HOMOLOG"
  }

  /** No relation is both a neighbour and a homology. */
  lemma LinkKindsDisjoint(link: Option<Link>)
    ensures !(IsNeighbourLink(link) && IsHomologLink(link))
  {
    if link.Some? && link.value.kind == "HOMOLOG" {
      assert |link.value.kind| == 7;
    }
  }

  /** The neighbour relation each row adds, if any. */
  function NbLinks(rows: seq<GeneRow>): (r: seq<seq<Rel>>)
    ensures |r| == |rows|
  {
    seq(|rows|, i requires 0 <= i < |rows| =>
      if IsNeighbourLink(rows[i].link) then [Rel(rows[i].id, rows[i].link.value.kind, rows[i].link.value.target)] else [])
  }

  /** The homology each row adds, if any. */
  function HmlgLinks(rows: seq<GeneRow>): (r: seq<seq<Hmlg>>)
    ensures |r| == |rows|
  {
    seq(|rows|, i requires 0 <= i < |rows| =>
      if IsHomologLink(rows[i].link) then [HmlgOf(rows[i])] else [])
  }

  /** What a search collects from the rows of its gene query. */
  function GeneHits(rows: seq<GeneRow>): Hits
  {
    Hits(Nodes(GeneItems(rows)), [], Flatten(NbLinks(rows)), Flatten(HmlgLinks(rows)), [], [])
  }

  /**
   * The loop over a gene query's rows: each row sets its gene's entry and
   * files its relation as a neighbour or a homology; other relations, and
   * rows without one, add no edge.
   */
  method CollectGenes(rows: seq<GeneRow>) returns (h: Hits)
    ensures h == GeneHits(rows)
  {
    ghost var items, nbLinks, hmlgLinks := GeneItems(rows), NbLinks(rows), HmlgLinks(rows);
    var genes, nb, hmlg := [], [], [];
    for i := 0 to |rows|
      invariant genes == Nodes(items[..i])
      invariant nb == Flatten(nbLinks[..i])
      invariant hmlg == Flatten(hmlgLinks[..i])
    {
      NodesStep(items, i);
      FlattenStep(nbLinks, i);
      FlattenStep(hmlgLinks, i);
      var row := rows[i];
      LinkKindsDisjoint(row.link);
      genes := Put(genes, row.id, row.gene);
      if row.link.Some? {
        if row.link.value.kind in ["5_NB", "3_NB"] {
          assert nbLinks[i] == [Rel(row.id, row.link.value.kind, row.link.value.target)] && hmlgLinks[i] == [];
          nb := nb + [Rel(row.id, row.link.value.kind, row.link.value.target)];
        } else if row.link.value.kind == "HOMOLOG" {
          assert nbLinks[i] == [] && hmlgLinks[i] == [HmlgOf(row)];
          hmlg := hmlg + [Hmlg(row.id, "HOMOLOG", row.link.value.sensitivity, row.link.value.percMatch, row.link.value.target)];
        } else {
          assert nbLinks[i] == [] && hmlgLinks[i] == [];
        }
      } else {
        assert nbLinks[i] == [] && hmlgLinks[i] == [];
      }
    }
    assert items[..|rows|] == items;
    assert nbLinks[..|rows|] == nbLinks;
    assert hmlgLinks[..|rows|] == hmlgLinks;
    h := Hits(genes, [], nb, hmlg, [], []);
  }

  /**
   * A search's graph: each gene of the rows once, in the order first found;
   * a neighbour edge for each row with a 5' or 3' relation and a homology
   * for each row with a HOMOLOG relation, each starting at the row's gene.
   */
  lemma GeneHitsFromRows(rows: seq<GeneRow>)
    ensures Keys(GeneHits(rows).genes) == Distinct(Keys(GeneItems(rows)))
    ensures forall r :: r in GeneHits(rows).nb <==> NeighbourRow(rows, r)
    ensures forall x :: x in GeneHits(rows).geneHmlg <==> HomologRow(rows, x)
  {
    NodesKeys(GeneItems(rows));
    NbFromRows(rows);
    HmlgFromRows(rows);
  }

  /** Some row holds the neighbour relation `r`. */
  predicate NeighbourRow(rows: seq<GeneRow>, r: Rel)
  {
    exists i :: 0 <= i < |rows| && IsNeighbourLink(rows[i].link) && r == Rel(rows[i].id, rows[i].link.value.kind, rows[i].link.value.target)
  }

  /** Some row holds the homology `x`. */
  predicate HomologRow(rows: seq<GeneRow>, x: Hmlg)
  {
    exists i :: 0 <= i < |rows| && IsHomologLink(rows[i].link) && x == HmlgOf(rows[i])
  }

  function HmlgOf(row: GeneRow): Hmlg
    requires row.link.Some?
  {
    Hmlg(row.id, "HOMOLOG", row.link.value.sensitivity, row.link.value.percMatch, row.link.value.target)
  }

  lemma NbFromRows(rows: seq<GeneRow>)
    ensures forall r :: r in Flatten(NbLinks(rows)) <==> NeighbourRow(rows, r)
  {
    var links := NbLinks(rows);
    forall r ensures r in Flatten(links) <==> NeighbourRow(rows, r) {
      if r in Flatten(links) {
        var k :| 0 <= k < |links| && r in links[k];
      }
      if NeighbourRow(rows, r) {
        var i :| 0 <= i < |rows| && IsNeighbourLink(rows[i].link) && r == Rel(rows[i].id, rows[i].link.value.kind, rows[i].link.value.target);
        assert r in links[i];
      }
    }
  }

  lemma HmlgFromRows(rows: seq<GeneRow>)
    ensures forall x :: x in Flatten(HmlgLinks(rows)) <==> HomologRow(rows, x)
  {
    var links := HmlgLinks(rows);
    forall x ensures x in Flatten(links) <==> HomologRow(rows, x) {
      if x in Flatten(links) {
        var k :| 0 <= k < |links| && x in links[k];
        assert x == HmlgOf(rows[k]);
      }
      if HomologRow(rows, x) {
        var i :| 0 <= i < |rows| && IsHomologLink(rows[i].link) && x == HmlgOf(rows[i]);
        assert x in links[i];
      }
    }
  }

  // ---------------------------------------------------------------------
  // Keyword search

  function NormaliseTerms(terms: seq<string>): (r: seq<string>)
    ensures |r| == |terms|
  {
    seq(|terms|, i requires 0 <= i < |terms| => NormaliseTerm(terms[i]))
  }

  /** A list comprehension `[item for item in parts if item]`. */
  function NonEmpty(parts: seq<string>): (r: seq<string>)
    ensures forall k :: k in r <==> k in parts && k != ""
    ensures (forall i :: 0 <= i < |parts| ==> parts[i] == "") ==> r == []
  {
    if |parts| == 0 then []
    else
      var rest := NonEmpty(parts[1..]);
      assert parts == [parts[0]] + parts[1..];
      if parts[0] != "" then [parts[0]] + rest else rest
  }

  /** The keywords of a keyword term: lower-cased, split on spaces, empty ones dropped. */
  function Keywords(term: string): (r: seq<string>)
    ensures forall k :: k in r ==> k != "" && ' ' !in k
  {
    NonEmpty(Split(Lower(term), ' '))
  }

  /** A term that is one word is one keyword, lower-cased. */
  lemma KeywordsOfWord(term: string)
    requires term != "" && ' ' !in term
    ensures Keywords(term) == [Lower(term)]
  {
    var low := Lower(term);
    assert ' ' !in low by {
      forall i | 0 <= i < |low| ensures low[i] != ' ' {
        assert low[i] == LowerChar(term[i]);
      }
    }
    assert Split(low, ' ') == [low];
    assert low != "";
    assert NonEmpty([low]) == [low] + NonEmpty([]);
  }

  /** A term of spaces only (the empty term among them) has no keywords. */
  lemma KeywordsOfBlanks(term: string)
    requires forall i :: 0 <= i < |term| ==> term[i] == ' '
    ensures Keywords(term) == []
  {
    assert Lower(term) == term;
    SplitBlanks(term);
  }

  lemma {:induction false} SplitBlanks(s: string)
    requires forall i :: 0 <= i < |s| ==> s[i] == ' '
    ensures forall i :: 0 <= i < |Split(s, ' ')| ==> Split(s, ' ')[i] == ""
  {
    if |s| > 0 {
      SplitBlanks(s[1..]);
      assert Split(s, ' ') == [""] + Split(s[1..], ' ');
    }
  }

  /** The gene query a keyword search runs. */
  datatype SearchQuery = SearchQuery(mode: string, species: string, contig: string, keywords: seq<string>)

  /**
   * The query for the terms `[species, contig, keywords, mode]`: all
   * keywords (ALL) or any of them (ANY) must occur in a gene's name or
   * description; with no keywords, or any other mode, no query runs.
   */
  function SearchQueryOf(terms: seq<string>): (r: Option<SearchQuery>)
    requires |terms| == 4
    ensures r.Some? <==> Keywords(terms[2]) != [] && Upper(terms[3]) in ["ALL", "ANY"]
    ensures r.Some? ==> r.value.mode in ["ALL", "ANY"] && r.value.keywords != []
    ensures r.Some? ==> forall k :: k in r.value.keywords ==> k != "" && ' ' !in k
  {
    var keywords := Keywords(terms[2]);
    var mode := if |keywords| == 0 then "none" else Upper(terms[3]);
    if mode == "ALL" || mode == "ANY" then Some(SearchQuery(mode, Lower(terms[0]), Lower(terms[1]), keywords))
    else None
  }

  function SearchHits(terms: seq<string>, a: Answers): Hits
    requires |terms| == 4
  {
    if SearchQueryOf(terms).Some? then GeneHits(a.geneRows) else NoHits
  }

  /**
   * `find_node` on `[project, format, species, contig, keywords, mode]`:
   * opening the database comes first, then "-9" for a format other than
   * CMD and WEB, "-10" unless there are four terms.
   */
  function FindNodeResult(args: seq<string>, a: Answers): (seq<string>, Exit)
    requires |args| >= 2
  {
    if a.failure.Some? then ([], Raised(a.failure.value))
    else if args[1] != "CMD" && args[1] != "WEB" then (["-9"], Returned)
    else
      var terms := NormaliseTerms(args[2..]);
      if |terms| != 4 then (["-10"], Returned)
      else Send(args[1], SearchHits(terms, a))
  }

  method FindNode(args: seq<string>, a: Answers) returns (replies: seq<string>, exit: Exit)
    requires |args| >= 2
    ensures (replies, exit) == FindNodeResult(args, a)
  {
    if a.failure.Some? {
      return [], Raised(a.failure.value);
    }
    var format := args[1];
    if format != "CMD" && format != "WEB" {
      return ["-9"], Returned;
    }
    var terms := NormaliseTerms(args[2..]);
    if |terms| != 4 {
      return ["-10"], Returned;
    }
    var query := SearchQueryOf(terms);
    var hits := NoHits;
    if query.Some? {
      hits := CollectGenes(a.geneRows);
    }
    replies, exit := SendData(format, hits);
  }

  /** A WEB search whose keyword term holds no keyword runs no query and answers the empty graph. */
  lemma NoKeywordsEmptyGraph(args: seq<string>, a: Answers)
    requires |args| == 6 && a.failure.None? && args[1] == "WEB"
    requires Keywords(NormaliseTerm(args[4])) == []
    ensures FindNodeResult(args, a) == ([EmptyGraph], Returned)
  {
    assert NormaliseTerms(args[2..])[2] == NormaliseTerm(args[4]);
    EmptyGraphReply();
  }

  /** A routed search always has four terms, so "-10" is never its answer. */
  lemma SearchNeverShort(fields: seq<string>, a: Answers)
    requires RouteOf(fields) == Some(Search)
    ensures "-10" !in Evaluate(fields, a).0
  {
    var args := fields[1..];
    if a.failure.None? && args[1] == "WEB" {
      WebReplyIsObject(SearchHits(NormaliseTerms(args[2..]), a));
    }
  }

  // ---------------------------------------------------------------------
  // BLAST search

  /** `[line for line in lines if '>' not in line]`, kept in order. */
  function DropHeaders(lines: seq<string>): (r: seq<string>)
    ensures forall l :: l in r <==> l in lines && '>' !in l
  {
    if |lines| == 0 then []
    else
      var front := lines[..|lines| - 1];
      var last := lines[|lines| - 1];
      assert lines == front + [last];
      var r := DropHeaders(front);
      if '>' in last then r else r + [last]
  }

  /** The query sequence: upper-cased, its FASTA header lines dropped, its other lines joined. */
  function CleanSequence(s: string): string
  {
    Concat(DropHeaders(Split(Upper(s), '\n')))
  }

  /** The loop that drops the header lines, skipping each line holding a `>`. */
  method DropHeaderLines(lines: seq<string>) returns (kept: seq<string>)
    ensures kept == DropHeaders(lines)
  {
    kept := [];
    for i := 0 to |lines|
      invariant kept == DropHeaders(lines[..i])
    {
      assert lines[..i + 1][..i] == lines[..i];
      if '>' in lines[i] {
        continue;
      }
      kept := kept + [lines[i]];
    }
    assert lines[..|lines|] == lines;
  }

  predicate IsBase(c: char)
  {
    c in "ACGTU"
  }

  /** A sequence made of nucleotides only; the empty sequence is one. */
  predicate IsNucleotide(s: string)
  {
    forall i :: 0 <= i < |s| ==> IsBase(s[i])
  }

  /** The loop that decides between blastn and blastp, stopping at the first non-nucleotide. */
  method DetectNucleotide(query: string) returns (isNucleotide: bool)
    ensures isNucleotide == IsNucleotide(query)
  {
    isNucleotide := true;
    var i := 0;
    while i < |query|
      invariant 0 <= i <= |query|
      invariant forall k :: 0 <= k < i ==> IsBase(query[k])
    {
      if !IsBase(query[i]) {
        isNucleotide := false;
        break;
      }
      i := i + 1;
    }
  }

  lemma ConcatChars(parts: seq<string>, c: char)
    requires c in Concat(parts)
    ensures exists k :: 0 <= k < |parts| && c in parts[k]
  {
    if c !in parts[0] {
      ConcatChars(parts[1..], c);
      var k :| 0 <= k < |parts[1..]| && c in parts[1..][k];
      assert c in parts[k + 1];
    }
  }

  lemma {:induction false} SplitChars(s: string, sep: char, c: char)
    requires exists k :: 0 <= k < |Split(s, sep)| && c in Split(s, sep)[k]
    ensures c in s
    decreases |s|
  {
    var parts := Split(s, sep);
    var k :| 0 <= k < |parts| && c in parts[k];
    if |s| > 0 {
      var rest := Split(s[1..], sep);
      if s[0] == sep {
        assert parts == [""] + rest;
        assert c in rest[k - 1];
        SplitChars(s[1..], sep, c);
      } else if k == 0 && c == s[0] {
      } else if k == 0 {
        assert parts[0] == [s[0]] + rest[0];
        SplitChars(s[1..], sep, c);
      } else {
        assert parts[k] == rest[k];
        SplitChars(s[1..], sep, c);
      }
    }
  }

  /** The cleaned sequence holds no line break, no `>` and no lower-case letter. */
  lemma CleanSequenceChars(s: string)
    ensures forall c :: c in CleanSequence(s) ==> c != '\n' && c != '>' && !('a' <= c <= 'z')
  {
    var upper := Upper(s);
    var parts := Split(upper, '\n');
    var kept := DropHeaders(parts);
    forall c | c in CleanSequence(s) ensures c != '\n' && c != '>' && !('a' <= c <= 'z') {
      ConcatChars(kept, c);
      var k :| 0 <= k < |kept| && c in kept[k];
      assert kept[k] in kept;
      var j :| 0 <= j < |parts| && parts[j] == kept[k];
      SplitChars(upper, '\n', c);
      var i :| 0 <= i < |upper| && upper[i] == c;
      assert upper[i] == UpperChar(s[i]);
    }
  }

  /** A one-line sequence without a header is only upper-cased. */
  lemma SingleLineSequence(s: string)
    requires '\n' !in s && '>' !in s
    ensures CleanSequence(s) == Upper(s)
  {
    var upper := Upper(s);
    assert '\n' !in upper && '>' !in upper by {
      forall i | 0 <= i < |upper| ensures upper[i] != '\n' && upper[i] != '>' {
        assert upper[i] == UpperChar(s[i]);
      }
    }
    assert Split(upper, '\n') == [upper];
    assert DropHeaders([upper]) == [upper] by {
      assert [upper][..0] == [];
    }
    assert Concat([upper]) == upper + Concat([]);
  }

  /** A one-line sequence is searched with blastn exactly when every letter is A, C, G, T or U in either case. */
  lemma NucleotideInAnyCase(s: string)
    requires '\n' !in s && '>' !in s
    ensures IsNucleotide(CleanSequence(s)) <==> forall i :: 0 <= i < |s| ==> s[i] in "ACGTUacgtu"
  {
    SingleLineSequence(s);
    var upper := Upper(s);
    forall i | 0 <= i < |s| ensures IsBase(upper[i]) <==> s[i] in "ACGTUacgtu" {
      assert upper[i] == UpperChar(s[i]);
      BaseInAnyCase(s[i]);
    }
  }

  lemma BaseInAnyCase(c: char)
    ensures IsBase(UpperChar(c)) <==> c in "ACGTUacgtu"
  {}

  /** A lone header line leaves the empty sequence, which counts as nucleotides. */
  lemma HeaderOnlySequence(s: string)
    requires '\n' !in s && '>' in s
    ensures CleanSequence(s) == "" && IsNucleotide(CleanSequence(s))
  {
    var upper := Upper(s);
    var i :| 0 <= i < |s| && s[i] == '>';
    assert upper[i] == UpperChar(s[i]) == '>';
    assert '\n' !in upper by {
      forall j | 0 <= j < |upper| ensures upper[j] != '\n' {
        assert upper[j] == UpperChar(s[j]);
      }
    }
    assert Split(upper, '\n') == [upper];
    assert DropHeaders([upper]) == [] by {
      assert [upper][..0] == [];
    }
  }

  /**
   * The ids of the first 20 hits of the result file: each line stripped,
   * lower-cased and prefixed with `g` (blastn) or `p` (blastp).
   */
  function HitIds(prefix: string, lines: seq<string>): (r: seq<string>)
    ensures |r| <= 20 && |r| <= |lines|
    ensures |lines| >= 20 ==> |r| == 20
    ensures forall i :: 0 <= i < |r| ==> StartsWith(r[i], prefix) && r[i][|prefix|..] == Lower(Strip(lines[i]))
  {
    var ids := seq(|lines|, i requires 0 <= i < |lines| => prefix + Lower(Strip(lines[i])));
    if |ids| <= 20 then ids else ids[..20]
  }

  /** What a BLAST search asks for: the program, its query file and e-value, then the gene query on the hits. */
  datatype BlastSearch = BlastSearch(nucleotide: bool, fasta: string, evalue: string,
                                     species: string, contig: string, ids: seq<string>)

  /**
   * `blast` on `[project, format, species, contig, evalue, sequence, BLAST]`,
   * every field unescaped: "-9" for a format other than CMD and WEB comes
   * before the database is opened; a species or contig `*` matches all; a
   * nucleotide sequence runs blastn against the transcripts, any other
   * blastp against the translations. The third component is the search
   * that reaches the database, if any.
   */
  function BlastResult(args: seq<string>, a: Answers): (seq<string>, Exit, Option<BlastSearch>)
    requires |args| >= 6
  {
    var args := MapStrings(args, Dispatch.Unescape);
    if args[1] != "CMD" && args[1] != "WEB" then (["-9"], Returned, None)
    else if a.failure.Some? then ([], Raised(a.failure.value), None)
    else
      var species := if args[2] == "*" then "" else args[2];
      var contig := if args[3] == "*" then "" else args[3];
      var query := CleanSequence(args[5]);
      var nucleotide := IsNucleotide(query);
      match a.blastRun
      case LaunchFailed => ([], Raised("FileNotFoundError"), None)
      case Exited(_) =>
        var ids := HitIds(if nucleotide then "g" else "p", a.blastLines);
        var search := BlastSearch(nucleotide, ">query_seq\n" + query, args[4], Lower(species), Lower(contig), ids);
        var (replies, exit) := Send(args[1], GeneHits(a.blastRows));
        (replies, exit, Some(search))
  }

  method BlastSearchRequest(args: seq<string>, a: Answers) returns (replies: seq<string>, exit: Exit, search: Option<BlastSearch>)
    requires |args| >= 6
    ensures (replies, exit, search) == BlastResult(args, a)
  {
    var fields := MapStrings(args, Dispatch.Unescape);
    var format := fields[1];
    if format != "CMD" && format != "WEB" {
      return ["-9"], Returned, None;
    }
    var species := if fields[2] == "*" then "" else fields[2];
    var contig := if fields[3] == "*" then "" else fields[3];
    var lines := DropHeaderLines(Split(Upper(fields[5]), '\n'));
    var query := Concat(lines);
    if a.failure.Some? {
      return [], Raised(a.failure.value), None;
    }
    var nucleotide := DetectNucleotide(query);
    if a.blastRun.LaunchFailed? {
      return [], Raised("FileNotFoundError"), None;
    }
    var ids := HitIds(if nucleotide then "g" else "p", a.blastLines);
    search := Some(BlastSearch(nucleotide, ">query_seq\n" + query, fields[4], Lower(species), Lower(contig), ids));
    var hits := CollectGenes(a.blastRows);
    replies, exit := SendData(format, hits);
  }

  /**
   * A routed BLAST search with a bad format is answered "-9" whatever the
   * database would do, while one that gets as far as the gene query asks
   * for at most 20 hit ids, named like the nodes of the program's kind.
   */
  lemma BlastChecksFormatFirst(fields: seq<string>, a: Answers)
    requires RouteOf(fields) == Some(Blast)
    ensures var format := Dispatch.Unescape(fields[2]);
      (format != "CMD" && format != "WEB" ==> Evaluate(fields, a) == (["-9"], Returned))
    ensures var search := BlastResult(fields[1..], a).2;
      search.Some? ==> (|search.value.ids| <= 20 &&
        (forall i :: 0 <= i < |search.value.ids| ==> StartsWith(search.value.ids[i], if search.value.nucleotide then "g" else "p")))
  {
    assert MapStrings(fields[1..], Dispatch.Unescape)[1] == Dispatch.Unescape(fields[2]);
  }

  // ---------------------------------------------------------------------
  // A node's relations

  function NormaliseRelation(kind: string): string
  {
    if kind == "5NB" then "5_NB" else if kind == "3NB" then "3_NB" else kind
  }

  predicate Supported(kind: string)
  {
    kind in ["5_NB", "3_NB", "HOMOLOG", "CODING", "53NB"]
  }

  lemma SupportedRelations(kind: string)
    ensures Supported(NormaliseRelation(kind)) <==> kind in ["5NB", "3NB", "5_NB", "3_NB", "HOMOLOG", "CODING", "53NB"]
  {}

  /** Whether a relation of this kind from a node of this type runs a query. */
  predicate Queries(nodeType: string, kind: string)
  {
    kind == "CODING" || kind == "HOMOLOG" || (kind == "53NB" && nodeType == "Gene")
  }

  /**
   * `find_node_relations` on `[project, format, node, relation]`: opening the
   * database comes first, then "-9" for a bad format; an empty node id
   * fails with IndexError and one starting with neither `g` nor `p` is
   * answered "-10". An unsupported relation is answered "-12", after which
   * the handler carries on and sends the (empty) graph as well.
   */
  function RelationsResult(args: seq<string>, a: Answers): (seq<string>, Exit)
    requires |args| >= 4
  {
    if a.failure.Some? then ([], Raised(a.failure.value))
    else if args[1] != "CMD" && args[1] != "WEB" then (["-9"], Returned)
    else if |args[2]| == 0 then ([], Raised("IndexError"))
    else if args[2][0] != 'g' && args[2][0] != 'p' then (["-10"], Returned)
    else
      var nodeType := if args[2][0] == 'g' then "Gene" else "Protein";
      var kind := NormaliseRelation(args[3]);
      var pre := if Supported(kind) then [] else ["-12"];
      var (replies, exit) := Send(args[1], if Queries(nodeType, kind) then a.relationHits else NoHits);
      (pre + replies, exit)
  }

  method FindNodeRelations(args: seq<string>, a: Answers) returns (replies: seq<string>, exit: Exit)
    requires |args| >= 4
    ensures (replies, exit) == RelationsResult(args, a)
  {
    if a.failure.Some? {
      return [], Raised(a.failure.value);
    }
    var format := args[1];
    if format != "CMD" && format != "WEB" {
      return ["-9"], Returned;
    }
    if |args[2]| == 0 {
      return [], Raised("IndexError");
    }
    if args[2][0] != 'g' && args[2][0] != 'p' {
      return ["-10"], Returned;
    }
    var nodeType := if args[2][0] == 'g' then "Gene" else "Protein";
    var kind := NormaliseRelation(args[3]);
    replies := [];
    if !Supported(kind) {
      replies := ["-12"];
    }
    var hits := NoHits;
    if Queries(nodeType, kind) {
      hits := a.relationHits;
    }
    var sent;
    sent, exit := SendData(format, hits);
    replies := replies + sent;
  }

  /**
   * An unsupported relation does not end the handler: a WEB request gets
   * "-12" and then the empty graph, a CMD request "-12" and then fails.
   */
  lemma UnsupportedRelationCarriesOn(args: seq<string>, a: Answers)
    requires |args| >= 4 && a.failure.None? && |args[2]| > 0 && args[2][0] in "gp"
    requires !Supported(NormaliseRelation(args[3]))
    ensures args[1] == "WEB" ==> RelationsResult(args, a) == (["-12", EmptyGraph], Returned)
    ensures args[1] == "CMD" ==> RelationsResult(args, a) == (["-12"], Raised("TypeError"))
  {
    var nodeType := if args[2][0] == 'g' then "Gene" else "Protein";
    var kind := NormaliseRelation(args[3]);
    assert !Queries(nodeType, kind);
    EmptyGraphReply();
    if args[1] == "CMD" || args[1] == "WEB" {
      assert args[2][0] == 'g' || args[2][0] == 'p';
      var sent := Send(args[1], NoHits);
      assert sent == if args[1] == "CMD" then ([], Raised("TypeError")) else ([EmptyGraph], Returned);
      assert (if Supported(kind) then [] else ["-12"]) == ["-12"];
      assert RelationsResult(args, a) == (["-12"] + sent.0, sent.1);
      if args[1] == "CMD" {
        assert ["-12"] + sent.0 == ["-12"];
      } else {
        assert ["-12"] + sent.0 == ["-12", EmptyGraph];
      }
    }
  }

  /** The single neighbour kinds are accepted, but no branch queries them, so their graph is empty. */
  lemma NeighbourKindsFindNothing(args: seq<string>, a: Answers)
    requires |args| >= 4 && a.failure.None? && args[1] == "WEB" && |args[2]| > 0 && args[2][0] in "gp"
    requires args[3] in ["5NB", "3NB", "5_NB", "3_NB"]
    ensures RelationsResult(args, a) == ([EmptyGraph], Returned)
  {
    var nodeType := if args[2][0] == 'g' then "Gene" else "Protein";
    assert Supported(NormaliseRelation(args[3])) && !Queries(nodeType, NormaliseRelation(args[3]));
    EmptyGraphReply();
    var sent := Send(args[1], NoHits);
    assert sent == ([EmptyGraph], Returned);
    assert RelationsResult(args, a) == ([] + sent.0, sent.1);
    assert [] + sent.0 == [EmptyGraph];
  }

  /**
   * The CMD format never answers with a graph: a routed search or BLAST
   * search fails without a reply, and a relation request at most reports
   * "-10" or "-12".
   */
  lemma CmdNeverAnswers(fields: seq<string>, a: Answers)
    requires RouteOf(fields) in {Some(Search), Some(Blast), Some(Relations)} && fields[2] == "CMD"
    ensures forall r :: r in Evaluate(fields, a).0 ==> r in ["-10", "-12"]
    ensures RouteOf(fields) != Some(Relations) ==> Evaluate(fields, a).0 == [] && Evaluate(fields, a).1.Raised?
  {
    if RouteOf(fields) == Some(Blast) {
      assert MapStrings(fields[1..], Dispatch.Unescape)[1] == Dispatch.Unescape(fields[2]);
      assert Dispatch.Unescape("CMD") == "CMD";
    }
  }

  /** A database that cannot be opened fails every search, relation and listing request before anything is sent. */
  lemma FailureBeforeFormat(fields: seq<string>, a: Answers)
    requires RouteOf(fields) in {Some(Search), Some(Relations), Some(Listing)} && a.failure.Some?
    ensures Evaluate(fields, a) == ([], Raised(a.failure.value))
  {}

  // ---------------------------------------------------------------------
  // Listings

  function SpeciesOf(genes: seq<Gene>): (r: seq<string>)
    ensures |r| == |genes|
  {
    seq(|genes|, i requires 0 <= i < |genes| => genes[i].species)
  }

  /** The contigs of the genes, of one species or of all. */
  function ContigsOf(genes: seq<Gene>, species: Option<string>): (r: seq<string>)
    ensures forall c :: c in r <==>
      exists i :: 0 <= i < |genes| && genes[i].contig == c && (species.None? || genes[i].species == species.value)
  {
    if |genes| == 0 then []
    else
      var front := genes[..|genes| - 1];
      var g := genes[|genes| - 1];
      var r := ContigsOf(front, species);
      assert forall i :: 0 <= i < |front| ==> front[i] == genes[i];
      if species.None? || g.species == species.value then r + [g.contig] else r
  }

  /**
   * What a listing lists: the species, or the contigs of all species (no
   * species given, or `*`) or of one (escaped as it travels); anything else
   * lists nothing.
   */
  function ListingValues(args: seq<string>, a: Answers): seq<string>
    requires |args| >= 2
  {
    if args[1] == "SPECIES" then Distinctly(SpeciesOf(a.genes))
    else if args[1] == "CONTIG" && |args| == 2 then Distinctly(ContigsOf(a.genes, None))
    else if args[1] == "CONTIG" && |args| == 3 && args[2] == "*" then Distinctly(ContigsOf(a.genes, None))
    else if args[1] == "CONTIG" && |args| == 3 then Distinctly(ContigsOf(a.genes, Some(Dispatch.Unescape(args[2]))))
    else []
  }

  /**
   * The listing as written: the contig query for a request without a
   * species is run, but its result is then replaced by the empty list of
   * the `else` that belongs to the later `len == 3` tests.
   */
  function ListingValuesAsWritten(args: seq<string>, a: Answers): seq<string>
    requires |args| >= 2
  {
    if args[1] == "SPECIES" then Distinctly(SpeciesOf(a.genes))
    else if args[1] == "CONTIG" && |args| == 2 then []
    else ListingValues(args, a)
  }

  /** `list_items` on `[project, SPECIES]` or `[project, CONTIG(, species)]`: one value per line. */
  function ListingResult(args: seq<string>, a: Answers): (seq<string>, Exit)
    requires |args| >= 2
  {
    if a.failure.Some? then ([], Raised(a.failure.value))
    else ([Join(ListingValues(args, a), '\n')], Returned)
  }

  method ListItems(args: seq<string>, a: Answers) returns (replies: seq<string>, exit: Exit)
    requires |args| >= 2
    ensures (replies, exit) == ListingResult(args, a)
  {
    if a.failure.Some? {
      return [], Raised(a.failure.value);
    }
    var container: seq<string> := [];
    if args[1] == "SPECIES" {
      container := Distinctly(SpeciesOf(a.genes));
    }
    if args[1] == "CONTIG" && 2 <= |args| <= 3 {
      var species: Option<string>;
      if |args| == 2 {
        species := None;
      } else if args[2] == "*" {
        species := None;
      } else {
        species := Some(Dispatch.Unescape(args[2]));
      }
      container := Distinctly(ContigsOf(a.genes, species));
    }
    replies, exit := [Join(container, '\n')], Returned;
  }

  /**
   * A contig listing without a species, or with `*`, holds every contig of
   * the project, and one naming a species the contigs of that species'
   * genes; in both, each contig once and in order.
   */
  lemma ContigListing(args: seq<string>, a: Answers)
    requires 2 <= |args| <= 3 && args[1] == "CONTIG"
    ensures var values := ListingValues(args, a);
      NoRepeats(values) && SortedBy(values, StrLeq) &&
      forall c :: c in values <==>
        (exists i :: 0 <= i < |a.genes| && a.genes[i].contig == c &&
          (|args| == 2 || args[2] == "*" || a.genes[i].species == Dispatch.Unescape(args[2])))
  {}

  /** As written, a contig listing without a species is empty, however many contigs the project has. */
  lemma ContigListingAsWrittenEmpty(args: seq<string>, a: Answers)
    requires |args| == 2 && args[1] == "CONTIG"
    ensures ListingValuesAsWritten(args, a) == []
    ensures |a.genes| > 0 ==> a.genes[0].contig in ListingValues(args, a)
  {
    if |a.genes| > 0 {
      assert a.genes[0].contig in ContigsOf(a.genes, None);
    }
  }

  // ---------------------------------------------------------------------
  // Output for the web client

  /** Species, then contig, then start. */
  predicate GeneLeq(x: (string, Gene), y: (string, Gene))
  {
    var a, b := x.1, y.1;
    StrLess(a.species, b.species) || (a.species == b.species &&
      (StrLess(a.contig, b.contig) || (a.contig == b.contig && a.start <= b.start)))
  }

  lemma GeneLeqTotalPreorder()
    ensures TotalPreorder(GeneLeq)
  {
    forall x: (string, Gene), y: (string, Gene) ensures GeneLeq(x, y) || GeneLeq(y, x) {
      StrLessTrichotomy(x.1.species, y.1.species);
      StrLessTrichotomy(x.1.contig, y.1.contig);
    }
    forall x: (string, Gene), y: (string, Gene), z: (string, Gene) | GeneLeq(x, y) && GeneLeq(y, z)
      ensures GeneLeq(x, z)
    {
      var a, b, c := x.1, y.1, z.1;
      if StrLess(a.species, b.species) && StrLess(b.species, c.species) {
        StrLessTrans(a.species, b.species, c.species);
      }
      if StrLess(a.contig, b.contig) && StrLess(b.contig, c.contig) {
        StrLessTrans(a.contig, b.contig, c.contig);
      }
    }
  }

  /** The gene nodes in the order the web reply lists them: a stable sort by species, contig and start. */
  function SortGenes(genes: seq<(string, Gene)>): (r: seq<(string, Gene)>)
    ensures multiset(r) == multiset(genes)
    ensures SortedBy(r, GeneLeq)
  {
    GeneLeqTotalPreorder();
    SortBySorted(genes, GeneLeq);
    SortBy(genes, GeneLeq)
  }

  function GeneJson(item: (string, Gene)): string
  {
    var g := item.1;
    "{\"data\": {\"id\":\"" + item.0 + "\", \"type\":\"Gene\", \"species\":\"" + g.species +
    "\", \"contig\":\"" + g.contig + "\", \"start\":" + IntToString(g.start) + ", \"stop\":" +
    IntToString(g.stop) + ", \"name\":\"" + g.name + "\", \"description\":\"" + g.descr +
    "\", \"nt_seq\":\"" + g.ntSeq + "\"}}"
  }

  function ProteinJson(item: (string, Protein)): string
  {
    var p := item.1;
    "{\"data\": {\"id\":\"" + item.0 + "\", \"type\":\"Protein\", \"aa_seq\":\"" + p.aaSeq +
    "\", \"species\":\"" + p.species + "\", \"name\":\"" + p.name + "\"}}"
  }

  /** A neighbour or coding edge, named `source_TYPE_target`. */
  function RelJson(r: Rel): string
  {
    "{\"data\": {\"id\":\"" + r.source + "_" + r.kind + "_" + r.target + "\", \"source\":\"" + r.source +
    "\", \"type\":\"" + r.kind + "\", \"target\":\"" + r.target + "\"}}"
  }

  /** A homology edge, named `source_TYPEsensitivity_target`. */
  function HmlgJson(h: Hmlg): string
  {
    "{\"data\": {\"id\":\"" + h.source + "_" + h.kind + h.sensitivity + "_" + h.target + "\", \"source\":\"" +
    h.source + "\", \"type\":\"" + h.kind + "\", \"sensitivity\":\"" + h.sensitivity + "\", \"perc_match\":\"" +
    h.percMatch + "\", \"target\":\"" + h.target + "\"}}"
  }

  function GeneJsons(genes: seq<(string, Gene)>): (r: seq<string>)
    ensures |r| == |genes|
  {
    seq(|genes|, i requires 0 <= i < |genes| => GeneJson(genes[i]))
  }

  function ProteinJsons(proteins: seq<(string, Protein)>): (r: seq<string>)
    ensures |r| == |proteins|
  {
    seq(|proteins|, i requires 0 <= i < |proteins| => ProteinJson(proteins[i]))
  }

  function RelJsons(rels: seq<Rel>): (r: seq<string>)
    ensures |r| == |rels|
  {
    seq(|rels|, i requires 0 <= i < |rels| => RelJson(rels[i]))
  }

  function HmlgJsons(rels: seq<Hmlg>): (r: seq<string>)
    ensures |r| == |rels|
  {
    seq(|rels|, i requires 0 <= i < |rels| => HmlgJson(rels[i]))
  }

  /** A homology read the other way round. */
  function Flip(h: Hmlg): Hmlg
  {
    Hmlg(h.target, h.kind, h.sensitivity, h.percMatch, h.source)
  }

  /** Drops the homologies of a node with itself, keeping the rest in order. */
  function DropSelfLoops(rels: seq<Hmlg>): (r: seq<Hmlg>)
    ensures forall x :: x in r <==> x in rels && x.source != x.target
  {
    if |rels| == 0 then []
    else
      var rest := DropSelfLoops(rels[1..]);
      assert rels == [rels[0]] + rels[1..];
      if rels[0].source != rels[0].target then [rels[0]] + rest else rest
  }

  /** `int(id[1:])`: the number of a node id after its `g` or `p`; `None` is the ValueError. */
  function IdNumber(id: string): Option<int>
  {
    ParseInt(SliceFrom(id, 1))
  }

  predicate Numbered(h: Hmlg)
  {
    IdNumber(h.source).Some? && IdNumber(h.target).Some?
  }

  /** The homology leads from the node with the smaller number to the one with the larger. */
  predicate Ascending(h: Hmlg)
  {
    Numbered(h) && IdNumber(h.source).value < IdNumber(h.target).value
  }

  /**
   * The pass that keeps one direction of each homology: the relations
   * leading to a larger number, in order; `None` when some relation's ids
   * do not both carry a number.
   */
  function Unidirectional(rels: seq<Hmlg>): (r: Option<seq<Hmlg>>)
    ensures r.Some? <==> forall x :: x in rels ==> Numbered(x)
    ensures r.Some? ==> forall x :: x in r.value <==> x in rels && Ascending(x)
  {
    if |rels| == 0 then Some([])
    else
      var front := rels[..|rels| - 1];
      var x := rels[|rels| - 1];
      assert rels == front + [x];
      match Unidirectional(front)
      case None => None
      case Some(kept) =>
        if !Numbered(x) then None
        else if Ascending(x) then Some(kept + [x])
        else Some(kept)
  }

  /** One more relation: the pass over a prefix one relation longer. */
  lemma UnidirectionalStep(rels: seq<Hmlg>, i: nat)
    requires i < |rels|
    ensures Unidirectional(rels[..i + 1]) ==
            match Unidirectional(rels[..i])
            case None => None
            case Some(kept) =>
              if !Numbered(rels[i]) then None else if Ascending(rels[i]) then Some(kept + [rels[i]]) else Some(kept)
  {
    assert rels[..i + 1][..i] == rels[..i];
  }

  method KeepAscending(rels: seq<Hmlg>) returns (kept: Option<seq<Hmlg>>)
    ensures kept == Unidirectional(rels)
  {
    var acc := [];
    for i := 0 to |rels|
      invariant Unidirectional(rels[..i]) == Some(acc)
    {
      UnidirectionalStep(rels, i);
      var source := IdNumber(rels[i].source);
      var target := IdNumber(rels[i].target);
      if source.None? || target.None? {
        assert rels[i] in rels;
        return None;
      }
      if source.value < target.value {
        acc := acc + [rels[i]];
      }
    }
    assert rels[..|rels|] == rels;
    kept := Some(acc);
  }

  /** The homologies the web reply draws. */
  function WebHomologs(rels: seq<Hmlg>): Option<seq<Hmlg>>
  {
    Unidirectional(DropSelfLoops(rels))
  }

  /**
   * The homology edges of a web reply: the reply fails exactly when a
   * relation between two different nodes has an id without a number;
   * otherwise each edge is a relation found, none from a node to itself,
   * none drawn in both directions, and a relation between differently
   * numbered nodes is drawn exactly when it leads to the larger number.
   */
  lemma WebHomologsOneWay(rels: seq<Hmlg>)
    ensures WebHomologs(rels).Some? <==> forall x :: x in rels && x.source != x.target ==> Numbered(x)
    ensures WebHomologs(rels).Some? ==> (var drawn := WebHomologs(rels).value;
      (forall x :: x in drawn ==> x in rels && x.source != x.target && Flip(x) !in drawn) &&
      (forall x :: x in rels && x.source != x.target && Numbered(x) ==> (x in drawn <==> Ascending(x))))
  {}

  function WebText(h: Hits, geneHmlg: seq<Hmlg>, proteinHmlg: seq<Hmlg>): string
  {
    var nodes := "\"nodes\": [" + JoinText(GeneJsons(SortGenes(h.genes)) + ProteinJsons(h.proteins), ", ") + "]";
    var edges := "\"edges\": [" +
      JoinText(RelJsons(h.nb) + HmlgJsons(geneHmlg) + RelJsons(h.coding) + HmlgJsons(proteinHmlg), ", ") + "]";
    "{" + nodes + "," + edges + "}"
  }

  /** `send_data_web`'s reply; `None` is the ValueError of an id without a number. */
  function WebReply(h: Hits): Option<string>
  {
    match (WebHomologs(h.geneHmlg), WebHomologs(h.proteinHmlg))
    case (Some(geneHmlg), Some(proteinHmlg)) => Some(WebText(h, geneHmlg, proteinHmlg))
    case _ => None
  }

  method SendDataWeb(h: Hits) returns (reply: Option<string>)
    ensures reply == WebReply(h)
  {
    var genes := SortGenes(h.genes);
    var nodes := "\"nodes\": [" + JoinText(GeneJsons(genes) + ProteinJsons(h.proteins), ", ") + "]";
    var geneHmlg := KeepAscending(DropSelfLoops(h.geneHmlg));
    if geneHmlg.None? {
      return None;
    }
    var proteinHmlg := KeepAscending(DropSelfLoops(h.proteinHmlg));
    if proteinHmlg.None? {
      return None;
    }
    var edges := "\"edges\": [" +
      JoinText(RelJsons(h.nb) + HmlgJsons(geneHmlg.value) + RelJsons(h.coding) + HmlgJsons(proteinHmlg.value), ", ") + "]";
    reply := Some("{" + nodes + "," + edges + "}");
  }

  lemma EmptyGraphReply()
    ensures WebReply(NoHits) == Some(EmptyGraph)
  {
    assert SortGenes([]) == [];
    assert DropSelfLoops([]) == [];
    assert Unidirectional([]) == Some([]);
    assert GeneJsons([]) + ProteinJsons([]) == [];
    assert RelJsons([]) + HmlgJsons([]) + RelJsons([]) + HmlgJsons([]) == [];
    assert WebText(NoHits, [], []) == EmptyGraph;
  }

  /** A web reply is a JSON object, so it never reads as a status code. */
  lemma WebReplyIsObject(h: Hits)
    ensures WebReply(h).Some? ==> |WebReply(h).value| > 0 && WebReply(h).value[0] == '{'
    ensures WebReply(h).Some? ==> WebReply(h).value[|WebReply(h).value| - 1] == '}'
  {}
}
