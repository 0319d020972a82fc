/**
 * The query manager of the AHGraR server (`QueryManagement`): searching
 * gene and protein nodes, following one node's relations, listing a
 * project's species and chromosomes, and formatting what was found either
 * as tab-separated text for the command-line client (CMD) or as the JSON
 * graph the web client draws (WEB).
 *
 * The project database is not part of this model. What it answers is given
 * as `Answers`: whether a connection could be opened, the project's genes
 * (for the listings) and the rows each Cypher query of a request returns.
 * A request's outcome is the list of replies sent and how the handler ended.
 */
module AhgrarQuery {
  import opened Wrappers
  import opened Strings
  import opened Seqs
  import opened Sorting
  import opened QueryCommon
  import Dispatch

  /** A gene node's properties, in the order the server lists them. */
  datatype Gene = Gene(species: string, chromosome: string, contig: string, strand: string,
                       start: int, stop: int, name: string, descr: string)

  /** A protein node's properties; species and chromosome are the coding gene's. */
  datatype Protein = Protein(name: string, descr: string, species: string, chromosome: string)

  /** A relation between two genes, or between a gene and the protein it codes for. */
  datatype Rel = Rel(source: string, kind: string, target: string)

  /** A relation between two proteins, with the clustering sensitivity it was found at. */
  datatype Homology = Homology(source: string, kind: string, sensitivity: string, target: string)

  /** The nodes (dict items, in insertion order) and relation lists one request collects. */
  datatype Hits = Hits(genes: seq<(string, Gene)>, proteins: seq<(string, Protein)>,
                       geneRels: seq<Rel>, proteinRels: seq<Homology>, coding: seq<Rel>)

  /** A row of the gene search: a gene, and one outgoing relation (type, gene) if it has any. */
  datatype GeneRow = GeneRow(id: string, gene: Gene, link: Option<(string, string)>)

  /** A row of the protein search: a protein, and one outgoing relation (type, sensitivity, protein) if it has any. */
  datatype ProteinRow = ProteinRow(id: string, protein: Protein, link: Option<(string, string, string)>)

  /** A row of a neighbour query: the queried gene and one neighbour with its properties. */
  datatype NeighbourRow = NeighbourRow(source: string, target: string, gene: Gene)

  /** A row of the query for the proteins a gene codes for. */
  datatype CodingRow = CodingRow(gene: string, protein: string, props: Protein)

  /** A row of the homolog or synteny query: a related protein and one relation of its own. */
  datatype HomologRow = HomologRow(protein: string, props: Protein, kind: string, sensitivity: string, homolog: string)

  datatype Answers = Answers(
    connected: bool,                    // the project database could be opened
    genes: seq<Gene>,                   // the project's gene nodes, for the listings
    geneRows: seq<GeneRow>,             // gene search
    proteinRows: seq<ProteinRow>,       // protein search
    codingPairs: seq<(string, string)>, // (gene, protein) pairs a "both" search finds
    neighbourRows: seq<NeighbourRow>,
    codingRows: seq<CodingRow>,
    homologRows: seq<HomologRow>)

  const NoHits := Hits([], [], [], [], [])

  // ---------------------------------------------------------------------
  // Routing

  datatype Route = Search | Relations | Listing | Unknown

  /**
   * `evaluate_user_request`: SEAR needs 7 fields, RELA 6 and LIST 3 or 4,
   * each with an all-digit project id; anything else is answered "-8".
   * The second field is read before the length is checked, so a lone
   * SEAR, RELA or LIST fails with IndexError (`None`), as does an empty
   * request.
   */
  function RouteOf(fields: seq<string>): (r: Option<Route>)
    ensures r == None <==> |fields| == 0 || (|fields| == 1 && fields[0] in ["SEAR", "RELA", "LIST"])
    ensures r == Some(Search) <==> |fields| == 7 && fields[0] == "SEAR" && IsDigits(fields[1])
    ensures r == Some(Relations) <==> |fields| == 6 && fields[0] == "RELA" && IsDigits(fields[1])
    ensures r == Some(Listing) <==> 3 <= |fields| <= 4 && fields[0] == "LIST" && IsDigits(fields[1])
  {
    if |fields| == 0 then None
    else if fields[0] == "SEAR" && |fields| < 2 then None
    else if fields[0] == "SEAR" && IsDigits(fields[1]) && |fields| == 7 then Some(Search)
    else if fields[0] == "RELA" && |fields| < 2 then None
    else if fields[0] == "RELA" && IsDigits(fields[1]) && |fields| == 6 then Some(Relations)
    else if fields[0] == "LIST" && |fields| < 2 then None
    else if fields[0] == "LIST" && IsDigits(fields[1]) && 3 <= |fields| <= 4 then Some(Listing)
    else Some(Unknown)
  }

  /** The "-7" a failed connection sends before anything else. */
  function ConnectionReplies(a: Answers): seq<string>
  {
    if a.connected then [] else ["-7"]
  }

  function Format(format: string, h: Hits): string
  {
    if format == "CMD" then CmdReply(h) else WebReply(h)
  }

  /** The outcome of one request. */
  function Evaluate(fields: seq<string>, a: Answers): (seq<string>, Exit)
  {
    match RouteOf(fields)
    case None => ([], Raised("IndexError"))
    case Some(Search) => FindNodeResult(fields[1..], a)
    case Some(Relations) => RelationsResult(fields[1..], a)
    case Some(Listing) => ListingResult(fields[1..], a)
    case Some(Unknown) => (["-8"], Returned)
  }

  method EvaluateUserRequest(fields: seq<string>, a: Answers) returns (replies: seq<string>, exit: Exit)
    ensures (replies, exit) == Evaluate(fields, a)
  {
    var route := RouteOf(fields);
    match route
    case None =>
      replies, exit := [], Raised("IndexError");
    case Some(Search) =>
      replies, exit := FindNode(fields[1..], a);
    case Some(Relations) =>
      replies, exit := FindNodeRelations(fields[1..], a);
    case Some(Listing) =>
      replies, exit := ListItems(fields[1..], a);
    case Some(Unknown) =>
      replies, exit := ["-8"], Returned;
  }

  // ---------------------------------------------------------------------
  // Searching nodes

  function NormaliseTerms(terms: seq<string>): (r: seq<string>)
    ensures |r| == |terms|
  {
    seq(|terms|, i requires 0 <= i < |terms| => NormaliseTerm(terms[i]))
  }

  function GeneItems(rows: seq<GeneRow>): (r: seq<(string, Gene)>)
    ensures |r| == |rows|
  {
    seq(|rows|, i requires 0 <= i < |rows| => (rows[i].id, rows[i].gene))
  }

  function GeneLinks(rows: seq<GeneRow>): (r: seq<seq<Rel>>)
    ensures |r| == |rows|
  {
    seq(|rows|, i requires 0 <= i < |rows| =>
      match rows[i].link
      case None => []
      case Some(link) => [Rel(rows[i].id, link.0, link.1)])
  }

  function ProteinItems(rows: seq<ProteinRow>): (r: seq<(string, Protein)>)
    ensures |r| == |rows|
  {
    seq(|rows|, i requires 0 <= i < |rows| => (rows[i].id, rows[i].protein))
  }

  function ProteinLinks(rows: seq<ProteinRow>): (r: seq<seq<Homology>>)
    ensures |r| == |rows|
  {
    seq(|rows|, i requires 0 <= i < |rows| =>
      match rows[i].link
      case None => []
      case Some(link) => [Homology(rows[i].id, link.0, link.1, link.2)])
  }

  function CodingPairRels(pairs: seq<(string, string)>): (r: seq<Rel>)
    ensures |r| == |pairs|
  {
    seq(|pairs|, i requires 0 <= i < |pairs| => Rel(pairs[i].0, "CODING", pairs[i].1))
  }

  /** What a search of type "gene", "prot" or "both" collects. */
  function SearchHits(queryType: string, a: Answers): Hits
  {
    var genes := queryType == "gene" || queryType == "both";
    var proteins := queryType == "prot" || queryType == "both";
    Hits(if genes then Nodes(GeneItems(a.geneRows)) else [],
         if proteins then Nodes(ProteinItems(a.proteinRows)) else [],
         if genes then Flatten(GeneLinks(a.geneRows)) else [],
         if proteins then Flatten(ProteinLinks(a.proteinRows)) else [],
         if queryType == "both" then CodingPairRels(a.codingPairs) else [])
  }

  /**
   * `find_node` on `[project, format, species, chromosome, keyword, type]`:
   * "-9" for a format other than CMD and WEB, "-10" unless there are four
   * terms, "-11" unless the type is gene, prot or both in any case. Without
   * a connection the first query fails on the missing session.
   */
  function FindNodeResult(args: seq<string>, a: Answers): (seq<string>, Exit)
    requires |args| >= 2
  {
    var pre := ConnectionReplies(a);
    if args[1] != "CMD" && args[1] != "WEB" then (pre + ["-9"], Returned)
    else
      var terms := NormaliseTerms(args[2..]);
      if |terms| != 4 then (pre + ["-10"], Returned)
      else
        var queryType := Lower(terms[3]);
        if queryType != "gene" && queryType != "prot" && queryType != "both" then (pre + ["-11"], Returned)
        else if !a.connected then (pre, Raised("AttributeError"))
        else ([Format(args[1], SearchHits(queryType, a))], Returned)
  }

  method FindNode(args: seq<string>, a: Answers) returns (replies: seq<string>, exit: Exit)
    requires |args| >= 2
    ensures (replies, exit) == FindNodeResult(args, a)
  {
    replies := ConnectionReplies(a);
    var format := args[1];
    if format != "CMD" && format != "WEB" {
      return replies + ["-9"], Returned;
    }
    var terms := NormaliseTerms(args[2..]);
    if |terms| != 4 {
      return replies + ["-10"], Returned;
    }
    var queryType := Lower(terms[3]);
    if queryType != "gene" && queryType != "prot" && queryType != "both" {
      return replies + ["-11"], Returned;
    }
    if !a.connected {
      return replies, Raised("AttributeError");
    }
    var hits := NoHits;
    if queryType == "gene" || queryType == "both" {
      var genes, rels := Collect(GeneItems(a.geneRows), GeneLinks(a.geneRows));
      hits := hits.(genes := genes, geneRels := rels);
    }
    if queryType == "prot" || queryType == "both" {
      var proteins, rels := Collect(ProteinItems(a.proteinRows), ProteinLinks(a.proteinRows));
      hits := hits.(proteins := proteins, proteinRels := rels);
    }
    if queryType == "both" {
      hits := hits.(coding := CodingPairRels(a.codingPairs));
    }
    var reply := SendData(format, hits);
    replies, exit := [reply], Returned;
  }

  /** A routed search always has four terms, so "-10" is never its answer. */
  lemma SearchNeverShort(fields: seq<string>, a: Answers)
    requires RouteOf(fields) == Some(Search)
    ensures "-10" !in Evaluate(fields, a).0
  {
    var args := fields[1..];
    if args[1] == "CMD" || args[1] == "WEB" {
      var queryType := Lower(NormaliseTerms(args[2..])[3]);
      if (queryType == "gene" || queryType == "prot" || queryType == "both") && a.connected {
        ReplyStart(args[1], SearchHits(queryType, a));
      }
    }
  }

  // ---------------------------------------------------------------------
  // Following relations

  /** "5NB" and "3NB" are accepted for "5_NB" and "3_NB". */
  function NormaliseRelation(kind: string): string
  {
    if kind == "5NB" then "5_NB" else if kind == "3NB" then "3_NB" else kind
  }

  predicate Supported(kind: string)
  {
    kind in ["5_NB", "3_NB", "CODING", "HOMOLOG", "SYNTENY"]
  }

  /** The relation types a request may name: the five supported ones and the two short spellings. */
  lemma SupportedRelations(kind: string)
    ensures Supported(NormaliseRelation(kind)) <==> kind in ["5NB", "3NB", "5_NB", "3_NB", "CODING", "HOMOLOG", "SYNTENY"]
  {}

  /** Whether a node type and relation type make `find_node_relations` query the database at all. */
  predicate Queries(nodeType: string, kind: string)
  {
    (nodeType == "Gene" && (kind == "5_NB" || kind == "3_NB")) ||
    kind == "CODING" ||
    (nodeType == "Protein" && (kind == "HOMOLOG" || kind == "SYNTENY"))
  }

  function NeighbourItems(rows: seq<NeighbourRow>): (r: seq<(string, Gene)>)
    ensures |r| == |rows|
  {
    seq(|rows|, i requires 0 <= i < |rows| => (rows[i].target, rows[i].gene))
  }

  /** Each neighbour row gives the relation in both directions: a 5' neighbour has the gene as its 3' neighbour. */
  function NeighbourLinks(rows: seq<NeighbourRow>, kind: string): (r: seq<seq<Rel>>)
    ensures |r| == |rows|
  {
    seq(|rows|, i requires 0 <= i < |rows| =>
      if kind == "5_NB" then [Rel(rows[i].source, "5_NB", rows[i].target), Rel(rows[i].target, "3_NB", rows[i].source)]
      else [Rel(rows[i].source, "3_NB", rows[i].target), Rel(rows[i].target, "5_NB", rows[i].source)])
  }

  /** The protein node each row of a relation query reaches, one per row, in row order. */
  function TargetItems<R>(rows: seq<R>, target: R -> (string, Protein)): (r: seq<(string, Protein)>)
    ensures |r| == |rows|
  {
    seq(|rows|, i requires 0 <= i < |rows| => target(rows[i]))
  }

  /** A gene's coded protein, from the CODING query's `targetProt` column. */
  function CodingTarget(row: CodingRow): (string, Protein)
  {
    (row.protein, row.props)
  }

  function CodingLinks(rows: seq<CodingRow>): (r: seq<seq<Rel>>)
    ensures |r| == |rows|
  {
    seq(|rows|, i requires 0 <= i < |rows| => [Rel(rows[i].gene, "CODING", rows[i].protein)])
  }

  /** A related protein, from the homolog or synteny query's `prot_new` column. */
  function HomologTarget(row: HomologRow): (string, Protein)
  {
    (row.protein, row.props)
  }

  function HomologLinks(rows: seq<HomologRow>): (r: seq<seq<Homology>>)
    ensures |r| == |rows|
  {
    seq(|rows|, i requires 0 <= i < |rows| =>
      [Homology(rows[i].protein, rows[i].kind, rows[i].sensitivity, rows[i].homolog)])
  }

  /** What the branch for a node type and a supported relation type collects. */
  function RelationHits(nodeType: string, kind: string, a: Answers): Hits
  {
    if nodeType == "Gene" && (kind == "5_NB" || kind == "3_NB") then
      NoHits.(genes := Nodes(NeighbourItems(a.neighbourRows)), geneRels := Flatten(NeighbourLinks(a.neighbourRows, kind)))
    else if nodeType == "Gene" && kind == "CODING" then
      NoHits.(proteins := Nodes(TargetItems(a.codingRows, CodingTarget)), coding := Flatten(CodingLinks(a.codingRows)))
    else if nodeType == "Protein" && (kind == "HOMOLOG" || kind == "SYNTENY") then
      NoHits.(proteins := Nodes(TargetItems(a.homologRows, HomologTarget)), proteinRels := Flatten(HomologLinks(a.homologRows)))
    else NoHits
  }

  /**
   * `find_node_relations` on `[project, format, node type, node id, relation]`:
   * "-9" for an unknown format, "-10" for a node type other than Gene and
   * Protein, "-12" for an unsupported relation. The coding genes of a
   * protein are asked for with a query that returns an unbound variable, so
   * that branch fails in the database. Without a connection, a branch that
   * queries fails on the missing session, and one that does not fails when
   * the session is closed after the reply was sent.
   */
  function RelationsResult(args: seq<string>, a: Answers): (seq<string>, Exit)
    requires |args| >= 5
  {
    var pre := ConnectionReplies(a);
    var nodeType := args[2];
    var kind := NormaliseRelation(args[4]);
    if args[1] != "CMD" && args[1] != "WEB" then (pre + ["-9"], Returned)
    else if nodeType != "Gene" && nodeType != "Protein" then (pre + ["-10"], Returned)
    else if !Supported(kind) then (pre + ["-12"], Returned)
    else if Queries(nodeType, kind) && !a.connected then (pre, Raised("AttributeError"))
    else if nodeType == "Protein" && kind == "CODING" then (pre, Raised("CypherSyntaxError"))
    else
      var replies := pre + [Format(args[1], RelationHits(nodeType, kind, a))];
      (replies, if a.connected then Returned else Raised("AttributeError"))
  }

  method FindNodeRelations(args: seq<string>, a: Answers) returns (replies: seq<string>, exit: Exit)
    requires |args| >= 5
    ensures (replies, exit) == RelationsResult(args, a)
  {
    replies := ConnectionReplies(a);
    var format := args[1];
    if format != "CMD" && format != "WEB" {
      return replies + ["-9"], Returned;
    }
    var nodeType := args[2];
    if nodeType != "Gene" && nodeType != "Protein" {
      return replies + ["-10"], Returned;
    }
    var kind := NormaliseRelation(args[4]);
    if !Supported(kind) {
      return replies + ["-12"], Returned;
    }
    if Queries(nodeType, kind) && !a.connected {
      return replies, Raised("AttributeError");
    }
    var hits := NoHits;
    if nodeType == "Gene" && (kind == "5_NB" || kind == "3_NB") {
      var genes, rels := Collect(NeighbourItems(a.neighbourRows), NeighbourLinks(a.neighbourRows, kind));
      hits := hits.(genes := genes, geneRels := rels);
    } else if nodeType == "Gene" && kind == "CODING" {
      var proteins, rels := Collect(TargetItems(a.codingRows, CodingTarget), CodingLinks(a.codingRows));
      hits := hits.(proteins := proteins, coding := rels);
    } else if nodeType == "Protein" && kind == "CODING" {
      return replies, Raised("CypherSyntaxError");
    } else if nodeType == "Protein" && (kind == "HOMOLOG" || kind == "SYNTENY") {
      var proteins, rels := Collect(TargetItems(a.homologRows, HomologTarget), HomologLinks(a.homologRows));
      hits := hits.(proteins := proteins, proteinRels := rels);
    }
    var reply := SendData(format, hits);
    replies := replies + [reply];
    exit := if a.connected then Returned else Raised("AttributeError");
  }

  /**
   * A neighbour query answers with both directions of every neighbourhood:
   * gene b is 5' of gene a exactly when a is 3' of b.
   */
  lemma NeighboursBothWays(rows: seq<NeighbourRow>, kind: string, x: string, y: string)
    requires kind == "5_NB" || kind == "3_NB"
    ensures Rel(x, "5_NB", y) in Flatten(NeighbourLinks(rows, kind)) <==> Rel(y, "3_NB", x) in Flatten(NeighbourLinks(rows, kind))
  {
    var links := NeighbourLinks(rows, kind);
    if Rel(x, "5_NB", y) in Flatten(links) {
      var k :| 0 <= k < |links| && Rel(x, "5_NB", y) in links[k];
      assert Rel(y, "3_NB", x) in links[k];
    }
    if Rel(y, "3_NB", x) in Flatten(links) {
      var k :| 0 <= k < |links| && Rel(y, "3_NB", x) in links[k];
      assert Rel(x, "5_NB", y) in links[k];
    }
  }

  /**
   * Without a connection, a search or a relation request begins with "-7"
   * and ends normally only when one of the checks rejected it; every
   * request that gets as far as the database fails.
   */
  lemma NoConnectionFails(fields: seq<string>, a: Answers)
    requires !a.connected
    requires RouteOf(fields) == Some(Search) || RouteOf(fields) == Some(Relations)
    ensures var (replies, exit) := Evaluate(fields, a);
      |replies| >= 1 && replies[0] == "-7" &&
      (exit == Returned <==> |replies| == 2 && replies[1] in ["-9", "-10", "-11", "-12"])
  {
    if RouteOf(fields) == Some(Relations) {
      RelationsWithoutConnection(fields[1..], a);
    }
  }

  lemma RelationsWithoutConnection(args: seq<string>, a: Answers)
    requires !a.connected && |args| >= 5
    ensures var (replies, exit) := RelationsResult(args, a);
      |replies| >= 1 && replies[0] == "-7" &&
      (exit == Returned <==> |replies| == 2 && replies[1] in ["-9", "-10", "-11", "-12"])
  {
    var kind := NormaliseRelation(args[4]);
    if (args[1] == "CMD" || args[1] == "WEB") && (args[2] == "Gene" || args[2] == "Protein") && Supported(kind)
       && !Queries(args[2], kind) && !(args[2] == "Protein" && kind == "CODING") {
      var f := Format(args[1], RelationHits(args[2], kind, a));
      ReplyStart(args[1], RelationHits(args[2], kind, a));
      assert f[0] != '-';
      assert f !in ["-9", "-10", "-11", "-12"] by {
        assert "-9"[0] == '-' && "-10"[0] == '-' && "-11"[0] == '-' && "-12"[0] == '-';
      }
      assert RelationsResult(args, a) == (ConnectionReplies(a) + [f], Raised("AttributeError"));
    }
  }

  // ---------------------------------------------------------------------
  // Listings

  function SpeciesOf(genes: seq<Gene>): (r: seq<string>)
    ensures |r| == |genes|
  {
    seq(|genes|, i requires 0 <= i < |genes| => genes[i].species)
  }

  /** The chromosomes of the genes, of one species or of all. */
  function ChromosomesOf(genes: seq<Gene>, species: Option<string>): (r: seq<string>)
    ensures forall c :: c in r <==>
      exists i :: 0 <= i < |genes| && genes[i].chromosome == c && (species.None? || genes[i].species == species.value)
  {
    if |genes| == 0 then []
    else
      var front := genes[..|genes| - 1];
      var g := genes[|genes| - 1];
      var r := ChromosomesOf(front, species);
      assert forall i :: 0 <= i < |front| ==> front[i] == genes[i];
      if species.None? || g.species == species.value then r + [g.chromosome] else r
  }

  /** What a listing lists, `None` when it runs no query. */
  function ListingValues(args: seq<string>, a: Answers): Option<seq<string>>
    requires |args| >= 2
  {
    if args[1] == "SPECIES" then Some(Distinctly(SpeciesOf(a.genes)))
    else if args[1] == "CHROMOSOME" && |args| == 2 then Some(Distinctly(ChromosomesOf(a.genes, None)))
    else if args[1] == "CHROMOSOME" && |args| == 3 then Some(Distinctly(ChromosomesOf(a.genes, Some(Dispatch.Unescape(args[2])))))
    else None
  }

  /**
   * `list_items` on `[project, SPECIES]` or `[project, CHROMOSOME(, species)]`:
   * one value per line; anything else gets an empty reply.
   */
  function ListingResult(args: seq<string>, a: Answers): (seq<string>, Exit)
    requires |args| >= 2
  {
    var pre := ConnectionReplies(a);
    match ListingValues(args, a)
    case None => (pre + [""], Returned)
    case Some(values) =>
      if !a.connected then (pre, Raised("AttributeError"))
      else ([Join(values, '\n')], Returned)
  }

  method ListItems(args: seq<string>, a: Answers) returns (replies: seq<string>, exit: Exit)
    requires |args| >= 2
    ensures (replies, exit) == ListingResult(args, a)
  {
    replies := ConnectionReplies(a);
    var values := ListingValues(args, a);
    if values.Some? && !a.connected {
      return replies, Raised("AttributeError");
    }
    var container := if values.Some? then values.value else [];
    replies, exit := replies + [Join(container, '\n')], Returned;
    assert values.None? ==> Join(container, '\n') == "";
    assert values.Some? ==> replies == [Join(values.value, '\n')];
  }

  /**
   * A chromosome listing of all species holds every chromosome of the
   * project, and one naming a species (escaped as it travels) holds the
   * chromosomes of that species' genes; in both, each chromosome once and
   * in order.
   */
  lemma ChromosomeListing(args: seq<string>, a: Answers)
    requires 2 <= |args| <= 3 && args[1] == "CHROMOSOME"
    ensures var values := ListingValues(args, a).value;
      NoRepeats(values) && SortedBy(values, StrLeq) &&
      forall c :: c in values <==>
        (exists i :: 0 <= i < |a.genes| && a.genes[i].chromosome == c && (|args| == 2 || a.genes[i].species == Dispatch.Unescape(args[2])))
  {}

  /** The values of a listing come from the genes' species and chromosomes. */
  lemma ListingValuesClean(args: seq<string>, a: Answers)
    requires |args| >= 2 && ListingValues(args, a).Some?
    requires forall k :: 0 <= k < |a.genes| ==> '\n' !in a.genes[k].species && '\n' !in a.genes[k].chromosome
    ensures forall k :: 0 <= k < |ListingValues(args, a).value| ==> '\n' !in ListingValues(args, a).value[k]
  {
    var values := ListingValues(args, a).value;
    if args[1] == "SPECIES" {
      var all := SpeciesOf(a.genes);
      forall k | 0 <= k < |values| ensures '\n' !in values[k] {
        assert values[k] in all;
        var j :| 0 <= j < |all| && all[j] == values[k];
        assert all[j] == a.genes[j].species;
      }
    } else {
      var species := if |args| == 2 then None else Some(Dispatch.Unescape(args[2]));
      var all := ChromosomesOf(a.genes, species);
      assert values == Distinctly(all);
      forall k | 0 <= k < |values| ensures '\n' !in values[k] {
        assert values[k] in all;
      }
    }
  }

  /** A listing whose values hold no line break reads back, line by line, as the values. */
  lemma ListingLines(args: seq<string>, a: Answers)
    requires |args| >= 2 && a.connected
    requires ListingValues(args, a).Some? && |ListingValues(args, a).value| > 0
    requires forall k :: 0 <= k < |a.genes| ==> '\n' !in a.genes[k].species && '\n' !in a.genes[k].chromosome
    ensures Split(ListingResult(args, a).0[0], '\n') == ListingValues(args, a).value
  {
    var values := ListingValues(args, a).value;
    ListingValuesClean(args, a);
    assert ListingResult(args, a).0[0] == Join(values, '\n');
    SplitJoin(values, '\n');
  }

  // ---------------------------------------------------------------------
  // Output for the command-line client

  /** Species, then chromosome, then contig, then start. */
  predicate GeneLeq(x: (string, Gene), y: (string, Gene))
  {
    var a, b := x.1, y.1;
    StrLess(a.species, b.species) || (a.species == b.species &&
      (StrLess(a.chromosome, b.chromosome) || (a.chromosome == b.chromosome &&
        (StrLess(a.contig, b.contig) || (a.contig == b.contig && a.start <= b.start)))))
  }

  lemma GeneLeqTotalPreorder()
    ensures TotalPreorder(GeneLeq)
  {
    forall x: (string, Gene), y: (string, Gene) ensures GeneLeq(x, y) || GeneLeq(y, x) {
      StrLessTrichotomy(x.1.species, y.1.species);
      StrLessTrichotomy(x.1.chromosome, y.1.chromosome);
      StrLessTrichotomy(x.1.contig, y.1.contig);
    }
    forall x: (string, Gene), y: (string, Gene), z: (string, Gene) | GeneLeq(x, y) && GeneLeq(y, z)
      ensures GeneLeq(x, z)
    {
      var a, b, c := x.1, y.1, z.1;
      if StrLess(a.species, b.species) && StrLess(b.species, c.species) {
        StrLessTrans(a.species, b.species, c.species);
      }
      if StrLess(a.chromosome, b.chromosome) && StrLess(b.chromosome, c.chromosome) {
        StrLessTrans(a.chromosome, b.chromosome, c.chromosome);
      }
      if StrLess(a.contig, b.contig) && StrLess(b.contig, c.contig) {
        StrLessTrans(a.contig, b.contig, c.contig);
      }
    }
  }

  /** The gene nodes in the order both outputs list them: a stable sort by species, chromosome, contig and start. */
  function SortGenes(genes: seq<(string, Gene)>): (r: seq<(string, Gene)>)
    ensures multiset(r) == multiset(genes)
    ensures SortedBy(r, GeneLeq)
  {
    GeneLeqTotalPreorder();
    SortBySorted(genes, GeneLeq);
    SortBy(genes, GeneLeq)
  }

  function GeneFields(item: (string, Gene)): seq<string>
  {
    var g := item.1;
    [item.0, g.species, g.chromosome, g.contig, g.strand, IntToString(g.start), IntToString(g.stop), g.name, g.descr]
  }

  function ProteinFields(item: (string, Protein)): seq<string>
  {
    var p := item.1;
    [item.0, p.name, p.descr, p.species, p.chromosome]
  }

  function RelFields(r: Rel): seq<string>
  {
    [r.source, r.kind, r.target]
  }

  function HomologyFields(h: Homology): seq<string>
  {
    [h.source, h.kind, h.sensitivity, h.target]
  }

  function GeneLines(genes: seq<(string, Gene)>): (r: seq<string>)
    ensures |r| == |genes|
  {
    seq(|genes|, i requires 0 <= i < |genes| => Join(GeneFields(genes[i]), '\t'))
  }

  function ProteinLines(proteins: seq<(string, Protein)>): (r: seq<string>)
    ensures |r| == |proteins|
  {
    seq(|proteins|, i requires 0 <= i < |proteins| => Join(ProteinFields(proteins[i]), '\t'))
  }

  function RelLines(rels: seq<Rel>): (r: seq<string>)
    ensures |r| == |rels|
  {
    seq(|rels|, i requires 0 <= i < |rels| => Join(RelFields(rels[i]), '\t'))
  }

  function HomologyLines(rels: seq<Homology>): (r: seq<string>)
    ensures |r| == |rels|
  {
    seq(|rels|, i requires 0 <= i < |rels| => Join(HomologyFields(rels[i]), '\t'))
  }

  /** The lines of a CMD reply: three section headers, each followed by one tab-joined line per item. */
  function CmdLines(h: Hits): seq<string>
  {
    ["Gene node(s):"] + GeneLines(SortGenes(h.genes)) +
    ["Protein node(s):"] + ProteinLines(h.proteins) +
    ["Relations:"] + RelLines(h.geneRels) + HomologyLines(h.proteinRels) + RelLines(h.coding)
  }

  /** Lines, each ended by a line break. */
  function Text(lines: seq<string>): string
  {
    if |lines| == 0 then "" else lines[0] + "\n" + Text(lines[1..])
  }

  lemma {:induction false} TextAppend(a: seq<string>, b: seq<string>)
    ensures Text(a + b) == Text(a) + Text(b)
  {
    if |a| > 0 {
      assert (a + b)[1..] == a[1..] + b;
      TextAppend(a[1..], b);
    } else {
      assert a + b == b;
    }
  }

  function CmdReply(h: Hits): string
  {
    Text(CmdLines(h))
  }

  /** `reply += line + "\n"` for each line. */
  method AppendLines(reply: string, lines: seq<string>) returns (r: string)
    ensures r == reply + Text(lines)
  {
    r := reply;
    for i := 0 to |lines|
      invariant r == reply + Text(lines[..i])
    {
      TextAppend(lines[..i], [lines[i]]);
      assert lines[..i + 1] == lines[..i] + [lines[i]];
      r := r + lines[i] + "\n";
    }
    assert lines[..|lines|] == lines;
  }

  method SendDataCmd(h: Hits) returns (reply: string)
    ensures reply == CmdReply(h)
  {
    var geneLines := GeneLines(SortGenes(h.genes));
    var proteinLines := ProteinLines(h.proteins);
    var relLines := RelLines(h.geneRels);
    var homologyLines := HomologyLines(h.proteinRels);
    var codingLines := RelLines(h.coding);
    reply := "Gene node(s):\n";
    reply := AppendLines(reply, geneLines);
    reply := reply + "Protein node(s):\n";
    reply := AppendLines(reply, proteinLines);
    reply := reply + "Relations:\n";
    reply := AppendLines(reply, relLines);
    reply := AppendLines(reply, homologyLines);
    reply := AppendLines(reply, codingLines);
    CmdReplyParts(h);
  }

  lemma CmdReplyParts(h: Hits)
    ensures CmdReply(h) ==
      "Gene node(s):\n" + Text(GeneLines(SortGenes(h.genes))) +
      "Protein node(s):\n" + Text(ProteinLines(h.proteins)) +
      "Relations:\n" + Text(RelLines(h.geneRels)) + Text(HomologyLines(h.proteinRels)) + Text(RelLines(h.coding))
  {
    var l1 := ["Gene node(s):"] + GeneLines(SortGenes(h.genes));
    var l2 := l1 + ["Protein node(s):"];
    var l3 := l2 + ProteinLines(h.proteins);
    var l4 := l3 + ["Relations:"];
    var l5 := l4 + RelLines(h.geneRels);
    var l6 := l5 + HomologyLines(h.proteinRels);
    assert CmdLines(h) == l6 + RelLines(h.coding);
    TextAppend(l6, RelLines(h.coding));
    TextAppend(l5, HomologyLines(h.proteinRels));
    TextAppend(l4, RelLines(h.geneRels));
    TextAppend(l3, ["Relations:"]);
    TextAppend(l2, ProteinLines(h.proteins));
    TextAppend(l1, ["Protein node(s):"]);
    TextAppend(["Gene node(s):"], GeneLines(SortGenes(h.genes)));
    assert Text(["Gene node(s):"]) == "Gene node(s):\n";
    assert Text(["Protein node(s):"]) == "Protein node(s):\n";
    assert Text(["Relations:"]) == "Relations:\n";
  }

  /** The CMD reply sorts the gene nodes it was given, by species, chromosome, contig and start. */
  lemma CmdGenesSorted(h: Hits)
    ensures var sorted := SortGenes(h.genes);
      multiset(sorted) == multiset(h.genes) && SortedBy(sorted, GeneLeq) &&
      CmdLines(h)[1..1 + |sorted|] == GeneLines(sorted)
  {
    GeneSection(["Gene node(s):"], GeneLines(SortGenes(h.genes)), ["Protein node(s):"], ProteinLines(h.proteins),
                ["Relations:"], RelLines(h.geneRels), HomologyLines(h.proteinRels), RelLines(h.coding));
  }

  /** The second part of eight joined lines is found again right after the first. */
  lemma GeneSection(l1: seq<string>, l2: seq<string>, l3: seq<string>, l4: seq<string>,
                    l5: seq<string>, l6: seq<string>, l7: seq<string>, l8: seq<string>)
    requires |l1| == 1
    ensures (l1 + l2 + l3 + l4 + l5 + l6 + l7 + l8)[1..1 + |l2|] == l2
  {
    var all := l1 + l2 + l3 + l4 + l5 + l6 + l7 + l8;
    forall k | 0 <= k < |l2| ensures all[1 + k] == l2[k] {}
  }

  predicate Plain(fields: seq<string>)
  {
    forall k :: 0 <= k < |fields| ==> '\n' !in fields[k] && '\t' !in fields[k]
  }

  /** Node and relation values hold neither a line break nor a tab. */
  predicate PlainHits(h: Hits)
  {
    (forall i :: 0 <= i < |h.genes| ==> Plain(GeneFields(h.genes[i]))) &&
    (forall i :: 0 <= i < |h.proteins| ==> Plain(ProteinFields(h.proteins[i]))) &&
    (forall i :: 0 <= i < |h.geneRels| ==> Plain(RelFields(h.geneRels[i]))) &&
    (forall i :: 0 <= i < |h.proteinRels| ==> Plain(HomologyFields(h.proteinRels[i]))) &&
    (forall i :: 0 <= i < |h.coding| ==> Plain(RelFields(h.coding[i])))
  }

  lemma {:induction false} JoinAvoids(parts: seq<string>, sep: char, c: char)
    requires c != sep
    requires forall k :: 0 <= k < |parts| ==> c !in parts[k]
    ensures c !in Join(parts, sep)
  {
    if |parts| > 1 {
      JoinAvoids(parts[1..], sep, c);
    }
  }

  lemma {:induction false} TextJoin(lines: seq<string>)
    ensures Text(lines) == Join(lines + [""], '\n')
  {
    if |lines| > 0 {
      TextJoin(lines[1..]);
      assert (lines + [""])[1..] == lines[1..] + [""];
    }
  }

  /** One line of the reply, read back: the fields of the item it lists. */
  lemma LineFields(fields: seq<string>)
    requires |fields| > 0 && Plain(fields)
    ensures Split(Join(fields, '\t'), '\t') == fields
    ensures '\n' !in Join(fields, '\t')
  {
    SplitJoin(fields, '\t');
    JoinAvoids(fields, '\t', '\n');
  }

  predicate NoBreaks(lines: seq<string>)
  {
    forall k :: 0 <= k < |lines| ==> '\n' !in lines[k]
  }

  lemma NoBreaksAppend(a: seq<string>, b: seq<string>)
    requires NoBreaks(a) && NoBreaks(b)
    ensures NoBreaks(a + b)
  {
    forall k | 0 <= k < |a + b| ensures '\n' !in (a + b)[k] {
      if k >= |a| {
        assert (a + b)[k] == b[k - |a|];
      }
    }
  }

  lemma GeneLinesPlain(h: Hits)
    requires PlainHits(h)
    ensures NoBreaks(GeneLines(SortGenes(h.genes)))
  {
    var sorted := SortGenes(h.genes);
    forall i | 0 <= i < |sorted| ensures '\n' !in GeneLines(sorted)[i] {
      assert sorted[i] in multiset(h.genes);
      var j :| 0 <= j < |h.genes| && h.genes[j] == sorted[i];
      LineFields(GeneFields(sorted[i]));
    }
  }

  lemma OtherLinesPlain(h: Hits)
    requires PlainHits(h)
    ensures NoBreaks(ProteinLines(h.proteins))
    ensures NoBreaks(RelLines(h.geneRels)) && NoBreaks(HomologyLines(h.proteinRels)) && NoBreaks(RelLines(h.coding))
  {
    forall i | 0 <= i < |h.proteins| ensures '\n' !in ProteinLines(h.proteins)[i] {
      LineFields(ProteinFields(h.proteins[i]));
    }
    forall i | 0 <= i < |h.geneRels| ensures '\n' !in RelLines(h.geneRels)[i] {
      LineFields(RelFields(h.geneRels[i]));
    }
    forall i | 0 <= i < |h.proteinRels| ensures '\n' !in HomologyLines(h.proteinRels)[i] {
      LineFields(HomologyFields(h.proteinRels[i]));
    }
    forall i | 0 <= i < |h.coding| ensures '\n' !in RelLines(h.coding)[i] {
      LineFields(RelFields(h.coding[i]));
    }
  }

  /**
   * Read back line by line, a CMD reply is its three headers and one line
   * per node and relation, in section order, with an empty rest after the
   * last line break.
   */
  lemma CmdReplyLines(h: Hits)
    requires PlainHits(h)
    ensures Split(CmdReply(h), '\n') == CmdLines(h) + [""]
  {
    var g := GeneLines(SortGenes(h.genes));
    var p := ProteinLines(h.proteins);
    GeneLinesPlain(h);
    OtherLinesPlain(h);
    var l1 := ["Gene node(s):"] + g;
    var l2 := l1 + ["Protein node(s):"];
    var l3 := l2 + p;
    var l4 := l3 + ["Relations:"];
    var l5 := l4 + RelLines(h.geneRels);
    var l6 := l5 + HomologyLines(h.proteinRels);
    var lines := l6 + RelLines(h.coding);
    assert lines == CmdLines(h);
    NoBreaksAppend(["Gene node(s):"], g);
    NoBreaksAppend(l1, ["Protein node(s):"]);
    NoBreaksAppend(l2, p);
    NoBreaksAppend(l3, ["Relations:"]);
    NoBreaksAppend(l4, RelLines(h.geneRels));
    NoBreaksAppend(l5, HomologyLines(h.proteinRels));
    NoBreaksAppend(l6, RelLines(h.coding));
    NoBreaksAppend(lines, [""]);
    TextJoin(lines);
    SplitJoin(lines + [""], '\n');
  }

  /** The line of the i-th protein node splits on tabs into its id and properties. */
  lemma CmdProteinLine(h: Hits, i: nat)
    requires PlainHits(h) && i < |h.proteins|
    ensures Split(CmdLines(h)[2 + |h.genes| + i], '\t') == ProteinFields(h.proteins[i])
  {
    var sorted := SortGenes(h.genes);
    assert |sorted| == |h.genes| by {
      assert |multiset(sorted)| == |multiset(h.genes)|;
    }
    ProteinSection(["Gene node(s):"], GeneLines(sorted), ["Protein node(s):"], ProteinLines(h.proteins),
                   ["Relations:"], RelLines(h.geneRels), HomologyLines(h.proteinRels), RelLines(h.coding), i);
    LineFields(ProteinFields(h.proteins[i]));
  }

  /** The fourth part of eight joined lines follows the first three. */
  lemma ProteinSection(l1: seq<string>, l2: seq<string>, l3: seq<string>, l4: seq<string>,
                       l5: seq<string>, l6: seq<string>, l7: seq<string>, l8: seq<string>, i: nat)
    requires i < |l4|
    ensures (l1 + l2 + l3 + l4 + l5 + l6 + l7 + l8)[|l1| + |l2| + |l3| + i] == l4[i]
  {
  }

  // ---------------------------------------------------------------------
  // Output for the web client

  function GeneJson(item: (string, Gene)): string
  {
    var g := item.1;
    "{\"data\": {\"id\":\"g" + item.0 + "\", \"type\":\"Gene\", \"species\":\"" + g.species +
    "\", \"chromosome\":\"" + g.chromosome + "\", \"contig\":\"" + g.contig + "\", \"strand\":\"" + g.strand +
    "\", \"start\":" + IntToString(g.start) + ", \"stop\":" + IntToString(g.stop) + ", \"name\":\"" +
    g.name + "\", \"description\":\"" + g.descr + "\"}}"
  }

  function ProteinJson(item: (string, Protein)): string
  {
    var p := item.1;
    "{\"data\": {\"id\":\"p" + item.0 + "\", \"type\":\"Protein\", \"name\":\"" + p.name +
    "\", \"description\":\"" + p.descr + "\", \"species\":\"" + p.species +
    "\", \"chromosome\":\"" + p.chromosome + "\"}}"
  }

  function GeneRelJson(r: Rel): string
  {
    "{\"data\": {\"id\":\"g" + r.source + "_g" + r.target + "\", \"source\":\"g" + r.source +
    "\", \"type\":\"" + r.kind + "\", \"target\":\"g" + r.target + "\"}}"
  }

  function HomologyJson(h: Homology): string
  {
    "{\"data\": {\"id\":\"p" + h.source + "_" + h.kind + h.sensitivity + "_p" + h.target + "\", \"source\":\"p" +
    h.source + "\", \"type\":\"" + h.kind + "\", \"sensitivity\":\"" + h.sensitivity + "\", \"target\":\"p" +
    h.target + "\"}}"
  }

  function CodingJson(r: Rel): string
  {
    "{\"data\": {\"id\":\"g" + r.source + "_p" + r.target + "\", \"source\":\"g" + r.source +
    "\", \"type\":\"CODING\", \"target\":\"p" + r.target + "\"}}"
  }

  function GeneJsons(genes: seq<(string, Gene)>): (r: seq<string>)
    ensures |r| == |genes|
  {
    seq(|genes|, i requires 0 <= i < |genes| => GeneJson(genes[i]))
  }

  function ProteinJsons(proteins: seq<(string, Protein)>): (r: seq<string>)
    ensures |r| == |proteins|
  {
    seq(|proteins|, i requires 0 <= i < |proteins| => ProteinJson(proteins[i]))
  }

  function GeneRelJsons(rels: seq<Rel>): (r: seq<string>)
    ensures |r| == |rels|
  {
    seq(|rels|, i requires 0 <= i < |rels| => GeneRelJson(rels[i]))
  }

  function HomologyJsons(rels: seq<Homology>): (r: seq<string>)
    ensures |r| == |rels|
  {
    seq(|rels|, i requires 0 <= i < |rels| => HomologyJson(rels[i]))
  }

  function CodingJsons(rels: seq<Rel>): (r: seq<string>)
    ensures |r| == |rels|
  {
    seq(|rels|, i requires 0 <= i < |rels| => CodingJson(rels[i]))
  }

  /** A protein relation read the other way round. */
  function Reverse(h: Homology): Homology
  {
    Homology(h.target, h.kind, h.sensitivity, h.source)
  }

  /** Drops the relations of a protein with itself, keeping the rest in order. */
  function DropSelfLoops(rels: seq<Homology>): (r: seq<Homology>)
    ensures forall x :: x in r <==> x in rels && x.source != x.target
  {
    if |rels| == 0 then []
    else
      var rest := DropSelfLoops(rels[1..]);
      assert rels == [rels[0]] + rels[1..];
      if rels[0].source != rels[0].target then [rels[0]] + rest else rest
  }

  /**
   * One edge per related pair of proteins: a relation is kept unless it,
   * or its reverse, was kept already.
   */
  function KeepOnePerPair(rels: seq<Homology>): (kept: seq<Homology>)
    ensures forall x :: x in kept ==> x in rels
    ensures forall x :: x in rels ==> x in kept || Reverse(x) in kept
    ensures forall i, j :: 0 <= i < j < |kept| ==> kept[j] != kept[i] && kept[j] != Reverse(kept[i])
  {
    if |rels| == 0 then []
    else
      var front := rels[..|rels| - 1];
      var x := rels[|rels| - 1];
      var kept := KeepOnePerPair(front);
      assert forall y :: y in front ==> y in rels;
      assert rels == front + [x];
      if x in kept || Reverse(x) in kept then kept else kept + [x]
  }

  /** The protein relations the web reply draws. */
  function WebHomologies(rels: seq<Homology>): seq<Homology>
  {
    KeepOnePerPair(DropSelfLoops(rels))
  }

  /**
   * The protein edges of a web reply: each a relation that was found,
   * none from a protein to itself, no relation twice and no pair in both
   * directions, while every relation between two different proteins is
   * drawn, one way or the other.
   */
  lemma WebHomologiesOnePerPair(rels: seq<Homology>)
    ensures var drawn := WebHomologies(rels);
      (forall x :: x in drawn ==> x in rels && x.source != x.target) &&
      (forall x :: x in rels && x.source != x.target ==> x in drawn || Reverse(x) in drawn) &&
      (forall i, j :: 0 <= i < j < |drawn| ==> drawn[j] != drawn[i] && drawn[j] != Reverse(drawn[i]))
  {}

  function WebReply(h: Hits): string
  {
    var genes := SortGenes(h.genes);
    var nodes := "\"nodes\": [" + JoinText(GeneJsons(genes) + ProteinJsons(h.proteins), ", ") + "]";
    var edges := "\"edges\": [" +
      JoinText(GeneRelJsons(h.geneRels) + HomologyJsons(WebHomologies(h.proteinRels)) + CodingJsons(h.coding), ", ") + "]";
    "{" + nodes + "," + edges + "}"
  }

  /** The pass over the protein relations that keeps one edge per pair. */
  method OneEdgePerPair(rels: seq<Homology>) returns (kept: seq<Homology>)
    ensures kept == KeepOnePerPair(rels)
  {
    kept := [];
    for i := 0 to |rels|
      invariant kept == KeepOnePerPair(rels[..i])
    {
      assert rels[..i + 1][..i] == rels[..i];
      var rel := rels[i];
      if rel !in kept && Reverse(rel) !in kept {
        kept := kept + [rel];
      }
    }
    assert rels[..|rels|] == rels;
  }

  method SendDataWeb(h: Hits) returns (reply: string)
    ensures reply == WebReply(h)
  {
    var genes := SortGenes(h.genes);
    var nodes := "\"nodes\": [" + JoinText(GeneJsons(genes) + ProteinJsons(h.proteins), ", ") + "]";
    var proteinRels := DropSelfLoops(h.proteinRels);
    proteinRels := OneEdgePerPair(proteinRels);
    var edges := "\"edges\": [" +
      JoinText(GeneRelJsons(h.geneRels) + HomologyJsons(proteinRels) + CodingJsons(h.coding), ", ") + "]";
    reply := "{" + nodes + "," + edges + "}";
  }

  method SendData(format: string, h: Hits) returns (reply: string)
    ensures reply == Format(format, h)
  {
    if format == "CMD" {
      reply := SendDataCmd(h);
    } else {
      reply := SendDataWeb(h);
    }
  }

  /** A CMD reply opens with the gene section and a WEB reply is a JSON object, so neither reads as a status code. */
  lemma ReplyStart(format: string, h: Hits)
    ensures |Format(format, h)| > 0
    ensures Format(format, h)[0] == if format == "CMD" then 'G' else '{'
  {
    if format == "CMD" {
      var lines := CmdLines(h);
      assert lines[0] == "Gene node(s):";
      assert Text(lines) == lines[0] + "\n" + Text(lines[1..]);
    }
  }

  // ---------------------------------------------------------------------
  // The reverse-edge removal as written

  /** `list.remove(x)` with its ValueError ignored: the first `x` goes, a list without `x` stays as it is. */
  function RemoveFirst(s: seq<Homology>, x: Homology): (r: seq<Homology>)
    ensures x in s ==> |r| == |s| - 1 && multiset(r) == multiset(s) - multiset{x}
    ensures x !in s ==> r == s
  {
    if |s| == 0 then s
    else if s[0] == x then
      assert s == [s[0]] + s[1..];
      s[1..]
    else
      assert s == [s[0]] + s[1..];
      [s[0]] + RemoveFirst(s[1..], x)
  }

  /**
   * The loop `for rel in rels: rels.remove(reverse of rel)` from position
   * `i` on. Python walks a list by position while it shrinks, so a removal
   * in front of the current position makes the walk skip an element.
   */
  function RemoveReversesFrom(rels: seq<Homology>, i: nat): (r: seq<Homology>)
    ensures multiset(r) <= multiset(rels)
    decreases |rels| - i
  {
    if i >= |rels| then rels
    else RemoveReversesFrom(RemoveFirst(rels, Reverse(rels[i])), i + 1)
  }

  /** The protein relations the web reply draws as the server writes it. */
  function WebHomologiesAsWritten(rels: seq<Homology>): seq<Homology>
  {
    RemoveReversesFrom(DropSelfLoops(rels), 0)
  }

  method RemoveReversesAsWritten(rels: seq<Homology>) returns (r: seq<Homology>)
    ensures r == RemoveReversesFrom(rels, 0)
  {
    r := rels;
    var i := 0;
    while i < |r|
      invariant RemoveReversesFrom(r, i) == RemoveReversesFrom(rels, 0)
      decreases |r| - i
    {
      r := RemoveFirst(r, Reverse(r[i]));
      i := i + 1;
    }
  }

  /** As written, the removal only ever drops relations: what is drawn was found and is no self-loop. */
  lemma AsWrittenDrawsFoundEdges(rels: seq<Homology>)
    ensures forall x :: x in WebHomologiesAsWritten(rels) ==> x in rels && x.source != x.target
  {
    var d := DropSelfLoops(rels);
    forall x | x in WebHomologiesAsWritten(rels) ensures x in d {
      assert x in multiset(RemoveReversesFrom(d, 0));
    }
  }

  /**
   * With a relation between two different proteins listed twice in each
   * direction, in the order x, reverse, reverse, x, the pass as written
   * keeps both directions: x removes the first reverse, the walk then
   * visits the second reverse, which removes the first x and so makes the
   * walk stop before the last x.
   */
  lemma AsWrittenKeepsBothDirections(x: Homology)
    requires x.source != x.target
    ensures WebHomologiesAsWritten([x, Reverse(x), Reverse(x), x]) == [Reverse(x), x]
  {
    var y := Reverse(x);
    NoSelfLoopsKept([x, y, y, x]);
    FirstVisit(x);
    SecondVisit(x);
  }

  lemma FirstVisit(x: Homology)
    requires x.source != x.target
    ensures RemoveReversesFrom([x, Reverse(x), Reverse(x), x], 0) == RemoveReversesFrom([x, Reverse(x), x], 1)
  {
    var y := Reverse(x);
    var l := [x, y, y, x];
    assert l[1..] == [y, y, x];
    assert RemoveFirst(l, y) == [x] + RemoveFirst([y, y, x], y);
  }

  lemma SecondVisit(x: Homology)
    requires x.source != x.target
    ensures RemoveReversesFrom([x, Reverse(x), x], 1) == [Reverse(x), x]
  {
    var y := Reverse(x);
    var l1 := [x, y, x];
    assert RemoveFirst(l1, x) == [y, x];
    assert RemoveReversesFrom([y, x], 2) == [y, x];
  }

  /** A list without self-loops passes the self-loop filter unchanged. */
  lemma {:induction false} NoSelfLoopsKept(rels: seq<Homology>)
    requires forall k :: 0 <= k < |rels| ==> rels[k].source != rels[k].target
    ensures DropSelfLoops(rels) == rels
  {
    if |rels| > 0 {
      NoSelfLoopsKept(rels[1..]);
      assert rels == [rels[0]] + rels[1..];
    }
  }
}
