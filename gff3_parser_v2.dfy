/**
 * The second GFF3 parser (`GFF3Parser_v2`), which writes one FASTA record
 * per transcript: the transcript's selected subfeatures are cut from the
 * genome sequence, minus-strand pieces reverse-complemented, trimmed by
 * their phase and joined in order of position.
 *
 * The gffutils database and the genome file are not modelled: each
 * transcript arrives as its top feature and its subfeatures, every
 * subfeature already carrying the genome text it covers.
 */
module Gff3ParserV2 {
  import opened Wrappers
  import opened Strings
  import opened Sorting

  // ---- reverse_complement ----

  predicate IsBase(c: char)
  {
    c == 'A' || c == 'C' || c == 'G' || c == 'T'
  }

  /** The pairing A-T, C-G. */
  function Complement(c: char): (d: char)
    requires IsBase(c)
    ensures IsBase(d) && d != c
  {
    if c == 'A' then 'T' else if c == 'T' then 'A' else if c == 'C' then 'G' else 'C'
  }

  /** Pairing is symmetric. */
  lemma ComplementTwice(c: char)
    requires IsBase(c)
    ensures Complement(Complement(c)) == c
  {}

  predicate Bases(s: string)
  {
    forall i :: 0 <= i < |s| ==> IsBase(s[i])
  }

  /** The complement of each base, read backwards. */
  function RevComp(u: string): (r: string)
    requires Bases(u)
    ensures |r| == |u| && Bases(r)
    ensures forall i :: 0 <= i < |u| ==> r[i] == Complement(u[|u| - 1 - i])
  {
    seq(|u|, i requires 0 <= i < |u| => Complement(u[|u| - 1 - i]))
  }

  /**
   * `reverse_complement`: upper-case, complement and reverse; `None` is the
   * KeyError of a character other than A, C, G or T in either case.
   */
  function ReverseComplement(s: string): (r: Option<string>)
    ensures r.Some? <==> Bases(Upper(s))
    ensures r.Some? ==> |r.value| == |s| && Bases(r.value)
  {
    var u := Upper(s);
    if Bases(u) then Some(RevComp(u)) else None
  }

  /** Applied twice, the reverse complement gives back the upper-cased input. */
  lemma ReverseComplementTwice(s: string)
    requires Bases(Upper(s))
    ensures ReverseComplement(ReverseComplement(s).value) == Some(Upper(s))
  {
    var u := Upper(s);
    var r := RevComp(u);
    assert Upper(r) == r;
    var rr := RevComp(r);
    forall i | 0 <= i < |u| ensures rr[i] == u[i] {
      assert rr[i] == Complement(r[|u| - 1 - i]);
      ComplementTwice(u[i]);
    }
    assert rr == u;
  }

  /** Only the four bases, in either case, have a complement: any other letter (N, say) raises KeyError. */
  lemma ReverseComplementFails(s: string, i: int)
    requires 0 <= i < |s| && !IsBase(UpperChar(s[i]))
    ensures ReverseComplement(s).None?
  {
    assert Upper(s)[i] == UpperChar(s[i]);
  }

  // ---- the transcripts ----

  /** The top feature of a transcript (a gene or mRNA record). */
  datatype Top = Top(seqid: string, start: int, stop: int, strand: string, id: string, attributes: map<string, seq<string>>)

  /** A subfeature (CDS, exon, UTR...) and the genome text between its bounds. */
  datatype Sub = Sub(featuretype: string, strand: string, frame: string, start: int,
                     attributes: map<string, seq<string>>, dna: string)

  datatype Transcript = Transcript(top: Top, subs: seq<Sub>)

  /** A name or description locator `feature:attribute`, split on `:` with each part stripped. */
  function Locator(text: string): (parts: seq<string>)
    ensures |parts| == |Split(text, ':')| >= 1
    ensures forall i :: 0 <= i < |parts| ==> parts[i] == Strip(Split(text, ':')[i])
    ensures forall i :: 0 <= i < |parts| ==> ':' !in parts[i]
  {
    var pieces := Split(text, ':');
    var parts := MapStrings(pieces, Strip);
    assert forall i :: 0 <= i < |parts| ==> ':' !in parts[i] by {
      forall i | 0 <= i < |parts| ensures ':' !in parts[i] {
        StripFrom(pieces[i]);
      }
    }
    parts
  }

  /** The phase of a subfeature: its frame column when that is digits, else 0. */
  function Phase(frame: string): nat
  {
    if IsDigits(frame) then DigitsValue(frame) else 0
  }

  /** Minus-strand pieces are ordered by their negated start, so they join from the highest start down. */
  function FragmentKey(sub: Sub): int
  {
    if sub.strand == "-" then -sub.start else sub.start
  }

  /**
   * The piece a subfeature adds, as (key, text): the genome text, reverse
   * complemented on the minus strand, without its first `phase`
   * characters; `None` is the KeyError of a base without a complement.
   */
  function Fragment(sub: Sub): (r: Option<(int, string)>)
    ensures sub.strand != "-" ==> r == Some((sub.start, SliceFrom(sub.dna, Phase(sub.frame))))
    ensures sub.strand == "-" ==> (r.Some? <==> Bases(Upper(sub.dna)))
    ensures r.Some? ==> r.value.0 == FragmentKey(sub) && |r.value.1| == if Phase(sub.frame) <= |sub.dna| then |sub.dna| - Phase(sub.frame) else 0
  {
    if sub.strand == "-" then
      match ReverseComplement(sub.dna)
      case None => None
      case Some(text) => Some((-sub.start, SliceFrom(text, Phase(sub.frame))))
    else Some((sub.start, SliceFrom(sub.dna, Phase(sub.frame))))
  }

  predicate KeyLeq(a: (int, string), b: (int, string))
  {
    a.0 <= b.0
  }

  function Texts(fragments: seq<(int, string)>): (r: seq<string>)
    ensures |r| == |fragments|
    ensures forall i :: 0 <= i < |r| ==> r[i] == fragments[i].1
  {
    seq(|fragments|, i requires 0 <= i < |fragments| => fragments[i].1)
  }

  /** The transcript sequence: the pieces sorted by key (ties keep their order) and concatenated. */
  function Assembled(fragments: seq<(int, string)>): string
  {
    Concat(Texts(SortBy(fragments, KeyLeq)))
  }

  /** The pieces go into the transcript in ascending key order. */
  lemma AssembledInKeyOrder(fragments: seq<(int, string)>)
    ensures var sorted := SortBy(fragments, KeyLeq);
            Assembled(fragments) == Concat(Texts(sorted)) &&
            multiset(sorted) == multiset(fragments) &&
            forall i, j :: 0 <= i < j < |sorted| ==> sorted[i].0 <= sorted[j].0
  {
    assert TotalPreorder(KeyLeq);
    SortBySorted(fragments, KeyLeq);
  }

  /** Where a transcript's name and description stand while its subfeatures are read. */
  datatype Scan = Scan(name: string, desc: string, fragments: seq<(int, string)>)

  /** How looking up one attribute of a record ends. */
  datatype Lookup = Missing | Empty | Found(value: string)

  function Attr(attributes: map<string, seq<string>>, key: string): Lookup
  {
    if key !in attributes then Missing else if |attributes[key]| == 0 then Empty else Found(attributes[key][0])
  }

  /** The parser's settings. */
  datatype Config = Config(
    species: string,
    isGenome: bool,
    parentType: string,
    selected: seq<string>,
    nameAttribute: seq<string>,
    descrAttribute: seq<string>)

  /**
   * The name (or description) after the top feature is read: replaced by
   * the named attribute when the locator names the top feature's type. The
   * lookup is not guarded, so a locator without an attribute part is an
   * IndexError and a missing attribute a KeyError.
   */
  function TopValue(top: Top, locator: seq<string>, parentType: string, current: string): Result<string>
    requires |locator| >= 1
  {
    if locator[0] != parentType then Ok(current)
    else if |locator| < 2 then Err("IndexError")
    else match Attr(top.attributes, locator[1])
      case Missing => Err("KeyError")
      case Empty => Err("IndexError")
      case Found(v) => Ok(v)
  }

  /** The same for a selected subfeature, where only a missing attribute is forgiven. */
  function SubValue(sub: Sub, locator: seq<string>, current: string): Result<string>
    requires |locator| >= 1
  {
    if locator[0] != sub.featuretype then Ok(current)
    else if |locator| < 2 then Err("IndexError")
    else match Attr(sub.attributes, locator[1])
      case Missing => Ok(current)
      case Empty => Err("IndexError")
      case Found(v) => Ok(v)
  }

  datatype Result<T> = Ok(value: T) | Err(error: string)

  /** One subfeature: unselected ones are ignored; selected ones may rename the transcript and add a piece. */
  function ScanSub(cfg: Config, scan: Scan, sub: Sub): Result<Scan>
    requires |cfg.nameAttribute| >= 1 && |cfg.descrAttribute| >= 1
  {
    if sub.featuretype !in cfg.selected then Ok(scan)
    else match SubValue(sub, cfg.nameAttribute, scan.name)
      case Err(e) => Err(e)
      case Ok(name) =>
        match SubValue(sub, cfg.descrAttribute, scan.desc)
        case Err(e) => Err(e)
        case Ok(desc) =>
          if !cfg.isGenome then Ok(Scan(name, desc, scan.fragments))
          else match Fragment(sub)
            case None => Err("KeyError")
            case Some(piece) => Ok(Scan(name, desc, scan.fragments + [piece]))
  }

  function ScanSubs(cfg: Config, scan: Scan, subs: seq<Sub>): Result<Scan>
    requires |cfg.nameAttribute| >= 1 && |cfg.descrAttribute| >= 1
    decreases |subs|
  {
    if |subs| == 0 then Ok(scan)
    else match ScanSub(cfg, scan, subs[0])
      case Err(e) => Err(e)
      case Ok(next) => ScanSubs(cfg, next, subs[1..])
  }

  /** What one transcript leads to: an escaping error, nothing (no sequence), or its two output lines. */
  datatype Written = Crash(error: string) | Skip | Emit(header: string, sequence: string)

  /** The record header: `>`, the gene id, `_` and the transcript's name. */
  function Header(id: int, name: string): (h: string)
    ensures |h| >= 3 && h[0] == '>' && h[|h| - 1] == '\n'
  {
    ">" + IntToString(id) + "_" + name + "\n"
  }

  function Transcribe(cfg: Config, t: Transcript, id: int): Written
    requires |cfg.nameAttribute| >= 1 && |cfg.descrAttribute| >= 1
  {
    match TopValue(t.top, cfg.nameAttribute, cfg.parentType, t.top.id)
    case Err(e) => Crash(e)
    case Ok(name) =>
      match TopValue(t.top, cfg.descrAttribute, cfg.parentType, "")
      case Err(e) => Crash(e)
      case Ok(desc) =>
        match ScanSubs(cfg, Scan(name, desc, []), t.subs)
        case Err(e) => Crash(e)
        case Ok(scan) =>
          var sequence := Assembled(scan.fragments);
          if sequence == "" then Skip else Emit(Header(id, scan.name), sequence + "\n")
  }

  /** Without a genome no piece is ever collected. */
  lemma {:induction false} NoGenomeNoFragments(cfg: Config, scan: Scan, subs: seq<Sub>)
    requires |cfg.nameAttribute| >= 1 && |cfg.descrAttribute| >= 1 && !cfg.isGenome
    ensures ScanSubs(cfg, scan, subs).Ok? ==> ScanSubs(cfg, scan, subs).value.fragments == scan.fragments
    decreases |subs|
  {
    if |subs| > 0 {
      match ScanSub(cfg, scan, subs[0])
      case Err(_) =>
      case Ok(next) =>
        assert next.fragments == scan.fragments;
        NoGenomeNoFragments(cfg, next, subs[1..]);
    }
  }

  /** So when the sequence is not a genome, no transcript is ever written. */
  lemma NoGenomeNothingWritten(cfg: Config, t: Transcript, id: int)
    requires |cfg.nameAttribute| >= 1 && |cfg.descrAttribute| >= 1 && !cfg.isGenome
    ensures !Transcribe(cfg, t, id).Emit?
  {
    match TopValue(t.top, cfg.nameAttribute, cfg.parentType, t.top.id)
    case Err(_) =>
    case Ok(name) =>
      match TopValue(t.top, cfg.descrAttribute, cfg.parentType, "")
      case Err(_) =>
      case Ok(desc) =>
        NoGenomeNoFragments(cfg, Scan(name, desc, []), t.subs);
        assert Texts(SortBy([], KeyLeq)) == [];
  }

  /** What each transcript leads to, the one at position `i` having gene id `lastId + 1 + i`. */
  function Writes(cfg: Config, ts: seq<Transcript>, lastId: int): (ws: seq<Written>)
    requires |cfg.nameAttribute| >= 1 && |cfg.descrAttribute| >= 1
    ensures |ws| == |ts|
  {
    seq(|ts|, i requires 0 <= i < |ts| => Transcribe(cfg, ts[i], lastId + 1 + i))
  }

  /** The lines written, and the error that ended the run if one escaped. */
  function Emitted(ws: seq<Written>): (seq<string>, Option<string>)
  {
    if |ws| == 0 then ([], None)
    else match ws[0]
      case Crash(e) => ([], Some(e))
      case Skip => Emitted(ws[1..])
      case Emit(h, s) => ([h, s] + Emitted(ws[1..]).0, Emitted(ws[1..]).1)
  }

  /** The output of the transcripts from gene id `lastId + 1` on. */
  function Output(cfg: Config, ts: seq<Transcript>, lastId: int): (seq<string>, Option<string>)
    requires |cfg.nameAttribute| >= 1 && |cfg.descrAttribute| >= 1
  {
    Emitted(Writes(cfg, ts, lastId))
  }

  /** The output from transcript `i` on, in terms of transcript `i` and the rest. */
  lemma EmittedAt(ws: seq<Written>, i: nat)
    requires i < |ws|
    ensures Emitted(ws[i..]) == match ws[i]
      case Crash(e) => ([], Some(e))
      case Skip => Emitted(ws[i + 1..])
      case Emit(h, s) => ([h, s] + Emitted(ws[i + 1..]).0, Emitted(ws[i + 1..]).1)
  {
    assert ws[i..][0] == ws[i];
    assert ws[i..][1..] == ws[i + 1..];
  }

  /** The lines written before transcript `i`, carried over transcript `i`. */
  lemma EmitNext(ws: seq<Written>, i: nat, lines: seq<string>)
    requires i < |ws|
    requires lines + Emitted(ws[i..]).0 == Emitted(ws).0 && Emitted(ws[i..]).1 == Emitted(ws).1
    ensures ws[i].Crash? ==> lines == Emitted(ws).0 && Emitted(ws).1 == Some(ws[i].error)
    ensures ws[i].Skip? ==> lines + Emitted(ws[i + 1..]).0 == Emitted(ws).0 && Emitted(ws[i + 1..]).1 == Emitted(ws).1
    ensures ws[i].Emit? ==>
              && (lines + [ws[i].header, ws[i].sequence]) + Emitted(ws[i + 1..]).0 == Emitted(ws).0
              && Emitted(ws[i + 1..]).1 == Emitted(ws).1
  {
    EmittedAt(ws, i);
    if ws[i].Emit? {
      var rest := Emitted(ws[i + 1..]).0;
      assert lines + ([ws[i].header, ws[i].sequence] + rest) == (lines + [ws[i].header, ws[i].sequence]) + rest;
    }
  }

  /** A run stops with an error exactly when some transcript raises one. */
  lemma {:induction false} EmittedCrash(ws: seq<Written>)
    ensures Emitted(ws).1.Some? <==> exists i :: 0 <= i < |ws| && ws[i].Crash?
  {
    if |ws| > 0 {
      EmittedCrash(ws[1..]);
      if exists i :: 0 <= i < |ws[1..]| && ws[1..][i].Crash? {
        var i :| 0 <= i < |ws[1..]| && ws[1..][i].Crash?;
        assert ws[i + 1].Crash?;
      }
      if exists i :: 0 <= i < |ws| && ws[i].Crash? {
        var i :| 0 <= i < |ws| && ws[i].Crash?;
        if i > 0 {
          assert ws[1..][i - 1].Crash?;
        }
      }
    }
  }

  /** Nothing is written when no transcript has a sequence. */
  lemma {:induction false} EmittedNothing(ws: seq<Written>)
    requires forall i :: 0 <= i < |ws| ==> !ws[i].Emit?
    ensures Emitted(ws).0 == []
  {
    if |ws| > 0 {
      assert forall i :: 0 <= i < |ws[1..]| ==> ws[1..][i] == ws[i + 1];
      EmittedNothing(ws[1..]);
    }
  }

  lemma TranscribeWellFormed(cfg: Config, t: Transcript, id: int)
    requires |cfg.nameAttribute| >= 1 && |cfg.descrAttribute| >= 1
    ensures WellFormed(Transcribe(cfg, t, id))
  {}

  /** A run over a file that is not a genome writes no record at all. */
  lemma NoGenomeOutput(cfg: Config, ts: seq<Transcript>, lastId: int)
    requires |cfg.nameAttribute| >= 1 && |cfg.descrAttribute| >= 1 && !cfg.isGenome
    ensures Output(cfg, ts, lastId).0 == []
  {
    var ws := Writes(cfg, ts, lastId);
    forall i | 0 <= i < |ws| ensures !ws[i].Emit? {
      NoGenomeNothingWritten(cfg, ts[i], lastId + 1 + i);
    }
    EmittedNothing(ws);
  }

  /** Each record is a header line and a non-empty sequence line. */
  predicate WellFormed(w: Written)
  {
    w.Emit? ==> Line(w.header) && w.header[0] == '>' && Line(w.sequence)
  }

  /** A line of at least one character before its newline. */
  predicate Line(s: string)
  {
    |s| >= 2 && s[|s| - 1] == '\n'
  }

  /** What is written is whole lines, a header at every even position: the output is FASTA. */
  lemma {:induction false} EmittedFasta(ws: seq<Written>)
    requires forall i :: 0 <= i < |ws| ==> WellFormed(ws[i])
    ensures var out := Emitted(ws).0;
            |out| % 2 == 0 &&
            forall k :: 0 <= k < |out| ==> Line(out[k]) && (k % 2 == 0 ==> out[k][0] == '>')
  {
    if |ws| > 0 {
      assert forall i :: 0 <= i < |ws[1..]| ==> ws[1..][i] == ws[i + 1];
      EmittedFasta(ws[1..]);
      if ws[0].Emit? {
        var rest := Emitted(ws[1..]).0;
        var out := [ws[0].header, ws[0].sequence] + rest;
        forall k | 0 <= k < |out| ensures Line(out[k]) && (k % 2 == 0 ==> out[k][0] == '>') {
          if k >= 2 {
            assert out[k] == rest[k - 2];
          }
        }
      }
    }
  }

  /** The records written: a header line `>id_name` followed by a non-empty sequence line, for each. */
  lemma OutputIsFasta(cfg: Config, ts: seq<Transcript>, lastId: int)
    requires |cfg.nameAttribute| >= 1 && |cfg.descrAttribute| >= 1
    ensures var out := Output(cfg, ts, lastId).0;
            |out| % 2 == 0 &&
            forall k :: 0 <= k < |out| ==> Line(out[k]) && (k % 2 == 0 ==> out[k][0] == '>')
  {
    var ws := Writes(cfg, ts, lastId);
    forall i | 0 <= i < |ws| ensures WellFormed(ws[i]) {
      TranscribeWellFormed(cfg, ts[i], lastId + 1 + i);
    }
    EmittedFasta(ws);
  }

  function ExitOf(error: Option<string>): Exit
  {
    match error
    case None => Returned
    case Some(e) => Raised(e)
  }

  /** The parser object; the genome file is reduced to the texts the subfeatures carry. */
  class ParserV2 {
    const cfg: Config
    var geneNodeId: int

    constructor (gff3Path: string, isGenome: bool, geneNodeId: int, parentType: string, subfeatures: seq<string>,
                 nameAttribute: string, descrAttribute: string)
      ensures cfg == Config(Stem(Basename(gff3Path)), isGenome, parentType, subfeatures, Locator(nameAttribute), Locator(descrAttribute))
      ensures this.geneNodeId == geneNodeId
    {
      cfg := Config(Stem(Basename(gff3Path)), isGenome, parentType, subfeatures, Locator(nameAttribute), Locator(descrAttribute));
      this.geneNodeId := geneNodeId;
    }

    /** The subfeature loop of one transcript. */
    method ScanTranscript(name: string, desc: string, subs: seq<Sub>) returns (r: Result<Scan>)
      requires |cfg.nameAttribute| >= 1 && |cfg.descrAttribute| >= 1
      ensures r == ScanSubs(cfg, Scan(name, desc, []), subs)
    {
      var scan := Scan(name, desc, []);
      for i := 0 to |subs|
        invariant ScanSubs(cfg, scan, subs[i..]) == ScanSubs(cfg, Scan(name, desc, []), subs)
      {
        assert subs[i..][0] == subs[i];
        assert subs[i..][1..] == subs[i + 1..];
        var step := ScanSub(cfg, scan, subs[i]);
        if step.Err? {
          return step;
        }
        scan := step.value;
      }
      assert subs[|subs|..] == [];
      r := Ok(scan);
    }

    /** The body of the transcript loop, for the transcript given gene id `id`. */
    method TranscribeOne(t: Transcript, id: int) returns (written: Written)
      requires |cfg.nameAttribute| >= 1 && |cfg.descrAttribute| >= 1
      ensures written == Transcribe(cfg, t, id)
    {
      var name := TopValue(t.top, cfg.nameAttribute, cfg.parentType, t.top.id);
      if name.Err? {
        return Crash(name.error);
      }
      var desc := TopValue(t.top, cfg.descrAttribute, cfg.parentType, "");
      if desc.Err? {
        return Crash(desc.error);
      }
      var scan := ScanTranscript(name.value, desc.value, t.subs);
      if scan.Err? {
        return Crash(scan.error);
      }
      var sequence := Assembled(scan.value.fragments);
      if sequence == "" {
        return Skip;
      }
      written := Emit(Header(id, scan.value.name), sequence + "\n");
    }

    /**
     * `parse_gff3_file` after the database is built: every transcript takes
     * the next gene id, and those with a non-empty sequence are written
     * as a header line and a sequence line. An error that escapes ends
     * the run with the lines written so far.
     */
    method ParseTranscripts(ts: seq<Transcript>) returns (lines: seq<string>, exit: Exit)
      requires |cfg.nameAttribute| >= 1 && |cfg.descrAttribute| >= 1
      modifies this`geneNodeId
      ensures lines == Output(cfg, ts, old(geneNodeId)).0
      ensures exit == ExitOf(Output(cfg, ts, old(geneNodeId)).1)
      ensures exit == Returned ==> geneNodeId == old(geneNodeId) + |ts|
    {
      ghost var ws := Writes(cfg, ts, geneNodeId);
      ghost var first := geneNodeId;
      lines := [];
      for i := 0 to |ts|
        invariant geneNodeId == first + i
        invariant lines + Emitted(ws[i..]).0 == Emitted(ws).0
        invariant Emitted(ws[i..]).1 == Emitted(ws).1
      {
        geneNodeId := geneNodeId + 1;
        var written := TranscribeOne(ts[i], geneNodeId);
        assert written == ws[i];
        EmitNext(ws, i, lines);
        match written
        case Crash(e) =>
          return lines, Raised(e);
        case Skip =>
        case Emit(header, sequence) =>
          lines := lines + [header, sequence];
      }
      assert ws[|ts|..] == [];
      exit := Returned;
    }
  }
}
