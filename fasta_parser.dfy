/**
 * The protein FASTA preparation (`FastaParser`): every header line of a
 * project's protein file is cut down to `>lcl|` and the protein id (the
 * header text up to the first space), so that BLAST can parse it; the
 * rewritten lines go both to the file itself and to one combined file of
 * all species.
 *
 * The file system is a map from file names in the project's `Files`
 * directory to their text.
 */
module FastaParser {
  import opened Wrappers
  import opened Strings
  import opened TextLines
  import Seqs

  /** The prefix of a header BLAST accepts. */
  const Local := ">lcl|"

  /** Lines copied as they are: sequence lines and headers already rewritten. */
  predicate Kept(line: string)
  {
    !StartsWith(line, ">") || StartsWith(line, Local)
  }

  /** `header.split(" ")[0]`: the header up to its first space. */
  function Id(header: string): (id: string)
    ensures StartsWith(header, id) && ' ' !in id
    ensures ' ' !in header ==> id == header
    ensures |id| < |header| ==> header[|id|] == ' '
  {
    match FirstIndex(header, ' ')
    case None => header
    case Some(k) => header[..k]
  }

  /** `line[1:-1]`, which drops the last character whether or not it is a newline. */
  function HeaderAsWritten(line: string): string
  {
    if |line| >= 2 then line[1..|line| - 1] else ""
  }

  /** The per-line rewrite as the source writes it. */
  function RewriteAsWritten(line: string): string
  {
    if Kept(line) then line else Local + Id(HeaderAsWritten(line)) + "\n"
  }

  /** The header text: the line without its `>` and without its newline, if it has one. */
  function HeaderText(line: string): (h: string)
    requires StartsWith(line, ">")
    ensures |h| < |line|
    ensures line[|line| - 1] == '\n' ==> line == line[..1] + h + "\n"
    ensures line[|line| - 1] != '\n' ==> line == line[..1] + h
  {
    if line[|line| - 1] == '\n' then line[1..|line| - 1] else line[1..]
  }

  /** The per-line rewrite, with the newline removed only where there is one. */
  function Rewrite(line: string): (r: string)
    ensures Kept(line) ==> r == line
    ensures !Kept(line) ==> |r| > |Local| && r[..|Local|] == Local && r[|r| - 1] == '\n'
    ensures Kept(r)
  {
    if Kept(line) then line
    else
      var r := Local + Id(HeaderText(line)) + "\n";
      assert r[..|Local|] == Local;
      r
  }

  /** A rewritten header is never rewritten again. */
  lemma RewriteIdempotent(line: string)
    ensures Rewrite(Rewrite(line)) == Rewrite(line)
  {
  }

  /** The id is the header's first word: everything before the first space, which is all of it when there is none. */
  lemma RewriteKeepsId(id: string, rest: string, ending: string)
    requires ' ' !in id && '\n' !in id && '|' !in id
    requires (rest == "" || rest[0] == ' ') && '\n' !in rest
    requires ending == "" || ending == "\n"
    ensures Rewrite(">" + id + rest + ending) == Local + id + "\n"
  {
    var line := ">" + id + rest + ending;
    if |id| >= 4 {
      assert line[4] == id[3];
    } else if 1 + |id| < |line| {
      assert line[1 + |id|] == ' ' || line[1 + |id|] == '\n';
    }
    assert !Kept(line) by {
      assert line[..1] == ">";
    }
    var h := HeaderText(line);
    if ending == "\n" {
      assert h == id + rest;
    } else {
      assert line[|line| - 1] != '\n' by {
        if |rest| > 0 {
          assert line[|line| - 1] == rest[|rest| - 1];
        } else if |id| > 0 {
          assert line[|line| - 1] == id[|id| - 1];
        }
      }
      assert h == id + rest;
    }
    assert Id(h) == id by {
      if rest == "" {
        assert h == id;
      } else {
        FirstIndexAt(h, ' ', |id|);
        assert h[..|id|] == id;
      }
    }
  }

  /** Away from the last line of a file, the line as written and the corrected rewrite agree. */
  lemma AsWrittenAgrees(line: string)
    requires EndsWith(line, "\n")
    ensures RewriteAsWritten(line) == Rewrite(line)
  {
    assert line[|line| - 1..][0] == '\n';
  }

  /** A final header without a newline loses its last character as written. */
  lemma FinalHeaderLosesChar()
    ensures RewriteAsWritten(">abc") == ">lcl|ab\n"
    ensures Rewrite(">abc") == ">lcl|abc\n"
  {
    assert !StartsWith(">abc", Local);
    assert Id("ab") == "ab";
    assert HeaderText(">abc") == "abc";
    assert Id("abc") == "abc";
  }

  /** The corrected rewrite gives a header the same id whether or not it ends the file. */
  lemma RewriteIgnoresNewline(line: string)
    requires |line| > 0 && line[|line| - 1] != '\n' && !Kept(line)
    ensures Rewrite(line + "\n") == Rewrite(line)
  {
    assert (line + "\n")[..|line|] == line;
    if |line| >= |Local| {
      assert (line + "\n")[..|Local|] == line[..|Local|];
    } else if |line| == |Local| - 1 {
      assert (line + "\n")[|line|] == '\n';
    }
    assert !Kept(line + "\n");
    assert HeaderText(line + "\n") == HeaderText(line);
  }

  function Rewrites(ls: seq<string>): (rs: seq<string>)
    ensures |rs| == |ls| && forall i :: 0 <= i < |ls| ==> rs[i] == Rewrite(ls[i])
  {
    seq(|ls|, i requires 0 <= i < |ls| => Rewrite(ls[i]))
  }

  /** The rewritten text of a whole file. */
  function Rewritten(text: string): string
  {
    Concat(Rewrites(Lines(text)))
  }

  /** A rewritten header holds no newline before its last character. */
  lemma RewriteOneLine(line: string)
    requires |line| > 0 && !Kept(line) && '\n' !in line[..|line| - 1]
    ensures '\n' !in Rewrite(line)[..|Rewrite(line)| - 1]
  {
    var h := HeaderText(line);
    assert '\n' !in h by {
      if line[|line| - 1] == '\n' {
        assert h == line[..|line| - 1][1..];
      } else {
        if |line| > 1 {
          assert h == line[..|line| - 1][1..] + [line[|line| - 1]];
        }
      }
    }
    var id := Id(h);
    assert id == h[..|id|];
    assert Rewrite(line)[..|Rewrite(line)| - 1] == Local + id;
  }

  /** Rewriting keeps a list of lines a list of lines. */
  lemma RewritesLineList(ls: seq<string>)
    requires LineList(ls)
    ensures LineList(Rewrites(ls))
  {
    var rs := Rewrites(ls);
    forall i | 0 <= i < |rs|
      ensures |rs[i]| > 0 && '\n' !in rs[i][..|rs[i]| - 1] && (i + 1 < |rs| ==> rs[i][|rs[i]| - 1] == '\n')
    {
      if !Kept(ls[i]) {
        RewriteOneLine(ls[i]);
      }
    }
  }

  /** The output has exactly the input's lines, each rewritten: the line count is kept. */
  lemma RewrittenLines(text: string)
    ensures Lines(Rewritten(text)) == Rewrites(Lines(text))
    ensures |Lines(Rewritten(text))| == |Lines(text)|
  {
    RewritesLineList(Lines(text));
    LinesOfConcat(Rewrites(Lines(text)));
  }

  /** Preparing a prepared file changes nothing. */
  lemma RewrittenIdempotent(text: string)
    ensures Rewritten(Rewritten(text)) == Rewritten(text)
  {
    RewrittenLines(text);
    var rs := Rewrites(Lines(text));
    assert Rewrites(rs) == rs by {
      forall i | 0 <= i < |rs| ensures Rewrite(rs[i]) == rs[i] {
        RewriteIdempotent(Lines(text)[i]);
      }
    }
  }

  /** What `parse_fasta` appends to a file name for the rewritten copy. */
  const CopySuffix := "_header_corrected.faa"

  class Parser {
    const filePath: string
    const csvPath: string
    const blastDbPath: string
    /** The text written so far to the combined protein file. */
    var combined: string

    constructor (projId: string)
      ensures filePath == "Projects/" + projId + "/Files"
      ensures csvPath == "Projects/" + projId + "/CSV"
      ensures blastDbPath == "Projects/" + projId + "/BlastDB"
      ensures combined == ""
    {
      filePath := "Projects/" + projId + "/Files";
      csvPath := "Projects/" + projId + "/CSV";
      blastDbPath := "Projects/" + projId + "/BlastDB";
      combined := "";
    }

    /** One line of the loop: copied, or cut down to its id. */
    static method RewriteLine(line: string) returns (written: string)
      ensures written == Rewrite(line)
    {
      if !StartsWith(line, ">") || StartsWith(line, Local) {
        written := line;
      } else {
        var header := HeaderText(line);
        written := Local + Id(header) + "\n";
      }
    }

    /** The line loop of `parse_fasta`: each line, rewritten, goes to the output and to the combined file. */
    method RewriteLines(lines: seq<string>) returns (output: string)
      modifies this`combined
      ensures output == Concat(Rewrites(lines))
      ensures combined == old(combined) + output
    {
      ghost var rs := Rewrites(lines);
      ghost var before := combined;
      output := "";
      for i := 0 to |lines|
        invariant output == Concat(rs[..i])
        invariant combined == before + output
      {
        var written := RewriteLine(lines[i]);
        ConcatLines(rs, i);
        Seqs.AppendAssoc(before, output, written);
        output := output + written;
        combined := combined + written;
      }
      assert rs[..|lines|] == rs;
    }

    /**
     * `parse_fasta`: the rewritten text goes to `<name>_header_corrected.faa`
     * (replacing any file of that name) and to the combined file; then the
     * original is removed and the copy renamed to it, so the file holds its
     * rewritten text and no file of the copy's name is left. A missing file
     * raises FileNotFoundError before anything is written.
     */
    method ParseFasta(files: map<string, string>, fileName: string) returns (after: map<string, string>, exit: Exit)
      modifies this`combined
      ensures fileName !in files ==> exit == Raised("FileNotFoundError") && after == files && combined == old(combined)
      ensures fileName in files ==>
                && exit == Returned
                && after == (files - {fileName + CopySuffix})[fileName := Rewritten(files[fileName])]
                && fileName + CopySuffix !in after
                && combined == old(combined) + Rewritten(files[fileName])
    {
      if fileName !in files {
        return files, Raised("FileNotFoundError");
      }
      var copy := fileName + CopySuffix;
      var output := RewriteLines(Lines(files[fileName]));
      var written := files[copy := output];
      var removed := written - {fileName};
      assert copy != fileName by {
        assert |copy| > |fileName|;
      }
      return (removed - {copy})[fileName := removed[copy]], Returned;
    }
  }
}
