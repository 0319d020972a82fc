/**
 * The stand-alone header corrector: for every file named on the command
 * line it writes `<name up to its last dot>_header_corrected.faa`, where
 * every header line becomes `>|lcl|` followed by the whole header text.
 *
 * The file system is a map from file names to their text; the command
 * line is the list of file names.
 */
module FastaIdCorrector {
  import opened Wrappers
  import opened Strings
  import opened TextLines

  const LocalBar := ">|lcl|"
  const Suffix := "_header_corrected.faa"

  /** `file[:file.rfind(".")]` plus the suffix; with no dot, `rfind` gives -1 and the slice drops the last character. */
  function OutputName(file: string): (name: string)
    ensures EndsWith(name, Suffix)
  {
    var cut := match LastIndex(file, '.') case None => -1 case Some(k) => k;
    var name := SliceTo(file, cut) + Suffix;
    assert name[|name| - |Suffix|..] == Suffix;
    name
  }

  /** The output name is the input name up to its last dot; without a dot, the name minus its last character. */
  lemma OutputNameParts(file: string)
    ensures '.' in file ==> exists k :: 0 <= k < |file| && file[k] == '.' && '.' !in file[k + 1..] &&
                                        OutputName(file) == file[..k] + Suffix
    ensures '.' !in file && |file| > 0 ==> OutputName(file) == file[..|file| - 1] + Suffix
    ensures file == "" ==> OutputName(file) == Suffix
  {
    match LastIndex(file, '.')
    case None =>
    case Some(k) =>
  }

  /** The header text as written: `line[1:-1]`. */
  function HeaderAsWritten(line: string): string
  {
    if |line| >= 2 then line[1..|line| - 1] else ""
  }

  /** `header.find(" ")`, -1 when there is no space. */
  function SpaceAt(header: string): int
  {
    match FirstIndex(header, ' ')
    case None => -1
    case Some(k) => k
  }

  /** The per-line rewrite: headers get `>|lcl|`, the id and the description, then a newline. */
  function CorrectLine(line: string): (r: string)
    ensures !StartsWith(line, ">") ==> r == line
    ensures StartsWith(line, ">") ==> StartsWith(r, LocalBar) && EndsWith(r, "\n")
  {
    if !StartsWith(line, ">") then line
    else
      var header := HeaderAsWritten(line);
      var id := SliceTo(header, SpaceAt(header));
      var description := SliceFrom(header, SpaceAt(header));
      var r := LocalBar + id + description + "\n";
      assert r[..|LocalBar|] == LocalBar;
      r
  }

  /**
   * Splitting at the first space and joining again gives the header back,
   * space or no space: a header becomes `>|lcl|` and its whole text.
   */
  lemma CorrectKeepsHeader(line: string)
    requires StartsWith(line, ">")
    ensures CorrectLine(line) == LocalBar + HeaderAsWritten(line) + "\n"
  {
    var header := HeaderAsWritten(line);
    var id := SliceTo(header, SpaceAt(header));
    var description := SliceFrom(header, SpaceAt(header));
    assert id + description == header by {
      SliceSplit(header, SpaceAt(header));
    }
    assert CorrectLine(line) == LocalBar + id + description + "\n";
    assert LocalBar + id + description + "\n" == LocalBar + (id + description) + "\n";
  }

  /** A second pass prefixes again: the rewrite is not idempotent on any header line. */
  lemma NotIdempotent(h: string)
    ensures CorrectLine(">" + h + "\n") == LocalBar + h + "\n"
    ensures CorrectLine(CorrectLine(">" + h + "\n")) == LocalBar + "|lcl|" + h + "\n"
    ensures CorrectLine(CorrectLine(">" + h + "\n")) != CorrectLine(">" + h + "\n")
  {
    var line := ">" + h + "\n";
    assert StartsWith(line, ">");
    assert HeaderAsWritten(line) == h by {
      assert line[1..|line| - 1] == h;
    }
    CorrectKeepsHeader(line);
    var once := LocalBar + h + "\n";
    assert StartsWith(once, ">");
    assert HeaderAsWritten(once) == "|lcl|" + h by {
      assert once[1..|once| - 1] == "|lcl|" + h;
    }
    CorrectKeepsHeader(once);
    assert |LocalBar + "|lcl|" + h + "\n"| != |once|;
  }

  function CorrectLines(ls: seq<string>): (rs: seq<string>)
    ensures |rs| == |ls| && forall i :: 0 <= i < |ls| ==> rs[i] == CorrectLine(ls[i])
  {
    seq(|ls|, i requires 0 <= i < |ls| => CorrectLine(ls[i]))
  }

  /** The corrected text of a file. */
  function Corrected(text: string): string
  {
    Concat(CorrectLines(Lines(text)))
  }

  /** A corrected line is a line: `\n` at most at its end, and at its end when the input line had one there. */
  lemma CorrectLineIsLine(line: string)
    requires |line| > 0 && '\n' !in line[..|line| - 1]
    ensures var r := CorrectLine(line);
            |r| > 0 && '\n' !in r[..|r| - 1] && (line[|line| - 1] == '\n' ==> r[|r| - 1] == '\n')
  {
    if StartsWith(line, ">") {
      CorrectKeepsHeader(line);
      var h := HeaderAsWritten(line);
      assert '\n' !in h by {
        if |line| >= 2 {
          assert h == line[..|line| - 1][1..];
        }
      }
      var r := CorrectLine(line);
      assert r[..|r| - 1] == LocalBar + h;
    }
  }

  /** The output has one line per input line, each the rewrite of the input line. */
  lemma CorrectedLines(text: string)
    ensures Lines(Corrected(text)) == CorrectLines(Lines(text))
    ensures |Lines(Corrected(text))| == |Lines(text)|
  {
    var ls := Lines(text);
    var rs := CorrectLines(ls);
    forall i | 0 <= i < |rs|
      ensures |rs[i]| > 0 && '\n' !in rs[i][..|rs[i]| - 1] && (i + 1 < |rs| ==> rs[i][|rs[i]| - 1] == '\n')
    {
      CorrectLineIsLine(ls[i]);
    }
    LinesOfConcat(rs);
  }

  /** The line loop for one file. */
  method CorrectFile(text: string) returns (corrected: string)
    ensures corrected == Corrected(text)
  {
    var lines := Lines(text);
    corrected := "";
    for i := 0 to |lines|
      invariant corrected == Concat(CorrectLines(lines)[..i])
    {
      var line := lines[i];
      var written: string;
      if !StartsWith(line, ">") {
        written := line;
      } else {
        var header := HeaderAsWritten(line);
        var k := SpaceAt(header);
        written := LocalBar + SliceTo(header, k) + SliceFrom(header, k) + "\n";
      }
      ConcatLines(CorrectLines(lines), i);
      corrected := corrected + written;
    }
    assert CorrectLines(lines)[..|lines|] == CorrectLines(lines);
  }

  /**
   * The files after the names of the command line have been corrected in
   * order, each read from `files` as they were at the start and its output
   * written over `state`; a later name overwrites an earlier output of the
   * same name.
   */
  function Outputs(argv: seq<string>, files: map<string, string>, rewrite: string -> string,
                   state: map<string, string>): map<string, string>
    requires forall f :: f in argv ==> f in files
  {
    if |argv| == 0 then state
    else Outputs(argv[1..], files, rewrite, state[OutputName(argv[0]) := rewrite(files[argv[0]])])
  }

  /** Every named file's output is written, what was there stays, and nothing else is there. */
  lemma {:induction false} OutputsCover(argv: seq<string>, files: map<string, string>, rewrite: string -> string,
                                        state: map<string, string>)
    requires forall f :: f in argv ==> f in files
    ensures forall name :: name in Outputs(argv, files, rewrite, state) <==>
                           name in state || exists f :: f in argv && name == OutputName(f)
  {
    if |argv| > 0 {
      assert forall f :: f in argv[1..] ==> f in argv;
      OutputsCover(argv[1..], files, rewrite, state[OutputName(argv[0]) := rewrite(files[argv[0]])]);
      assert argv == [argv[0]] + argv[1..];
    }
  }

  /** The position of the first name that is not a file, `|argv|` when every name is one. */
  function FirstMissing(argv: seq<string>, files: map<string, string>): (k: nat)
    ensures k <= |argv|
    ensures forall j :: 0 <= j < k ==> argv[j] in files
    ensures k < |argv| ==> argv[k] !in files
  {
    if |argv| == 0 || argv[0] !in files then 0 else 1 + FirstMissing(argv[1..], files)
  }

  /**
   * The script from the file system `fs` on. Each name is read as the files
   * are when its turn comes, so an output written earlier under that name
   * is what is read. The result is the file system at the end and how the
   * script ended: a name that is not a file at its turn raises
   * FileNotFoundError, and the outputs written before it stay. `rewrite`
   * is the text a file's output gets, `Corrected` in the script; the
   * lemmas below hold whatever it is.
   */
  function Script(argv: seq<string>, fs: map<string, string>, rewrite: string -> string): (r: (map<string, string>, Exit))
    ensures fs.Keys <= r.0.Keys
    ensures r.1 == Returned || r.1 == Raised("FileNotFoundError")
    decreases |argv|
  {
    if |argv| == 0 then (fs, Returned)
    else if argv[0] !in fs then (fs, Raised("FileNotFoundError"))
    else
      Script(argv[1..], fs[OutputName(argv[0]) := rewrite(fs[argv[0]])], rewrite)
  }

  /** No named file is the output of a named file. */
  predicate NoAliasing(argv: seq<string>)
  {
    forall f, g :: f in argv && g in argv ==> OutputName(f) != g
  }

  /**
   * When no named file is the output of a named file, every name is read as
   * it was at the start: the files at the end are those of `Outputs` for
   * the names before the first missing one, and the script ends normally
   * exactly when no name is missing.
   */
  lemma ScriptWithoutAliasing(argv: seq<string>, fs: map<string, string>, rewrite: string -> string)
    requires NoAliasing(argv)
    ensures var k := FirstMissing(argv, fs);
            Script(argv, fs, rewrite) ==
              (Outputs(argv[..k], fs, rewrite, fs), if k == |argv| then Returned else Raised("FileNotFoundError"))
  {
    ScriptFrom(argv, fs, rewrite, fs);
  }

  /** A script with no aliasing stays without it on the names after the first. */
  lemma NoAliasingTail(argv: seq<string>)
    requires |argv| > 0 && NoAliasing(argv)
    ensures NoAliasing(argv[1..])
    ensures forall g :: g in argv[1..] ==> OutputName(argv[0]) != g
  {
    assert forall g :: g in argv[1..] ==> g in argv;
    assert argv[0] in argv;
  }

  /** The first names up to the first missing one, after a name that is a file. */
  lemma FirstMissingStep(argv: seq<string>, fs: map<string, string>)
    requires |argv| > 0 && argv[0] in fs
    ensures FirstMissing(argv, fs) == 1 + FirstMissing(argv[1..], fs)
    ensures argv[..FirstMissing(argv, fs)] == [argv[0]] + argv[1..][..FirstMissing(argv[1..], fs)]
  {
  }

  /**
   * The induction behind `ScriptWithoutAliasing`: `state` holds every
   * name still to come as it was at the start.
   */
  lemma {:induction false} ScriptFrom(argv: seq<string>, fs: map<string, string>, rewrite: string -> string,
                                      state: map<string, string>)
    requires NoAliasing(argv)
    requires forall f :: f in argv ==> (f in state <==> f in fs) && (f in fs ==> state[f] == fs[f])
    ensures var k := FirstMissing(argv, fs);
            Script(argv, state, rewrite) ==
              (Outputs(argv[..k], fs, rewrite, state), if k == |argv| then Returned else Raised("FileNotFoundError"))
    decreases |argv|
  {
    if |argv| == 0 {
      return;
    }
    var x := argv[0];
    assert x in argv;
    if x !in fs {
      assert argv[..0] == [];
    } else {
      var next := state[OutputName(x) := rewrite(fs[x])];
      NoAliasingTail(argv);
      assert forall f :: f in argv[1..] ==> f in argv;
      ScriptFrom(argv[1..], fs, rewrite, next);
      FirstMissingStep(argv, fs);
      var head := argv[..FirstMissing(argv, fs)];
      assert head[1..] == argv[1..][..FirstMissing(argv[1..], fs)];
    }
  }

  /** A `.faa` name whose stem has no dot: the output name swaps the extension for the suffix. */
  lemma FaaOutputName(stem: string)
    requires '.' !in stem
    ensures OutputName(stem + ".faa") == stem + Suffix
  {
    var s := stem + ".faa";
    assert s[|stem|] == '.';
    var k := LastIndex(s, '.').value;
    assert SliceTo(s, k) == stem;
  }

  /**
   * A name that is the output of an earlier name is read as that output:
   * with a file and then its output name on the command line (`x.faa` and
   * `x_header_corrected.faa`, as `FaaOutputName` shows), the second name is
   * the first one's fresh output, whether or not such a file was there at
   * the start, and it is corrected a second time.
   */
  lemma ReadsEarlierOutput(file: string, fs: map<string, string>, rewrite: string -> string)
    requires file in fs
    ensures var output := OutputName(file);
            var r := Script([file, output], fs, rewrite);
            && r.1 == Returned
            && OutputName(output) in r.0
            && r.0[OutputName(output)] == rewrite(rewrite(fs[file]))
  {
    var output := OutputName(file);
    var written := fs[output := rewrite(fs[file])];
    assert [file, output][1..] == [output];
    assert Script([file, output], fs, rewrite) == Script([output], written, rewrite);
    assert [output][1..] == [];
  }

  /** The script: each file in turn, read from the file system as the earlier turns left it. */
  method CorrectFiles(argv: seq<string>, files: map<string, string>) returns (after: map<string, string>, exit: Exit)
    ensures (after, exit) == Script(argv, files, Corrected)
  {
    after := files;
    for i := 0 to |argv|
      invariant Script(argv[i..], after, Corrected) == Script(argv, files, Corrected)
    {
      var file := argv[i];
      if file !in after {
        return after, Raised("FileNotFoundError");
      }
      var corrected := CorrectFile(after[file]);
      assert argv[i..][1..] == argv[i + 1..];
      after := after[OutputName(file) := corrected];
    }
    return after, Returned;
  }
}
