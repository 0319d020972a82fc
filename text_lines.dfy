/**
 * A text file read line by line, as Python's file iteration does: each
 * line keeps its `\n`, and only the last line may lack one.
 */
module TextLines {
  import opened Wrappers
  import opened Strings

  /** A list of lines as file iteration yields them: none empty, `\n` only at the end, and at the end of all but the last. */
  predicate LineList(ls: seq<string>)
  {
    forall i :: 0 <= i < |ls| ==>
      |ls[i]| > 0 && '\n' !in ls[i][..|ls[i]| - 1] && (i + 1 < |ls| ==> ls[i][|ls[i]| - 1] == '\n')
  }

  /** The lines of a text. */
  function Lines(text: string): (ls: seq<string>)
    ensures Concat(ls) == text
    ensures LineList(ls)
    decreases |text|
  {
    if |text| == 0 then []
    else match FirstIndex(text, '\n')
      case None => [text]
      case Some(k) =>
        var rest := Lines(text[k + 1..]);
        assert text == text[..k + 1] + text[k + 1..];
        assert text[..k + 1][..k] == text[..k];
        [text[..k + 1]] + rest
  }

  /** A line list without its first line is still a line list. */
  lemma LineListTail(ls: seq<string>)
    requires LineList(ls) && |ls| > 0
    ensures LineList(ls[1..])
  {
    forall i | 0 <= i < |ls[1..]|
      ensures |ls[1..][i]| > 0 && '\n' !in ls[1..][i][..|ls[1..][i]| - 1]
    {
      assert ls[1..][i] == ls[i + 1];
    }
  }

  /** Splitting the concatenation of a line list gives the same lines back. */
  lemma {:induction false} LinesOfConcat(ls: seq<string>)
    requires LineList(ls)
    ensures Lines(Concat(ls)) == ls
  {
    if |ls| > 0 {
      var first := ls[0];
      var rest := Concat(ls[1..]);
      LineListTail(ls);
      LinesOfConcat(ls[1..]);
      var text := first + rest;
      assert text[..|first| - 1] == first[..|first| - 1];
      if |ls| == 1 {
        if first[|first| - 1] == '\n' {
          FirstIndexAt(text, '\n', |first| - 1);
          assert text[|first|..] == "";
          assert text[..|first|] == first;
        } else {
          assert '\n' !in text by {
            assert text == first;
            assert first == first[..|first| - 1] + [first[|first| - 1]];
          }
        }
      } else {
        FirstIndexAt(text, '\n', |first| - 1);
        assert text[|first|..] == rest;
        assert text[..|first|] == first;
      }
    }
  }

  /** Appending a line list's parts keeps the order of lines: the concatenation grows by the new line. */
  lemma ConcatLines(ls: seq<string>, i: nat)
    requires i < |ls|
    ensures Concat(ls[..i + 1]) == Concat(ls[..i]) + ls[i]
  {
    ConcatAppend(ls[..i], ls[i]);
    assert ls[..i + 1] == ls[..i] + [ls[i]];
  }
}
