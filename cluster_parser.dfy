/**
 * The cluster parser (`ClusterParser`): each line of an MCL result is one
 * cluster of tab-separated protein names, and every name gets the pattern
 * suffix `.*` so that it also matches versioned protein ids. The parser
 * keeps one cluster list for its whole life.
 *
 * The file arrives as its lines, each with its line ending if it had one.
 */
module ClusterParser {
  import opened Wrappers
  import opened Strings

  /** The pattern suffix appended to every name. */
  const Wildcard := ".*"

  /** One line's cluster: stripped, split on tabs, every name suffixed. */
  function Cluster(line: string): (c: seq<string>)
    ensures var names := Split(Strip(line), '\t');
            |c| == |names| && forall i :: 0 <= i < |c| ==> c[i] == names[i] + Wildcard
  {
    var names := Split(Strip(line), '\t');
    seq(|names|, i requires 0 <= i < |names| => names[i] + Wildcard)
  }

  /** Every line gives a cluster: a blank line is not skipped but gives the single name `.*`. */
  lemma BlankLineCluster(line: string)
    requires forall i :: 0 <= i < |line| ==> IsWhitespace(line[i])
    ensures Cluster(line) == [Wildcard]
  {
    BlankStrips(line);
    assert Split("", '\t') == [""];
    assert Cluster(line)[0] == "" + Wildcard == Wildcard;
  }

  lemma {:induction false} BlankStrips(s: string)
    requires forall i :: 0 <= i < |s| ==> IsWhitespace(s[i])
    ensures Strip(s) == ""
    decreases |s|
  {
    if |s| > 0 {
      BlankStrips(s[1..]);
    }
  }

  /** Every element of every cluster ends in the suffix, and dropping the suffix gives back a tab-free name. */
  lemma ClusterNames(line: string, i: nat)
    requires i < |Cluster(line)|
    ensures EndsWith(Cluster(line)[i], Wildcard)
    ensures var name := Cluster(line)[i][..|Cluster(line)[i]| - |Wildcard|];
            '\t' !in name && name == Split(Strip(line), '\t')[i]
  {
    var name := Split(Strip(line), '\t')[i];
    assert Cluster(line)[i] == name + Wildcard;
    assert (name + Wildcard)[..|name|] == name;
  }

  /** The clusters of a file, in line order. */
  function Clusters(lines: seq<string>): (cs: seq<seq<string>>)
    ensures |cs| == |lines| && forall i :: 0 <= i < |cs| ==> cs[i] == Cluster(lines[i])
  {
    seq(|lines|, i requires 0 <= i < |lines| => Cluster(lines[i]))
  }

  class Parser {
    var clusterList: seq<seq<string>>

    constructor ()
      ensures clusterList == []
    {
      clusterList := [];
    }

    /** `__parse_mcl_cluster`: one cluster per line, appended to the clusters already held. */
    method ParseMclCluster(lines: seq<string>)
      modifies this
      ensures clusterList == old(clusterList) + Clusters(lines)
    {
      ghost var before := clusterList;
      for k := 0 to |lines|
        invariant clusterList == before + Clusters(lines[..k])
      {
        var line := Split(Strip(lines[k]), '\t');
        line := seq(|line|, i requires 0 <= i < |line| => line[i] + Wildcard);
        clusterList := clusterList + [line];
        assert Clusters(lines[..k + 1]) == Clusters(lines[..k]) + [Cluster(lines[k])];
      }
      assert lines[..|lines|] == lines;
    }

    /**
     * `parse_cluster`: only the "MCL" format is known, any other raises
     * KeyError and changes nothing; the whole accumulated list is returned.
     */
    method ParseCluster(clstrFormat: string, lines: seq<string>) returns (exit: Exit, result: seq<seq<string>>)
      modifies this
      ensures clstrFormat == "MCL" ==> exit == Returned && clusterList == old(clusterList) + Clusters(lines) && result == clusterList
      ensures clstrFormat != "MCL" ==> exit == Raised("KeyError") && clusterList == old(clusterList) && result == []
    {
      if clstrFormat != "MCL" {
        return Raised("KeyError"), [];
      }
      ParseMclCluster(lines);
      return Returned, clusterList;
    }
  }

  /** Two parses on one parser: the second result still holds the first file's clusters, ahead of its own. */
  method ParseTwice(first: seq<string>, second: seq<string>) returns (result: seq<seq<string>>)
    ensures result == Clusters(first) + Clusters(second)
    ensures |result| == |first| + |second|
  {
    var parser := new Parser();
    var exit, r := parser.ParseCluster("MCL", first);
    exit, result := parser.ParseCluster("MCL", second);
  }
}
