/**
 * The rewrite both the server start-up and project creation apply to a
 * copied Neo4j configuration file: enable the Bolt and HTTP listeners on
 * the given ports and switch HTTPS off; every other line stays as it is.
 * Lines are kept with their trailing newline, as Python's file iteration
 * yields them.
 */
module Neo4jConf {

  const BoltDefault := "#dbms.connector.bolt.listen_address=:7687\n"
  const HttpDefault := "#dbms.connector.http.listen_address=:7474\n"
  const HttpsOn := "dbms.connector.https.enabled=true\n"
  const HttpsOff := "dbms.connector.https.enabled=false\n"

  function BoltLine(port: string): string { "dbms.connector.bolt.listen_address=:" + port + "\n" }
  function HttpLine(port: string): string { "dbms.connector.http.listen_address=:" + port + "\n" }

  /** The rewrite of one line. */
  function RewriteLine(line: string, boltPort: string, httpPort: string): (r: string)
    ensures line != BoltDefault && line != HttpDefault && line != HttpsOn ==> r == line
    ensures r != BoltDefault && r != HttpDefault && r != HttpsOn
  {
    if line == BoltDefault then
      assert BoltLine(boltPort)[0] != BoltDefault[0];
      assert BoltLine(boltPort)[0] != HttpDefault[0];
      assert BoltLine(boltPort)[15] != HttpsOn[15];
      BoltLine(boltPort)
    else if line == HttpDefault then
      assert HttpLine(httpPort)[0] != BoltDefault[0];
      assert HttpLine(httpPort)[0] != HttpDefault[0];
      assert HttpLine(httpPort)[19] != HttpsOn[19];
      HttpLine(httpPort)
    else if line == HttpsOn then
      assert HttpsOff[0] != BoltDefault[0];
      assert HttpsOff[0] != HttpDefault[0];
      assert HttpsOff[29] != HttpsOn[29];
      HttpsOff
    else line
  }

  /** The loop that collects the rewritten lines of the file, in order. */
  method RewriteConf(lines: seq<string>, boltPort: string, httpPort: string) returns (content: seq<string>)
    ensures |content| == |lines|
    ensures forall i :: 0 <= i < |lines| ==> content[i] == RewriteLine(lines[i], boltPort, httpPort)
  {
    content := [];
    for i := 0 to |lines|
      invariant |content| == i
      invariant forall j :: 0 <= j < i ==> content[j] == RewriteLine(lines[j], boltPort, httpPort)
    {
      var line := lines[i];
      if line == BoltDefault {
        content := content + [BoltLine(boltPort)];
      } else if line == HttpDefault {
        content := content + [HttpLine(httpPort)];
      } else if line == HttpsOn {
        content := content + [HttpsOff];
      } else {
        content := content + [line];
      }
    }
  }

  /** Rewriting a rewritten line changes nothing: the rewrite is idempotent. */
  lemma RewriteIdempotent(line: string, boltPort: string, httpPort: string)
    ensures RewriteLine(RewriteLine(line, boltPort, httpPort), boltPort, httpPort) == RewriteLine(line, boltPort, httpPort)
  {}

  /** The three recognised lines are the only ones that change, and each becomes its enabled form. */
  lemma RewriteTargets(boltPort: string, httpPort: string)
    ensures RewriteLine(BoltDefault, boltPort, httpPort) == BoltLine(boltPort)
    ensures RewriteLine(HttpDefault, boltPort, httpPort) == HttpLine(httpPort)
    ensures RewriteLine(HttpsOn, boltPort, httpPort) == HttpsOff
  {}
}
