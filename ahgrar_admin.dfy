/**
 * The AHGraR admin console, run on the server's own host: a numbered menu
 * that lists, creates and deletes projects over the server's admin socket.
 * Console input is a parameter, a command's outcome is the list of requests
 * it sends, and the server's reply is a parameter.
 */
module AhgrarAdmin {
  import opened Wrappers
  import opened Strings
  import Dispatch
  import AhgrarCmd

  /** `"".join(char for char in s if char.isalnum())` */
  function KeepAlnum(s: string): (r: string)
    ensures forall c :: c in r <==> c in s && IsAlnum(c)
    ensures |r| <= |s|
  {
    if |s| == 0 then ""
    else
      var front := KeepAlnum(s[..|s| - 1]);
      var last := s[|s| - 1];
      assert s == s[..|s| - 1] + [last];
      assert forall c :: c in s <==> c in s[..|s| - 1] || c == last;
      if IsAlnum(last) then front + [last] else front
  }

  /** The filter on a nonempty string: the filter of all but the last character, then the last one if it is kept. */
  lemma KeepAlnumSnoc(u: string)
    requires |u| > 0
    ensures KeepAlnum(u) == KeepAlnum(u[..|u| - 1]) + (if IsAlnum(u[|u| - 1]) then [u[|u| - 1]] else "")
  {
  }

  /** A single character is kept exactly when it is a letter or a digit. */
  lemma KeepAlnumSingle(c: char)
    ensures KeepAlnum([c]) == if IsAlnum(c) then [c] else ""
  {
    KeepAlnumSnoc([c]);
    assert [c][..0] == "";
  }

  /**
   * The filter works character by character, in order: filtering a
   * concatenation concatenates the filtered parts.
   */
  lemma {:induction false} KeepAlnumAppend(s: string, t: string)
    ensures KeepAlnum(s + t) == KeepAlnum(s) + KeepAlnum(t)
  {
    if |t| == 0 {
      assert s + t == s;
      assert KeepAlnum(s) + KeepAlnum(t) == KeepAlnum(s);
    } else {
      var front, last := t[..|t| - 1], t[|t| - 1];
      KeepAlnumAppend(s, front);
      KeepAlnumSnoc(s + t);
      KeepAlnumSnoc(t);
      assert (s + t)[..|s + t| - 1] == s + front;
      var kept := if IsAlnum(last) then [last] else "";
      assert KeepAlnum(s) + (KeepAlnum(front) + kept) == (KeepAlnum(s) + KeepAlnum(front)) + kept;
    }
  }

  /** A name already made of letters and digits passes the filter unchanged. */
  lemma {:induction false} KeepAlnumKeeps(s: string)
    requires forall i :: 0 <= i < |s| ==> IsAlnum(s[i])
    ensures KeepAlnum(s) == s
  {
    if |s| > 0 {
      KeepAlnumKeeps(s[..|s| - 1]);
      assert s[..|s| - 1] + [s[|s| - 1]] == s;
    }
  }

  /** Filtering twice is filtering once. */
  lemma KeepAlnumIdempotent(s: string)
    ensures KeepAlnum(KeepAlnum(s)) == KeepAlnum(s)
  {
    var r := KeepAlnum(s);
    assert forall i :: 0 <= i < |r| ==> IsAlnum(r[i]) by {
      assert forall i :: 0 <= i < |r| ==> r[i] in r;
    }
    KeepAlnumKeeps(r);
  }

  /**
   * `create_project`: "0" cancels; otherwise everything but letters and
   * digits is dropped from the stripped name, and an empty result sends
   * nothing.
   */
  function CreateRequests(input: string): (requests: seq<string>)
    ensures |requests| <= 1
  {
    var name := Strip(input);
    if name == "0" then []
    else
      var kept := KeepAlnum(name);
      if |kept| > 0 then ["PMCREA_" + kept] else []
  }

  /**
   * A creation is requested exactly when the stripped input is not "0" and
   * holds a letter or digit; the name it carries is that input's letters
   * and digits, so it holds no `_` or tab, and the admin socket creates a
   * project of exactly that name.
   */
  lemma CreateSendsCleanName(input: string)
    ensures |CreateRequests(input)| == 1 <==>
              Strip(input) != "0" && exists i :: 0 <= i < |Strip(input)| && IsAlnum(Strip(input)[i])
    ensures |CreateRequests(input)| == 1 ==>
              var name := KeepAlnum(Strip(input));
              && CreateRequests(input) == ["PMCREA_" + name]
              && Dispatch.AdminHandle(CreateRequests(input)[0]) == [Dispatch.CreateProject(name), Dispatch.Reply("-1")]
  {
    var stripped := Strip(input);
    var name := KeepAlnum(stripped);
    if exists i :: 0 <= i < |stripped| && IsAlnum(stripped[i]) {
      var i :| 0 <= i < |stripped| && IsAlnum(stripped[i]);
      assert stripped[i] in name;
    }
    if |name| > 0 {
      assert name[0] in name;
    }
    assert '_' !in name && '\t' !in name;
    AhgrarCmd.CreateReachesServer(name);
  }

  /** What `delete_project` sends and, once it asked, whether it reports the project deleted. */
  datatype Deletion = Deletion(requests: seq<string>, deleted: Option<bool>)

  /**
   * `delete_project`: the project list is requested first; an id that is
   * "0" or not all digits cancels, so does a confirmation other than
   * `delete`; then the deletion goes out and succeeds if the reply is the id.
   */
  function DeleteProject(idInput: string, confirmation: string, reply: string): (d: Deletion)
    ensures |d.requests| >= 1 && d.requests[0] == "PMINFO"
    ensures d.deleted.Some? <==> |d.requests| == 2
  {
    var id := Strip(idInput);
    if id == "0" || !IsDigits(id) then Deletion(["PMINFO"], None)
    else if Strip(confirmation) != "delete" then Deletion(["PMINFO"], None)
    else Deletion(["PMINFO", "PMDELE_" + id], Some(reply == id))
  }

  /**
   * A deletion is requested only for a non-zero id of digits that the user
   * confirmed; it reaches the admin socket as the deletion of that project,
   * and it is reported a success exactly when the reply echoes the id.
   */
  lemma DeleteOnlyConfirmedIds(idInput: string, confirmation: string, reply: string)
    ensures var d := DeleteProject(idInput, confirmation, reply);
            |d.requests| == 2 <==> IsDigits(Strip(idInput)) && Strip(idInput) != "0" && Strip(confirmation) == "delete"
    ensures var d := DeleteProject(idInput, confirmation, reply);
            |d.requests| == 2 ==>
              && d.requests[1] == "PMDELE_" + Strip(idInput)
              && Dispatch.AdminHandle(d.requests[1]) == [Dispatch.DeleteProject(Strip(idInput)), Dispatch.Reply("-1")]
              && (d.deleted == Some(true) <==> reply == Strip(idInput))
  {
    if IsDigits(Strip(idInput)) {
      AhgrarCmd.DeleteReachesServer(Strip(idInput));
    }
  }

  /** What the main loop does with one line of input. */
  datatype Step = ShowOptions | Quit | Action(choice: nat) | Crash(error: string)

  /**
   * The main loop as written: the range test reads the number, but the
   * action is looked up by the text, so "00" or "05" passes the test, is
   * neither "0" nor a key of the action table, and raises KeyError.
   */
  function MenuStepAsWritten(input: string): (step: Step)
    ensures step.Action? ==> 1 <= step.choice <= 5
  {
    var t := Strip(input);
    if !IsDigits(t) || DigitsValue(t) > 5 then ShowOptions
    else if t == "0" then Quit
    else if t in ["1", "2", "3", "4", "5"] then Action(DigitsValue(t))
    else Crash("KeyError")
  }

  /** The menu choice taken by the number that passed the range test. */
  function MenuStep(input: string): (step: Step)
    ensures step.Action? ==> 1 <= step.choice <= 5
  {
    var t := Strip(input);
    if !IsDigits(t) || DigitsValue(t) > 5 then ShowOptions
    else if DigitsValue(t) == 0 then Quit
    else Action(DigitsValue(t))
  }

  /** "05" passes the range test of the written loop and then raises KeyError. */
  lemma LeadingZeroCrashes()
    ensures MenuStepAsWritten("05") == Crash("KeyError")
    ensures MenuStep("05") == Action(5)
  {
    assert Strip("05") == "05" by {
      StripLeftKeeps("05");
      StripRightKeeps("05");
    }
    assert DigitsValue("05") == 5 by {
      assert "05"[..1] == "0";
      assert DigitsValue("0") == 0 by {
        assert "0"[..0] == "";
      }
    }
    assert "05" !in ["1", "2", "3", "4", "5"];
  }

  /**
   * Every input that passes the range test is acted on, and one made of a
   * single digit is acted on as the written loop does; no input crashes.
   */
  lemma MenuStepNeverCrashes(input: string)
    ensures !MenuStep(input).Crash?
    ensures MenuStep(input).ShowOptions? <==> MenuStepAsWritten(input).ShowOptions?
    ensures |Strip(input)| == 1 ==> MenuStep(input) == MenuStepAsWritten(input)
  {
    var t := Strip(input);
    if |t| == 1 && IsDigits(t) && DigitsValue(t) <= 5 {
      assert t[..0] == "";
      assert DigitsValue(t) == t[0] as int - '0' as int;
      if DigitsValue(t) == 0 {
        assert t == "0";
      } else {
        assert t == [t[0]];
        assert t in ["1", "2", "3", "4", "5"];
      }
    }
  }
}
