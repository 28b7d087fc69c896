/** Line-level scanning of text: the map title shown in the sidebar
    (app.py:173-179) and the numbered lines of a reply that are offered as
    follow-up questions (app.py:203-208). */
module Scan {
  import opened Wrappers
  import opened Text

  /** A line that `line.startswith("title")` accepts. */
  predicate IsTitleLine(line: string) {
    StartsWith(line, "title")
  }

  /** `line.split("title ")[1]`: the text between the first and the second
      occurrence of "title ", or `None` where the index would raise. */
  function TitleField(line: string): Option<string> {
    var parts := SplitOn(line, "title ");
    if |parts| >= 2 then Some(parts[1]) else None
  }

  /** `mapText.split("\n")`. */
  function Lines(mapText: string): seq<string> {
    SplitOn(mapText, "\n")
  }

  /** The outcome of the title scan: no title line at all (the script's
      `title` is then unbound), the title found, or a title line without
      "title " in it, on which the script's indexing raises. */
  datatype TitleScan = NoTitleLine | Title(text: string) | MalformedTitleLine

  /** The title scan over the lines of the map text: each title line
      overwrites the previous result, so the last one wins, unless some
      title line is malformed. */
  method ExtractTitle(mapText: string) returns (r: TitleScan)
    ensures r == NoTitleLine
            <==> forall k :: 0 <= k < |Lines(mapText)| ==> !IsTitleLine(Lines(mapText)[k])
    ensures r == MalformedTitleLine
            <==> exists k :: 0 <= k < |Lines(mapText)| && IsTitleLine(Lines(mapText)[k])
                             && TitleField(Lines(mapText)[k]).None?
    ensures r.Title? ==>
              exists k :: 0 <= k < |Lines(mapText)| && IsTitleLine(Lines(mapText)[k])
                          && TitleField(Lines(mapText)[k]) == Some(r.text)
                          && forall j :: k < j < |Lines(mapText)| ==> !IsTitleLine(Lines(mapText)[j])
  {
    var lines := Lines(mapText);
    r := NoTitleLine;
    ghost var last := 0;
    var i := 0;
    while i < |lines|
      invariant 0 <= i <= |lines|
      invariant r == NoTitleLine <==> forall k :: 0 <= k < i ==> !IsTitleLine(lines[k])
      invariant r != MalformedTitleLine
      invariant forall k :: 0 <= k < i && IsTitleLine(lines[k]) ==> TitleField(lines[k]).Some?
      invariant r.Title? ==>
                  last < i && IsTitleLine(lines[last]) && TitleField(lines[last]) == Some(r.text)
                  && forall j :: last < j < i ==> !IsTitleLine(lines[j])
    {
      var line := lines[i];
      if StartsWith(line, "title") {
        var parts := SplitOn(line, "title ");
        if |parts| < 2 {
          assert IsTitleLine(lines[i]) && TitleField(lines[i]).None?;
          assert !(forall k :: 0 <= k < |lines| ==> !IsTitleLine(lines[k]));
          r := MalformedTitleLine;
          return;
        }
        r := Title(parts[1]);
        last := i;
      }
      i := i + 1;
    }
  }

  /** On a line "title T" where T holds no further "title ", the title is T. */
  lemma TitleOfPlainLine(t: string)
    requires IndexOf(t, "title ") == None
    ensures IsTitleLine("title " + t)
    ensures TitleField("title " + t) == Some(t)
  {
    var line := "title " + t;
    assert line[..6] == "title ";
    assert line[6..] == t;
    assert SplitOn(line, "title ") == [line[..0]] + SplitOn(t, "title ");
  }

  /** The follow-up condition on a stripped line: non-empty, first character a digit. */
  predicate IsPrompt(s: string) {
    s != "" && IsDigit(s[0])
  }

  /** The stripped form of every line that passes the follow-up condition,
      in line order. */
  function Prompts(lines: seq<string>): seq<string> {
    if lines == [] then []
    else
      var n := |lines| - 1;
      Prompts(lines[..n]) + (if IsPrompt(Strip(lines[n])) then [Strip(lines[n])] else [])
  }

  /** Every offer is the stripped form of some line, passes the follow-up
      condition, and has no whitespace at either end. */
  lemma {:induction false} PromptsSound(lines: seq<string>, p: string)
    requires p in Prompts(lines)
    ensures IsPrompt(p) && IsStripped(p)
    ensures exists k :: 0 <= k < |lines| && p == Strip(lines[k])
  {
    var n := |lines| - 1;
    var s := Strip(lines[n]);
    if p in Prompts(lines[..n]) {
      PromptsSound(lines[..n], p);
      var k :| 0 <= k < n && p == Strip(lines[..n][k]);
      assert lines[k] == lines[..n][k];
    } else {
      assert p == s;
    }
  }

  /** Every line whose stripped form passes the follow-up condition is offered. */
  lemma {:induction false} PromptsComplete(lines: seq<string>, k: nat)
    requires k < |lines| && IsPrompt(Strip(lines[k]))
    ensures Strip(lines[k]) in Prompts(lines)
  {
    var n := |lines| - 1;
    if k < n {
      assert lines[..n][k] == lines[k];
      PromptsComplete(lines[..n], k);
    }
  }

  /** Scanning one more line adds that line's offer, if any, at the end. */
  lemma PromptsPrefix(lines: seq<string>, i: nat)
    requires i < |lines|
    ensures Prompts(lines[..i + 1])
            == Prompts(lines[..i]) + (if IsPrompt(Strip(lines[i])) then [Strip(lines[i])] else [])
  {
    var upTo := lines[..i + 1];
    assert upTo[..i] == lines[..i] && upTo[i] == lines[i];
  }

  /** The follow-up scan of one reply: strip the reply, split it into lines,
      and keep the stripped lines that start with a digit. */
  method StructuredPrompts(text: string) returns (prompts: seq<string>)
    ensures prompts == Prompts(SplitOn(Strip(text), "\n"))
  {
    var sentences := SplitOn(Strip(text), "\n");
    prompts := [];
    var i := 0;
    while i < |sentences|
      invariant 0 <= i <= |sentences|
      invariant prompts == Prompts(sentences[..i])
    {
      var stripped := Strip(sentences[i]);
      PromptsPrefix(sentences, i);
      if stripped != "" && IsDigit(stripped[0]) {
        prompts := prompts + [stripped];
      }
      i := i + 1;
    }
    assert sentences[..i] == sentences;
  }
}
