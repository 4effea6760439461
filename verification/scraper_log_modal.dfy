/** The live scraper console (`ScraperLogModal`): it triggers a scrape of one source
    website, reads the streamed response chunk by chunk, appends the chunk's
    non-blank lines to the log, and renders each log line numbered and coloured.

    The chunks arrive here already decoded. The component decodes every chunk on its
    own and splits it on "\n" on its own: nothing is carried from one chunk to the
    next, so a line the transport cuts in two becomes two log entries. */
module ScraperLog {
  import opened Seqs
  import opened JsText

  /** How reading the response ended: the body was exhausted, or something threw
      (the request itself, or a read) with an error `name` and `message`. A
      cancellation through the abort controller throws with name "AbortError". */
  datatype Ending = Completed | Thrown(name: string, message: string) {
    predicate IsAbort() {
      Thrown? && name == "AbortError"
    }
  }

  /** The filter callback of the read loop: keep a piece whose `trim()` is not "". */
  predicate KeepsLine(line: string) {
    Trim(line) != ""
  }

  /** `pieces.filter((line) => line.trim() !== "")`. */
  function NonBlank(pieces: seq<string>): (r: seq<string>)
    ensures |r| <= |pieces|
    decreases |pieces|
  {
    if pieces == [] then []
    else (if KeepsLine(pieces[0]) then [pieces[0]] else []) + NonBlank(pieces[1..])
  }

  /** The read loop's filter is the array filter with that callback. */
  lemma {:induction false} NonBlankIsFilter(pieces: seq<string>)
    ensures NonBlank(pieces) == Filter(KeepsLine, pieces)
    decreases |pieces|
  {
    if pieces != [] {
      NonBlankIsFilter(pieces[1..]);
    }
  }

  /** The lines one decoded chunk contributes: `text.split("\n")` without the
      entries whose `trim()` is empty. */
  function ChunkLines(text: string): seq<string> {
    NonBlank(Split(text, '\n'))
  }

  /** The entries a read loop appends when each chunk contributes `lines(chunk)`. */
  function Appended(lines: string -> seq<string>, chunks: seq<string>): seq<string>
    decreases |chunks|
  {
    if chunks == [] then [] else Appended(lines, chunks[..|chunks| - 1]) + lines(chunks[|chunks| - 1])
  }

  /** The log after the given chunks have been read, in arrival order. */
  function LogAfter(chunks: seq<string>): seq<string> {
    Appended(ChunkLines, chunks)
  }

  /** The synthetic line a failure other than an abort adds. */
  function ErrorLine(message: string): string {
    "\U{274C} Error: " + message
  }

  /** What the ending appends: one error line, or nothing for completion and abort. */
  function EndingLines(ending: Ending): (r: seq<string>)
    ensures |r| <= 1
    ensures |r| == 1 <==> ending.Thrown? && !ending.IsAbort()
  {
    if ending.Thrown? && !ending.IsAbort() then [ErrorLine(ending.message)] else []
  }

  /** The log a whole run leaves behind. */
  function FinalLog(chunks: seq<string>, ending: Ending): (r: seq<string>)
    ensures LogAfter(chunks) <= r
    ensures |r| - |LogAfter(chunks)| == (if ending.Thrown? && !ending.IsAbort() then 1 else 0)
    ensures ending.Thrown? && !ending.IsAbort() ==> r[|r| - 1] == ErrorLine(ending.message)
  {
    LogAfter(chunks) + EndingLines(ending)
  }

  /** A chunk's entries are exactly its non-blank pieces, and none holds a line break. */
  lemma ChunkLinesAreNonBlankPieces(text: string)
    ensures forall i :: 0 <= i < |ChunkLines(text)| ==>
      !IsBlank(ChunkLines(text)[i]) && '\n' !in ChunkLines(text)[i]
    ensures forall i :: 0 <= i < |Split(text, '\n')| && !IsBlank(Split(text, '\n')[i]) ==>
      Split(text, '\n')[i] in ChunkLines(text)
    ensures IsSubsequence(ChunkLines(text), Split(text, '\n'))
  {
    var pieces := Split(text, '\n');
    NonBlankIsFilter(pieces);
    FilterSatisfies(KeepsLine, pieces);
    var r := ChunkLines(text);
    forall i | 0 <= i < |r| ensures !IsBlank(r[i]) && '\n' !in r[i] {
      TrimEmptyIff(r[i]);
      FilterMembers(KeepsLine, pieces, r[i]);
    }
    forall i | 0 <= i < |pieces| && !IsBlank(pieces[i]) ensures pieces[i] in r {
      TrimEmptyIff(pieces[i]);
      FilterMembers(KeepsLine, pieces, pieces[i]);
    }
    FilterIsSubsequence(KeepsLine, pieces);
  }

  lemma {:induction false} AppendedPrefix(lines: string -> seq<string>, chunks: seq<string>, k: nat)
    requires k <= |chunks|
    ensures Appended(lines, chunks[..k]) <= Appended(lines, chunks)
    decreases |chunks|
  {
    if k < |chunks| {
      var front := chunks[..|chunks| - 1];
      assert chunks[..k] == front[..k];
      AppendedPrefix(lines, front, k);
    } else {
      assert chunks[..k] == chunks;
    }
  }

  lemma {:induction false} AppendedConcat(lines: string -> seq<string>, xs: seq<string>, ys: seq<string>)
    ensures Appended(lines, xs + ys) == Appended(lines, xs) + Appended(lines, ys)
    decreases |ys|
  {
    if ys == [] {
      assert xs + ys == xs;
    } else {
      var ys' := ys[..|ys| - 1];
      assert (xs + ys)[..|xs + ys| - 1] == xs + ys';
      assert (xs + ys)[|xs + ys| - 1] == ys[|ys| - 1];
      AppendedConcat(lines, xs, ys');
    }
  }

  /** Reading one more chunk appends that chunk's lines. */
  lemma LogAfterOneMore(chunks: seq<string>, i: nat)
    requires i < |chunks|
    ensures LogAfter(chunks[..i + 1]) == LogAfter(chunks[..i]) + ChunkLines(chunks[i])
  {
    assert chunks[..i + 1][..i] == chunks[..i];
  }

  /** A later log extends every earlier one: entries are never removed or reordered. */
  lemma LogGrowsByAppending(chunks: seq<string>, k: nat)
    requires k <= |chunks|
    ensures LogAfter(chunks[..k]) <= LogAfter(chunks)
  {
    AppendedPrefix(ChunkLines, chunks, k);
  }

  /** Reading chunk after chunk is appending each chunk's lines in order. */
  lemma LogOfConcatenatedReads(xs: seq<string>, ys: seq<string>)
    ensures LogAfter(xs + ys) == LogAfter(xs) + LogAfter(ys)
  {
    AppendedConcat(ChunkLines, xs, ys);
  }

  /** Every entry read from the stream is non-blank and holds no line break. */
  lemma {:induction false} StreamedEntriesAreLines(chunks: seq<string>)
    ensures forall i :: 0 <= i < |LogAfter(chunks)| ==>
      !IsBlank(LogAfter(chunks)[i]) && '\n' !in LogAfter(chunks)[i]
    decreases |chunks|
  {
    if chunks != [] {
      var n := |chunks| - 1;
      StreamedEntriesAreLines(chunks[..n]);
      ChunkLinesAreNonBlankPieces(chunks[n]);
      LogAfterOneMore(chunks, n);
      assert chunks[..n + 1] == chunks;
    }
  }

  /** A chunk holding one non-blank line contributes exactly that line. */
  lemma SingleLineChunk(line: string)
    requires '\n' !in line && !IsBlank(line)
    ensures ChunkLines(line) == [line]
  {
    SplitWithoutSeparator(line, '\n');
    TrimEmptyIff(line);
  }

  /** No carry-over: a line whose two halves arrive in two chunks is logged as two
      entries, although read in one chunk it would be a single entry. */
  lemma LineCutByChunkBoundary(a: string, b: string)
    requires '\n' !in a && '\n' !in b
    requires !IsBlank(a) && !IsBlank(b)
    ensures LogAfter([a, b]) == [a, b]
    ensures LogAfter([a + b]) == [a + b]
  {
    SingleLineChunk(a);
    SingleLineChunk(b);
    assert !IsBlank(a + b) by {
      var i :| 0 <= i < |a| && !IsJsWhitespace(a[i]);
      assert (a + b)[i] == a[i];
    }
    SingleLineChunk(a + b);
    LogOfTwoChunks(a, b);
    LogOfOneChunk(a + b);
  }

  lemma LogOfOneChunk(c: string)
    ensures LogAfter([c]) == ChunkLines(c)
  {
    LogAfterOneMore([c], 0);
    assert [c][..0] == [] && [c][..1] == [c];
  }

  lemma LogOfTwoChunks(a: string, b: string)
    ensures LogAfter([a, b]) == ChunkLines(a) + ChunkLines(b)
  {
    LogOfConcatenatedReads([a], [b]);
    LogOfOneChunk(a);
    LogOfOneChunk(b);
    assert [a] + [b] == [a, b];
  }

  lemma LineWithVisibleStartIsKept(line: string)
    requires line != [] && !IsJsWhitespace(line[0])
    ensures KeepsLine(line)
  {
    TrimEmptyIff(line);
  }

  lemma BlankPiecesSplit()
    ensures Split("a\n\n\nb\n", '\n') == ["a", "", "", "b", ""]
  {
    SplitAfterPiece("a", '\n', "\n\nb\n");
    assert "a\n\n\nb\n" == "a" + ['\n'] + "\n\nb\n";
    SplitAfterPiece("", '\n', "\nb\n");
    assert "\n\nb\n" == "" + ['\n'] + "\nb\n";
    SplitAfterPiece("", '\n', "b\n");
    assert "\nb\n" == "" + ['\n'] + "b\n";
    SplitAfterPiece("b", '\n', "");
    assert "b\n" == "b" + ['\n'] + "";
    assert Split("", '\n') == [""];
  }

  /** Blank pieces between consecutive line breaks are dropped. */
  lemma ScenarioBlankPieces()
    ensures ChunkLines("a\n\n\nb\n") == ["a", "b"]
  {
    BlankPiecesSplit();
    var pieces := ["a", "", "", "b", ""];
    LineWithVisibleStartIsKept("a");
    LineWithVisibleStartIsKept("b");
    TrimEmptyIff("");
    assert NonBlank(pieces[4..]) == [];
    assert NonBlank(pieces[3..]) == ["b"];
    assert NonBlank(pieces[1..]) == ["b"];
  }

  lemma ChunkOfTwoLines(a: string, b: string)
    requires '\n' !in a && '\n' !in b && !IsBlank(a) && !IsBlank(b)
    ensures ChunkLines(a + "\n" + b + "\n") == [a, b]
  {
    SplitAfterPiece(a, '\n', b + "\n");
    assert a + "\n" + b + "\n" == a + ['\n'] + (b + "\n");
    SplitAfterPiece(b, '\n', "");
    assert b + "\n" == b + ['\n'] + "";
    assert Split("", '\n') == [""];
    assert Split(a + "\n" + b + "\n", '\n') == [a, b, ""];
    TrimEmptyIff(a);
    TrimEmptyIff(b);
    TrimEmptyIff("");
    assert [a, b, ""][1..] == [b, ""] && [b, ""][1..] == [""] && [""][1..] == [];
    assert NonBlank([""]) == [];
    assert NonBlank([b, ""]) == [b];
  }

  lemma ChunkOfOneLine(a: string)
    requires '\n' !in a && !IsBlank(a)
    ensures ChunkLines(a + "\n") == [a]
  {
    SplitAfterPiece(a, '\n', "");
    assert a + "\n" == a + ['\n'] + "";
    assert Split("", '\n') == [""];
    TrimEmptyIff(a);
    TrimEmptyIff("");
    assert [a, ""][1..] == [""] && [""][1..] == [];
    assert NonBlank([""]) == [];
  }

  /** The colour a rendered line gets. */
  datatype Tone = ErrorTone | SuccessTone | InfoTone | PlainTone

  /** The rendering rule: case-sensitive substring tests, first match wins. */
  function Classify(line: string): Tone {
    if Contains(line, "Error") then ErrorTone
    else if Contains(line, "Success") || Contains(line, "Saved") then SuccessTone
    else if Contains(line, "Found") then InfoTone
    else PlainTone
  }

  /** A rule of a priority list: any of the keywords selects the tone. */
  datatype Rule = Rule(keywords: seq<string>, tone: Tone)

  const Rules: seq<Rule> := [
    Rule(["Error"], ErrorTone),
    Rule(["Success", "Saved"], SuccessTone),
    Rule(["Found"], InfoTone)
  ]

  predicate MatchesAny(line: string, keywords: seq<string>) {
    exists k :: 0 <= k < |keywords| && Contains(line, keywords[k])
  }

  /** First-match evaluation of a priority list of rules. */
  function FirstMatch(rules: seq<Rule>, line: string): Tone
    decreases |rules|
  {
    if rules == [] then PlainTone
    else if MatchesAny(line, rules[0].keywords) then rules[0].tone
    else FirstMatch(rules[1..], line)
  }

  /** The rendering rule is the priority list Error > Success/Saved > Found > plain. */
  lemma ClassifyIsFirstMatch(line: string)
    ensures Classify(line) == FirstMatch(Rules, line)
  {
    assert Rules[1..][1..][1..] == [];
    assert MatchesAny(line, ["Error"]) <==> Contains(line, "Error") by {
      if Contains(line, "Error") { assert ["Error"][0] == "Error"; }
    }
    assert MatchesAny(line, ["Success", "Saved"]) <==> Contains(line, "Success") || Contains(line, "Saved") by {
      if Contains(line, "Success") { assert ["Success", "Saved"][0] == "Success"; }
      if Contains(line, "Saved") { assert ["Success", "Saved"][1] == "Saved"; }
    }
    assert MatchesAny(line, ["Found"]) <==> Contains(line, "Found") by {
      if Contains(line, "Found") { assert ["Found"][0] == "Found"; }
    }
  }

  /** The synthetic error line is always rendered as an error. */
  lemma ErrorLineIsErrorTone(message: string)
    ensures Classify(ErrorLine(message)) == ErrorTone
  {
    assert ErrorLine(message)[2..7] == "Error";
    assert OccursAt(ErrorLine(message), "Error", 2);
  }

  /** The test is case-sensitive: a lower-case "error" alone is not flagged. */
  lemma LowerCaseErrorIsPlain()
    ensures Classify("error") == PlainTone
  {
    NotContainsMissingChar("error", "Error", 'E');
    NotContainsMissingChar("error", "Success", 'S');
    NotContainsMissingChar("error", "Saved", 'S');
    NotContainsMissingChar("error", "Found", 'F');
  }

  /** One rendered row: `[number]` then the line in its colour. */
  datatype Row = Row(number: nat, tone: Tone, text: string)

  /** The rows for `lines`, the first one numbered `first`. */
  function RowsFrom(lines: seq<string>, first: nat): (r: seq<Row>)
    ensures |r| == |lines|
    ensures forall i :: 0 <= i < |r| ==>
      r[i].number == first + i && r[i].text == lines[i] && r[i].tone == Classify(lines[i])
    decreases |lines|
  {
    if lines == [] then [] else [Row(first, Classify(lines[0]), lines[0])] + RowsFrom(lines[1..], first + 1)
  }

  /** `logs.map((log, index) => ... [index + 1] ...)`: rows numbered from 1. */
  function Render(logs: seq<string>): (r: seq<Row>)
    ensures |r| == |logs|
    ensures forall i :: 0 <= i < |r| ==> r[i].number == i + 1 && r[i].text == logs[i]
  {
    RowsFrom(logs, 1)
  }

  lemma ScenarioFirstChunk()
    ensures ChunkLines("Found 5 items\nSaved post A\n") == ["Found 5 items", "Saved post A"]
  {
    var a, b := "Found 5 items", "Saved post A";
    assert a[0] == 'F' && b[0] == 'S';
    ChunkOfTwoLines(a, b);
    assert "Found 5 items\nSaved post A\n" == a + "\n" + b + "\n";
  }

  lemma ScenarioSecondChunk()
    ensures ChunkLines("Error: timeout\n") == ["Error: timeout"]
  {
    var c := "Error: timeout";
    assert c[0] == 'E';
    ChunkOfOneLine(c);
    assert "Error: timeout\n" == c + "\n";
  }

  /** Two chunks of complete lines give the lines in arrival order. */
  lemma ScenarioTwoChunksLog()
    ensures LogAfter(["Found 5 items\nSaved post A\n", "Error: timeout\n"])
            == ["Found 5 items", "Saved post A", "Error: timeout"]
  {
    ScenarioFirstChunk();
    ScenarioSecondChunk();
    LogOfTwoChunks("Found 5 items\nSaved post A\n", "Error: timeout\n");
  }

  lemma ScenarioCutHead()
    ensures ChunkLines("Found 5 ite") == ["Found 5 ite"]
  {
    var a := "Found 5 ite";
    assert a[0] == 'F';
    SingleLineChunk(a);
  }

  lemma ScenarioCutTail()
    ensures ChunkLines("ms\n") == ["ms"]
  {
    var b := "ms";
    assert b[0] == 'm';
    ChunkOfOneLine(b);
    assert "ms\n" == b + "\n";
  }

  /** A line cut by the transport as "Found 5 ite" + "ms\n" is logged as two
      entries: each chunk is split on its own. */
  lemma ScenarioCutLine()
    ensures LogAfter(["Found 5 ite", "ms\n"]) == ["Found 5 ite", "ms"]
  {
    ScenarioCutHead();
    ScenarioCutTail();
    LogOfTwoChunks("Found 5 ite", "ms\n");
  }

  lemma ScenarioTones()
    ensures Classify("Found 5 items") == InfoTone
    ensures Classify("Saved post A") == SuccessTone
    ensures Classify("Error: timeout") == ErrorTone
  {
    var a, b, c := "Found 5 items", "Saved post A", "Error: timeout";
    assert OccursAt(a, "Found", 0);
    NotContainsMissingChar(a, "Error", 'E');
    NotContainsMissingChar(a, "Success", 'S');
    NotContainsMissingChar(a, "Saved", 'S');
    assert OccursAt(b, "Saved", 0);
    NotContainsMissingChar(b, "Error", 'E');
    assert OccursAt(c, "Error", 0);
  }

  /** Those lines render numbered from 1 and coloured by their keywords; the word
      "Error" inside a streamed line only colours it. */
  lemma ScenarioTwoChunksRender()
    ensures Render(["Found 5 items", "Saved post A", "Error: timeout"])
            == [Row(1, InfoTone, "Found 5 items"), Row(2, SuccessTone, "Saved post A"), Row(3, ErrorTone, "Error: timeout")]
  {
    ScenarioTones();
    var r := Render(["Found 5 items", "Saved post A", "Error: timeout"]);
    assert r[0].tone == InfoTone && r[1].tone == SuccessTone && r[2].tone == ErrorTone;
  }

  /** Truthiness of the `websiteId` prop (absent or "" is falsy). */
  predicate HasWebsiteId(websiteId: Option<string>) {
    websiteId.Some? && websiteId.value != ""
  }

  /** The component's state: the `logs` list, the `isRunning` flag and the abort
      controller reference (whether one exists, and whether it was aborted). */
  class ScraperLogModal {
    var logs: seq<string>
    var isRunning: bool
    var hasController: bool
    var aborted: bool

    constructor ()
      ensures logs == [] && !isRunning && !hasController && !aborted
    {
      logs := [];
      isRunning := false;
      hasController := false;
      aborted := false;
    }

    /** Start of `startScrape`: the log is emptied, the run flag raised and a fresh
        abort controller created. */
    method Begin()
      modifies this
      ensures logs == [] && isRunning
      ensures hasController && !aborted
    {
      logs := [];
      isRunning := true;
      hasController, aborted := true, false;
    }

    /** One turn of the read loop: the chunk's lines are appended after the old ones. */
    method ReceiveChunk(text: string)
      modifies this`logs
      ensures logs == old(logs) + ChunkLines(text)
      ensures old(logs) <= logs
    {
      var lines := ChunkLines(text);
      logs := logs + lines;
    }

    /** The `catch` and `finally` of `startScrape`: an error line unless the run was
        aborted, and the run flag always drops. */
    method Finish(ending: Ending)
      modifies this
      ensures logs == old(logs) + EndingLines(ending)
      ensures !isRunning
      ensures hasController == old(hasController)
      ensures aborted == (old(aborted) || ending.IsAbort())
    {
      if ending.Thrown? && ending.name != "AbortError" {
        logs := logs + [ErrorLine(ending.message)];
      }
      if ending.IsAbort() {
        aborted := true;
      }
      isRunning := false;
    }

    /** `startScrape`: `chunks` are the chunks read before the body was exhausted or
        the read threw, `ending` says which. The response status is never checked. */
    method StartScrape(chunks: seq<string>, ending: Ending)
      modifies this
      ensures logs == FinalLog(chunks, ending)
      ensures !isRunning
      ensures hasController && aborted == ending.IsAbort()
    {
      Begin();
      var i := 0;
      while i < |chunks|
        invariant 0 <= i <= |chunks|
        invariant logs == LogAfter(chunks[..i])
        invariant isRunning && hasController && !aborted
      {
        ReceiveChunk(chunks[i]);
        LogAfterOneMore(chunks, i);
        i := i + 1;
      }
      assert chunks[..i] == chunks;
      Finish(ending);
    }

    /** The effect body: a run starts only when the modal is open and a website id is
        present; otherwise nothing changes. */
    method RunEffect(isOpen: bool, websiteId: Option<string>, chunks: seq<string>, ending: Ending)
      returns (started: bool)
      modifies this
      ensures started == (isOpen && HasWebsiteId(websiteId))
      ensures started ==> logs == FinalLog(chunks, ending) && !isRunning
      ensures started ==> hasController && aborted == ending.IsAbort()
      ensures !started ==> logs == old(logs) && isRunning == old(isRunning)
      ensures !started ==> hasController == old(hasController) && aborted == old(aborted)
    {
      started := isOpen && websiteId.Some? && websiteId.value != "";
      if started {
        StartScrape(chunks, ending);
      }
    }

    /** The effect cleanup (on close and unmount): abort the controller if there is
        one. Repeating it changes nothing more. */
    method Cleanup()
      modifies this`aborted
      ensures aborted == (old(aborted) || hasController)
    {
      if hasController {
        aborted := true;
      }
    }
  }
}
