/**
 * The output filter and the stream relay of backend/helpers/streamHelpers.js.
 *
 * `cleanUpdateOutput` decides each line on its own: the drop rules (Docker
 * progress bars and redundant status messages, npm block-character bars,
 * bare percentages) are tried first, then the keep rules (status keywords),
 * then a default that keeps any line that is neither blank nor made only of
 * filler characters. `streamToSocket` is modelled as a function from the
 * trace of chunks the streams deliver to the trace of socket events.
 */
module StreamHelpers {
  import opened Text
  import opened Wrappers
  import opened Events
  import opened Seqs

  // ---------------------------------------------------------------------------
  // Line classification
  // ---------------------------------------------------------------------------

  predicate IsDockerProgressBar(line: string) {
    Contains(line, "Downloading [") || Contains(line, "Extracting [")
  }

  predicate IsDockerNoise(line: string) {
    || Contains(line, "Already exists")
    || Contains(line, "Waiting")
    || Contains(line, "Pulling fs layer")
    || Contains(line, "Verifying Checksum")
    || Contains(line, "Download complete")
  }

  /** The npm progress-bar characters ░, █ and ▓. */
  predicate HasBlockCharacters(line: string) {
    '\U{2591}' in line || '\U{2588}' in line || '\U{2593}' in line
  }

  /** `/^\d+%$/` matches the trimmed line. */
  predicate IsBarePercentage(line: string) {
    var t := Trim(line);
    |t| >= 2 && t[|t| - 1] == '%' && AllDigits(t[..|t| - 1])
  }

  /** The drop rules of streamHelpers.js:25-49. */
  predicate Dropped(line: string) {
    IsDockerProgressBar(line) || IsDockerNoise(line) || HasBlockCharacters(line) || IsBarePercentage(line)
  }

  predicate IsDockerStatus(line: string) {
    || Contains(line, "Pull complete")
    || Contains(line, "Pulled")
    || Contains(line, "Container")
    || Contains(line, "Total reclaimed space")
    || Contains(line, "Deleted Images")
    || Contains(line, "Image")
  }

  predicate IsGitLine(line: string) {
    || Contains(line, "From https://")
    || Contains(line, "From git://")
    || Contains(line, "Updating")
    || Contains(line, "Fast-forward")
    || Contains(line, "files changed")
    || Contains(line, "insertions(+)")
    || Contains(line, "deletions(-)")
    || StartsWith(Trim(line), "create mode")
    || StartsWith(Trim(line), "delete mode")
    || StartsWith(Trim(line), "rename ")
  }

  /** PM2 status words, the check mark ✓ and the ballot cross ✗. */
  predicate IsPm2Line(line: string) {
    || Contains(line, "[PM2]")
    || Contains(line, "pm2")
    || Contains(line, "stopping")
    || Contains(line, "starting")
    || Contains(line, "restarting")
    || Contains(line, "online")
    || Contains(line, "stopped")
    || Contains(line, "\U{2713}")
    || Contains(line, "\U{2717}")
  }

  predicate IsNpmSummary(line: string) {
    && Contains(line, "npm")
    && (|| Contains(line, "added")
        || Contains(line, "removed")
        || Contains(line, "updated")
        || Contains(line, "audited")
        || Contains(line, "packages"))
  }

  /** `error`, `warning` or `failed`, whatever the case of the letters. */
  predicate IsDiagnostic(line: string) {
    var lower := ToLower(line);
    Contains(lower, "error") || Contains(lower, "warning") || Contains(lower, "failed")
  }

  /** The keep rules of streamHelpers.js:51-118. */
  predicate KeptByKeyword(line: string) {
    IsDockerStatus(line) || IsGitLine(line) || IsPm2Line(line) || IsNpmSummary(line) || IsDiagnostic(line)
  }

  /** A character of the class `[\s\-\=\*\.]`. */
  predicate IsFillerChar(c: char) {
    IsSpace(c) || c == '-' || c == '=' || c == '*' || c == '.'
  }

  /** `/^[\s\-\=\*\.]+$/` matches the line. */
  predicate IsFillerOnly(line: string) {
    |line| > 0 && forall i :: 0 <= i < |line| ==> IsFillerChar(line[i])
  }

  /** The default rule of streamHelpers.js:120-126. */
  predicate IsMeaningful(line: string) {
    Trim(line) != [] && !IsFillerOnly(line)
  }

  /** Whether `cleanUpdateOutput` keeps a line: drop rules first, then keep rules, then the default. */
  predicate Retained(line: string) {
    !Dropped(line) && (KeptByKeyword(line) || IsMeaningful(line))
  }

  // ---------------------------------------------------------------------------
  // The filter over lines
  // ---------------------------------------------------------------------------

  /** The lines `cleanUpdateOutput` keeps: exactly the retained ones, unchanged and in order. */
  function FilterLines(lines: seq<string>): seq<string> {
    Filter(lines, Retained)
  }

  /** One more line extends the kept lines by that line exactly when it is retained. */
  lemma FilterLinesStep(lines: seq<string>, i: nat)
    requires i < |lines|
    ensures FilterLines(lines[..i + 1])
         == if Retained(lines[i]) then FilterLines(lines[..i]) + [lines[i]] else FilterLines(lines[..i])
  {
    assert lines[..i + 1] == lines[..i] + [lines[i]];
    FilterSnoc(lines[..i], lines[i], Retained);
  }

  /** The value of `cleanUpdateOutput(text)`. */
  function Cleaned(text: string): string {
    Join(FilterLines(Split(text, '\n')), "\n")
  }

  /**
   * The lines of the cleaned text are exactly the retained lines of the input,
   * unchanged and in input order.
   */
  lemma CleanedLines(text: string)
    ensures FilterLines(Split(text, '\n')) == [] ==> Cleaned(text) == ""
    ensures FilterLines(Split(text, '\n')) != [] ==>
              Split(Cleaned(text), '\n') == FilterLines(Split(text, '\n'))
    ensures IsSubsequence(FilterLines(Split(text, '\n')), Split(text, '\n'))
  {
    var lines := Split(text, '\n');
    var kept := FilterLines(lines);
    if kept != [] {
      forall p | p in kept ensures '\n' !in p {
        SubsequenceMembers(kept, lines, p);
      }
      SplitJoin(kept, '\n');
    }
  }

  /** Cleaning twice is cleaning once: each line's fate depends only on the line. */
  lemma CleanIdempotent(text: string)
    ensures Cleaned(Cleaned(text)) == Cleaned(text)
  {
    var kept := FilterLines(Split(text, '\n'));
    CleanedLines(text);
    if kept == [] {
      assert Split("", '\n') == [""];
      FillerLinesNeverRetained("");
      assert Filter([""], Retained) == Filter([], Retained);
    } else {
      FilterOfAccepted(kept, Retained);
    }
  }

  /**
   * The body of the loop of `cleanUpdateOutput` for one line: the rules in
   * their order, the first that matches deciding.
   */
  method KeepsLine(line: string) returns (keep: bool)
    ensures keep == Retained(line)
  {
    if IsDockerProgressBar(line) {
      return false;
    }
    if IsDockerNoise(line) {
      return false;
    }
    if HasBlockCharacters(line) {
      return false;
    }
    if IsBarePercentage(line) {
      return false;
    }
    if IsDockerStatus(line) {
      return true;
    }
    if IsGitLine(line) {
      return true;
    }
    if IsPm2Line(line) {
      return true;
    }
    if IsNpmSummary(line) {
      return true;
    }
    if IsDiagnostic(line) {
      return true;
    }
    if Trim(line) != [] && !IsFillerOnly(line) {
      return true;
    }
    return false;
  }

  /** `cleanUpdateOutput(text)`: a loop over the lines that appends each one a rule keeps. */
  method CleanUpdateOutput(text: string) returns (r: string)
    ensures r == Cleaned(text)
  {
    var lines := Split(text, '\n');
    var cleanedLines: seq<string> := [];
    for i := 0 to |lines|
      invariant cleanedLines == FilterLines(lines[..i])
    {
      var line := lines[i];
      FilterLinesStep(lines, i);
      var keep := KeepsLine(line);
      if keep {
        cleanedLines := cleanedLines + [line];
      }
    }
    assert lines[..|lines|] == lines;
    r := Join(cleanedLines, "\n");
  }

  // ---------------------------------------------------------------------------
  // Facts about single lines
  // ---------------------------------------------------------------------------

  /** A line that a drop rule matches is dropped, whatever keep keyword it also holds. */
  lemma DropRulesComeFirst(line: string)
    requires Dropped(line)
    ensures !Retained(line)
  {
  }

  /** A line that no drop rule matches and that holds a keep keyword is kept. */
  lemma KeepKeywordKeeps(line: string)
    requires !Dropped(line) && KeptByKeyword(line)
    ensures Retained(line)
  {
  }

  lemma FillerLineIsNoDockerStatus(line: string)
    requires forall i :: 0 <= i < |line| ==> IsFillerChar(line[i])
    ensures !IsDockerStatus(line)
  {
    assert 'P' !in line && 'C' !in line && 'T' !in line && 'D' !in line && 'I' !in line;
    MissingCharNotContained(line, "Pull complete", 'P');
    MissingCharNotContained(line, "Pulled", 'P');
    MissingCharNotContained(line, "Container", 'C');
    MissingCharNotContained(line, "Total reclaimed space", 'T');
    MissingCharNotContained(line, "Deleted Images", 'D');
    MissingCharNotContained(line, "Image", 'I');
  }

  lemma FillerLineIsNoGitLine(line: string)
    requires forall i :: 0 <= i < |line| ==> IsFillerChar(line[i])
    ensures !IsGitLine(line)
  {
    assert 'F' !in line && 'U' !in line && 'f' !in line && 'i' !in line && 'd' !in line;
    MissingCharNotContained(line, "From https://", 'F');
    MissingCharNotContained(line, "From git://", 'F');
    MissingCharNotContained(line, "Updating", 'U');
    MissingCharNotContained(line, "Fast-forward", 'F');
    MissingCharNotContained(line, "files changed", 'f');
    MissingCharNotContained(line, "insertions(+)", 'i');
    MissingCharNotContained(line, "deletions(-)", 'd');
    FillerLineHasNoGitPrefix(line);
  }

  lemma FillerLineHasNoGitPrefix(line: string)
    requires forall i :: 0 <= i < |line| ==> IsFillerChar(line[i])
    ensures !StartsWith(Trim(line), "create mode")
    ensures !StartsWith(Trim(line), "delete mode")
    ensures !StartsWith(Trim(line), "rename ")
  {
    var t := Trim(line);
    TrimChars(line);
    if t != [] {
      assert t[0] in line;
    }
  }

  lemma FillerLineIsNoPm2Line(line: string)
    requires forall i :: 0 <= i < |line| ==> IsFillerChar(line[i])
    ensures !IsPm2Line(line)
  {
    assert '[' !in line && 'p' !in line && 's' !in line && 'r' !in line && 'o' !in line;
    assert '\U{2713}' !in line && '\U{2717}' !in line;
    MissingCharNotContained(line, "[PM2]", '[');
    MissingCharNotContained(line, "pm2", 'p');
    MissingCharNotContained(line, "stopping", 's');
    MissingCharNotContained(line, "starting", 's');
    MissingCharNotContained(line, "restarting", 'r');
    MissingCharNotContained(line, "online", 'o');
    MissingCharNotContained(line, "stopped", 's');
    MissingCharNotContained(line, "\U{2713}", '\U{2713}');
    MissingCharNotContained(line, "\U{2717}", '\U{2717}');
  }

  lemma FillerLineIsNoDiagnostic(line: string)
    requires forall i :: 0 <= i < |line| ==> IsFillerChar(line[i])
    ensures !IsNpmSummary(line) && !IsDiagnostic(line)
  {
    assert 'n' !in line;
    MissingCharNotContained(line, "npm", 'n');
    var lower := ToLower(line);
    assert forall i :: 0 <= i < |lower| ==> lower[i] == line[i];
    assert 'e' !in lower && 'w' !in lower && 'f' !in lower;
    MissingCharNotContained(lower, "error", 'e');
    MissingCharNotContained(lower, "warning", 'w');
    MissingCharNotContained(lower, "failed", 'f');
  }

  /**
   * Blank lines and lines made only of whitespace, `-`, `=`, `*` and `.` never
   * survive the filter: no keep keyword can occur in them.
   */
  lemma FillerLinesNeverRetained(line: string)
    requires forall i :: 0 <= i < |line| ==> IsFillerChar(line[i])
    ensures !Retained(line)
  {
    FillerLineIsNoDockerStatus(line);
    FillerLineIsNoGitLine(line);
    FillerLineIsNoPm2Line(line);
    FillerLineIsNoDiagnostic(line);
    assert !IsMeaningful(line) by {
      if |line| == 0 {
        assert AllSpace(line);
      }
    }
  }

  /** A Docker progress bar is dropped even though it ends in a percentage. */
  lemma SampleProgressBarDropped(line: string)
    requires line == "Downloading [====>    ] 42%"
    ensures !Retained(line)
  {
    StartsWithContains(line, "Downloading [");
  }

  lemma SamplePm2LineNoProgressBar(pm2: string)
    requires pm2 == "[PM2] App online"
    ensures !IsDockerProgressBar(pm2)
  {
    assert 'D' !in "[PM2] App online" && 'E' !in "[PM2] App online";
    MissingCharNotContained(pm2, "Downloading [", 'D');
    MissingCharNotContained(pm2, "Extracting [", 'E');
  }

  lemma SamplePm2LineLacksNoiseWords(pm2: string)
    requires pm2 == "[PM2] App online"
    ensures !Contains(pm2, "Already exists") && !Contains(pm2, "Waiting") && !Contains(pm2, "Pulling fs layer")
  {
    assert 'y' !in "[PM2] App online" && 'W' !in "[PM2] App online" && 'u' !in "[PM2] App online";
    MissingCharNotContained(pm2, "Already exists", 'y');
    MissingCharNotContained(pm2, "Waiting", 'W');
    MissingCharNotContained(pm2, "Pulling fs layer", 'u');
  }

  lemma SamplePm2LineNoDockerNoise(pm2: string)
    requires pm2 == "[PM2] App online"
    ensures !IsDockerNoise(pm2)
  {
    SamplePm2LineLacksNoiseWords(pm2);
    assert 'V' !in "[PM2] App online" && 'D' !in "[PM2] App online";
    MissingCharNotContained(pm2, "Verifying Checksum", 'V');
    MissingCharNotContained(pm2, "Download complete", 'D');
  }

  lemma SamplePm2LineNoBarOrPercentage(pm2: string)
    requires pm2 == "[PM2] App online"
    ensures !HasBlockCharacters(pm2) && !IsBarePercentage(pm2)
  {
    assert '\U{2591}' !in "[PM2] App online" && '\U{2588}' !in "[PM2] App online";
    assert '\U{2593}' !in "[PM2] App online";
    assert !IsSpace(pm2[0]) && !IsSpace(pm2[|pm2| - 1]);
    TrimUnpadded(pm2);
  }

  /** A PM2 status line is kept unchanged. */
  lemma SamplePm2LineKept(pm2: string)
    requires pm2 == "[PM2] App online"
    ensures Retained(pm2)
  {
    SamplePm2LineNoProgressBar(pm2);
    SamplePm2LineNoDockerNoise(pm2);
    SamplePm2LineNoBarOrPercentage(pm2);
    StartsWithContains(pm2, "[PM2]");
    assert IsPm2Line(pm2);
  }

  /** A bare percentage is dropped. */
  lemma SamplePercentageDropped(line: string)
    requires line == "73%"
    ensures !Retained(line)
  {
    assert !IsSpace(line[0]) && !IsSpace(line[|line| - 1]);
    TrimUnpadded(line);
    assert line[..2] == "73";
    assert AllDigits("73");
  }

  // ---------------------------------------------------------------------------
  // The relay
  // ---------------------------------------------------------------------------

  /** `shouldFilterOutput(eventName)`: filter the output of update operations only. */
  predicate ShouldFilterOutput(eventName: string) {
    Contains(eventName, "update") || Contains(eventName, "Update")
  }

  /**
   * What one data chunk becomes: the text emitted on the output event, or
   * nothing when it is blank once (optionally) filtered.
   */
  function RelayedText(chunk: string, applyFilter: bool): (r: Option<string>)
    ensures r.Some? ==> Trim(r.value) != []
    ensures r.Some? ==> r.value == if applyFilter then Cleaned(chunk) else chunk
    ensures r.None? ==> Trim(if applyFilter then Cleaned(chunk) else chunk) == []
  {
    var data := if applyFilter then Cleaned(chunk) else chunk;
    if Trim(data) != [] then Some(data) else None
  }

  /** What the streams of one operation deliver, in arrival order. */
  datatype Chunk =
    | MainData(text: string)
    | StderrData(text: string)
    | MainClose(code: Option<int>)

  /**
   * Where stderr data reaches the relay from: a separate stream given by the
   * caller, the main stream's own `.stderr`, or nowhere.
   */
  datatype StderrSource = SeparateStream | MainStreamStderr | NoStderr

  /** The branch of streamToSocket (lines 168-188) that subscribes to stderr. */
  function StderrSourceFor(stderrStreamGiven: bool, mainHasStderr: bool): StderrSource {
    if stderrStreamGiven then SeparateStream
    else if mainHasStderr then MainStreamStderr
    else NoStderr
  }

  function CloseStatus(code: Option<int>): Payload {
    if code.Some? then Status(code.value) else NullStatus
  }

  function EmitText(event: string, text: Option<string>): seq<Emit> {
    if text.Some? then [Emit(event, Message(text.value))] else []
  }

  /** The events the relay emits for one chunk. */
  function RelayChunk(c: Chunk, outputEvent: string, doneEvent: string, stderr: StderrSource): (r: seq<Emit>)
    ensures |r| <= 1
    ensures c.MainClose? ==> |r| == 1 && r[0].event == doneEvent
    ensures !c.MainClose? ==> forall e :: e in r ==> e.event == outputEvent
  {
    var applyFilter := ShouldFilterOutput(outputEvent);
    match c
    case MainData(t) => EmitText(outputEvent, RelayedText(t, applyFilter))
    case StderrData(t) => if stderr == NoStderr then [] else EmitText(outputEvent, RelayedText(t, applyFilter))
    case MainClose(code) => [Emit(doneEvent, CloseStatus(code))]
  }

  /** `streamToSocket` as a map from the chunk trace to the event trace. */
  function StreamToSocket(chunks: seq<Chunk>, outputEvent: string, doneEvent: string, stderr: StderrSource): (r: seq<Emit>)
    ensures |r| <= |chunks|
    ensures forall e :: e in r ==> e.event == outputEvent || e.event == doneEvent
  {
    if chunks == [] then []
    else RelayChunk(chunks[0], outputEvent, doneEvent, stderr) + StreamToSocket(chunks[1..], outputEvent, doneEvent, stderr)
  }

  /** Relaying chunk by chunk is relaying the whole trace: the relay keeps no state between chunks. */
  lemma {:induction false} StreamToSocketAppend(a: seq<Chunk>, b: seq<Chunk>, outputEvent: string, doneEvent: string, stderr: StderrSource)
    ensures StreamToSocket(a + b, outputEvent, doneEvent, stderr)
         == StreamToSocket(a, outputEvent, doneEvent, stderr) + StreamToSocket(b, outputEvent, doneEvent, stderr)
  {
    if a != [] {
      assert (a + b)[1..] == a[1..] + b;
      StreamToSocketAppend(a[1..], b, outputEvent, doneEvent, stderr);
    } else {
      assert a + b == b;
    }
  }

  /** The payloads a trace carries on one event, in order. */
  function PayloadsOf(trace: seq<Emit>, event: string): seq<Payload> {
    if trace == [] then []
    else (if trace[0].event == event then [trace[0].payload] else []) + PayloadsOf(trace[1..], event)
  }

  lemma {:induction false} PayloadsOfAppend(a: seq<Emit>, b: seq<Emit>, event: string)
    ensures PayloadsOf(a + b, event) == PayloadsOf(a, event) + PayloadsOf(b, event)
  {
    if a != [] {
      assert (a + b)[1..] == a[1..] + b;
      PayloadsOfAppend(a[1..], b, event);
    } else {
      assert a + b == b;
    }
  }

  /** The close statuses of a chunk trace, in order. */
  function CloseStatuses(chunks: seq<Chunk>): seq<Payload> {
    if chunks == [] then []
    else (if chunks[0].MainClose? then [CloseStatus(chunks[0].code)] else []) + CloseStatuses(chunks[1..])
  }

  /**
   * The done event is emitted once per close of the main stream, with its
   * close code, and on no other occasion.
   */
  lemma {:induction false} DoneEventsAreCloses(chunks: seq<Chunk>, outputEvent: string, doneEvent: string, stderr: StderrSource)
    requires outputEvent != doneEvent
    ensures PayloadsOf(StreamToSocket(chunks, outputEvent, doneEvent, stderr), doneEvent) == CloseStatuses(chunks)
  {
    if chunks != [] {
      var head := RelayChunk(chunks[0], outputEvent, doneEvent, stderr);
      var tail := StreamToSocket(chunks[1..], outputEvent, doneEvent, stderr);
      PayloadsOfAppend(head, tail, doneEvent);
      DoneEventsAreCloses(chunks[1..], outputEvent, doneEvent, stderr);
    }
  }

  /**
   * Every event the relay emits is on one of its two event names, and every
   * output event carries a text that is not blank.
   */
  lemma RelayChunkWellFormed(c: Chunk, outputEvent: string, doneEvent: string, stderr: StderrSource)
    ensures forall e :: e in RelayChunk(c, outputEvent, doneEvent, stderr) ==>
              && (e.event == outputEvent || e.event == doneEvent)
              && (e.event != doneEvent ==> e.payload.Message? && Trim(e.payload.text) != [])
  {
    if !c.MainClose? && (c.MainData? || stderr != NoStderr) {
      var r := RelayedText(c.text, ShouldFilterOutput(outputEvent));
      assert RelayChunk(c, outputEvent, doneEvent, stderr) == EmitText(outputEvent, r);
      EmitTextWellFormed(outputEvent, r);
    }
  }

  lemma EmitTextWellFormed(event: string, text: Option<string>)
    requires text.Some? ==> Trim(text.value) != []
    ensures forall e :: e in EmitText(event, text) ==> e.event == event && e.payload.Message? && Trim(e.payload.text) != []
  {
  }

  lemma {:induction false} RelayedEventsWellFormed(chunks: seq<Chunk>, outputEvent: string, doneEvent: string, stderr: StderrSource)
    ensures forall e :: e in StreamToSocket(chunks, outputEvent, doneEvent, stderr) ==>
              && (e.event == outputEvent || e.event == doneEvent)
              && (e.event != doneEvent ==> e.payload.Message? && Trim(e.payload.text) != [])
  {
    if chunks != [] {
      var head := RelayChunk(chunks[0], outputEvent, doneEvent, stderr);
      var tail := StreamToSocket(chunks[1..], outputEvent, doneEvent, stderr);
      assert StreamToSocket(chunks, outputEvent, doneEvent, stderr) == head + tail;
      RelayChunkWellFormed(chunks[0], outputEvent, doneEvent, stderr);
      RelayedEventsWellFormed(chunks[1..], outputEvent, doneEvent, stderr);
    }
  }

  /** The non-blank texts of the data chunks a relay listens to, in order. */
  function NonBlankTexts(chunks: seq<Chunk>, stderr: StderrSource): seq<Payload> {
    if chunks == [] then []
    else
      var c := chunks[0];
      var heard := c.MainData? || (c.StderrData? && stderr != NoStderr);
      (if heard && Trim(c.text) != [] then [Message(c.text)] else []) + NonBlankTexts(chunks[1..], stderr)
  }

  /** Without filtering, the output events carry exactly the non-blank chunks, unchanged and in order. */
  lemma {:induction false} UnfilteredRelayIsExact(chunks: seq<Chunk>, outputEvent: string, doneEvent: string, stderr: StderrSource)
    requires !ShouldFilterOutput(outputEvent) && outputEvent != doneEvent
    ensures PayloadsOf(StreamToSocket(chunks, outputEvent, doneEvent, stderr), outputEvent) == NonBlankTexts(chunks, stderr)
  {
    if chunks != [] {
      var head := RelayChunk(chunks[0], outputEvent, doneEvent, stderr);
      var tail := StreamToSocket(chunks[1..], outputEvent, doneEvent, stderr);
      PayloadsOfAppend(head, tail, outputEvent);
      UnfilteredRelayIsExact(chunks[1..], outputEvent, doneEvent, stderr);
    }
  }
}
