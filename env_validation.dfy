/**
 * The `.env` editor's format check (frontend/js/dashboard/env.js,
 * `validateEnv`): every line, trimmed, must be empty, a `#` comment, or
 * start with `NAME=` where NAME matches `[A-Za-z_][A-Za-z0-9_]*`. The
 * first offending line is reported and the editor's cursor moved to it.
 */
module EnvValidation {
  import opened Wrappers
  import opened Text

  predicate KeyStart(c: char) {
    ('A' <= c <= 'Z') || ('a' <= c <= 'z') || c == '_'
  }

  predicate KeyChar(c: char) {
    KeyStart(c) || ('0' <= c <= '9')
  }

  /** What `^[A-Za-z_][A-Za-z0-9_]*=` matches: a name, then `=` right after it. */
  ghost predicate AssignmentPrefix(line: string) {
    exists k :: 1 <= k < |line| && line[k] == '=' && KeyStart(line[0]) && forall j :: 1 <= j < k ==> KeyChar(line[j])
  }

  /** The end of the run of name characters that starts at `i`. */
  function KeyRunEnd(line: string, i: nat): (k: nat)
    requires i <= |line|
    ensures i <= k <= |line| && (k == |line| || !KeyChar(line[k]))
    ensures forall j :: i <= j < k ==> KeyChar(line[j])
    decreases |line| - i
  {
    if i < |line| && KeyChar(line[i]) then KeyRunEnd(line, i + 1) else i
  }

  /** The pattern test, reading the name greedily: `=` must follow the longest run of name characters. */
  predicate MatchesAssignment(line: string) {
    |line| >= 2 && KeyStart(line[0]) && KeyRunEnd(line, 1) < |line| && line[KeyRunEnd(line, 1)] == '='
  }

  /** Reading the name greedily finds exactly the lines the pattern matches: `=` is not a name character. */
  lemma MatchesAssignmentIff(line: string)
    ensures MatchesAssignment(line) <==> AssignmentPrefix(line)
  {
    if AssignmentPrefix(line) {
      var k :| 1 <= k < |line| && line[k] == '=' && KeyStart(line[0]) && forall j :: 1 <= j < k ==> KeyChar(line[j]);
      assert KeyRunEnd(line, 1) == k;
    }
  }

  /** One line is accepted when, trimmed, it is empty, a comment or an assignment. */
  predicate LineAccepted(line: string) {
    var t := Trim(line);
    t == [] || StartsWith(t, "#") || MatchesAssignment(t)
  }

  function Lines(content: string): seq<string> {
    Split(content, '\n')
  }

  /** The first `n` lines all pass `accepts`. */
  predicate AcceptedUpTo(accepts: string -> bool, lines: seq<string>, n: nat)
    requires n <= |lines|
  {
    n == 0 || (AcceptedUpTo(accepts, lines, n - 1) && accepts(lines[n - 1]))
  }

  lemma {:induction false} AcceptedUpToIff(accepts: string -> bool, lines: seq<string>, n: nat)
    requires n <= |lines|
    ensures AcceptedUpTo(accepts, lines, n) <==> forall j :: 0 <= j < n ==> accepts(lines[j])
  {
    if n > 0 {
      AcceptedUpToIff(accepts, lines, n - 1);
    }
  }

  predicate ContentAccepted(content: string) {
    AcceptedUpTo(LineAccepted, Lines(content), |Lines(content)|)
  }

  /** The warning shown for the first rejected line, and where the cursor goes. */
  datatype Rejection = Rejection(toast: string, cursorLine: nat)

  function RejectionAt(lines: seq<string>, i: nat): Rejection
    requires i < |lines|
  {
    Rejection("Invalid env format at line " + NatToString(i + 1) + ": \"" + lines[i] + "\"", i)
  }

  /**
   * `validateEnv`: scans the lines in order and stops at the first one
   * that is rejected, reporting it with its 1-based number and placing the
   * cursor on its 0-based index.
   */
  method ValidateEnv(content: string) returns (valid: bool, rejection: Option<Rejection>)
    ensures valid <==> ContentAccepted(content)
    ensures valid <==> rejection.None?
    ensures rejection.Some? ==> var i := rejection.value.cursorLine;
      && i < |Lines(content)|
      && AcceptedUpTo(LineAccepted, Lines(content), i)
      && !LineAccepted(Lines(content)[i])
      && rejection.value == RejectionAt(Lines(content), i)
  {
    var lines := Lines(content);
    var i := 0;
    while i < |lines|
      invariant 0 <= i <= |lines|
      invariant AcceptedUpTo(LineAccepted, lines, i)
    {
      if LineAccepted(lines[i]) {
        i := i + 1;
        continue;
      }
      AcceptedUpToIff(LineAccepted, lines, |lines|);
      return false, Some(RejectionAt(lines, i));
    }
    return true, None;
  }

  /** An empty editor is valid. */
  lemma EmptyContentAccepted()
    ensures ContentAccepted("")
  {
    assert Lines("") == [""];
    assert AcceptedUpTo(LineAccepted, Lines(""), 0);
  }

  /** `KEY=` with nothing after the `=` is accepted, and so is leading whitespace before it. */
  lemma EmptyValueAccepted(pad: string, key: string)
    requires AllSpace(pad) && key != [] && KeyStart(key[0])
    requires forall j :: 0 <= j < |key| ==> KeyChar(key[j])
    ensures LineAccepted(pad + key + "=")
  {
    var t := key + "=";
    assert pad + key + "=" == pad + t;
    assert pad + t == pad + (t + []);
    TrimPadded(pad, t, []);
    assert forall j :: 1 <= j < |key| ==> KeyChar(t[j]);
    assert t[|key|] == '=';
    MatchesAssignmentIff(t);
  }

  /** A line whose name starts with a digit is rejected. */
  lemma DigitFirstRejected(line: string)
    requires line == "1KEY=x"
    ensures !LineAccepted(line)
  {
    TrimUnpadded(line);
  }

  /** A bare name without `=` is rejected. */
  lemma BareNameRejected(line: string)
    requires line == "KEY"
    ensures !LineAccepted(line)
  {
    TrimUnpadded(line);
    assert KeyRunEnd(line, 1) == 3;
  }
}
