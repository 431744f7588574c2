/**
 * The output-reading half of `checkForServerUpdate`
 * (backend/services/serverService.js): the number of pending system
 * updates is read from the message of the day if it says how many updates
 * can be applied, and otherwise from the `apt-get` summary line.
 *
 * The two regular expressions are modelled exactly, as leftmost matches
 * with backtracking: `(\d+) updates can be applied immediately`, and
 * `(\d+)\s+upgraded,.*?(\d+)\s+newly installed,.*?(\d+)\s+to remove,.*?(\d+)\s+not upgraded\.`
 * where `.` matches anything but a line terminator.
 */
module ServerService {
  import opened Wrappers
  import opened Text

  // ---------------------------------------------------------------- runs of characters

  /** The end of the run of digits that starts at `i`. */
  function DigitRunEnd(s: string, i: nat): (k: nat)
    requires i <= |s|
    ensures i <= k <= |s| && (k == |s| || !IsDigit(s[k]))
    ensures forall j :: i <= j < k ==> IsDigit(s[j])
    decreases |s| - i
  {
    if i < |s| && IsDigit(s[i]) then DigitRunEnd(s, i + 1) else i
  }

  /** The end of the run of whitespace that starts at `i`. */
  function SpaceRunEnd(s: string, i: nat): (k: nat)
    requires i <= |s|
    ensures i <= k <= |s| && (k == |s| || !IsSpace(s[k]))
    ensures forall j :: i <= j < k ==> IsSpace(s[j])
    decreases |s| - i
  {
    if i < |s| && IsSpace(s[i]) then SpaceRunEnd(s, i + 1) else i
  }

  /** The number a match's first group captured, as `parseInt(group, 10)` reads it. */
  function NumberAt(s: string, i: nat): nat
    requires i <= |s|
  {
    DigitsValue(s[i..DigitRunEnd(s, i)])
  }

  // ---------------------------------------------------------------- the message of the day

  const MOTD_TAIL := " updates can be applied immediately"

  /** `(\d+)` followed by `tail` matches at `p`, the tail not starting with a digit. */
  predicate CountBefore(s: string, p: nat, tail: string) {
    p < |s| && IsDigit(s[p]) && StartsWith(s[DigitRunEnd(s, p)..], tail)
  }

  /** `(\d+) updates can be applied immediately` matches at `p`. */
  predicate MotdAt(s: string, p: nat) {
    CountBefore(s, p, MOTD_TAIL)
  }

  /** The leftmost start from `p` on at which a count followed by `tail` matches. */
  function FirstCountBefore(s: string, p: nat, tail: string): (r: Option<nat>)
    requires p <= |s|
    ensures r.Some? ==> p <= r.value < |s| && CountBefore(s, r.value, tail) && forall q :: p <= q < r.value ==> !CountBefore(s, q, tail)
    ensures r.None? ==> forall q :: p <= q ==> !CountBefore(s, q, tail)
    decreases |s| - p
  {
    if p == |s| then None
    else if CountBefore(s, p, tail) then Some(p)
    else FirstCountBefore(s, p + 1, tail)
  }

  /** The leftmost message-of-the-day match. */
  function FirstMotd(s: string): (r: Option<nat>)
    ensures r.Some? ==> r.value < |s| && MotdAt(s, r.value) && forall q :: 0 <= q < r.value ==> !MotdAt(s, q)
    ensures r.None? ==> forall q :: 0 <= q ==> !MotdAt(s, q)
  {
    FirstCountBefore(s, 0, MOTD_TAIL)
  }

  // ---------------------------------------------------------------- the apt-get summary

  /** `word` occurs in `s` at `i`. */
  predicate WordAt(s: string, i: nat, word: string)
    ensures WordAt(s, i, word) ==> i + |word| <= |s|
    decreases |word|
  {
    if word == [] then i <= |s| else i < |s| && s[i] == word[0] && WordAt(s, i + 1, word[1..])
  }

  /** The occurrence is that of a slice. */
  lemma {:induction false} WordAtSlice(s: string, i: nat, word: string)
    ensures WordAt(s, i, word) <==> i + |word| <= |s| && s[i..i + |word|] == word
    decreases |word|
  {
    if word != [] {
      WordAtSlice(s, i + 1, word[1..]);
      if i + |word| <= |s| && s[i..i + |word|] == word {
        assert s[i + 1..i + |word|] == word[1..];
      }
      if i < |s| && s[i] == word[0] && WordAt(s, i + 1, word[1..]) {
        assert s[i..i + |word|] == [s[i]] + s[i + 1..i + |word|];
      }
    }
  }

  /** An occurrence does not depend on what comes before it. */
  lemma {:induction false} WordAtSuffix(s: string, k: nat, i: nat, word: string)
    requires k <= i && k <= |s|
    ensures WordAt(s, i, word) == WordAt(s[k..], i - k, word)
    decreases |word|
  {
    if word != [] {
      if i < |s| {
        assert s[k..][i - k] == s[i];
      }
      WordAtSuffix(s, k, i + 1, word[1..]);
    }
  }

  /**
   * `(\d+)\s+word` at `p`, the label not starting with whitespace or a
   * digit (so neither run can give characters back): where the match ends.
   */
  function CountThen(s: string, p: nat, word: string): (e: Option<nat>)
    requires p <= |s|
    ensures e.Some? ==> p < e.value <= |s|
  {
    if p < |s| && IsDigit(s[p]) then
      var d := DigitRunEnd(s, p);
      var w := SpaceRunEnd(s, d);
      if w > d && WordAt(s, w, word) then Some(w + |word|) else None
    else None
  }

  /** No line terminator between `k` and `p`: the stretch `.*?` can skip. */
  ghost predicate SameLine(s: string, k: nat, p: nat)
    requires k <= p <= |s|
  {
    forall j :: k <= j < p ==> !IsLineTerminator(s[j])
  }

  /** `.*?(\d+)\s+l1.*?(\d+)\s+l2…` matches from `k`, in the meaning of the regular expression. */
  ghost predicate MatchesFrom(s: string, k: nat, labels: seq<string>)
    requires k <= |s|
    decreases |labels|
  {
    labels == [] ||
    exists p :: k <= p <= |s| && SameLine(s, k, p) && CountThen(s, p, labels[0]).Some?
      && MatchesFrom(s, CountThen(s, p, labels[0]).value, labels[1..])
  }

  /** The backtracking search: at each step try the count here, and if the rest fails, skip one more character of the line. */
  function Search(s: string, p: nat, labels: seq<string>): bool
    requires p <= |s|
    decreases |labels|, |s| - p
  {
    if labels == [] then true
    else
      var e := CountThen(s, p, labels[0]);
      (e.Some? && Search(s, e.value, labels[1..]))
      || (p < |s| && !IsLineTerminator(s[p]) && Search(s, p + 1, labels))
  }

  /** The search finds a match exactly when one exists. */
  lemma {:induction false} SearchIff(s: string, p: nat, labels: seq<string>)
    requires p <= |s|
    ensures Search(s, p, labels) <==> MatchesFrom(s, p, labels)
    decreases |labels|, |s| - p
  {
    if labels != [] {
      var e := CountThen(s, p, labels[0]);
      if e.Some? {
        SearchIff(s, e.value, labels[1..]);
      }
      if p < |s| && !IsLineTerminator(s[p]) {
        SearchIff(s, p + 1, labels);
      }
      if Search(s, p, labels) {
        if e.Some? && Search(s, e.value, labels[1..]) {
          assert SameLine(s, p, p);
        } else {
          var q :| p + 1 <= q <= |s| && SameLine(s, p + 1, q) && CountThen(s, q, labels[0]).Some?
            && MatchesFrom(s, CountThen(s, q, labels[0]).value, labels[1..]);
          assert SameLine(s, p, q);
        }
      }
      if MatchesFrom(s, p, labels) {
        var q :| p <= q <= |s| && SameLine(s, p, q) && CountThen(s, q, labels[0]).Some?
          && MatchesFrom(s, CountThen(s, q, labels[0]).value, labels[1..]);
        if q > p {
          assert SameLine(s, p + 1, q);
        }
      }
    }
  }

  /** The summary pattern as written: `to remove` followed by a comma. */
  const SUMMARY_LABELS := ["upgraded,", "newly installed,", "to remove,", "not upgraded."]

  /** The same with `to remove and`, the way apt-get prints its summary line. */
  const SUMMARY_LABELS_AND := ["upgraded,", "newly installed,", "to remove and", "not upgraded."]

  /** The pattern anchored at `i`: its first count is at `i`. */
  predicate MatchesAt(s: string, i: nat, labels: seq<string>) {
    i <= |s| && labels != [] && CountThen(s, i, labels[0]).Some? && Search(s, CountThen(s, i, labels[0]).value, labels[1..])
  }

  /** The summary pattern as written matches at `i`. */
  predicate SummaryAtAsWritten(s: string, i: nat) {
    MatchesAt(s, i, SUMMARY_LABELS)
  }

  /** The summary pattern matches at `i`, with `to remove` followed by a comma or by ` and`. */
  predicate SummaryAt(s: string, i: nat) {
    MatchesAt(s, i, SUMMARY_LABELS) || MatchesAt(s, i, SUMMARY_LABELS_AND)
  }

  // ---------------------------------------------------------------- leftmost matches

  /** The leftmost position from `p` to `n` at which `at` holds. */
  function Leftmost(p: nat, n: nat, at: nat -> bool): (r: Option<nat>)
    requires p <= n
    ensures r.Some? ==> p <= r.value <= n && at(r.value) && forall q :: p <= q < r.value ==> !at(q)
    ensures r.None? ==> forall q :: p <= q <= n ==> !at(q)
    decreases n - p
  {
    if at(p) then Some(p)
    else if p == n then None
    else Leftmost(p + 1, n, at)
  }

  /** The leftmost start at which the pattern of `labels` matches. */
  function FirstMatch(s: string, labels: seq<string>): (r: Option<nat>)
    ensures r.Some? ==> (r.value <= |s| && MatchesAt(s, r.value, labels)
      && forall q :: 0 <= q < r.value ==> !MatchesAt(s, q, labels))
    ensures r.None? ==> forall q :: 0 <= q <= |s| ==> !MatchesAt(s, q, labels)
  {
    var at := (i: nat) => MatchesAt(s, i, labels);
    assert forall i: nat :: at(i) == MatchesAt(s, i, labels);
    Leftmost(0, |s|, at)
  }

  /** The leftmost match of the summary pattern as written. */
  function FirstSummaryAsWritten(s: string): (r: Option<nat>)
    ensures r.Some? ==> (r.value <= |s| && SummaryAtAsWritten(s, r.value)
      && forall q :: 0 <= q < r.value ==> !SummaryAtAsWritten(s, q))
    ensures r.None? ==> forall q :: 0 <= q <= |s| ==> !SummaryAtAsWritten(s, q)
  {
    FirstMatch(s, SUMMARY_LABELS)
  }

  /** The earlier of two positions, either of which may be missing. */
  function Earlier(a: Option<nat>, b: Option<nat>): Option<nat> {
    if a.None? then b
    else if b.None? then a
    else if a.value <= b.value then a
    else b
  }

  /** The earlier of two leftmost matches is the leftmost match of either pattern. */
  lemma EarlierIsLeftmost(s: string, one: seq<string>, other: seq<string>)
    ensures var r := Earlier(FirstMatch(s, one), FirstMatch(s, other));
      (r.Some? ==> (r.value <= |s| && (MatchesAt(s, r.value, one) || MatchesAt(s, r.value, other))
        && forall q :: 0 <= q < r.value ==> !MatchesAt(s, q, one) && !MatchesAt(s, q, other)))
      && (r.None? ==> forall q :: 0 <= q <= |s| ==> !MatchesAt(s, q, one) && !MatchesAt(s, q, other))
  {
  }

  /** The leftmost match of either form of the summary: the earlier of the two leftmost matches. */
  function FirstSummary(s: string): Option<nat> {
    Earlier(FirstMatch(s, SUMMARY_LABELS), FirstMatch(s, SUMMARY_LABELS_AND))
  }

  /** It is the leftmost position at which either form matches. */
  lemma FirstSummaryIsLeftmost(s: string)
    ensures var r := FirstSummary(s);
      (r.Some? ==> (r.value <= |s| && SummaryAt(s, r.value) && forall q :: 0 <= q < r.value ==> !SummaryAt(s, q)))
      && (r.None? ==> forall q :: 0 <= q <= |s| ==> !SummaryAt(s, q))
  {
    EarlierIsLeftmost(s, SUMMARY_LABELS, SUMMARY_LABELS_AND);
  }

  // ---------------------------------------------------------------- checkForServerUpdate

  datatype UpdateCheck = UpdateCheck(updateAvailable: bool, upgradableCount: nat)

  function CheckResult(count: nat): (r: UpdateCheck)
    ensures r.upgradableCount == count && (r.updateAvailable <==> count > 0)
  {
    UpdateCheck(count > 0, count)
  }

  /** `checkForServerUpdate` on the command's output, with the summary pattern as written. */
  function CheckForServerUpdateAsWritten(output: string): (r: UpdateCheck)
    ensures r.updateAvailable <==> r.upgradableCount > 0
    ensures var motd := FirstMotd(output);
      motd.Some? ==> r.upgradableCount == NumberAt(output, motd.value)
    ensures var motd, summary := FirstMotd(output), FirstSummaryAsWritten(output);
      motd.None? ==> r.upgradableCount == if summary.Some? then NumberAt(output, summary.value) else 0
  {
    var motd := FirstMotd(output);
    if motd.Some? then CheckResult(NumberAt(output, motd.value))
    else
      var summary := FirstSummaryAsWritten(output);
      CheckResult(if summary.Some? then NumberAt(output, summary.value) else 0)
  }

  /**
   * `checkForServerUpdate` on the command's output: the count of the
   * leftmost message-of-the-day match if there is one, else the first
   * number of the leftmost summary match, else 0; an update is available
   * exactly when the count is positive.
   */
  function CheckForServerUpdate(output: string): (r: UpdateCheck)
    ensures r.updateAvailable <==> r.upgradableCount > 0
    ensures var motd := FirstMotd(output);
      motd.Some? ==> r.upgradableCount == NumberAt(output, motd.value)
    ensures var motd, summary := FirstMotd(output), FirstSummary(output);
      motd.None? ==> r.upgradableCount == if summary.Some? then NumberAt(output, summary.value) else 0
  {
    var motd := FirstMotd(output);
    if motd.Some? then CheckResult(NumberAt(output, motd.value))
    else
      var summary := FirstSummary(output);
      CheckResult(if summary.Some? then NumberAt(output, summary.value) else 0)
  }

  // ---------------------------------------------------------------- the apt-get summary line

  /** ` <count> <word>` and then `rest`: one stretch of the apt-get summary line. */
  function Stage(count: string, word: string, rest: string): string {
    " " + (count + (" " + (word + rest)))
  }

  /** The summary line with its four counts written as `digits`. */
  function SummaryText(upgraded: string, installed: string, removed: string, held: string): string {
    upgraded + (" " + ("upgraded,"
      + Stage(installed, "newly installed,", Stage(removed, "to remove and", Stage(held, "not upgraded.", "")))))
  }

  /**
   * The summary line `apt-get upgrade` prints, such as
   * `3 upgraded, 0 newly installed, 0 to remove and 5 not upgraded.`
   */
  function AptSummaryLine(upgraded: nat, installed: nat, removed: nat, held: nat): string {
    SummaryText(NatToString(upgraded), NatToString(installed), NatToString(removed), NatToString(held))
  }

  /** The digit run that starts at `p` is exactly `n` characters long. */
  lemma {:induction false} DigitRunEndAt(s: string, p: nat, n: nat)
    requires p + n <= |s|
    requires forall j :: p <= j < p + n ==> IsDigit(s[j])
    requires p + n == |s| || !IsDigit(s[p + n])
    ensures DigitRunEnd(s, p) == p + n
    decreases n
  {
    if n > 0 {
      DigitRunEndAt(s, p + 1, n - 1);
    }
  }

  /** A count, one space and `word` at `p`: the count-then-word step matches and ends after `word`. */
  lemma CountThenAt(s: string, p: nat, digits: string, word: string, rest: string)
    requires p <= |s| && s[p..] == digits + (" " + (word + rest))
    requires digits != [] && AllDigits(digits) && word != [] && !IsSpace(word[0])
    ensures CountThen(s, p, word) == Some(|s| - |rest|)
  {
    var d := p + |digits|;
    assert forall j :: p <= j < d ==> s[j] == s[p..][j - p] == digits[j - p];
    assert s[d] == s[p..][|digits|] == ' ';
    DigitRunEndAt(s, p, |digits|);
    assert s[d + 1] == s[p..][|digits| + 1] == word[0];
    assert SpaceRunEnd(s, d + 1) == d + 1;
    assert SpaceRunEnd(s, d) == d + 1;
    assert s[d + 1..d + 1 + |word|] == s[p..][|digits| + 1..|digits| + 1 + |word|] == word;
    WordAtSlice(s, d + 1, word);
  }

  /** A text ends with what it was built to end with. */
  lemma EndsWith(s: string, x: string, t: string)
    requires s == x + t
    ensures s[|s| - |t|..] == t
  {
  }

  /** A stage of the summary line at `e`: a space, then the count-then-word step, which ends where `rest` begins. */
  lemma StageStep(s: string, e: nat, count: string, word: string, rest: string) returns (f: nat)
    requires count != [] && AllDigits(count) && word != [] && !IsSpace(word[0])
    requires e <= |s| && s[e..] == Stage(count, word, rest)
    ensures e < f <= |s| && s[e] == ' ' && CountThen(s, e + 1, word) == Some(f) && s[f..] == rest
  {
    var t := Stage(count, word, rest);
    assert s[e] == t[0];
    assert s[e + 1..] == t[1..];
    CountThenAt(s, e + 1, count, word, rest);
    EndsWith(t, " " + (count + (" " + word)), rest);
    f := |s| - |rest|;
    assert s[f..] == t[|t| - |rest|..];
  }

  /** Three stages in a row: where each begins and where its count-then-word step ends. */
  lemma StagesFollow(s: string, e1: nat, d2: string, d3: string, d4: string, w2: string, w3: string, w4: string, rest: string)
    returns (e2: nat, e3: nat, e4: nat)
    requires d2 != [] && AllDigits(d2) && w2 != [] && !IsSpace(w2[0])
    requires d3 != [] && AllDigits(d3) && w3 != [] && !IsSpace(w3[0])
    requires d4 != [] && AllDigits(d4) && w4 != [] && !IsSpace(w4[0])
    requires e1 <= |s| && s[e1..] == Stage(d2, w2, Stage(d3, w3, Stage(d4, w4, rest)))
    ensures e1 < e2 < e3 < |s| && e4 <= |s| && s[e1] == ' ' && s[e2] == ' ' && s[e3] == ' '
    ensures CountThen(s, e1 + 1, w2) == Some(e2) && CountThen(s, e2 + 1, w3) == Some(e3)
    ensures CountThen(s, e3 + 1, w4) == Some(e4)
  {
    e2 := StageStep(s, e1, d2, w2, Stage(d3, w3, Stage(d4, w4, rest)));
    e3 := StageStep(s, e2, d3, w3, Stage(d4, w4, rest));
    e4 := StageStep(s, e3, d4, w4, rest);
  }

  /** The pattern's steps, in the meaning of the regular expression, go on after a space. */
  lemma MatchesAfterSpace(s: string, e: nat, m: nat, labels: seq<string>)
    requires e < |s| && s[e] == ' ' && labels != [] && CountThen(s, e + 1, labels[0]) == Some(m)
    requires MatchesFrom(s, m, labels[1..])
    ensures MatchesFrom(s, e, labels)
  {
    assert SameLine(s, e, e + 1);
  }

  /** Three count-then-word steps, each after a space, match a three-label pattern. */
  lemma ThreeStepsMatch(s: string, e1: nat, e2: nat, e3: nat, e4: nat, w2: string, w3: string, w4: string)
    requires e1 < e2 < e3 < |s| && e4 <= |s| && s[e1] == ' ' && s[e2] == ' ' && s[e3] == ' '
    requires CountThen(s, e1 + 1, w2) == Some(e2) && CountThen(s, e2 + 1, w3) == Some(e3)
    requires CountThen(s, e3 + 1, w4) == Some(e4)
    ensures MatchesFrom(s, e1, [w2, w3, w4])
  {
    var labels := [w2, w3, w4];
    var l3, l2 := labels[2..], labels[1..];
    assert l3[1..] == [] && l2[1..] == l3;
    MatchesAfterSpace(s, e3, e4, l3);
    MatchesAfterSpace(s, e2, e3, l2);
    MatchesAfterSpace(s, e1, e2, labels);
  }

  /** The pattern anchored at the start, given its first step and the meaning of the rest. */
  lemma MatchesAtStart(s: string, e1: nat, labels: seq<string>)
    requires labels != [] && e1 <= |s| && CountThen(s, 0, labels[0]) == Some(e1) && MatchesFrom(s, e1, labels[1..])
    ensures MatchesAt(s, 0, labels)
  {
    SearchIff(s, e1, labels[1..]);
  }

  /** Three stages in a row match a three-label pattern, in the meaning of the regular expression. */
  lemma StagesMatch(s: string, e1: nat, d2: string, d3: string, d4: string, w2: string, w3: string, w4: string)
    requires d2 != [] && AllDigits(d2) && w2 != [] && !IsSpace(w2[0])
    requires d3 != [] && AllDigits(d3) && w3 != [] && !IsSpace(w3[0])
    requires d4 != [] && AllDigits(d4) && w4 != [] && !IsSpace(w4[0])
    requires e1 <= |s| && s[e1..] == Stage(d2, w2, Stage(d3, w3, Stage(d4, w4, "")))
    ensures MatchesFrom(s, e1, [w2, w3, w4])
  {
    var e2, e3, e4 := StagesFollow(s, e1, d2, d3, d4, w2, w3, w4, "");
    ThreeStepsMatch(s, e1, e2, e3, e4, w2, w3, w4);
  }

  /** A first count-then-word step that ends where three stages begin: the four-label pattern matches at the start. */
  lemma FirstStepThenStages(s: string, e1: nat, d2: string, d3: string, d4: string, labels: seq<string>)
    requires |labels| == 4 && d2 != [] && d3 != [] && d4 != [] && AllDigits(d2) && AllDigits(d3) && AllDigits(d4)
    requires labels[1] != [] && !IsSpace(labels[1][0]) && labels[2] != [] && !IsSpace(labels[2][0])
    requires labels[3] != [] && !IsSpace(labels[3][0])
    requires e1 <= |s| && CountThen(s, 0, labels[0]) == Some(e1)
    requires s[e1..] == Stage(d2, labels[1], Stage(d3, labels[2], Stage(d4, labels[3], "")))
    ensures MatchesAt(s, 0, labels)
  {
    StagesMatch(s, e1, d2, d3, d4, labels[1], labels[2], labels[3]);
    assert labels[1..] == [labels[1], labels[2], labels[3]];
    MatchesAtStart(s, e1, labels);
  }

  /** A summary line with the given counts matches the pattern of `labels` at its start. */
  lemma SummaryTextMatches(d1: string, d2: string, d3: string, d4: string, labels: seq<string>)
    requires d1 != [] && d2 != [] && d3 != [] && d4 != []
    requires AllDigits(d1) && AllDigits(d2) && AllDigits(d3) && AllDigits(d4)
    requires |labels| == 4 && forall k :: 0 <= k < 4 ==> labels[k] != [] && !IsSpace(labels[k][0])
    ensures MatchesAt(d1 + (" " + (labels[0] + Stage(d2, labels[1], Stage(d3, labels[2], Stage(d4, labels[3], ""))))), 0, labels)
  {
    var s := d1 + (" " + (labels[0] + Stage(d2, labels[1], Stage(d3, labels[2], Stage(d4, labels[3], "")))));
    CountThenAt(s, 0, d1, labels[0], Stage(d2, labels[1], Stage(d3, labels[2], Stage(d4, labels[3], ""))));
    EndsWith(s, d1 + (" " + labels[0]), Stage(d2, labels[1], Stage(d3, labels[2], Stage(d4, labels[3], ""))));
    FirstStepThenStages(s, |s| - |Stage(d2, labels[1], Stage(d3, labels[2], Stage(d4, labels[3], "")))|, d2, d3, d4, labels);
  }

  /** The summary pattern with ` and` after `to remove` matches the summary line at its start. */
  lemma AptLineMatchesAt(upgraded: nat, installed: nat, removed: nat, held: nat)
    ensures MatchesAt(AptSummaryLine(upgraded, installed, removed, held), 0, SUMMARY_LABELS_AND)
  {
    var labels := SUMMARY_LABELS_AND;
    assert forall k :: 0 <= k < 4 ==> labels[k] != [] && !IsSpace(labels[k][0]);
    SummaryTextMatches(NatToString(upgraded), NatToString(installed), NatToString(removed), NatToString(held), labels);
  }

  // ---------------------------------------------------------------- what each pattern makes of the summary line

  /** A message-of-the-day match contains the `c` of `can`. */
  lemma MotdNeedsC(s: string, p: nat)
    requires MotdAt(s, p)
    ensures 'c' in s
  {
    var d := DigitRunEnd(s, p);
    assert s[d..][..|MOTD_TAIL|] == MOTD_TAIL;
    assert s[d + 9] == s[d..][..|MOTD_TAIL|][9] == 'c';
  }

  /** A text without a `c` has no message-of-the-day match. */
  lemma NoMotdWithoutC(s: string)
    requires 'c' !in s
    ensures FirstMotd(s).None?
  {
    if FirstMotd(s).Some? {
      MotdNeedsC(s, FirstMotd(s).value);
    }
  }

  /** A stretch of the summary line has no `c` when its word and what follows have none. */
  lemma StageWithoutC(count: string, word: string, rest: string)
    requires AllDigits(count) && 'c' !in word && 'c' !in rest
    ensures 'c' !in Stage(count, word, rest)
  {
  }

  /** The summary line has no `c`, so the message-of-the-day pattern never matches it. */
  lemma AptLineHasNoMotd(upgraded: nat, installed: nat, removed: nat, held: nat)
    ensures FirstMotd(AptSummaryLine(upgraded, installed, removed, held)).None?
  {
    var t3 := Stage(NatToString(held), "not upgraded.", "");
    var t2 := Stage(NatToString(removed), "to remove and", t3);
    var t1 := Stage(NatToString(installed), "newly installed,", t2);
    StageWithoutC(NatToString(held), "not upgraded.", "");
    StageWithoutC(NatToString(removed), "to remove and", t3);
    StageWithoutC(NatToString(installed), "newly installed,", t2);
    var s := AptSummaryLine(upgraded, installed, removed, held);
    assert 'c' !in NatToString(upgraded);
    NoMotdWithoutC(s);
  }

  /** No comma follows an `e`: the end of `to remove,` occurs nowhere. */
  predicate NoRemoveComma(s: string) {
    forall j :: 0 < j < |s| && s[j] == ',' ==> s[j - 1] != 'e'
  }

  /** A word whose only comma is its last character, not after an `e`. */
  lemma WordNoRemoveComma(w: string)
    requires w != [] && ',' !in w[..|w| - 1] && (|w| < 2 || w[|w| - 2] != 'e')
    ensures NoRemoveComma(w)
  {
  }

  /** Joining two such texts, the second not starting with a comma, keeps the property. */
  lemma ConcatNoRemoveComma(x: string, y: string)
    requires NoRemoveComma(x) && NoRemoveComma(y) && (y == [] || y[0] != ',')
    ensures NoRemoveComma(x + y)
  {
    var s := x + y;
    forall j | 0 < j < |s| && s[j] == ','
      ensures s[j - 1] != 'e'
    {
      if j > |x| {
        assert s[j] == y[j - |x|] && s[j - 1] == y[j - 1 - |x|];
      }
    }
  }

  /** A stretch of the summary line keeps the property. */
  lemma StageNoRemoveComma(count: string, word: string, rest: string)
    requires AllDigits(count) && word != [] && word[0] != ',' && NoRemoveComma(word)
    requires NoRemoveComma(rest) && (rest == [] || rest[0] != ',')
    ensures NoRemoveComma(Stage(count, word, rest)) && Stage(count, word, rest)[0] != ','
  {
    ConcatNoRemoveComma(word, rest);
    ConcatNoRemoveComma(" ", word + rest);
    ConcatNoRemoveComma(count, " " + (word + rest));
    ConcatNoRemoveComma(" ", count + (" " + (word + rest)));
  }

  /** The summary line has no comma after an `e`. */
  lemma AptLineNoRemoveComma(upgraded: nat, installed: nat, removed: nat, held: nat)
    ensures NoRemoveComma(AptSummaryLine(upgraded, installed, removed, held))
  {
    WordNoRemoveComma("upgraded,");
    WordNoRemoveComma("newly installed,");
    WordNoRemoveComma("to remove and");
    WordNoRemoveComma("not upgraded.");
    var t3 := Stage(NatToString(held), "not upgraded.", "");
    var t2 := Stage(NatToString(removed), "to remove and", t3);
    var t1 := Stage(NatToString(installed), "newly installed,", t2);
    StageNoRemoveComma(NatToString(held), "not upgraded.", "");
    StageNoRemoveComma(NatToString(removed), "to remove and", t3);
    StageNoRemoveComma(NatToString(installed), "newly installed,", t2);
    ConcatNoRemoveComma("upgraded,", t1);
    ConcatNoRemoveComma(" ", "upgraded," + t1);
    ConcatNoRemoveComma(NatToString(upgraded), " " + ("upgraded," + t1));
  }

  /** A successful search passes an occurrence of each of its words. */
  lemma {:induction false} SearchPassesWord(s: string, p: nat, labels: seq<string>, k: nat) returns (w: nat)
    requires p <= |s| && Search(s, p, labels) && k < |labels|
    ensures WordAt(s, w, labels[k])
    decreases |labels|, |s| - p
  {
    var e := CountThen(s, p, labels[0]);
    if e.Some? && Search(s, e.value, labels[1..]) {
      if k == 0 {
        w := SpaceRunEnd(s, DigitRunEnd(s, p));
      } else {
        w := SearchPassesWord(s, e.value, labels[1..], k - 1);
      }
    } else {
      w := SearchPassesWord(s, p + 1, labels, k);
    }
  }

  /** A character of a word that occurs at `w`. */
  lemma WordAtChar(s: string, w: nat, word: string, j: nat)
    requires WordAt(s, w, word) && j < |word|
    ensures w + j < |s| && s[w + j] == word[j]
  {
    WordAtSlice(s, w, word);
    assert s[w + j] == s[w..w + |word|][j];
  }

  /** The summary pattern as written needs `to remove,`, an `e` followed by a comma. */
  lemma AsWrittenNeedsRemoveComma(s: string, i: nat)
    requires SummaryAtAsWritten(s, i)
    ensures !NoRemoveComma(s)
  {
    var labels := SUMMARY_LABELS;
    var w := SearchPassesWord(s, CountThen(s, i, labels[0]).value, labels[1..], 1);
    var word := labels[2];
    assert word[8] == 'e' && word[9] == ',';
    WordAtChar(s, w, word, 8);
    WordAtChar(s, w, word, 9);
  }

  /**
   * The count as written misses the summary line: `apt-get` writes
   * `to remove and`, the pattern wants `to remove,`, and the output is read
   * as "no updates" whatever the number upgraded.
   */
  lemma AptSummaryMissedAsWritten(upgraded: nat, installed: nat, removed: nat, held: nat)
    ensures CheckForServerUpdateAsWritten(AptSummaryLine(upgraded, installed, removed, held)) == CheckResult(0)
  {
    var s := AptSummaryLine(upgraded, installed, removed, held);
    AptLineHasNoMotd(upgraded, installed, removed, held);
    AptLineNoRemoveComma(upgraded, installed, removed, held);
    var summary := FirstSummaryAsWritten(s);
    if summary.Some? {
      AsWrittenNeedsRemoveComma(s, summary.value);
    }
  }

  /** The leftmost summary match in the summary line is at its start. */
  lemma AptLineSummaryAtStart(upgraded: nat, installed: nat, removed: nat, held: nat)
    ensures FirstSummary(AptSummaryLine(upgraded, installed, removed, held)) == Some(0)
  {
    var s := AptSummaryLine(upgraded, installed, removed, held);
    AptLineMatchesAt(upgraded, installed, removed, held);
    assert FirstMatch(s, SUMMARY_LABELS_AND) == Some(0);
  }

  /** The number at the start of the summary line is the number upgraded. */
  lemma AptLineNumberAtStart(upgraded: nat, installed: nat, removed: nat, held: nat)
    ensures NumberAt(AptSummaryLine(upgraded, installed, removed, held), 0) == upgraded
  {
    var s := AptSummaryLine(upgraded, installed, removed, held);
    var d := NatToString(upgraded);
    assert s[|d|] == ' ';
    DigitRunEndAt(s, 0, |d|);
    assert s[0..|d|] == d;
    DigitsValueOfNatToString(upgraded);
  }

  /** With `to remove and` accepted as well, the count read from the summary line is the number upgraded. */
  lemma AptSummaryRead(upgraded: nat, installed: nat, removed: nat, held: nat)
    ensures CheckForServerUpdate(AptSummaryLine(upgraded, installed, removed, held)) == CheckResult(upgraded)
  {
    AptLineHasNoMotd(upgraded, installed, removed, held);
    AptLineSummaryAtStart(upgraded, installed, removed, held);
    AptLineNumberAtStart(upgraded, installed, removed, held);
  }
}
