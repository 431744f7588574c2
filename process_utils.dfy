/**
 * The process-status parsers of backend/utils/processUtils.js: the pm2
 * `describe` table reader, the docker `inspect` state reader, and the
 * dispatch on the process manager's mode.
 *
 * Dates are outside the model: `new Date(v).toLocaleString()` is the
 * parameter `dateText` (its argument is `None` for `null`), and the
 * `HH:MM:SS` time elapsed since a date up to now is the parameter `elapsed`,
 * which is `None` when its argument is not a date. `JSON.parse` followed by
 * the reads of `state.Status`, `state.StartedAt` and `state.FinishedAt` is
 * the parameter `parseJson`: `None` when the text does not parse or parses
 * to `null` (the property read throws), and otherwise the three properties,
 * each absent when the parsed value does not carry it (a number, say).
 */
module ProcessUtils {
  import opened Wrappers
  import opened Text
  import Config

  datatype ProcessStatus = ProcessStatus(status: string, uptime: string, startedAt: string, finishedAt: string)

  /** The box-drawing bar that separates the cells of a pm2 table. */
  const BAR: char := '│'

  const UNKNOWN := "unknown"
  const NO_UPTIME := "00:00:00"
  const NOT_AVAILABLE := "n/a"

  /** `v || fallback` */
  function OrElse(v: Option<string>, fallback: string): (r: string)
    ensures Config.Truthy(v) ==> r == v.value
    ensures !Config.Truthy(v) ==> r == fallback
  {
    if Config.Truthy(v) then v.value else fallback
  }

  // ---------------------------------------------------------------- pm2

  /** The lines of the output, each trimmed. */
  function Pm2Lines(stdout: string): (lines: seq<string>)
    ensures |lines| == |Split(stdout, '\n')|
    ensures forall k :: 0 <= k < |lines| ==> lines[k] == Trim(Split(stdout, '\n')[k])
  {
    var parts := Split(stdout, '\n');
    seq(|parts|, k requires 0 <= k < |parts| => Trim(parts[k]))
  }

  /** The cells of a table line: the line split at each bar, each part trimmed. */
  function Cells(line: string): (cells: seq<string>)
    ensures |cells| == |Split(line, BAR)|
    ensures forall k :: 0 <= k < |cells| ==> cells[k] == Trim(Split(line, BAR)[k])
  {
    var parts := Split(line, BAR);
    seq(|parts|, k requires 0 <= k < |parts| => Trim(parts[k]))
  }

  /** `lines.find(...)`, from index `i` on: the index of the first line that contains `needle`. */
  function FindLine(lines: seq<string>, needle: string, i: nat): (r: Option<nat>)
    requires i <= |lines|
    ensures r.Some? ==> (i <= r.value < |lines| && Contains(lines[r.value], needle)
      && forall k :: i <= k < r.value ==> !Contains(lines[k], needle))
    ensures r.None? ==> forall k :: i <= k < |lines| ==> !Contains(lines[k], needle)
    decreases |lines| - i
  {
    if i == |lines| then None
    else if Contains(lines[i], needle) then Some(i)
    else FindLine(lines, needle, i + 1)
  }

  /** The text a row's key cell starts with. */
  function KeyMark(keyword: string): string {
    [BAR, ' '] + keyword
  }

  /**
   * `getValue(keyword)`: the third cell of the first line holding a bar, a
   * space and `keyword`; nothing when there is no such line or it has fewer
   * than three cells.
   */
  function GetValue(lines: seq<string>, keyword: string): (r: Option<string>)
    ensures r.Some? ==> exists k :: (0 <= k < |lines| && Contains(lines[k], KeyMark(keyword))
      && (forall j :: 0 <= j < k ==> !Contains(lines[j], KeyMark(keyword)))
      && |Cells(lines[k])| >= 3 && r.value == Cells(lines[k])[2])
    ensures r.None? <==> ((forall k :: 0 <= k < |lines| ==> !Contains(lines[k], KeyMark(keyword)))
      || exists k :: (0 <= k < |lines| && Contains(lines[k], KeyMark(keyword))
        && (forall j :: 0 <= j < k ==> !Contains(lines[j], KeyMark(keyword))) && |Cells(lines[k])| < 3))
  {
    var found := FindLine(lines, KeyMark(keyword), 0);
    if found.None? then None
    else
      var parts := Cells(lines[found.value]);
      if |parts| < 3 then None else Some(parts[2])
  }

  /** `parsePm2Status`: status, start date and uptime read from the `pm2 describe` table; it ends when it starts. */
  function ParsePm2Status(stdout: string, dateText: Option<string> -> string, elapsed: string -> Option<string>)
    : (r: ProcessStatus)
    ensures r.finishedAt == r.startedAt
    ensures r.status != ""
    ensures Config.Truthy(GetValue(Pm2Lines(stdout), "status")) ==> r.status == GetValue(Pm2Lines(stdout), "status").value
    ensures !Config.Truthy(GetValue(Pm2Lines(stdout), "status")) ==> r.status == UNKNOWN
    ensures dateText(GetValue(Pm2Lines(stdout), "created at")) != "" ==>
              r.startedAt == dateText(GetValue(Pm2Lines(stdout), "created at"))
    ensures dateText(GetValue(Pm2Lines(stdout), "created at")) == "" ==> r.startedAt == NOT_AVAILABLE
    ensures r.startedAt != ""
    ensures elapsed(r.startedAt).Some? ==> r.uptime == elapsed(r.startedAt).value
    ensures elapsed(r.startedAt).None? ==> r.uptime == NO_UPTIME
  {
    var lines := Pm2Lines(stdout);
    var status := OrElse(GetValue(lines, "status"), UNKNOWN);
    var startedAt := OrElse(Some(dateText(GetValue(lines, "created at"))), NOT_AVAILABLE);
    var uptime := if startedAt != "" && elapsed(startedAt).Some? then elapsed(startedAt).value else NO_UPTIME;
    ProcessStatus(status, uptime, startedAt, startedAt)
  }

  /**
   * A row of a pm2 table: what comes before the first bar (nothing, in a
   * trimmed line), a bar, the key cell, a bar, the value cell, a bar.
   */
  function Row(lead: string, keyCell: string, valueCell: string): string {
    lead + ([BAR] + (keyCell + ([BAR] + (valueCell + [BAR]))))
  }

  /** A bar-free text with a bar after it splits into the text and the empty text. */
  lemma SplitBeforeLastBar(cell: string)
    requires BAR !in cell
    ensures Split(cell + [BAR], BAR) == [cell, ""]
  {
    assert cell + [BAR] == cell + [BAR] + [];
    SplitAtFirstSeparator(cell, [], BAR);
  }

  /** A bar-free text before a bar is the first part of the split. */
  lemma SplitAtBar(cell: string, tail: string)
    requires BAR !in cell
    ensures Split(cell + ([BAR] + tail), BAR) == [cell] + Split(tail, BAR)
  {
    assert cell + ([BAR] + tail) == cell + [BAR] + tail;
    SplitAtFirstSeparator(cell, tail, BAR);
  }

  /** Split at its bars, a row is its lead, the two cells, and the empty text. */
  lemma RowSplit(lead: string, keyCell: string, valueCell: string)
    requires BAR !in lead && BAR !in keyCell && BAR !in valueCell
    ensures Split(Row(lead, keyCell, valueCell), BAR) == [lead, keyCell, valueCell, ""]
  {
    RowTailSplit(keyCell, valueCell);
    SplitAtBar(lead, keyCell + ([BAR] + (valueCell + [BAR])));
  }

  /** What follows a row's first bar splits into the two cells and the empty text. */
  lemma RowTailSplit(keyCell: string, valueCell: string)
    requires BAR !in keyCell && BAR !in valueCell
    ensures Split(keyCell + ([BAR] + (valueCell + [BAR])), BAR) == [keyCell, valueCell, ""]
  {
    SplitBeforeLastBar(valueCell);
    SplitAtBar(keyCell, valueCell + [BAR]);
  }

  /** The third cell of a row is its value cell, trimmed. */
  lemma RowThirdCell(lead: string, keyCell: string, valueCell: string)
    requires BAR !in lead && BAR !in keyCell && BAR !in valueCell
    ensures |Cells(Row(lead, keyCell, valueCell))| == 4 && Cells(Row(lead, keyCell, valueCell))[2] == Trim(valueCell)
  {
    RowSplit(lead, keyCell, valueCell);
  }

  /** A row holds the mark of its key. */
  lemma RowHasKeyMark(lead: string, keyword: string, keyPad: string, valueCell: string)
    ensures Contains(Row(lead, [' '] + (keyword + keyPad), valueCell), KeyMark(keyword))
  {
    var row := Row(lead, [' '] + (keyword + keyPad), valueCell);
    assert row[|lead|..][..|KeyMark(keyword)|] == KeyMark(keyword);
  }

  /**
   * The value of the first row for `keyword` is read back: a table row
   * `│ keyword   │ value   │` gives `value`, whatever the padding.
   */
  lemma GetValueOfRow(lines: seq<string>, k: nat, lead: string, keyword: string, keyPad: string,
                      value: string, valuePad: string)
    requires k < |lines| && lines[k] == Row(lead, [' '] + (keyword + keyPad), [' '] + (value + valuePad))
    requires forall j :: 0 <= j < k ==> !Contains(lines[j], KeyMark(keyword))
    requires BAR !in lead && BAR !in keyword && BAR !in keyPad && BAR !in value && BAR !in valuePad
    requires AllSpace(valuePad) && (value == [] || (!IsSpace(value[0]) && !IsSpace(value[|value| - 1])))
    ensures GetValue(lines, keyword) == Some(value)
  {
    RowHasKeyMark(lead, keyword, keyPad, [' '] + (value + valuePad));
    FirstLineFound(lines, KeyMark(keyword), 0, k);
    RowValue(lead, [' '] + (keyword + keyPad), value, valuePad);
  }

  /** The third cell of a row whose value cell is a padded value is that value. */
  lemma RowValue(lead: string, keyCell: string, value: string, valuePad: string)
    requires BAR !in lead && BAR !in keyCell && BAR !in value && BAR !in valuePad
    requires AllSpace(valuePad) && (value == [] || (!IsSpace(value[0]) && !IsSpace(value[|value| - 1])))
    ensures |Cells(Row(lead, keyCell, [' '] + (value + valuePad)))| == 4
    ensures Cells(Row(lead, keyCell, [' '] + (value + valuePad)))[2] == value
  {
    RowThirdCell(lead, keyCell, [' '] + (value + valuePad));
    assert AllSpace([' ']);
    TrimPadded([' '], value, valuePad);
  }

  /** The search finds the first line that holds the needle. */
  lemma {:induction false} FirstLineFound(lines: seq<string>, needle: string, i: nat, k: nat)
    requires i <= k < |lines| && Contains(lines[k], needle)
    requires forall j :: i <= j < k ==> !Contains(lines[j], needle)
    ensures FindLine(lines, needle, i) == Some(k)
    decreases k - i
  {
    if i < k {
      FirstLineFound(lines, needle, i + 1, k);
    }
  }

  /** A pm2 table whose first status row shows a status reports that status. */
  lemma Pm2StatusRow(stdout: string, k: nat, keyPad: string, status: string, valuePad: string,
                     dateText: Option<string> -> string, elapsed: string -> Option<string>)
    requires k < |Pm2Lines(stdout)| && Pm2Lines(stdout)[k] == Row("", [' '] + ("status" + keyPad), [' '] + (status + valuePad))
    requires forall j :: 0 <= j < k ==> !Contains(Pm2Lines(stdout)[j], KeyMark("status"))
    requires BAR !in keyPad && BAR !in status && BAR !in valuePad && AllSpace(valuePad)
    requires status != [] && !IsSpace(status[0]) && !IsSpace(status[|status| - 1])
    ensures ParsePm2Status(stdout, dateText, elapsed).status == status
  {
    assert BAR !in "status";
    GetValueOfRow(Pm2Lines(stdout), k, "", "status", keyPad, status, valuePad);
  }

  // ---------------------------------------------------------------- docker

  /** The fields of the parsed `State` object; each is `None` when missing. */
  datatype DockerState = DockerState(status: Option<string>, startedAt: Option<string>, finishedAt: Option<string>)

  const DOCKER_PARSE_ERROR := "Failed to parse Docker status output"

  /**
   * `parseDockerStatus`: the state's fields with their defaults. Any failure
   * inside the `try` becomes one error: output that does not parse to an
   * object, and a start date that is not a date (its uptime cannot be
   * written out).
   */
  function ParseDockerStatus(state: Option<DockerState>, dateText: Option<string> -> string,
                             elapsed: string -> Option<string>): (r: Result<ProcessStatus, string>)
    ensures r.Err? <==> state.None? || (Config.Truthy(state.value.startedAt) && elapsed(state.value.startedAt.value).None?)
    ensures r.Err? ==> r.error == DOCKER_PARSE_ERROR
    ensures r.Ok? ==> r.value.status == OrElse(state.value.status, UNKNOWN)
    ensures r.Ok? && !Config.Truthy(state.value.startedAt) ==> r.value.startedAt == NOT_AVAILABLE && r.value.uptime == NO_UPTIME
    ensures r.Ok? && !Config.Truthy(state.value.finishedAt) ==> r.value.finishedAt == r.value.startedAt
    ensures r.Ok? && Config.Truthy(state.value.startedAt) ==> Some(r.value.uptime) == elapsed(state.value.startedAt.value)
    ensures r.Ok? && Config.Truthy(state.value.startedAt) ==> r.value.startedAt == dateText(state.value.startedAt)
    ensures r.Ok? && Config.Truthy(state.value.finishedAt) ==> r.value.finishedAt == dateText(state.value.finishedAt)
  {
    if state.None? then Err(DOCKER_PARSE_ERROR)
    else
      var s := state.value;
      var status := OrElse(s.status, UNKNOWN);
      var startedAt := if Config.Truthy(s.startedAt) then dateText(s.startedAt) else NOT_AVAILABLE;
      var finishedAt := if Config.Truthy(s.finishedAt) then dateText(s.finishedAt) else startedAt;
      if Config.Truthy(s.startedAt) then
        match elapsed(s.startedAt.value)
        case None => Err(DOCKER_PARSE_ERROR)
        case Some(uptime) => Ok(ProcessStatus(status, uptime, startedAt, finishedAt))
      else Ok(ProcessStatus(status, NO_UPTIME, startedAt, finishedAt))
  }

  // ---------------------------------------------------------------- dispatch

  /** `parseProcessStatus`: the parser for `pm2` or `docker`; any other mode is an error naming it. */
  function ParseProcessStatus(mode: string, stdout: string, parseJson: string -> Option<DockerState>,
                              dateText: Option<string> -> string, elapsed: string -> Option<string>)
    : (r: Result<ProcessStatus, string>)
    ensures mode == "pm2" ==> r == Ok(ParsePm2Status(stdout, dateText, elapsed))
    ensures mode == "docker" ==> r == ParseDockerStatus(parseJson(stdout), dateText, elapsed)
    ensures mode != "pm2" && mode != "docker" ==> r == Err("Unsupported process manager mode: " + mode)
    ensures mode == "pm2" ==> r.Ok? && r.value.finishedAt == r.value.startedAt
    ensures mode == "docker" ==> (r.Err? <==> r == Err(DOCKER_PARSE_ERROR))
    ensures mode == "docker" && parseJson(stdout).None? ==> r == Err(DOCKER_PARSE_ERROR)
  {
    if mode == "pm2" then Ok(ParsePm2Status(stdout, dateText, elapsed))
    else if mode == "docker" then ParseDockerStatus(parseJson(stdout), dateText, elapsed)
    else Err("Unsupported process manager mode: " + mode)
  }
}
