/**
 * The parts of the bundled Ollama manager that shape data: reading the model names out of the
 * `ollama list` table, the environment handed to the bundled binary, and the result triple of
 * a CLI command. Whether the server runs, the binary's location and the subprocess outcome
 * are parameters.
 */
module OllamaManager {
  import opened Wrappers
  import opened Strings
  import opened Seqs

  const MissingBinary := "Ollama binary not found"
  const ListTimeout := 10

  /** The model name a table row contributes: its first whitespace token, none for a blank row. */
  function RowName(line: string): (names: seq<string>)
    ensures |names| <= 1
  {
    var parts := SplitWhitespace(line);
    if parts == [] then [] else [parts[0]]
  }

  /** A row contributes a name exactly when it is not blank. */
  lemma RowNameSpec(line: string)
    ensures |RowName(line)| == 1 <==> Strip(line) != []
  {
    SplitWhitespaceEmpty(line);
  }

  /** The names the rows contribute, in row order. */
  function RowNames(lines: seq<string>): seq<string> {
    FlatMap(lines, RowName)
  }

  /** Every name read from the table is a non-empty run with no whitespace in it. */
  lemma {:induction false} RowNamesAreTokens(lines: seq<string>)
    ensures var names := RowNames(lines);
      forall k :: 0 <= k < |names| ==> |names[k]| > 0 && NoSpace(names[k])
    decreases |lines|
  {
    if lines != [] {
      var n := |lines|;
      RowNamesAreTokens(lines[..n - 1]);
      assert RowNames(lines) == RowNames(lines[..n - 1]) + RowName(lines[n - 1]);
    }
  }

  /** Rows keep their order: the names of two runs of rows are the names of each, joined. */
  lemma RowNamesAppend(a: seq<string>, b: seq<string>)
    ensures RowNames(a + b) == RowNames(a) + RowNames(b)
  {
    FlatMapAppend(a, b, RowName);
  }

  /** `stdout.strip().split('\n')[1:]`: the rows after the header line. */
  function TableRows(stdout: string): seq<string> {
    Split(Strip(stdout), '\n')[1..]
  }

  /** The table parsing in `list_models`: the header line is skipped and every other row read. */
  method ParseModelList(stdout: string) returns (models: seq<string>)
    ensures models == RowNames(TableRows(stdout))
  {
    models := ReadRows(TableRows(stdout));
  }

  /** The loop over the rows: each row's name, if any, appended in order. */
  method ReadRows(lines: seq<string>) returns (models: seq<string>)
    ensures models == RowNames(lines)
  {
    models := [];
    var i := 0;
    while i < |lines|
      invariant 0 <= i <= |lines|
      invariant models == RowNames(lines[..i])
    {
      FlatMapPrefix(lines, i, RowName);
      RowNameSpec(lines[i]);
      if Strip(lines[i]) != [] {
        var parts := SplitWhitespace(lines[i]);
        if parts != [] {
          models := models + [parts[0]];
        }
      }
      i := i + 1;
    }
    assert lines[..i] == lines;
  }

  /** A table of a header line followed by rows: the names come from the rows alone, in order. */
  lemma HeaderSkipped(header: string, rows: seq<string>, names: seq<string>)
    requires '\n' !in header
    requires |rows| == |names| > 0
    requires forall k :: 0 <= k < |rows| ==> '\n' !in rows[k] && RowName(rows[k]) == [names[k]]
    requires Strip(header + "\n" + Join("\n", rows)) == header + "\n" + Join("\n", rows)
    ensures RowNames(TableRows(header + "\n" + Join("\n", rows))) == names
  {
    TableAfterHeader(header, rows);
    RowsNamed(rows, names);
  }

  lemma TableAfterHeader(header: string, rows: seq<string>)
    requires '\n' !in header && rows != []
    requires forall k :: 0 <= k < |rows| ==> '\n' !in rows[k]
    requires Strip(header + "\n" + Join("\n", rows)) == header + "\n" + Join("\n", rows)
    ensures TableRows(header + "\n" + Join("\n", rows)) == rows
  {
    var body := Join("\n", rows);
    var s := header + "\n" + body;
    assert s[|header| + 1..] == body;
    assert s[..|header|] == header;
    FindAt(s, '\n', |header|);
    assert Split(s, '\n') == [header] + Split(body, '\n');
    SplitJoin(rows);
  }

  lemma {:induction false} SplitJoin(rows: seq<string>)
    requires forall k :: 0 <= k < |rows| ==> '\n' !in rows[k]
    ensures |rows| > 0 ==> Split(Join("\n", rows), '\n') == rows
    decreases |rows|
  {
    if |rows| == 1 {
      assert Find(rows[0], '\n') == -1;
    } else if |rows| > 1 {
      var rest := Join("\n", rows[1..]);
      var s := rows[0] + "\n" + rest;
      var i := |rows[0]|;
      assert Join("\n", rows) == s;
      assert s[..i] == rows[0] && s[i + 1..] == rest;
      FindAt(s, '\n', i);
      assert Split(s, '\n') == [rows[0]] + Split(rest, '\n');
      SplitJoin(rows[1..]);
      assert rows == [rows[0]] + rows[1..];
    }
  }

  lemma RowsNamed(rows: seq<string>, names: seq<string>)
    requires |rows| == |names|
    requires forall k :: 0 <= k < |rows| ==> RowName(rows[k]) == [names[k]]
    ensures RowNames(rows) == names
  {
    FlatMapSingles(rows, names, RowName);
  }

  /**
   * `list_models`: `[]` when the server is not running and cannot be started, or when
   * `ollama list` fails; otherwise the names read from its output.
   */
  method ListModels(running: bool, started: bool, listOk: bool, stdout: string) returns (models: seq<string>)
    ensures (!running && !started) || !listOk ==> models == []
    ensures (running || started) && listOk ==> models == RowNames(TableRows(stdout))
  {
    if !running && !started {
      return [];
    }
    if !listOk {
      return [];
    }
    models := ParseModelList(stdout);
  }

  /** `has_model`: membership in what `list_models` returns. */
  method HasModel(name: string, running: bool, started: bool, listOk: bool, stdout: string) returns (b: bool)
    ensures b <==> (running || started) && listOk && name in RowNames(TableRows(stdout))
  {
    var models := ListModels(running, started, listOk, stdout);
    b := name in models;
  }

  /** `str(Path(d) / name)`. */
  function PathJoin(dir: string, name: string): string {
    if |dir| > 0 && dir[|dir| - 1] == '/' then dir + name else dir + "/" + name
  }

  /**
   * `get_ollama_env`: a copy of the environment; with a bundled directory `d`, the directory is
   * put in front of `DYLD_LIBRARY_PATH` (or becomes it when that is unset or empty) and
   * `MLX_METAL_PATH` names the Metal library inside it.
   */
  function OllamaEnv(env: map<string, string>, bundled: Option<string>): (r: map<string, string>)
    ensures bundled.None? ==> r == env
    ensures bundled.Some? ==> r.Keys == env.Keys + {"DYLD_LIBRARY_PATH", "MLX_METAL_PATH"}
    ensures bundled.Some? ==> forall k :: k in env && k != "DYLD_LIBRARY_PATH" && k != "MLX_METAL_PATH" ==> r[k] == env[k]
    ensures bundled.Some? ==> r["MLX_METAL_PATH"] == PathJoin(bundled.value, "mlx.metallib")
    ensures bundled.Some? && ("DYLD_LIBRARY_PATH" !in env || env["DYLD_LIBRARY_PATH"] == "") ==>
      r["DYLD_LIBRARY_PATH"] == bundled.value
    ensures bundled.Some? && "DYLD_LIBRARY_PATH" in env && env["DYLD_LIBRARY_PATH"] != "" ==>
      r["DYLD_LIBRARY_PATH"] == bundled.value + ":" + env["DYLD_LIBRARY_PATH"]
  {
    match bundled
    case None => env
    case Some(d) =>
      var existing := if "DYLD_LIBRARY_PATH" in env then env["DYLD_LIBRARY_PATH"] else "";
      var lib := if existing != "" then d + ":" + existing else d;
      env["DYLD_LIBRARY_PATH" := lib]["MLX_METAL_PATH" := PathJoin(d, "mlx.metallib")]
  }

  /**
   * Read as a search path, the new `DYLD_LIBRARY_PATH` is the bundled directory followed by
   * every entry that was there before, in order.
   */
  lemma LibraryPathPrepends(env: map<string, string>, d: string)
    requires ':' !in d
    ensures var r := OllamaEnv(env, Some(d));
      Split(r["DYLD_LIBRARY_PATH"], ':') ==
        if "DYLD_LIBRARY_PATH" in env && env["DYLD_LIBRARY_PATH"] != "" then [d] + Split(env["DYLD_LIBRARY_PATH"], ':') else [d]
  {
    if "DYLD_LIBRARY_PATH" in env && env["DYLD_LIBRARY_PATH"] != "" {
      var e := env["DYLD_LIBRARY_PATH"];
      var s := d + ":" + e;
      assert s[..|d|] == d && s[|d| + 1..] == e;
      FindAt(s, ':', |d|);
    } else {
      assert Find(d, ':') == -1;
    }
  }

  /** How the subprocess ended, when it could be started. */
  datatype CommandOutcome = Completed(returnCode: int, stdout: string, stderr: string) | TimedOut | Raised(message: string)

  /** `run_ollama_command`: `(success, stdout, stderr)`. */
  function RunOllamaCommand(binary: Option<string>, outcome: CommandOutcome, timeout: int): (r: (bool, string, string))
    ensures binary.None? ==> r == (false, "", MissingBinary)
    ensures r.0 <==> binary.Some? && outcome.Completed? && outcome.returnCode == 0
    ensures binary.Some? && outcome.Completed? ==> r.1 == outcome.stdout && r.2 == outcome.stderr
    ensures binary.Some? && outcome.TimedOut? ==> r == (false, "", "Command timed out after " + IntToString(timeout) + " seconds")
    ensures binary.Some? && outcome.Raised? ==> r == (false, "", outcome.message)
  {
    if binary.None? then (false, "", MissingBinary)
    else
      match outcome
      case Completed(code, out, err) => (code == 0, out, err)
      case TimedOut => (false, "", "Command timed out after " + IntToString(timeout) + " seconds")
      case Raised(msg) => (false, "", msg)
  }

  /** With no binary, `list_models` gets a failed command and so returns `[]`. */
  method ListModelsWithoutBinary(running: bool, started: bool, outcome: CommandOutcome) returns (models: seq<string>)
    ensures models == []
  {
    var r := RunOllamaCommand(None, outcome, ListTimeout);
    models := ListModels(running, started, r.0, r.1);
  }
}
