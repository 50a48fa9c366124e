/** The test-database configuration of internal/handler/test_config.go: the env-file loader,
    the per-variable defaults and the connection-string builder. The process environment is a
    map in which a missing variable reads as ""; the file system is a map from file name to
    what reading that file yields. */
module TestConfig {
  import opened Wrappers
  import opened Errors
  import opened GoStrings

  /** `os.Getenv`: an unset variable reads as "". */
  function Getenv(vars: map<string, string>, key: string): string
  {
    if key in vars then vars[key] else ""
  }

  /** When `os.Setenv` succeeds (Go's Unix `syscall.Setenv`): a non-empty key without '=' or NUL,
      and a value without NUL. */
  predicate SetenvAccepts(key: string, value: string)
  {
    key != "" && '=' !in key && '\0' !in key && '\0' !in value
  }

  /** The process environment, which `loadEnvFile` changes in place. */
  class Environment {
    var vars: map<string, string>

    constructor (initial: map<string, string>)
      ensures vars == initial
    {
      vars := initial;
    }

    function Get(key: string): string
      reads this
    {
      Getenv(vars, key)
    }

    /** `os.Setenv`: an invalid key or value is refused and changes nothing. */
    method Setenv(key: string, value: string) returns (err: Option<Error>)
      modifies this
      ensures err.None? <==> SetenvAccepts(key, value)
      ensures vars == if err.None? then old(vars)[key := value] else old(vars)
    {
      if !SetenvAccepts(key, value) {
        return Some(Opaque("setenv: invalid argument"));
      }
      vars := vars[key := value];
      return None;
    }
  }

  // ---------------------------------------------------------------------------------------
  // One line of an env file

  /** A value of length at least 2 enclosed in a matching pair of `"` or `'` loses that pair. */
  function StripQuotes(v: string): (r: string)
    ensures |v| >= 2 && v[0] == v[|v| - 1] && (v[0] == '"' || v[0] == '\'') ==> r == v[1..|v| - 1]
    ensures !(|v| >= 2 && v[0] == v[|v| - 1] && (v[0] == '"' || v[0] == '\'')) ==> r == v
  {
    if |v| >= 2 && ((v[0] == '"' && v[|v| - 1] == '"') || (v[0] == '\'' && v[|v| - 1] == '\'')) then
      v[1..|v| - 1]
    else v
  }

  /** Quoting with either kind of quote is undone, whatever the text inside (quotes included). */
  lemma StripQuotesOfQuoted(text: string, q: char)
    requires q == '"' || q == '\''
    ensures StripQuotes([q] + text + [q]) == text
  {
    var v := [q] + text + [q];
    assert v[1..|v| - 1] == text;
  }

  /** What a line of the file asks for. */
  datatype LineEffect = Skip | Assign(key: string, value: string)

  /** A line after trimming: blank and `#` lines and lines without '=' are skipped; otherwise
      the key is the trimmed text before the first '=', the value the trimmed text after it
      with one layer of matching quotes removed. */
  function ParseLine(raw: string): (e: LineEffect)
    ensures var line := TrimSpace(raw);
      (e.Assign? <==> line != "" && !HasPrefix(line, "#") && '=' in line)
    ensures e.Assign? ==> '=' !in e.key && TrimmedEnds(e.key)
  {
    var line := TrimSpace(raw);
    if line == "" || HasPrefix(line, "#") then Skip
    else
      var parts := SplitFirst(line, '=');
      if |parts| != 2 then Skip
      else
        var key := TrimSpace(parts[0]);
        var value := StripQuotes(TrimSpace(parts[1]));
        assert '=' !in key by {
          if '=' in key { TrimSpaceWithin(parts[0], '='); }
        }
        Assign(key, value)
  }

  /** A line whose trimmed text is `before=after`, with no '=' in `before`, assigns the trimmed
      `before` the trimmed and unquoted `after`. */
  lemma ParseLineOfSplit(raw: string, before: string, after: string)
    requires TrimSpace(raw) == before + "=" + after && '=' !in before
    requires !HasPrefix(before, "#")
    ensures ParseLine(raw) == Assign(TrimSpace(before), StripQuotes(TrimSpace(after)))
  {
    assert before + "=" + after == before + ['='] + after;
    SplitFirstOfJoined(before, '=', after);
  }

  /** A line that is white space, then `before=after` with trimmed ends, then white space,
      parses as that split. */
  lemma ParseLineOfPadded(pre: string, mid: string, post: string, before: string, after: string)
    requires AllSpace(pre) && AllSpace(post) && TrimmedEnds(mid)
    requires mid == before + "=" + after && '=' !in before
    requires !HasPrefix(before, "#")
    ensures ParseLine(pre + mid + post) == Assign(TrimSpace(before), StripQuotes(TrimSpace(after)))
  {
    TrimSpaceOfPadded(pre, mid, post);
    ParseLineOfSplit(pre + mid + post, before, after);
  }

  /** A line written as `KEY = VALUE`, with white space anywhere around the key and the value,
      reads back as that key and that value (less one layer of matching quotes); the value may
      itself contain '='. */
  lemma ParseLineOfAssignment(pre: string, key: string, sp1: string, sp2: string, value: string, post: string)
    requires AllSpace(pre) && AllSpace(sp1) && AllSpace(sp2) && AllSpace(post)
    requires key != "" && TrimmedEnds(key) && '=' !in key && key[0] != '#'
    requires TrimmedEnds(value)
    ensures ParseLine(pre + ((key + sp1) + "=" + (sp2 + value)) + post) == Assign(key, StripQuotes(value))
  {
    var left := key + sp1;
    var right := sp2 + value;
    NoSeparatorInPadding(key, sp1);
    LineShape(key, sp1, sp2, value);
    TrimSpaceOfPadded([], key, sp1);
    TrimSpaceOfPadded(sp2, value, []);
    if value == [] {
      LineShapeNoValue(pre, left, sp2, value, post);
      AllSpaceConcat(sp2, post);
      assert TrimSpace("") == "" by { TrimSpaceOfPadded([], [], []); }
      assert !IsSpace('=');
      assert TrimmedEnds(left + "=");
      ParseLineOfPadded(pre, left + "=", sp2 + post, left, "");
    } else {
      ParseLineOfPadded(pre, left + "=" + right, post, left, right);
    }
  }

  /** The sequence facts about `KEY = VALUE` the lemma above relies on. */
  lemma LineShape(key: string, sp1: string, sp2: string, value: string)
    requires key != []
    ensures (key + sp1)[0] == key[0]
    ensures [] + key + sp1 == key + sp1 && sp2 + value + [] == sp2 + value
    ensures (key + sp1) + "=" + "" == (key + sp1) + "="
    ensures var m := (key + sp1) + "="; m[0] == key[0] && m[|m| - 1] == '='
    ensures value != [] ==> var mid := (key + sp1) + "=" + (sp2 + value);
      mid[0] == key[0] && mid[|mid| - 1] == value[|value| - 1]
  {
  }

  /** With an empty value, the white space after '=' joins the trailing white space. */
  lemma LineShapeNoValue(pre: string, left: string, sp2: string, value: string, post: string)
    requires value == []
    ensures pre + (left + "=" + (sp2 + value)) + post == pre + (left + "=") + (sp2 + post)
  {
    assert sp2 + value == sp2;
  }

  /** White space contains no '='. */
  lemma NoSeparatorInPadding(key: string, sp: string)
    requires '=' !in key && AllSpace(sp)
    ensures '=' !in key + sp
  {
    forall i | 0 <= i < |key + sp| ensures (key + sp)[i] != '=' {
      if i >= |key| { assert IsSpace(sp[i - |key|]); }
    }
  }

  /** White space followed by white space. */
  lemma AllSpaceConcat(a: string, b: string)
    requires AllSpace(a) && AllSpace(b)
    ensures AllSpace(a + b)
  {
  }

  /** One line applied to the environment: a variable that already reads as non-empty is left
      alone, and a refused `Setenv` changes nothing. */
  function ApplyLine(vars: map<string, string>, raw: string): map<string, string>
  {
    match ParseLine(raw)
    case Skip => vars
    case Assign(key, value) =>
      if Getenv(vars, key) == "" && SetenvAccepts(key, value) then vars[key := value] else vars
  }

  /** The lines of a file applied in order. */
  function ApplyLines(vars: map<string, string>, lines: seq<string>): map<string, string>
  {
    if lines == [] then vars
    else ApplyLine(ApplyLines(vars, lines[..|lines| - 1]), lines[|lines| - 1])
  }

  /** A variable that reads as non-empty before the file is loaded keeps its value. */
  lemma {:induction false} ApplyLinesKeepsSetVariables(vars: map<string, string>, lines: seq<string>, key: string)
    requires Getenv(vars, key) != ""
    ensures Getenv(ApplyLines(vars, lines), key) == Getenv(vars, key)
  {
    if lines != [] {
      ApplyLinesKeepsSetVariables(vars, lines[..|lines| - 1], key);
    }
  }

  /** A variable no line of the file assigns reads as before. */
  lemma {:induction false} ApplyLinesTouchesOnlyAssignedKeys(vars: map<string, string>, lines: seq<string>, key: string)
    requires forall i :: 0 <= i < |lines| ==> !(ParseLine(lines[i]).Assign? && ParseLine(lines[i]).key == key)
    ensures Getenv(ApplyLines(vars, lines), key) == Getenv(vars, key)
  {
    if lines != [] {
      ApplyLinesTouchesOnlyAssignedKeys(vars, lines[..|lines| - 1], key);
    }
  }

  /** When a key repeats, the first line that gives it a non-empty (accepted) value wins:
      nothing after that line changes it. */
  lemma FirstNonEmptyValueWins(vars: map<string, string>, lines: seq<string>, i: nat)
    requires i < |lines| && ParseLine(lines[i]).Assign?
    requires var e := ParseLine(lines[i]);
      Getenv(ApplyLines(vars, lines[..i]), e.key) == "" && e.value != "" && SetenvAccepts(e.key, e.value)
    ensures Getenv(ApplyLines(vars, lines), ParseLine(lines[i]).key) == ParseLine(lines[i]).value
  {
    var e := ParseLine(lines[i]);
    var upto := lines[..i + 1];
    assert upto[..i] == lines[..i] && upto[i] == lines[i];
    ApplyLineAssigns(ApplyLines(vars, lines[..i]), lines[i]);
    assert Getenv(ApplyLines(vars, upto), e.key) == e.value;
    ApplyLinesSuffix(vars, lines, i + 1);
    ApplyLinesKeepsSetVariables(ApplyLines(vars, lines[..i + 1]), lines[i + 1..], e.key);
  }

  /** A line that assigns a variable reading as "" an accepted value sets it. */
  lemma ApplyLineAssigns(vars: map<string, string>, raw: string)
    requires ParseLine(raw).Assign?
    requires var e := ParseLine(raw); Getenv(vars, e.key) == "" && SetenvAccepts(e.key, e.value)
    ensures Getenv(ApplyLine(vars, raw), ParseLine(raw).key) == ParseLine(raw).value
  {
  }

  /** Applying a file is applying its first `k` lines, then the rest. */
  lemma {:induction false} ApplyLinesSuffix(vars: map<string, string>, lines: seq<string>, k: nat)
    requires k <= |lines|
    ensures ApplyLines(vars, lines) == ApplyLines(ApplyLines(vars, lines[..k]), lines[k..])
    decreases |lines|
  {
    if k == |lines| {
      assert lines[..k] == lines;
      assert lines[k..] == [];
    } else {
      var init := lines[..|lines| - 1];
      ApplyLinesSuffix(vars, init, k);
      assert init[..k] == lines[..k];
      assert init[k..] == lines[k..][..|lines[k..]| - 1];
    }
  }

  // ---------------------------------------------------------------------------------------
  // Whole files

  /** What opening and scanning a file yields: an error from `os.Open`, or the lines the
      scanner delivered followed by the error `scanner.Err()` reports (if any). */
  datatype EnvFile = Unreadable(err: Error) | Lines(lines: seq<string>, scanErr: Option<Error>)

  /** Opening a name that is not in the file system fails. */
  function Open(fs: map<string, EnvFile>, filename: string): EnvFile
  {
    if filename in fs then fs[filename]
    else Unreadable(Opaque("open " + filename + ": no such file or directory"))
  }

  /** The environment after `loadEnvFile`: every delivered line is applied, even when the
      scanner stops with an error. */
  function LoadedVars(vars: map<string, string>, file: EnvFile): map<string, string>
  {
    if file.Unreadable? then vars else ApplyLines(vars, file.lines)
  }

  /** The error `loadEnvFile` returns. */
  function LoadError(file: EnvFile): Option<Error>
  {
    if file.Unreadable? then Some(file.err) else file.scanErr
  }

  /** `loadEnvFile`: reads the file line by line into the environment. */
  method LoadEnvFile(env: Environment, fs: map<string, EnvFile>, filename: string) returns (err: Option<Error>)
    modifies env
    ensures env.vars == LoadedVars(old(env.vars), Open(fs, filename))
    ensures err == LoadError(Open(fs, filename))
  {
    var file := Open(fs, filename);
    if file.Unreadable? {
      return Some(file.err);
    }
    var i := 0;
    while i < |file.lines|
      invariant 0 <= i <= |file.lines|
      invariant env.vars == ApplyLines(old(env.vars), file.lines[..i])
    {
      ghost var before := env.vars;
      assert file.lines[..i + 1][..i] == file.lines[..i];
      assert ApplyLines(old(env.vars), file.lines[..i + 1]) == ApplyLine(before, file.lines[i]);
      var line := TrimSpace(file.lines[i]);
      if line == "" || HasPrefix(line, "#") {
        i := i + 1;
        continue;
      }
      var parts := SplitFirst(line, '=');
      if |parts| != 2 {
        i := i + 1;
        continue;
      }
      var key := TrimSpace(parts[0]);
      var value := StripQuotes(TrimSpace(parts[1]));
      if env.Get(key) == "" {
        var setErr := env.Setenv(key, value);
      }
      i := i + 1;
    }
    assert file.lines[..i] == file.lines;
    return file.scanErr;
  }

  // ---------------------------------------------------------------------------------------
  // LoadTestConfig

  /** The candidate files, tried in this order. */
  const EnvFiles: seq<string> := ["test.env", "../test.env", "../../test.env"]

  /** Loading candidates in order until one loads without error; a failed attempt keeps
      whatever lines it applied before failing. */
  function LoadFirst(vars: map<string, string>, fs: map<string, EnvFile>, paths: seq<string>)
    : map<string, string>
    decreases |paths|
  {
    if paths == [] then vars
    else
      var file := Open(fs, paths[0]);
      if LoadError(file).None? then LoadedVars(vars, file)
      else LoadFirst(LoadedVars(vars, file), fs, paths[1..])
  }

  /** Variables set before the configuration is loaded take precedence over every file. */
  lemma {:induction false} LoadFirstKeepsSetVariables(vars: map<string, string>, fs: map<string, EnvFile>,
                                                      paths: seq<string>, key: string)
    requires Getenv(vars, key) != ""
    ensures Getenv(LoadFirst(vars, fs, paths), key) == Getenv(vars, key)
    decreases |paths|
  {
    if paths != [] {
      var file := Open(fs, paths[0]);
      if file.Lines? {
        ApplyLinesKeepsSetVariables(vars, file.lines, key);
      }
      if LoadError(file).Some? {
        LoadFirstKeepsSetVariables(LoadedVars(vars, file), fs, paths[1..], key);
      }
    }
  }

  /** Candidates after the first one that loads without error are never read: two file
      systems that agree up to that candidate give the same environment. */
  lemma {:induction false} LoadFirstStopsAtFirstSuccess(vars: map<string, string>, fs1: map<string, EnvFile>,
                                                        fs2: map<string, EnvFile>, paths: seq<string>, k: nat)
    requires k < |paths| && LoadError(Open(fs1, paths[k])).None?
    requires forall j :: 0 <= j <= k ==> Open(fs1, paths[j]) == Open(fs2, paths[j])
    ensures LoadFirst(vars, fs1, paths) == LoadFirst(vars, fs2, paths)
    decreases k
  {
    assert Open(fs1, paths[0]) == Open(fs2, paths[0]);
    if k > 0 && LoadError(Open(fs1, paths[0])).Some? {
      var next := LoadedVars(vars, Open(fs1, paths[0]));
      forall j | 0 <= j <= k - 1
        ensures Open(fs1, paths[1..][j]) == Open(fs2, paths[1..][j])
      {
        assert paths[1..][j] == paths[j + 1];
      }
      LoadFirstStopsAtFirstSuccess(next, fs1, fs2, paths[1..], k - 1);
    }
  }

  /** The configuration the tests connect with. */
  datatype Config = Config(host: string, port: string, user: string, password: string,
                           dbName: string, sslMode: string, dsn: string)

  /** `getEnvOrDefault`: the variable's value, or the default when it reads as "". */
  function GetEnvOrDefault(vars: map<string, string>, key: string, default: string): (r: string)
    ensures Getenv(vars, key) == "" ==> r == default
    ensures Getenv(vars, key) != "" ==> r == Getenv(vars, key)
    ensures default != "" ==> r != ""
  {
    var value := Getenv(vars, key);
    if value != "" then value else default
  }

  /** `v` is what `key` configures: its value when it is set and non-empty, else `default`. */
  predicate Configures(vars: map<string, string>, key: string, default: string, v: string)
  {
    (Getenv(vars, key) != "" ==> v == Getenv(vars, key)) && (Getenv(vars, key) == "" ==> v == default)
  }

  /** The configuration read from the environment, with its defaults. */
  function ConfigFrom(vars: map<string, string>): (c: Config)
    ensures Configures(vars, "TEST_POSTGRES_HOST", "localhost", c.host)
    ensures Configures(vars, "TEST_POSTGRES_PORT", "5433", c.port)
    ensures Configures(vars, "TEST_POSTGRES_USER", "postgres", c.user)
    ensures Configures(vars, "TEST_POSTGRES_PASSWORD", "postgres", c.password)
    ensures Configures(vars, "TEST_POSTGRES_DB", "postgres_test", c.dbName)
    ensures Configures(vars, "TEST_POSTGRES_SSLMODE", "disable", c.sslMode)
    ensures c.host != "" && c.port != "" && c.user != "" && c.password != ""
    ensures c.dbName != "" && c.sslMode != ""
    ensures c.dsn == Getenv(vars, "TEST_POSTGRES_DSN")
  {
    Config(
      GetEnvOrDefault(vars, "TEST_POSTGRES_HOST", "localhost"),
      GetEnvOrDefault(vars, "TEST_POSTGRES_PORT", "5433"),
      GetEnvOrDefault(vars, "TEST_POSTGRES_USER", "postgres"),
      GetEnvOrDefault(vars, "TEST_POSTGRES_PASSWORD", "postgres"),
      GetEnvOrDefault(vars, "TEST_POSTGRES_DB", "postgres_test"),
      GetEnvOrDefault(vars, "TEST_POSTGRES_SSLMODE", "disable"),
      Getenv(vars, "TEST_POSTGRES_DSN"))
  }

  /** `LoadTestConfig`: tries the candidate files in order, stopping at the first that loads
      without error, then reads the configuration from the environment. */
  method LoadTestConfig(env: Environment, fs: map<string, EnvFile>) returns (config: Config)
    modifies env
    ensures env.vars == LoadFirst(old(env.vars), fs, EnvFiles)
    ensures config == ConfigFrom(env.vars)
  {
    var i := 0;
    while i < |EnvFiles|
      invariant 0 <= i <= |EnvFiles|
      invariant LoadFirst(old(env.vars), fs, EnvFiles) == LoadFirst(env.vars, fs, EnvFiles[i..])
    {
      var err := LoadEnvFile(env, fs, EnvFiles[i]);
      if err.None? {
        break;
      }
      assert EnvFiles[i..][1..] == EnvFiles[i + 1..];
      i := i + 1;
    }
    config := ConfigFrom(env.vars);
  }

  /** `BuildDSN`: an explicit DSN verbatim, else the six fields as libpq keyword/value pairs. */
  function BuildDSN(c: Config): (dsn: string)
    ensures c.dsn != "" ==> dsn == c.dsn
  {
    if c.dsn != "" then c.dsn
    else
      "host=" + c.host +
      " port=" + c.port +
      " user=" + c.user +
      " password=" + c.password +
      " dbname=" + c.dbName +
      " sslmode=" + c.sslMode
  }

  /** With nothing configured, the tests connect to the local test database. */
  lemma DefaultConnection()
    ensures ConfigFrom(map[]) == Config("localhost", "5433", "postgres", "postgres", "postgres_test", "disable", "")
    ensures BuildDSN(ConfigFrom(map[])) ==
              "host=" + "localhost" + " port=" + "5433" + " user=" + "postgres" +
              " password=" + "postgres" + " dbname=" + "postgres_test" + " sslmode=" + "disable"
  {
    assert ConfigFrom(map[]) == Config("localhost", "5433", "postgres", "postgres", "postgres_test", "disable", "");
  }
}
