/**
 * The fallback `.env` reader of `create_tables` and the choice of the
 * database URL. The process environment is a map that the reader only adds
 * to; the file's contents are passed in as a string.
 */
module EnvFile {
  import opened Wrappers
  import Text

  /** The characters `strip("\"'")` removes. */
  const Quotes: set<char> := {'"', '\''}

  const MissingUrl :=
    "DATABASE_URL no está configurada. Define la variable de entorno DATABASE_URL o pasa `database_url` a create_tables()."

  /** The index of the first `c` in `s`, or |s|. */
  function IndexOf(s: string, c: char): (i: nat)
    ensures i <= |s| && (i < |s| ==> s[i] == c)
    ensures forall j | 0 <= j < i :: s[j] != c
  {
    if s == [] || s[0] == c then 0 else 1 + IndexOf(s[1..], c)
  }

  /** `value.strip().strip("\"'").strip()`. */
  function CleanValue(v: string): (r: string)
    ensures Text.Strip(r) == r
  {
    Text.StripIdempotent(Text.StripChars(Text.Strip(v), Quotes));
    Text.Strip(Text.StripChars(Text.Strip(v), Quotes))
  }

  /** A value in double quotes loses them, and the blanks inside the quotes too. */
  lemma QuotedValue(x: string)
    requires x != [] && x[0] !in Quotes && x[|x| - 1] !in Quotes
    requires !Text.IsSpace(x[0]) && !Text.IsSpace(x[|x| - 1])
    ensures CleanValue("\"" + x + "\"") == x
  {
    var q := "\"" + x + "\"";
    Text.StripCharsNoop(q, Text.Whitespace);
    Text.FirstOutsideUnique(q, Quotes, 1);
    var t := q[1..];
    assert t == x + "\"";
    Text.EndOutsideUnique(t, Quotes, |x|);
    assert t[..|x|] == x;
    Text.StripCharsNoop(x, Text.Whitespace);
  }

  /** Stripping cannot bring in a character the string did not hold. */
  lemma StripKeepsOut(s: string, c: char)
    requires forall j | 0 <= j < |s| :: s[j] != c
    ensures forall j | 0 <= j < |Text.Strip(s)| :: Text.Strip(s)[j] != c
  {
    var a := Text.FirstOutside(s, Text.Whitespace);
    var t := s[a..];
    var b := Text.EndOutside(t, Text.Whitespace);
    assert Text.Strip(s) == t[..b];
    assert forall j | 0 <= j < b :: t[..b][j] == s[a + j];
  }

  /**
   * One line of the file: None for a blank line, a comment and a line without
   * "="; otherwise the trimmed text before the first "=" and the cleaned
   * text after it.
   */
  function ParseEnvLine(raw: string): (r: Option<(string, string)>)
    ensures var line := Text.Strip(raw);
      r.None? <==> line == [] || Text.StartsWith(line, "#") || '=' !in line
    ensures r.Some? ==> Text.Strip(r.value.0) == r.value.0 && Text.Strip(r.value.1) == r.value.1
    ensures r.Some? ==> forall j | 0 <= j < |r.value.0| :: r.value.0[j] != '='
  {
    var line := Text.Strip(raw);
    if line == [] || Text.StartsWith(line, "#") || '=' !in line then None
    else
      var i := IndexOf(line, '=');
      StripKeepsOut(line[..i], '=');
      Text.StripIdempotent(line[..i]);
      Some((Text.Strip(line[..i]), CleanValue(line[i + 1..])))
  }

  /** A key that a line can carry as it is. */
  predicate CleanKey(k: string) {
    && k != [] && k[0] != '#' && Text.Strip(k) == k
    && forall j | 0 <= j < |k| :: k[j] != '='
  }

  /** `KEY=value` splits at its first "=", so the value may itself contain "=". */
  lemma SplitAtFirstEquals(k: string, v: string)
    requires CleanKey(k)
    requires v == [] || !Text.IsSpace(v[|v| - 1])
    ensures ParseEnvLine(k + "=" + v) == Some((k, CleanValue(v)))
  {
    var line := k + "=" + v;
    assert line[0] == k[0] && line[|line| - 1] == (if v == [] then '=' else v[|v| - 1]);
    assert !Text.IsSpace(k[0]) by {
      assert Text.Strip(k)[0] == k[0];
    }
    Text.StripCharsNoop(line, Text.Whitespace);
    assert line[|k|] == '=';
    assert forall j | 0 <= j < |k| :: line[j] == k[j];
    assert IndexOf(line, '=') == |k|;
    assert line[..|k|] == k;
    assert line[|k| + 1..] == v;
  }

  /** Whether `raw` parses to an assignment of the key `k`. */
  predicate Names(raw: string, k: string) {
    ParseEnvLine(raw).Some? && ParseEnvLine(raw).value.0 == k
  }

  /** Writes a parsed line unless its key is empty or already set. */
  function Apply(env: map<string, string>, raw: string): (r: map<string, string>)
    ensures env.Keys <= r.Keys && forall k | k in env :: r[k] == env[k]
    ensures "" in r ==> "" in env
    ensures forall k | k in r && k !in env :: Names(raw, k)
  {
    var parsed := ParseEnvLine(raw);
    if parsed.Some? && parsed.value.0 != [] && parsed.value.0 !in env then
      env[parsed.value.0 := parsed.value.1]
    else env
  }

  /** `_load_env_file_simple` over the file's lines. */
  function Load(env: map<string, string>, lines: seq<string>): (r: map<string, string>)
    ensures env.Keys <= r.Keys && ("" in r ==> "" in env)
    ensures forall k | k in r && k !in env ::
      exists i | 0 <= i < |lines| :: Names(lines[i], k)
    decreases |lines|
  {
    if lines == [] then env
    else
      var next := Apply(env, lines[0]);
      var r := Load(next, lines[1..]);
      assert forall k | k in r && k !in env ::
        exists i | 0 <= i < |lines| :: Names(lines[i], k)
      by {
        forall k | k in r && k !in env
          ensures exists i | 0 <= i < |lines| :: Names(lines[i], k)
        {
          if k in next {
            assert Names(lines[0], k);
          } else {
            var i :| 0 <= i < |lines[1..]| && Names(lines[1..][i], k);
            assert lines[1..][i] == lines[i + 1];
          }
        }
      }
      r
  }

  /** A variable already in the environment is never overwritten, and none is removed. */
  lemma {:induction false} LoadKeepsExisting(env: map<string, string>, lines: seq<string>)
    ensures env.Keys <= Load(env, lines).Keys
    ensures forall k | k in env :: Load(env, lines)[k] == env[k]
    decreases |lines|
  {
    if lines != [] {
      LoadKeepsExisting(Apply(env, lines[0]), lines[1..]);
    }
  }

  /**
   * A variable not set beforehand receives the value of the first line of the
   * file that assigns it, whatever the lines before and after it hold.
   */
  lemma {:induction false} FirstAssigningLineWins(env: map<string, string>, lines: seq<string>, j: nat, k: string)
    requires k != [] && k !in env
    requires j < |lines| && Names(lines[j], k)
    requires forall i | 0 <= i < j :: !Names(lines[i], k)
    ensures k in Load(env, lines)
    ensures Load(env, lines)[k] == ParseEnvLine(lines[j]).value.1
    decreases j
  {
    var next := Apply(env, lines[0]);
    if j == 0 {
      assert next[k] == ParseEnvLine(lines[0]).value.1;
      LoadKeepsExisting(next, lines[1..]);
    } else {
      assert !Names(lines[0], k);
      assert k !in next;
      assert lines[1..][j - 1] == lines[j];
      forall i | 0 <= i < j - 1
        ensures !Names(lines[1..][i], k)
      {
        assert lines[1..][i] == lines[i + 1];
      }
      FirstAssigningLineWins(next, lines[1..], j - 1, k);
    }
  }

  /** The first line that sets a variable wins over later ones. */
  lemma FirstAssignmentWins(env: map<string, string>, k: string, v1: string, v2: string, rest: seq<string>)
    requires CleanKey(k) && k !in env
    requires v1 == [] || !Text.IsSpace(v1[|v1| - 1])
    ensures k in Load(env, [k + "=" + v1] + rest)
    ensures Load(env, [k + "=" + v1] + rest)[k] == CleanValue(v1)
  {
    SplitAtFirstEquals(k, v1);
    var lines := [k + "=" + v1] + rest;
    assert lines[1..] == rest;
    LoadKeepsExisting(Apply(env, lines[0]), rest);
  }

  /** The process environment the reader adds to. */
  class Environment {
    var vars: map<string, string>

    constructor(vars: map<string, string>)
      ensures this.vars == vars
    {
      this.vars := vars;
    }

    /** `_load_env_file_simple(path)` for a file holding `content`. */
    method LoadEnvFileSimple(content: string)
      modifies this
      ensures vars == Load(old(vars), Text.SplitLines(content))
    {
      var lines := Text.SplitLines(content);
      var i := 0;
      while i < |lines|
        invariant 0 <= i <= |lines|
        invariant Load(vars, lines[i..]) == Load(old(vars), lines)
      {
        assert lines[i..][1..] == lines[i + 1..];
        var parsed := ParseEnvLine(lines[i]);
        if parsed.Some? {
          var (key, value) := parsed.value;
          if key != [] && key !in vars {
            vars := vars[key := value];
          }
        }
        i := i + 1;
      }
    }
  }

  /**
   * `(database_url or os.getenv("DATABASE_URL") or "").strip()`, and the
   * ValueError raised when that is empty.
   */
  function ResolveDatabaseUrl(explicit: Option<string>, env: map<string, string>): (r: Result<string, string>)
    ensures explicit.Some? && explicit.value != [] ==>
      r == (if Text.IsBlank(explicit.value) then Err(MissingUrl) else Ok(Text.Strip(explicit.value)))
    ensures !(explicit.Some? && explicit.value != []) && "DATABASE_URL" in env && env["DATABASE_URL"] != [] ==>
      r == (if Text.IsBlank(env["DATABASE_URL"]) then Err(MissingUrl) else Ok(Text.Strip(env["DATABASE_URL"])))
    ensures !(explicit.Some? && explicit.value != []) && !("DATABASE_URL" in env && env["DATABASE_URL"] != []) ==>
      r == Err(MissingUrl)
    ensures r.Ok? ==> r.value != [] && Text.Strip(r.value) == r.value
  {
    var chosen :=
      if explicit.Some? && explicit.value != [] then explicit.value
      else if "DATABASE_URL" in env && env["DATABASE_URL"] != [] then env["DATABASE_URL"]
      else "";
    Text.StripIdempotent(chosen);
    var url := Text.Strip(chosen);
    if url == [] then Err(MissingUrl) else Ok(url)
  }

  /** An explicit URL that is only blanks is not replaced by `DATABASE_URL`; it is an error. */
  lemma BlankExplicitUrlFails(env: map<string, string>)
    ensures ResolveDatabaseUrl(Some(" "), env) == Err(MissingUrl)
  {
    Text.StripCharsEmptyIff(" ", Text.Whitespace);
  }
}
