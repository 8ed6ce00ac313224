/**
 * The router's configuration records, their serde defaults, and the
 * `${NAME}` environment-variable interpolation applied to the raw text of a
 * configuration file before it is parsed. The process environment is a map
 * parameter; the regular expression `\$\{([^}]+)\}` is modelled by an
 * explicit left-to-right scanner.
 */
module Config {
  import opened Base
  import opened CoreTypes
  import opened Toml

  datatype GeneralConfig = GeneralConfig(logLevel: string, sampleRate: u32, bufferSize: u32)

  datatype OutputConfig = OutputConfig(deviceName: string, playMixedInput: bool)

  /** One `[[input.destinations]]` entry; `extra` holds the remaining keys of the table. */
  datatype DestinationRouteConfig = DestinationRouteConfig(plugin: string, prefix: string, extra: TomlValue)

  datatype InputConfig = InputConfig(
    id: string,
    deviceName: string,
    enabled: bool,
    volume: real,
    muted: bool,
    destinations: seq<DestinationRouteConfig>)

  datatype WhisperConfig = WhisperConfig(modelPath: string, language: string)

  datatype AsrConfig = AsrConfig(engine: string, whisper: Option<WhisperConfig>)

  datatype AppConfig = AppConfig(
    general: GeneralConfig,
    output: OutputConfig,
    input: seq<InputConfig>,
    asr: Option<AsrConfig>,
    destinations: Option<TomlValue>)

  const DEFAULT_LOG_LEVEL: string := "info"
  const DEFAULT_SAMPLE_RATE: u32 := 48000
  const DEFAULT_BUFFER_SIZE: u32 := 1024
  const DEFAULT_DEVICE_NAME: string := "default"
  const DEFAULT_VOLUME: real := 1.0
  const DEFAULT_LANGUAGE: string := "ja"

  /** `GeneralConfig::default`, also what a missing `[general]` table yields. */
  function DefaultGeneralConfig(): (g: GeneralConfig)
    ensures g.logLevel == "info" && g.sampleRate == 48000 && g.bufferSize == 1024
  {
    GeneralConfig(DEFAULT_LOG_LEVEL, DEFAULT_SAMPLE_RATE, DEFAULT_BUFFER_SIZE)
  }

  /** `OutputConfig::default`: the default device, playing the mix. */
  function DefaultOutputConfig(): (o: OutputConfig)
    ensures o.deviceName == "default" && o.playMixedInput
  {
    OutputConfig(DEFAULT_DEVICE_NAME, true)
  }

  /** An `[[input]]` table giving only its `id`: every other field takes its serde default. */
  function DefaultInputConfig(id: string): (c: InputConfig)
    ensures c.id == id && c.deviceName == "default" && c.enabled
    ensures c.volume == 1.0 && !c.muted && c.destinations == []
  {
    InputConfig(id, DEFAULT_DEVICE_NAME, true, DEFAULT_VOLUME, false, [])
  }

  /** An `[asr.whisper]` table giving only `model_path`. */
  function DefaultWhisperConfig(modelPath: string): (w: WhisperConfig)
    ensures w.modelPath == modelPath && w.language == "ja"
  {
    WhisperConfig(modelPath, DEFAULT_LANGUAGE)
  }

  /** The configuration an empty document yields. */
  function DefaultAppConfig(): (c: AppConfig)
    ensures c.general.logLevel == "info" && c.general.sampleRate == 48000 && c.general.bufferSize == 1024
    ensures c.output.deviceName == "default" && c.output.playMixedInput
    ensures c.input == [] && c.asr.None? && c.destinations.None?
  {
    AppConfig(DefaultGeneralConfig(), DefaultOutputConfig(), [], None, None)
  }

  // ---------------------------------------------------------------------
  // Placeholder scanning
  // ---------------------------------------------------------------------

  /**
   * A match of `\$\{([^}]+)\}` occupies `s[start..close+1]`: "${", a
   * non-empty run of characters other than '}', and the closing '}'.
   */
  ghost predicate IsMatch(s: string, start: int, close: int)
  {
    0 <= start && start + 2 < close < |s| &&
    s[start] == '$' && s[start + 1] == '{' && CloseFrom(s, start + 2) == Some(close)
  }

  /** The first '}' at or after `j`. */
  function CloseFrom(s: string, j: nat): (k: Option<nat>)
    decreases |s| - j
    ensures k.Some? ==> j <= k.value < |s| && s[k.value] == '}'
    ensures k.Some? ==> forall m :: j <= m < k.value ==> s[m] != '}'
    ensures k.None? ==> forall m :: j <= m < |s| ==> s[m] != '}'
  {
    if j >= |s| then None
    else if s[j] == '}' then Some(j)
    else CloseFrom(s, j + 1)
  }

  /** The closing brace of the match starting at `i`, if one starts there. */
  function MatchAt(s: string, i: nat): (k: Option<nat>)
    ensures k.Some? ==> IsMatch(s, i, k.value)
    ensures k.None? ==> forall e :: !IsMatch(s, i, e)
  {
    if i + 2 < |s| && s[i] == '$' && s[i + 1] == '{' then
      match CloseFrom(s, i + 2)
      case Some(e) => if e > i + 2 then Some(e) else None
      case None => None
    else None
  }

  /** The span `s[start..close+1]` of one match. */
  datatype Capture = Capture(start: nat, close: nat)

  /**
   * `captures_iter` from position `p`: the leftmost match, then the scan
   * resumes after its closing brace. Every capture is a match, at or after
   * `p`, and captures do not overlap.
   */
  function Scan(s: string, p: nat): (caps: seq<Capture>)
    decreases |s| - p
    ensures forall i :: 0 <= i < |caps| ==> p <= caps[i].start && IsMatch(s, caps[i].start, caps[i].close)
    ensures forall i, j :: 0 <= i < j < |caps| ==> caps[i].close < caps[j].start
  {
    if p >= |s| then []
    else match MatchAt(s, p)
      case Some(e) => [Capture(p, e)] + Scan(s, e + 1)
      case None => Scan(s, p + 1)
  }

  /** Some capture of `caps` spans position `q`. */
  ghost predicate Covered(caps: seq<Capture>, q: int)
  {
    exists i :: 0 <= i < |caps| && caps[i].start <= q <= caps[i].close
  }

  lemma CoveredCons(c: Capture, rest: seq<Capture>, q: int)
    ensures c.start <= q <= c.close ==> Covered([c] + rest, q)
    ensures Covered(rest, q) ==> Covered([c] + rest, q)
  {
    var caps := [c] + rest;
    if c.start <= q <= c.close {
      assert caps[0] == c;
    }
    if Covered(rest, q) {
      var i :| 0 <= i < |rest| && rest[i].start <= q <= rest[i].close;
      assert caps[i + 1] == rest[i];
    }
  }

  /** A capture found at `p` or later is one the scan from `p` finds too. */
  lemma ScanKeepsLater(s: string, p: nat, q: int)
    requires p < |s|
    requires MatchAt(s, p).Some? ==> q <= MatchAt(s, p).value || Covered(Scan(s, MatchAt(s, p).value + 1), q)
    requires MatchAt(s, p).None? ==> Covered(Scan(s, p + 1), q)
    ensures MatchAt(s, p).Some? && p <= q ==> Covered(Scan(s, p), q)
    ensures MatchAt(s, p).None? ==> Covered(Scan(s, p), q)
  {
    match MatchAt(s, p)
    case Some(e0) =>
      assert Scan(s, p) == [Capture(p, e0)] + Scan(s, e0 + 1);
      CoveredCons(Capture(p, e0), Scan(s, e0 + 1), q);
    case None =>
      assert Scan(s, p) == Scan(s, p + 1);
  }

  /** Leftmost-first scanning misses nothing: every match lies within some capture. */
  lemma {:induction false} ScanCovers(s: string, p: nat)
    decreases |s| - p
    ensures forall q, e :: p <= q && IsMatch(s, q, e) ==> Covered(Scan(s, p), q)
  {
    if p >= |s| {
      return;
    }
    var next := if MatchAt(s, p).Some? then MatchAt(s, p).value + 1 else p + 1;
    ScanCovers(s, next);
    forall q, e | p <= q && IsMatch(s, q, e)
      ensures Covered(Scan(s, p), q)
    {
      if MatchAt(s, p).None? {
        assert q != p;
      }
      ScanKeepsLater(s, p, q);
    }
  }

  /** The text a placeholder for `name` occupies. */
  function Token(name: string): (t: string)
    ensures |t| == |name| + 3 && t[0] == '$' && t[1] == '{' && t[|t| - 1] == '}'
    ensures t[2..|t| - 1] == name
  {
    "${" + name + "}"
  }

  /** The captured variable names in left-to-right order. */
  function Names(s: string): (names: seq<string>)
    ensures |names| == |Scan(s, 0)|
    ensures forall i :: 0 <= i < |names| ==> names[i] == s[Scan(s, 0)[i].start + 2 .. Scan(s, 0)[i].close]
  {
    var caps := Scan(s, 0);
    seq(|caps|, i requires 0 <= i < |caps| => s[caps[i].start + 2 .. caps[i].close])
  }

  /** The text of a match is the placeholder of the name it captures. */
  lemma MatchIsToken(s: string, a: int, e: int)
    requires IsMatch(s, a, e)
    ensures s[a .. e + 1] == Token(s[a + 2 .. e])
  {
    assert s[a .. a + 2] == "${";
    assert s[e .. e + 1] == "}";
    assert s[a + 2 .. e + 1] == s[a + 2 .. e] + s[e .. e + 1];
    assert s[a .. e + 1] == s[a .. a + 2] + s[a + 2 .. e + 1];
  }

  /**
   * Each captured name is a non-empty run of characters other than '}', and
   * its placeholder is exactly the text of its capture.
   */
  lemma NamesWellFormed(s: string)
    ensures forall i :: 0 <= i < |Names(s)| ==>
      Names(s)[i] != [] && (forall m :: 0 <= m < |Names(s)[i]| ==> Names(s)[i][m] != '}') &&
      s[Scan(s, 0)[i].start .. Scan(s, 0)[i].close + 1] == Token(Names(s)[i])
  {
    var caps := Scan(s, 0);
    forall i | 0 <= i < |Names(s)|
      ensures s[caps[i].start .. caps[i].close + 1] == Token(Names(s)[i])
    {
      MatchIsToken(s, caps[i].start, caps[i].close);
    }
  }

  /** A string without any match has no captures. */
  lemma {:induction false} NoMatchNoCaptures(s: string, p: nat)
    requires forall q, e :: !IsMatch(s, q, e)
    ensures Scan(s, p) == []
    decreases |s| - p
  {
    if p < |s| {
      assert MatchAt(s, p).None?;
      NoMatchNoCaptures(s, p + 1);
    }
  }

  // ---------------------------------------------------------------------
  // Replacement
  // ---------------------------------------------------------------------

  /** `pat` occurs in `s` at index `i`. */
  ghost predicate OccursAt(s: string, pat: string, i: int)
  {
    0 <= i && i + |pat| <= |s| && s[i .. i + |pat|] == pat
  }

  /** `str::replace` for a non-empty pattern: non-overlapping occurrences, left to right. */
  function Replace(s: string, pat: string, rep: string): string
    requires pat != []
    decreases |s|
  {
    if |s| < |pat| then s
    else if s[..|pat|] == pat then rep + Replace(s[|pat|..], pat, rep)
    else [s[0]] + Replace(s[1..], pat, rep)
  }

  /** Replacing a pattern that does not occur changes nothing. */
  lemma {:induction false} ReplaceAbsent(s: string, pat: string, rep: string)
    requires pat != []
    requires forall i :: !OccursAt(s, pat, i)
    ensures Replace(s, pat, rep) == s
    decreases |s|
  {
    if |s| < |pat| {
    } else {
      assert !OccursAt(s, pat, 0);
      assert s[..|pat|] == s[0 .. 0 + |pat|];
      forall i ensures !OccursAt(s[1..], pat, i) {
        if OccursAt(s[1..], pat, i) {
          assert s[1..][i .. i + |pat|] == s[i + 1 .. i + 1 + |pat|];
          assert OccursAt(s, pat, i + 1);
        }
      }
      ReplaceAbsent(s[1..], pat, rep);
    }
  }

  /** Replacing a pattern by itself changes nothing. */
  lemma {:induction false} ReplaceSelf(s: string, pat: string)
    requires pat != []
    ensures Replace(s, pat, pat) == s
    decreases |s|
  {
    if |s| < |pat| {
    } else if s[..|pat|] == pat {
      ReplaceSelf(s[|pat|..], pat);
      assert s == s[..|pat|] + s[|pat|..];
    } else {
      ReplaceSelf(s[1..], pat);
      assert s == [s[0]] + s[1..];
    }
  }

  /**
   * Where a prefix of the replaced text holds no character of the
   * replacement, no replacement happened there: it is the original prefix.
   */
  lemma {:induction false} ReplacePrefixUntouched(t: string, pat: string, rep: string, m: nat)
    requires pat != [] && rep != []
    requires m <= |Replace(t, pat, rep)|
    ensures (forall j :: 0 <= j < m ==> Replace(t, pat, rep)[j] !in rep) ==>
      m <= |t| && Replace(t, pat, rep)[..m] == t[..m]
    decreases |t|
  {
    var r := Replace(t, pat, rep);
    if |t| < |pat| {
    } else if t[..|pat|] == pat {
      if m > 0 {
        assert r[0] == rep[0];
      }
    } else if m > 0 {
      var r' := Replace(t[1..], pat, rep);
      assert r == [t[0]] + r';
      ReplacePrefixUntouched(t[1..], pat, rep, m - 1);
      if forall j :: 0 <= j < m ==> r[j] !in rep {
        forall j | 0 <= j < m - 1 ensures r'[j] !in rep {
          assert r'[j] == r[j + 1];
        }
        assert r[..m] == [t[0]] + r'[..m - 1];
        assert t[..m] == [t[0]] + t[1..][..m - 1];
      }
    }
  }

  /**
   * Every occurrence is substituted: when the replacement is non-empty and
   * shares no character with the pattern, the pattern no longer occurs.
   */
  lemma {:induction false} ReplaceRemovesAll(s: string, pat: string, rep: string)
    requires pat != [] && rep != []
    requires forall j :: 0 <= j < |rep| ==> rep[j] !in pat
    ensures forall i :: !OccursAt(Replace(s, pat, rep), pat, i)
    decreases |s|
  {
    var r := Replace(s, pat, rep);
    if |s| < |pat| {
    } else if s[..|pat|] == pat {
      var r' := Replace(s[|pat|..], pat, rep);
      ReplaceRemovesAll(s[|pat|..], pat, rep);
      assert r == rep + r';
      forall i ensures !OccursAt(r, pat, i) {
        if !(0 <= i && i + |pat| <= |r|) {
        } else if i < |rep| {
          assert r[i .. i + |pat|][0] == rep[i];
        } else {
          assert !OccursAt(r', pat, i - |rep|);
          assert r[i .. i + |pat|] == r'[i - |rep| .. i - |rep| + |pat|];
        }
      }
    } else {
      var r' := Replace(s[1..], pat, rep);
      ReplaceRemovesAll(s[1..], pat, rep);
      assert r == [s[0]] + r';
      forall i ensures !OccursAt(r, pat, i) {
        if !(0 <= i && i + |pat| <= |r|) {
        } else if i == 0 {
          var m := |pat| - 1;
          ReplacePrefixUntouched(s[1..], pat, rep, m);
          if forall j :: 0 <= j < m ==> r'[j] !in rep {
            assert r[..|pat|] == [s[0]] + r'[..m];
            assert s[..|pat|] == [s[0]] + s[1..][..m];
          } else {
            var j :| 0 <= j < m && r'[j] in rep;
            assert r[..|pat|][j + 1] == r'[j];
          }
        } else {
          assert !OccursAt(r', pat, i - 1);
          assert r[i .. i + |pat|] == r'[i - 1 .. i - 1 + |pat|];
        }
      }
    }
  }

  // ---------------------------------------------------------------------
  // Interpolation
  // ---------------------------------------------------------------------

  /** The text after replacing, in order, the placeholder of each defined name. */
  function ApplyDefined(s: string, names: seq<string>, env: map<string, string>): string
    decreases |names|
  {
    if names == [] then s
    else
      var prev := ApplyDefined(s, names[..|names| - 1], env);
      var name := names[|names| - 1];
      if name in env then Replace(prev, Token(name), env[name]) else prev
  }

  /** The undefined names, in order. */
  function Missing(names: seq<string>, env: map<string, string>): seq<string>
    decreases |names|
  {
    if names == [] then []
    else
      Missing(names[..|names| - 1], env) +
      (if names[|names| - 1] in env then [] else [names[|names| - 1]])
  }

  lemma FoldStep(s: string, names: seq<string>, i: nat, env: map<string, string>)
    requires i < |names|
    ensures ApplyDefined(s, names[..i + 1], env) ==
      if names[i] in env then Replace(ApplyDefined(s, names[..i], env), Token(names[i]), env[names[i]])
      else ApplyDefined(s, names[..i], env)
    ensures Missing(names[..i + 1], env) ==
      Missing(names[..i], env) + if names[i] in env then [] else [names[i]]
  {
    assert names[..i + 1][..i] == names[..i];
  }

  /** What interpolating `input` in environment `env` yields. */
  function Interpolate(input: string, env: map<string, string>): Result<string, ConfigError>
  {
    var names := Names(input);
    var missing := Missing(names, env);
    if |missing| > 0 then Err(EnvVarNotFound(missing[0]))
    else Ok(ApplyDefined(input, names, env))
  }

  /**
   * `interpolate_env_vars`: for each capture of the original input, in
   * order, a defined name has every occurrence of its placeholder in the
   * current result replaced by its value and an undefined one is recorded;
   * the first undefined name is the error.
   */
  method InterpolateEnvVars(input: string, env: map<string, string>) returns (r: Result<string, ConfigError>)
    ensures r == Interpolate(input, env)
  {
    var names := Names(input);
    var result := input;
    var errors: seq<string> := [];
    for i := 0 to |names|
      invariant result == ApplyDefined(input, names[..i], env)
      invariant errors == Missing(names[..i], env)
    {
      FoldStep(input, names, i, env);
      var name := names[i];
      if name in env {
        result := Replace(result, Token(name), env[name]);
      } else {
        errors := errors + [name];
      }
    }
    assert names[..|names|] == names;
    if |errors| > 0 {
      return Err(EnvVarNotFound(errors[0]));
    }
    return Ok(result);
  }

  /** The undefined names are exactly the names not in the environment, the first one first. */
  lemma {:induction false} MissingFirst(names: seq<string>, env: map<string, string>)
    decreases |names|
    ensures |Missing(names, env)| > 0 <==> exists i :: 0 <= i < |names| && names[i] !in env
    ensures |Missing(names, env)| > 0 ==>
      exists i :: 0 <= i < |names| && names[i] !in env && Missing(names, env)[0] == names[i] &&
        forall j :: 0 <= j < i ==> names[j] in env
  {
    if names != [] {
      var init := names[..|names| - 1];
      MissingFirst(init, env);
      assert forall i :: 0 <= i < |init| ==> init[i] == names[i];
      if |Missing(init, env)| > 0 {
        var i :| 0 <= i < |init| && init[i] !in env && Missing(init, env)[0] == init[i] &&
          forall j :: 0 <= j < i ==> init[j] in env;
        assert Missing(names, env)[0] == names[i];
      } else if names[|names| - 1] !in env {
        assert Missing(names, env)[0] == names[|names| - 1];
        assert forall j :: 0 <= j < |names| - 1 ==> names[j] in env;
      } else {
        assert Missing(names, env) == [];
        assert forall j :: 0 <= j < |names| ==> names[j] in env by {
          forall j | 0 <= j < |names| ensures names[j] in env {
            if j < |names| - 1 {
              assert init[j] == names[j];
            }
          }
        }
      }
    }
  }

  /**
   * Interpolation fails exactly when some captured name is undefined, and
   * then names the first undefined one in left-to-right order.
   */
  lemma InterpolateReportsFirstMissing(input: string, env: map<string, string>)
    ensures Interpolate(input, env).Err? <==>
      exists i :: 0 <= i < |Names(input)| && Names(input)[i] !in env
    ensures Interpolate(input, env).Err? ==>
      exists i :: 0 <= i < |Names(input)| && Names(input)[i] !in env &&
        Interpolate(input, env).error == EnvVarNotFound(Names(input)[i]) &&
        forall j :: 0 <= j < i ==> Names(input)[j] in env
  {
    MissingFirst(Names(input), env);
  }

  /** Text containing no `${...}` placeholder comes back unchanged, whatever the environment. */
  lemma NoPlaceholderUnchanged(input: string, env: map<string, string>)
    requires forall q, e :: !IsMatch(input, q, e)
    ensures Interpolate(input, env) == Ok(input)
  {
    NoMatchNoCaptures(input, 0);
  }

  /** A lone placeholder of a defined name becomes that name's value. */
  lemma DefinedPlaceholderReplaced(name: string, env: map<string, string>)
    requires name != [] && forall m :: 0 <= m < |name| ==> name[m] != '}'
    requires name in env
    ensures Interpolate(Token(name), env) == Ok(env[name])
  {
    var s := Token(name);
    var e := |s| - 1;
    assert forall m :: 2 <= m < e ==> s[m] == name[m - 2];
    assert IsMatch(s, 0, e);
    assert CloseFrom(s, 2) == Some(e);
    assert MatchAt(s, 0) == Some(e);
    assert Scan(s, e + 1) == [];
    assert Scan(s, 0) == [Capture(0, e)];
    assert Names(s) == [name];
    assert [name][..0] == [];
    assert Missing([name], env) == [];
    assert ApplyDefined(s, [name], env) == Replace(s, s, env[name]);
    assert s[..|s|] == s && s[|s|..] == [];
    assert Replace(s, s, env[name]) == env[name] + Replace([], s, env[name]);
    assert Replace([], s, env[name]) == [];
    assert env[name] + [] == env[name];
    assert Interpolate(s, env) == Ok(ApplyDefined(s, [name], env));
  }

  /** Scanning over characters other than '$' finds nothing there. */
  lemma {:induction false} ScanSkipsNoDollar(s: string, p: nat, q: nat)
    requires p <= q <= |s|
    requires forall m :: p <= m < q ==> s[m] != '$'
    ensures Scan(s, p) == Scan(s, q)
    decreases q - p
  {
    if p < q {
      assert MatchAt(s, p).None?;
      ScanSkipsNoDollar(s, p + 1, q);
    }
  }

  /** Text that cannot start the pattern is copied through by `str::replace`. */
  lemma {:induction false} ReplaceSkipsPrefix(x: string, rest: string, pat: string, rep: string)
    requires pat != [] && pat[0] !in x
    ensures Replace(x + rest, pat, rep) == x + Replace(rest, pat, rep)
    decreases |x|
  {
    if x == [] {
      assert x + rest == rest;
    } else {
      var s := x + rest;
      if |s| < |pat| {
        ReplaceShort(rest, pat, rep);
      } else {
        assert s[..|pat|][0] == x[0] && s[..|pat|] != pat;
        assert Replace(s, pat, rep) == [s[0]] + Replace(s[1..], pat, rep);
        assert s[1..] == x[1..] + rest;
        ReplaceSkipsPrefix(x[1..], rest, pat, rep);
        assert x == [x[0]] + x[1..];
      }
    }
  }

  /** `CloseFrom` finds the first '}' from `j`. */
  lemma {:induction false} CloseFromAt(s: string, j: nat, k: nat)
    requires j <= k < |s| && s[k] == '}'
    requires forall m :: j <= m < k ==> s[m] != '}'
    ensures CloseFrom(s, j) == Some(k)
    decreases k - j
  {
    if j < k {
      CloseFromAt(s, j + 1, k);
    }
  }

  /** Text shorter than the pattern is left as it is. */
  lemma ReplaceShort(s: string, pat: string, rep: string)
    requires pat != [] && |s| < |pat|
    ensures Replace(s, pat, rep) == s
  {
  }

  /** The only capture of a text with one placeholder and no other '$' is that placeholder. */
  lemma NamesOfEmbedded(before: string, name: string, after: string)
    requires name != [] && forall m :: 0 <= m < |name| ==> name[m] != '}'
    requires '$' !in before && '$' !in after
    ensures Names(before + Token(name) + after) == [name]
  {
    var t := Token(name);
    var s := before + t + after;
    var a := |before|;
    var e := a + |t| - 1;
    assert forall m :: 0 <= m < a ==> s[m] == before[m];
    assert forall m :: e < m < |s| ==> s[m] == after[m - e - 1];
    assert s[a] == '$' && s[a + 1] == '{' && s[e] == '}';
    assert forall m :: a + 2 <= m < e ==> s[m] == name[m - a - 2];
    CloseFromAt(s, a + 2, e);
    assert MatchAt(s, a) == Some(e);
    ScanSkipsNoDollar(s, 0, a);
    ScanSkipsNoDollar(s, e + 1, |s|);
    assert Scan(s, 0) == [Capture(a, e)];
    assert s[a + 2 .. e] == name;
  }

  /** `str::replace` of the one occurrence of a '$'-led pattern in text with no other '$'. */
  lemma ReplaceEmbedded(before: string, pat: string, after: string, rep: string)
    requires pat != [] && pat[0] == '$'
    requires '$' !in before && '$' !in after
    ensures Replace(before + pat + after, pat, rep) == before + rep + after
  {
    ReplaceSkipsPrefix(before, pat + after, pat, rep);
    assert before + pat + after == before + (pat + after);
    assert (pat + after)[..|pat|] == pat && (pat + after)[|pat|..] == after;
    ReplaceSkipsPrefix(after, [], pat, rep);
    assert after + [] == after;
    ReplaceShort([], pat, rep);
  }

  /**
   * A placeholder of a defined name inside other text is replaced by the
   * name's value, and the text around it is kept, when that text holds no
   * other placeholder (no '$').
   */
  lemma DefinedPlaceholderInText(before: string, name: string, after: string, env: map<string, string>)
    requires name != [] && forall m :: 0 <= m < |name| ==> name[m] != '}'
    requires '$' !in before && '$' !in after
    requires name in env
    ensures Interpolate(before + Token(name) + after, env) == Ok(before + env[name] + after)
  {
    var s := before + Token(name) + after;
    NamesOfEmbedded(before, name, after);
    assert [name][..0] == [];
    assert Missing([name], env) == [];
    assert ApplyDefined(s, [name], env) == Replace(s, Token(name), env[name]);
    ReplaceEmbedded(before, Token(name), after, env[name]);
  }
}
