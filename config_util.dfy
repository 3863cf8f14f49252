/*
  Typed reads of environment variables (config_uitl.py).

  The process environment is passed in as a map from variable names to
  values, so every read is a pure function of it. Python raises ValueError
  for a value it cannot convert; here that is a `Failure`. The conversions
  `int(raw, base)` and `float(raw)` are Python built-ins whose grammars are
  not part of this model: they are parameters that return `None` where
  Python would raise.
*/
module ConfigUtil {
  import opened Results
  import Text

  /** A value that is present but cannot be read as the requested type. The
      boolean error names the variable and the stripped value, as its
      message does; the numeric one carries only the stripped value, as the
      `ValueError` of `int()` and `float()` does. */
  datatype ConfigError =
    | InvalidBoolean(name: string, raw: string)
    | InvalidNumber(raw: string)

  type Env = map<string, string>

  /** `_TRUE`: the spellings read as true once lower-cased. */
  const TrueTokens: set<string> := {"1", "true", "t", "yes", "y", "on"}

  /** `_FALSE`: the spellings read as false once lower-cased. */
  const FalseTokens: set<string> := {"0", "false", "f", "no", "n", "off"}

  /** A variable counts as set when it is present with a non-empty value;
      an unset and an empty variable are treated alike. */
  predicate IsSet(env: Env, name: string) {
    name in env && env[name] != ""
  }

  // ---------------------------------------------------------------------
  // get_env_str
  // ---------------------------------------------------------------------

  /** `get_env_str(name, default, strip=strip)`: the default when the
      variable is unset or empty; otherwise its value, with surrounding
      whitespace removed when `strip` is set. */
  function GetEnvStr(env: Env, name: string, default: Option<string>, strip: bool): (r: Option<string>)
    ensures !IsSet(env, name) ==> r == default
    ensures IsSet(env, name) && !strip ==> r == Some(env[name])
    ensures IsSet(env, name) && strip ==>
      && r.Some?
      && (r.value != [] ==> !Text.IsSpace(r.value[0]) && !Text.IsSpace(r.value[|r.value| - 1]))
  {
    if name !in env || env[name] == "" then default
    else if strip then Some(Text.Strip(env[name]))
    else Some(env[name])
  }

  /** A stripped read is the stored value with only whitespace cut from its
      two ends. */
  lemma GetEnvStrTrims(env: Env, name: string, default: Option<string>)
    requires IsSet(env, name)
    ensures var raw := env[name];
      var r := GetEnvStr(env, name, default, true);
      r.Some? &&
      exists i, j | 0 <= i <= j <= |raw| :: r.value == raw[i..j] && Text.AllSpace(raw[..i]) && Text.AllSpace(raw[j..])
  {
    Text.StripIsSlice(env[name]);
  }

  /** A value made only of whitespace is not treated as unset: the stripped
      read is the empty string, not the default. */
  lemma GetEnvStrBlank(env: Env, name: string, default: Option<string>)
    requires name in env && env[name] != "" && Text.AllSpace(env[name])
    ensures GetEnvStr(env, name, default, true) == Some("")
  {
    Text.StripEmptyIff(env[name]);
  }

  /** Whitespace around a non-empty value does not change a stripped read. */
  lemma GetEnvStrIgnoresPadding(env: Env, name: string, default: Option<string>, pre: string, v: string, post: string)
    requires v != [] && Text.AllSpace(pre) && Text.AllSpace(post)
    ensures GetEnvStr(env[name := pre + v + post], name, default, true) == GetEnvStr(env[name := v], name, default, true)
  {
    Text.StripPadded(pre, v, post);
  }

  // ---------------------------------------------------------------------
  // get_env_int and get_env_float
  // ---------------------------------------------------------------------

  /** `get_env_int(name, default, base=base)`: the default when the variable
      is unset or empty, otherwise `int(raw, base)` of the stripped value. */
  function GetEnvInt(env: Env, name: string, default: int, base: int, parseInt: (string, int) -> Option<int>)
    : (r: Result<int, ConfigError>)
    ensures !IsSet(env, name) ==> r == Success(default)
    ensures IsSet(env, name) ==>
      var raw := Text.Strip(env[name]);
      && (r.Success? <==> parseInt(raw, base).Some?)
      && (r.Success? ==> r.value == parseInt(raw, base).value)
      && (r.Failure? ==> r.error == InvalidNumber(raw))
  {
    match GetEnvStr(env, name, None, true)
    case None => Success(default)
    case Some(raw) =>
      match parseInt(raw, base)
      case None => Failure(InvalidNumber(raw))
      case Some(v) => Success(v)
  }

  /** `get_env_float(name, default)`: the default when the variable is unset
      or empty, otherwise `float(raw)` of the stripped value. */
  function GetEnvFloat(env: Env, name: string, default: real, parseFloat: string -> Option<real>)
    : (r: Result<real, ConfigError>)
    ensures !IsSet(env, name) ==> r == Success(default)
    ensures IsSet(env, name) ==>
      var raw := Text.Strip(env[name]);
      && (r.Success? <==> parseFloat(raw).Some?)
      && (r.Success? ==> r.value == parseFloat(raw).value)
      && (r.Failure? ==> r.error == InvalidNumber(raw))
  {
    match GetEnvStr(env, name, None, true)
    case None => Success(default)
    case Some(raw) =>
      match parseFloat(raw)
      case None => Failure(InvalidNumber(raw))
      case Some(v) => Success(v)
  }

  /** Whatever the number grammar, padding a non-empty value with whitespace
      changes neither numeric read. */
  lemma NumbersIgnorePadding(env: Env, name: string, pre: string, v: string, post: string,
                             defaultInt: int, base: int, parseInt: (string, int) -> Option<int>,
                             defaultReal: real, parseFloat: string -> Option<real>)
    requires v != [] && Text.AllSpace(pre) && Text.AllSpace(post)
    ensures GetEnvInt(env[name := pre + v + post], name, defaultInt, base, parseInt)
         == GetEnvInt(env[name := v], name, defaultInt, base, parseInt)
    ensures GetEnvFloat(env[name := pre + v + post], name, defaultReal, parseFloat)
         == GetEnvFloat(env[name := v], name, defaultReal, parseFloat)
  {
    Text.StripPadded(pre, v, post);
  }

  // ---------------------------------------------------------------------
  // get_env_bool
  // ---------------------------------------------------------------------

  /** `get_env_bool(name, default)`: the default when the variable is unset
      or empty; otherwise the stripped, lower-cased value must be one of the
      true or false spellings, and anything else is refused. */
  function GetEnvBool(env: Env, name: string, default: bool): (r: Result<bool, ConfigError>)
    ensures !IsSet(env, name) ==> r == Success(default)
  {
    match GetEnvStr(env, name, None, true)
    case None => Success(default)
    case Some(raw) =>
      var v := Text.Lower(raw);
      if v in TrueTokens then Success(true)
      else if v in FalseTokens then Success(false)
      else Failure(InvalidBoolean(name, raw))
  }

  /** No spelling is both true and false. */
  lemma TokensDisjoint()
    ensures TrueTokens !! FalseTokens
  {
  }

  /** A set variable reads as true exactly when its stripped, lower-cased
      value is a true spelling, as false exactly when it is a false
      spelling, and is refused, naming the stripped value, otherwise. */
  lemma GetEnvBoolSet(env: Env, name: string, default: bool)
    requires IsSet(env, name)
    ensures var key := Text.Lower(Text.Strip(env[name]));
      var r := GetEnvBool(env, name, default);
      && (r == Success(true) <==> key in TrueTokens)
      && (r == Success(false) <==> key in FalseTokens)
      && (r.Failure? <==> key !in TrueTokens && key !in FalseTokens)
      && (r.Failure? ==> r.error == InvalidBoolean(name, Text.Strip(env[name])))
  {
    TokensDisjoint();
  }

  /** A value made only of whitespace is set but is no boolean spelling, so
      it is refused rather than read as the default. */
  lemma GetEnvBoolBlank(env: Env, name: string, default: bool)
    requires name in env && env[name] != "" && Text.AllSpace(env[name])
    ensures GetEnvBool(env, name, default) == Failure(InvalidBoolean(name, ""))
  {
    GetEnvStrBlank(env, name, None);
    assert Text.Lower("") == "";
  }

  /** The spelling is case-insensitive: lower-casing the stored value leaves
      the outcome unchanged, and a value that is accepted keeps its meaning. */
  lemma GetEnvBoolIgnoresCase(env: Env, name: string, default: bool, v: string)
    ensures var lowered := GetEnvBool(env[name := Text.Lower(v)], name, default);
      var original := GetEnvBool(env[name := v], name, default);
      && (lowered.Success? <==> original.Success?)
      && (original.Success? ==> lowered == original)
  {
    if v != "" {
      var s := Text.Strip(v);
      Text.StripLowerCommute(v);
      Text.LowerIdempotent(s);
      assert GetEnvStr(env[name := Text.Lower(v)], name, None, true) == Some(Text.Lower(s));
      assert GetEnvStr(env[name := v], name, None, true) == Some(s);
    }
  }

  /** Whitespace around a non-empty value does not change the outcome. */
  lemma GetEnvBoolIgnoresPadding(env: Env, name: string, default: bool, pre: string, v: string, post: string)
    requires v != [] && Text.AllSpace(pre) && Text.AllSpace(post)
    ensures GetEnvBool(env[name := pre + v + post], name, default) == GetEnvBool(env[name := v], name, default)
  {
    Text.StripPadded(pre, v, post);
  }

  /** A canonical spelling (lower case, no surrounding whitespace) reads as
      itself. */
  lemma CanonicalKey(key: string)
    requires key != [] && !Text.IsSpace(key[0]) && !Text.IsSpace(key[|key| - 1])
    requires forall k | 0 <= k < |key| :: Text.LowerChar(key[k]) == key[k]
    ensures Text.Lower(Text.Strip(key)) == key
  {
    assert Text.Lower(key) == key;
    assert Text.TrimStart(key) == key;
    assert Text.TrimEnd(key) == key;
  }

  /** Every true spelling, stored as written, reads as true. */
  lemma TrueSpellings(env: Env, name: string, default: bool, token: string)
    requires token in TrueTokens
    ensures GetEnvBool(env[name := token], name, default) == Success(true)
  {
    CanonicalKey(token);
  }

  /** Every false spelling, stored as written, reads as false. */
  lemma FalseSpellings(env: Env, name: string, default: bool, token: string)
    requires token in FalseTokens
    ensures GetEnvBool(env[name := token], name, default) == Success(false)
  {
    CanonicalKey(token);
    TokensDisjoint();
  }
}
