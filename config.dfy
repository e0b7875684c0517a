/**
 * `Config.get`: dot-path lookup in the nested dictionaries loaded from the
 * YAML configuration, and the environment-over-configuration precedence of
 * the whisper paths.
 */
module Config {
  import opened Wrappers

  /** A YAML value as `yaml.safe_load` produces it; `Null` is YAML's null (Python's `None`). */
  datatype Value =
    | Null
    | Bool(b: bool)
    | Int(i: int)
    | Real(r: real)
    | Str(s: string)
    | List(items: seq<Value>)
    | Dict(entries: map<string, Value>)

  // ---------------------------------------------------------------------------
  // key.split(".")
  // ---------------------------------------------------------------------------

  /** `s.split(".")`: the dot-free pieces between the dots, at least one (possibly empty). */
  function Split(s: string): (r: seq<string>)
    ensures |r| >= 1
    ensures forall i :: 0 <= i < |r| ==> '.' !in r[i]
  {
    if s == [] then [""]
    else
      var rest := Split(s[1..]);
      if s[0] == '.' then [""] + rest else [[s[0]] + rest[0]] + rest[1..]
  }

  /** `".".join(parts)`. */
  function Join(parts: seq<string>): string
    requires |parts| >= 1
  {
    if |parts| == 1 then parts[0] else parts[0] + "." + Join(parts[1..])
  }

  /** Splitting loses nothing: joining the pieces gives the key back. */
  lemma {:induction false} JoinSplit(s: string)
    ensures Join(Split(s)) == s
  {
    if s != [] {
      var rest := Split(s[1..]);
      JoinSplit(s[1..]);
      if s[0] == '.' {
        assert ([""] + rest)[1..] == rest;
        assert s == [s[0]] + s[1..];
      } else {
        var r := [[s[0]] + rest[0]] + rest[1..];
        if |rest| == 1 {
          assert s == [s[0]] + s[1..];
        } else {
          assert r[1..] == rest[1..];
          assert s == [s[0]] + s[1..];
        }
      }
    }
  }

  /** A dot-free prefix joins the first piece. */
  lemma {:induction false} SplitDotFreePrefix(a: string, b: string)
    requires '.' !in a
    ensures Split(a + b) == [a + Split(b)[0]] + Split(b)[1..]
  {
    if a != [] {
      assert (a + b)[0] == a[0] && (a + b)[1..] == a[1..] + b;
      SplitDotFreePrefix(a[1..], b);
      var sb := Split(b);
      var rest := Split(a[1..] + b);
      assert a[0] != '.' by { assert a[0] == a[0..1][0]; }
      assert Split(a + b) == [[a[0]] + rest[0]] + rest[1..];
      assert rest[0] == a[1..] + sb[0] && rest[1..] == sb[1..];
      assert [a[0]] + (a[1..] + sb[0]) == a + sb[0];
    } else {
      var sb := Split(b);
      assert a + b == b && a + sb[0] == sb[0] && sb == [sb[0]] + sb[1..];
    }
  }

  /** Joining dot-free pieces and splitting again gives the same pieces. */
  lemma {:induction false} SplitJoin(parts: seq<string>)
    requires |parts| >= 1
    requires forall i :: 0 <= i < |parts| ==> '.' !in parts[i]
    ensures Split(Join(parts)) == parts
  {
    if |parts| == 1 {
      SplitDotFreePrefix(parts[0], "");
      assert parts[0] + "" == parts[0];
    } else {
      var tail := Join(parts[1..]);
      SplitJoin(parts[1..]);
      assert parts[0] + "." + tail == parts[0] + ("." + tail);
      SplitDotFreePrefix(parts[0], "." + tail);
      assert ("." + tail)[0] == '.' && ("." + tail)[1..] == tail;
      assert Split("." + tail) == [""] + parts[1..];
      assert parts[0] + "" == parts[0];
    }
  }

  // ---------------------------------------------------------------------------
  // Config.get
  // ---------------------------------------------------------------------------

  /** The specification of the walk: what `get` answers for the path `keys` below `v`. */
  function Lookup(v: Value, keys: seq<string>, default: Value): Value
    decreases |keys|
  {
    if keys == [] then v
    else match v
      case Dict(m) =>
        var next := if keys[0] in m then m[keys[0]] else Null;
        if next == Null then default else Lookup(next, keys[1..], default)
      case _ => default
  }

  /**
   * `Config.get(key, default)` over the loaded configuration `config`: walk the
   * dotted path down nested dictionaries; a non-dictionary on the way, a
   * missing key or a stored `None` gives `default`.
   */
  method Get(config: map<string, Value>, key: string, default: Value) returns (r: Value)
    ensures r == Lookup(Dict(config), Split(key), default)
  {
    var keys := Split(key);
    var value := Dict(config);
    var i := 0;
    while i < |keys|
      invariant 0 <= i <= |keys|
      invariant Lookup(value, keys[i..], default) == Lookup(Dict(config), keys, default)
    {
      assert keys[i..][0] == keys[i] && keys[i..][1..] == keys[i + 1..];
      if value.Dict? {
        value := if keys[i] in value.entries then value.entries[keys[i]] else Null;
      } else {
        return default;
      }
      if value == Null {
        return default;
      }
      i := i + 1;
    }
    assert keys[i..] == [];
    r := value;
  }

  /**
   * The path `keys` resolves from `v` to `x`: every step goes through a
   * dictionary that holds the key with a value other than `None`.
   */
  predicate Reaches(v: Value, keys: seq<string>, x: Value)
    decreases |keys|
  {
    if keys == [] then x == v
    else
      && v.Dict?
      && keys[0] in v.entries
      && v.entries[keys[0]] != Null
      && Reaches(v.entries[keys[0]], keys[1..], x)
  }

  /**
   * A path that resolves yields the value stored there, whatever it is:
   * falsy values (`0`, `False`, `""`) are returned as stored, not replaced.
   */
  lemma {:induction false} LookupReached(v: Value, keys: seq<string>, x: Value, default: Value)
    requires Reaches(v, keys, x)
    ensures Lookup(v, keys, default) == x
    decreases |keys|
  {
    if keys != [] {
      LookupReached(v.entries[keys[0]], keys[1..], x, default);
    }
  }

  /** Reaching a prefix of the path and then the rest is reaching the whole path. */
  lemma {:induction false} LookupAfterPrefix(v: Value, keys: seq<string>, i: nat, w: Value, default: Value)
    requires i <= |keys| && Reaches(v, keys[..i], w)
    ensures Lookup(v, keys, default) == Lookup(w, keys[i..], default)
    decreases i
  {
    if i > 0 {
      assert keys[..i][0] == keys[0] && keys[..i][1..] == keys[1..][..i - 1];
      LookupAfterPrefix(v.entries[keys[0]], keys[1..], i - 1, w, default);
      assert keys[1..][i - 1..] == keys[i..];
    }
  }

  /** A value on the path that is not a dictionary, with keys left to follow, gives the default. */
  lemma LookupThroughNonDict(v: Value, keys: seq<string>, i: nat, w: Value, default: Value)
    requires i < |keys| && Reaches(v, keys[..i], w) && !w.Dict?
    ensures Lookup(v, keys, default) == default
  {
    LookupAfterPrefix(v, keys, i, w, default);
  }

  /** A missing key, or a key stored as `None`, on the path gives the default. */
  lemma LookupMissingOrNone(v: Value, keys: seq<string>, i: nat, m: map<string, Value>, default: Value)
    requires i < |keys| && Reaches(v, keys[..i], Dict(m))
    requires keys[i] !in m || m[keys[i]] == Null
    ensures Lookup(v, keys, default) == default
  {
    LookupAfterPrefix(v, keys, i, Dict(m), default);
  }

  /** Conversely, whatever is not the default was reached along the path. */
  lemma {:induction false} LookupIsDefaultOrReached(v: Value, keys: seq<string>, default: Value)
    ensures Lookup(v, keys, default) == default || Reaches(v, keys, Lookup(v, keys, default))
    decreases |keys|
  {
    if keys != [] && v.Dict? && keys[0] in v.entries && v.entries[keys[0]] != Null {
      LookupIsDefaultOrReached(v.entries[keys[0]], keys[1..], default);
    }
  }

  // ---------------------------------------------------------------------------
  // whisper_executable / whisper_model
  // ---------------------------------------------------------------------------

  /**
   * A path setting: a non-empty environment variable wins; otherwise the
   * configuration entry, which must be a string (`Path(None)` or a non-string
   * raises, modelled as `None`).
   */
  function PathSetting(env: map<string, string>, variable: string, config: map<string, Value>, key: string): (r: Option<string>)
    ensures variable in env && env[variable] != "" ==> r == Some(env[variable])
    ensures (variable !in env || env[variable] == "") ==>
      (r.Some? <==> Lookup(Dict(config), Split(key), Null).Str?)
      && (r.Some? ==> Lookup(Dict(config), Split(key), Null) == Str(r.value))
  {
    if variable in env && env[variable] != "" then Some(env[variable])
    else match Lookup(Dict(config), Split(key), Null)
      case Str(path) => Some(path)
      case _ => None
  }

  /** `Config.whisper_executable`: `WHISPER_EXECUTABLE` over `whisper.executable`. */
  function WhisperExecutable(env: map<string, string>, config: map<string, Value>): (r: Option<string>)
    ensures "WHISPER_EXECUTABLE" in env && env["WHISPER_EXECUTABLE"] != "" ==> r == Some(env["WHISPER_EXECUTABLE"])
    ensures !("WHISPER_EXECUTABLE" in env && env["WHISPER_EXECUTABLE"] != "") ==>
      (r.Some? <==> Lookup(Dict(config), Split("whisper.executable"), Null).Str?)
      && (r.Some? ==> Lookup(Dict(config), Split("whisper.executable"), Null) == Str(r.value))
  {
    PathSetting(env, "WHISPER_EXECUTABLE", config, "whisper.executable")
  }

  /** `Config.whisper_model`: `WHISPER_MODEL` over `whisper.model_path`. */
  function WhisperModel(env: map<string, string>, config: map<string, Value>): (r: Option<string>)
    ensures "WHISPER_MODEL" in env && env["WHISPER_MODEL"] != "" ==> r == Some(env["WHISPER_MODEL"])
    ensures !("WHISPER_MODEL" in env && env["WHISPER_MODEL"] != "") ==>
      (r.Some? <==> Lookup(Dict(config), Split("whisper.model_path"), Null).Str?)
      && (r.Some? ==> Lookup(Dict(config), Split("whisper.model_path"), Null) == Str(r.value))
  {
    PathSetting(env, "WHISPER_MODEL", config, "whisper.model_path")
  }
}
