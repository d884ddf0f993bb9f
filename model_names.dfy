/**
 * The `model` field validator of the request types: it strips one provider prefix, maps
 * Claude family names to the configured big and small models, adds a provider prefix, and
 * detects and removes the CFP flags.
 */
module ModelNames {
  import opened Wrappers
  import opened Text

  /** `PREFERRED_PROVIDER` (lower-cased), `BIG_MODEL` and `SMALL_MODEL`. */
  datatype ModelConfig = ModelConfig(preferred: string, bigModel: string, smallModel: string)

  /** The configuration read from the environment; a missing variable takes its default. */
  function LoadModelConfig(preferred: Option<string>, big: Option<string>, small: Option<string>): (c: ModelConfig)
    ensures preferred.None? ==> c.preferred == "openai"
    ensures preferred.Some? ==> c.preferred == Lower(preferred.value)
    ensures c.bigModel == (if big.Some? then big.value else "gpt-4.1")
    ensures c.smallModel == (if small.Some? then small.value else "gpt-4.1-mini")
    ensures forall i :: 0 <= i < |c.preferred| ==> !('A' <= c.preferred[i] <= 'Z')
  {
    ModelConfig(Lower(if preferred.Some? then preferred.value else "openai"),
                if big.Some? then big.value else "gpt-4.1",
                if small.Some? then small.value else "gpt-4.1-mini")
  }

  /** `PREFERRED_PROVIDER` is read without regard to case: its upper-cased spelling configures the same. */
  lemma {:induction false} PreferredIgnoresCase(p: string, big: Option<string>, small: Option<string>)
    ensures LoadModelConfig(Some(Upper(p)), big, small) == LoadModelConfig(Some(p), big, small)
  {
    var u := Upper(p);
    assert forall i :: 0 <= i < |p| ==> LowerChar(u[i]) == LowerChar(p[i]);
    assert Lower(u) == Lower(p);
  }

  /** `s.startswith(('openai/', 'gemini/', 'anthropic/'))`. */
  predicate HasProviderPrefix(s: string)
  {
    StartsWith(s, "openai/") || StartsWith(s, "gemini/") || StartsWith(s, "anthropic/")
  }

  /** At most one leading `anthropic/`, `openai/` or `gemini/` removed, tried in that order. */
  function StripProvider(v: string): (r: string)
    ensures EndsWith(v, r)
    ensures !HasProviderPrefix(v) ==> r == v
    ensures StartsWith(v, "anthropic/") ==> v == "anthropic/" + r
    ensures !StartsWith(v, "anthropic/") && StartsWith(v, "openai/") ==> v == "openai/" + r
    ensures !StartsWith(v, "anthropic/") && StartsWith(v, "gemini/") ==> v == "gemini/" + r
  {
    if StartsWith(v, "anthropic/") then v[10..]
    else if StartsWith(v, "openai/") then v[7..]
    else if StartsWith(v, "gemini/") then v[7..]
    else v
  }

  /** The prefix `PREFERRED_PROVIDER` selects: one of the three provider prefixes. */
  function PreferredPrefix(cfg: ModelConfig): (p: string)
    ensures p == "gemini/" <==> cfg.preferred == "google" || cfg.preferred == "gemini"
    ensures p == "anthropic/" <==> cfg.preferred == "anthropic"
    ensures p == "openai/" || p == "gemini/" || p == "anthropic/"
  {
    if cfg.preferred == "google" || cfg.preferred == "gemini" then "gemini/"
    else if cfg.preferred == "anthropic" then "anthropic/"
    else "openai/"
  }

  /** A configured alias target: used as it is when it already names a provider. */
  function Prefixed(cfg: ModelConfig, target: string): (r: string)
    ensures HasProviderPrefix(r) && EndsWith(r, target)
    ensures r == target <==> HasProviderPrefix(target)
  {
    if HasProviderPrefix(target) then target else PreferredPrefixed(cfg, target)
  }

  /** `f"{prefix}{name}"` for the preferred prefix. */
  function PreferredPrefixed(cfg: ModelConfig, name: string): (r: string)
    ensures r == PreferredPrefix(cfg) + name
    ensures HasProviderPrefix(r) && EndsWith(r, name) && |r| > |name|
  {
    var p := PreferredPrefix(cfg);
    assert (p + name)[..|p|] == p;
    assert (p + name)[|p + name| - |name|..] == name;
    p + name
  }

  predicate IsHaiku(v: string)
  {
    Contains(Lower(StripProvider(v)), "haiku")
  }

  predicate IsSonnet(v: string)
  {
    Contains(Lower(StripProvider(v)), "sonnet")
  }

  /** The mapped name, before the CFP flags are looked at. */
  function MapModel(cfg: ModelConfig, v: string): (r: string)
    ensures HasProviderPrefix(r)
    ensures IsHaiku(v) ==> r == Prefixed(cfg, cfg.smallModel)
    ensures !IsHaiku(v) && IsSonnet(v) ==> r == Prefixed(cfg, cfg.bigModel)
    ensures !IsHaiku(v) && !IsSonnet(v) && HasProviderPrefix(v) ==> r == v
    ensures !IsHaiku(v) && !IsSonnet(v) && !HasProviderPrefix(v) ==> r == PreferredPrefix(cfg) + v
  {
    var clean := StripProvider(v);
    if Contains(Lower(clean), "haiku") then Prefixed(cfg, cfg.smallModel)
    else if Contains(Lower(clean), "sonnet") then Prefixed(cfg, cfg.bigModel)
    else if !HasProviderPrefix(v) then PreferredPrefixed(cfg, clean)
    else v
  }

  /** The CFP flags, in the order they are removed. */
  const CfpFlags: seq<string> := ["-textonly", "-cfp", "-text"]

  /** `any(suffix in new_model for suffix in [...])`: a flag anywhere in the name, not only at its end. */
  predicate HasCfpFlag(s: string)
  {
    exists i :: 0 <= i < |CfpFlags| && Contains(s, CfpFlags[i])
  }

  /** Each of `flags` removed in turn with `str.replace(flag, "")`. */
  function RemoveFlags(s: string, flags: seq<string>): string
    requires forall i :: 0 <= i < |flags| ==> flags[i] != []
    decreases |flags|
  {
    if flags == [] then s else RemoveFlags(RemoveAll(s, flags[0]), flags[1..])
  }

  /** Removing a flag that occurs makes the name strictly shorter. */
  lemma {:induction false} RemoveAllShortens(s: string, pat: string)
    requires pat != [] && Contains(s, pat)
    ensures |RemoveAll(s, pat)| < |s|
    decreases |s|
  {
    var w := ContainsWitness(s, pat);
    if s[..|pat|] != pat {
      assert !StartsWith(s, pat);
      RemoveAllShortens(s[1..], pat);
    }
  }

  lemma {:induction false} RemoveFlagsShortens(s: string, flags: seq<string>)
    requires forall i :: 0 <= i < |flags| ==> flags[i] != []
    requires exists i :: 0 <= i < |flags| && Contains(s, flags[i])
    ensures |RemoveFlags(s, flags)| < |s|
    decreases |flags|
  {
    if Contains(s, flags[0]) {
      RemoveAllShortens(s, flags[0]);
      RemoveFlagsNoLonger(RemoveAll(s, flags[0]), flags[1..]);
    } else {
      assert RemoveAll(s, flags[0]) == s by { RemoveAllAbsent(s, flags[0]); }
      var i :| 0 <= i < |flags| && Contains(s, flags[i]);
      assert flags[1..][i - 1] == flags[i];
      RemoveFlagsShortens(s, flags[1..]);
    }
  }

  lemma {:induction false} RemoveFlagsNoLonger(s: string, flags: seq<string>)
    requires forall i :: 0 <= i < |flags| ==> flags[i] != []
    ensures |RemoveFlags(s, flags)| <= |s|
    decreases |flags|
  {
    if flags != [] {
      RemoveFlagsNoLonger(RemoveAll(s, flags[0]), flags[1..]);
    }
  }

  /**
   * `validate_model_field` (and `validate_model_token_count`, which repeats it): the name
   * passed on, whether a CFP flag was found, and the original name kept beside them.
   */
  method ValidateModel(cfg: ModelConfig, v: string) returns (model: string, cfpEnabled: bool, original: string)
    ensures original == v
    ensures cfpEnabled <==> HasCfpFlag(MapModel(cfg, v))
    ensures !cfpEnabled ==> model == MapModel(cfg, v)
    ensures cfpEnabled ==> model == RemoveFlags(MapModel(cfg, v), CfpFlags)
  {
    original := v;
    var newModel := MapModel(cfg, v);
    cfpEnabled := Contains(newModel, "-textonly") || Contains(newModel, "-cfp") || Contains(newModel, "-text");
    assert cfpEnabled <==> HasCfpFlag(newModel) by {
      assert CfpFlags[0] == "-textonly" && CfpFlags[1] == "-cfp" && CfpFlags[2] == "-text";
    }
    if cfpEnabled {
      var i := 0;
      while i < |CfpFlags|
        invariant 0 <= i <= |CfpFlags|
        invariant RemoveFlags(newModel, CfpFlags[i..]) == RemoveFlags(MapModel(cfg, v), CfpFlags)
      {
        assert CfpFlags[i..][1..] == CfpFlags[i + 1..];
        newModel := RemoveAll(newModel, CfpFlags[i]);
        i := i + 1;
      }
    }
    model := newModel;
  }

  /** With a flag present, the name passed on is strictly shorter than the mapped name. */
  lemma FlagRemovalShortens(cfg: ModelConfig, v: string)
    requires HasCfpFlag(MapModel(cfg, v))
    ensures |RemoveFlags(MapModel(cfg, v), CfpFlags)| < |MapModel(cfg, v)|
  {
    RemoveFlagsShortens(MapModel(cfg, v), CfpFlags);
  }
}
