/**
 * Game configuration: a built-in default, a game's own defaults and a
 * submodule's overrides are spread into one object, later keys winning.
 * An object is a map from key to value; a key that is absent from a
 * partial configuration is absent from its map.
 */
module GameTypes {
  import opened Wrappers

  datatype Value = Num(n: int) | Null | Text(s: string) | Notes(notes: seq<string>)

  type Config = map<string, Value>

  const DEFAULT_GAME_CONFIG: Config := map[
    "questionCount" := Num(5),
    "timerSeconds" := Null,
    "difficulty" := Text("medium"),
    "requiredScore" := Num(60),
    "xpReward" := Num(30),
    "maxStars" := Num(3)]

  /** The value a `GameConfig` key admits. */
  predicate WellTypedEntry(key: string, v: Value)
  {
    match key
    case "questionCount" => v.Num?
    case "timerSeconds" => v.Num? || v.Null?
    case "difficulty" => v.Text? && v.s in {"easy", "medium", "hard"}
    case "notes" => v.Notes?
    case "requiredScore" => v.Num?
    case "xpReward" => v.Num?
    case "maxStars" => v.Num?
    case "initialGameType" => v.Text? && v.s in {"note-id", "instrument-match", "staff-placement"}
    case _ => false
  }

  /** A `Partial<GameConfig>`: known keys only, each with a value of its type. */
  predicate IsPartialConfig(c: Config)
  {
    forall key :: key in c ==> WellTypedEntry(key, c[key])
  }

  /** A `GameConfig`: a partial one that also defines the two required keys. */
  predicate IsGameConfig(c: Config)
  {
    IsPartialConfig(c) && "questionCount" in c && "timerSeconds" in c
  }

  /** `{...a, ...b}`: every key of either, with `b`'s value where `b` has one. */
  function Spread(a: Config, b: Config): (r: Config)
    ensures r.Keys == a.Keys + b.Keys
    ensures forall key :: key in b ==> r[key] == b[key]
    ensures forall key :: key in a && key !in b ==> r[key] == a[key]
  {
    a + b
  }

  /** `{...DEFAULT_GAME_CONFIG, ...gameDefaults, ...submoduleOverrides}` */
  function MergeGameConfig(gameDefaults: Config, submoduleOverrides: Option<Config>): (r: Config)
    ensures r.Keys == DEFAULT_GAME_CONFIG.Keys + gameDefaults.Keys
                      + (if submoduleOverrides.Some? then submoduleOverrides.value.Keys else {})
  {
    var overrides := if submoduleOverrides.Some? then submoduleOverrides.value else map[];
    Spread(Spread(DEFAULT_GAME_CONFIG, gameDefaults), overrides)
  }

  /**
   * Override keys win over game defaults, which win over the built-in default;
   * a key absent from both partial configurations keeps its default.
   */
  lemma MergePrecedence(gameDefaults: Config, overrides: Config, key: string)
    ensures var r := MergeGameConfig(gameDefaults, Some(overrides));
            (key in r <==> key in DEFAULT_GAME_CONFIG || key in gameDefaults || key in overrides)
            && (key in overrides ==> r[key] == overrides[key])
            && (key !in overrides && key in gameDefaults ==> r[key] == gameDefaults[key])
            && (key !in overrides && key !in gameDefaults && key in DEFAULT_GAME_CONFIG ==> r[key] == DEFAULT_GAME_CONFIG[key])
  {
  }

  /** Without overrides the result is the default updated by the game's own defaults. */
  lemma NoOverrides(gameDefaults: Config)
    ensures MergeGameConfig(gameDefaults, None) == Spread(DEFAULT_GAME_CONFIG, gameDefaults)
    ensures MergeGameConfig(gameDefaults, Some(map[])) == Spread(DEFAULT_GAME_CONFIG, gameDefaults)
  {
    assert Spread(DEFAULT_GAME_CONFIG, gameDefaults) + map[] == Spread(DEFAULT_GAME_CONFIG, gameDefaults);
  }

  /** Merging two partial configurations always yields a full one: questionCount and timerSeconds are defined. */
  lemma MergeIsAGameConfig(gameDefaults: Config, submoduleOverrides: Option<Config>)
    requires IsPartialConfig(gameDefaults)
    requires submoduleOverrides.Some? ==> IsPartialConfig(submoduleOverrides.value)
    ensures IsGameConfig(MergeGameConfig(gameDefaults, submoduleOverrides))
  {
    var r := MergeGameConfig(gameDefaults, submoduleOverrides);
    assert IsPartialConfig(DEFAULT_GAME_CONFIG) by {
      forall key | key in DEFAULT_GAME_CONFIG ensures WellTypedEntry(key, DEFAULT_GAME_CONFIG[key]) {
        assert key in {"questionCount", "timerSeconds", "difficulty", "requiredScore", "xpReward", "maxStars"};
      }
    }
    assert "questionCount" in DEFAULT_GAME_CONFIG && "timerSeconds" in DEFAULT_GAME_CONFIG;
  }
}
