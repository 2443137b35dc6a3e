/** The `DJANGO_AUTO_API` settings overlaid on the package defaults. */
module Config {
  import opened Wrappers

  /** A settings value as far as the program inspects it. */
  datatype ConfigValue =
    | Null                       // Python None
    | Labels(labels: seq<string>) // a list, tuple or set of app labels
    | Text(text: string)          // a bare string, which Python iterates character by character

  type Settings = map<string, ConfigValue>

  const IncludeKey := "INCLUDE_APPS"
  const ExcludeKey := "EXCLUDE_APPS"

  /** `DEFAULT_CONFIG`: every app is included and none is excluded. */
  const Defaults: Settings := map[IncludeKey := Null, ExcludeKey := Labels([])]

  /**
   * `get_config()`: a copy of the defaults updated with the user's settings; an absent
   * or falsy (empty) setting leaves the defaults. The defaults themselves are immutable.
   */
  function GetConfig(user: Option<Settings>): (cfg: Settings)
    ensures cfg.Keys == Defaults.Keys + (if user.Some? then user.value.Keys else {})
    ensures user.Some? ==> forall k :: k in user.value ==> cfg[k] == user.value[k]
    ensures forall k :: k in Defaults && (user.None? || k !in user.value) ==> cfg[k] == Defaults[k]
  {
    var overlay := if user.Some? && |user.value| > 0 then user.value else map[];
    Defaults + overlay
  }

  /** Python `cfg.get(key)`: a missing key reads as None. */
  function Get(cfg: Settings, key: string): ConfigValue {
    if key in cfg then cfg[key] else Null
  }

  /** The labels a value stands for when passed to `set(...)`; None and falsy values give none. */
  function AsLabels(v: ConfigValue): (r: seq<string>)
    ensures v.Null? ==> r == []
    ensures v.Labels? ==> r == v.labels
    ensures v.Text? ==> |r| == |v.text| && forall i :: 0 <= i < |r| ==> r[i] == [v.text[i]]
  {
    match v
    case Null => []
    case Labels(ls) => ls
    case Text(s) => seq(|s|, i requires 0 <= i < |s| => [s[i]])
  }

  /** With no user settings, or falsy ones, the configuration is exactly the defaults. */
  lemma NoSettingsGivesDefaults(user: Option<Settings>)
    requires user.None? || user.value == map[]
    ensures GetConfig(user) == Defaults
    ensures Get(GetConfig(user), IncludeKey) == Null
    ensures AsLabels(Get(GetConfig(user), ExcludeKey)) == []
  {
  }
}
