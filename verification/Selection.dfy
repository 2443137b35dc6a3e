/**
 * The first half of `Command.handle`: the filter chain that picks the apps to scan, and
 * the scan that maps each surviving app to its models and totals them.
 */
module Selection {
  import opened Wrappers
  import opened Seqs
  import opened Text
  import opened Registry

  const ContribPrefix := "django.contrib"

  /** Django's own contrib apps, which are never scanned. */
  predicate IsContrib(app: App) {
    StartsWith(app.name, ContribPrefix)
  }

  /** A CLI string option counts only when given and non-empty (Python truthiness). */
  predicate Given(opt: Option<string>) {
    opt.Some? && opt.value != ""
  }

  /**
   * The run's selection policy: the `INCLUDE_APPS` labels (empty means no allow-list),
   * the `EXCLUDE_APPS` labels and the `--app` option.
   */
  datatype Policy = Policy(allow: seq<string>, exclude: seq<string>, appLabel: Option<string>)

  /** Whether one app passes every stage of the filter chain. */
  predicate Admitted(app: App, policy: Policy) {
    && !IsContrib(app)
    && (|policy.allow| == 0 || app.appLabel in policy.allow)
    && (!Given(policy.appLabel) || app.appLabel == policy.appLabel.value)
    && app.appLabel !in policy.exclude
  }

  /** Stage 1 keeps the apps that are not contrib apps. */
  predicate NotContrib(app: App) {
    !IsContrib(app)
  }

  /** Stage 2 keeps the apps whose label is in the allow-list. */
  function InAllowList(allow: seq<string>): App -> bool {
    (a: App) => a.appLabel in allow
  }

  /** Stage 3 keeps the apps with the `--app` label. */
  function HasLabel(wanted: string): App -> bool {
    (a: App) => a.appLabel == wanted
  }

  /** Stage 4 keeps the apps whose label is not excluded. */
  function NotExcluded(exclude: seq<string>): App -> bool {
    (a: App) => a.appLabel !in exclude
  }

  /** The four stages as one predicate. */
  function AdmittedBy(policy: Policy): App -> bool {
    (a: App) => Admitted(a, policy)
  }

  /** The filter chain, stage by stage as the source applies it. */
  function FilterChain(registry: seq<App>, policy: Policy): seq<App> {
    var nonContrib := Filter(registry, NotContrib);
    var allowed := if |policy.allow| > 0 then Filter(nonContrib, InAllowList(policy.allow)) else nonContrib;
    var narrowed := if Given(policy.appLabel) then Filter(allowed, HasLabel(policy.appLabel.value)) else allowed;
    Filter(narrowed, NotExcluded(policy.exclude))
  }

  /** The first two stages. */
  function Stage2(policy: Policy): App -> bool {
    (a: App) => !IsContrib(a) && (|policy.allow| == 0 || a.appLabel in policy.allow)
  }

  /** The first three stages. */
  function Stage3(policy: Policy): App -> bool {
    (a: App) => Stage2(policy)(a) && (!Given(policy.appLabel) || a.appLabel == policy.appLabel.value)
  }

  /** The chain of four filters is a single filter by `Admitted`. */
  lemma ChainIsOneFilter(registry: seq<App>, policy: Policy)
    ensures FilterChain(registry, policy) == Filter(registry, AdmittedBy(policy))
  {
    var nonContrib := Filter(registry, NotContrib);
    var allowed := if |policy.allow| > 0 then Filter(nonContrib, InAllowList(policy.allow)) else nonContrib;
    if |policy.allow| > 0 {
      FilterFilter(registry, NotContrib, InAllowList(policy.allow), Stage2(policy));
    } else {
      FilterSame(registry, NotContrib, Stage2(policy));
    }
    var narrowed := if Given(policy.appLabel) then Filter(allowed, HasLabel(policy.appLabel.value)) else allowed;
    if Given(policy.appLabel) {
      FilterFilter(registry, Stage2(policy), HasLabel(policy.appLabel.value), Stage3(policy));
    } else {
      FilterSame(registry, Stage2(policy), Stage3(policy));
    }
    FilterFilter(registry, Stage3(policy), NotExcluded(policy.exclude), AdmittedBy(policy));
  }

  /**
   * The apps the command goes on to scan: the filter chain, which keeps exactly the
   * registry's apps that pass every stage, in registry order.
   */
  function SelectApps(registry: seq<App>, policy: Policy): (r: seq<App>)
    ensures r == Filter(registry, AdmittedBy(policy))
  {
    ChainIsOneFilter(registry, policy);
    FilterChain(registry, policy)
  }

  /**
   * What the selection is: the registry's apps that pass every stage, in registry order,
   * as a subsequence of the registry.
   */
  lemma SelectionSpec(registry: seq<App>, policy: Policy)
    ensures var r := SelectApps(registry, policy);
      && IsSubsequence(r, registry)
      && (forall i :: 0 <= i < |r| ==> Admitted(r[i], policy))
      && (forall i :: 0 <= i < |registry| && Admitted(registry[i], policy) ==> registry[i] in r)
  {
    FilterIsSubsequence(registry, AdmittedBy(policy));
    FilterMembers(registry, AdmittedBy(policy));
  }

  /** Every selected app is an app of the registry that passes every stage. */
  lemma SelectedAreAdmitted(registry: seq<App>, policy: Policy)
    ensures forall a :: a in SelectApps(registry, policy) ==> a in registry && Admitted(a, policy)
  {
    FilterMembers(registry, AdmittedBy(policy));
    var r := SelectApps(registry, policy);
    forall a | a in r ensures a in registry && Admitted(a, policy) {
      var i :| 0 <= i < |r| && r[i] == a;
    }
  }

  /** No selected app is a contrib app or an excluded one, whatever the policy. */
  lemma SelectionExcludes(registry: seq<App>, policy: Policy)
    ensures forall a :: a in SelectApps(registry, policy) ==> !IsContrib(a) && a.appLabel !in policy.exclude
  {
    SelectedAreAdmitted(registry, policy);
  }

  /** An `--app` label outside a non-empty allow-list selects nothing. */
  lemma AppOutsideAllowListSelectsNothing(registry: seq<App>, policy: Policy)
    requires |policy.allow| > 0 && Given(policy.appLabel) && policy.appLabel.value !in policy.allow
    ensures SelectApps(registry, policy) == []
  {
    SelectionSpec(registry, policy);
    var r := SelectApps(registry, policy);
    assert |r| > 0 ==> Admitted(r[0], policy);
  }

  /** An empty allow-list and empty exclusions keep every non-contrib app the `--app` option allows. */
  lemma NoListsRestrictOnlyContrib(registry: seq<App>, appLabel: Option<string>)
    ensures SelectApps(registry, Policy([], [], appLabel))
            == Filter(registry, (a: App) => !IsContrib(a) && (!Given(appLabel) || a.appLabel == appLabel.value))
  {
    var policy := Policy([], [], appLabel);
    FilterSame(registry, AdmittedBy(policy),
               (a: App) => !IsContrib(a) && (!Given(appLabel) || a.appLabel == appLabel.value));
  }

  /** With no exclusions the last stage drops nothing: the selection is the first three stages. */
  lemma NoExclusionsExcludeNothing(registry: seq<App>, policy: Policy)
    requires policy.exclude == []
    ensures SelectApps(registry, policy) == Filter(registry, Stage3(policy))
  {
    forall i | 0 <= i < |registry| ensures AdmittedBy(policy)(registry[i]) == Stage3(policy)(registry[i]) {
      var a := registry[i];
      assert a.appLabel !in policy.exclude;
      assert AdmittedBy(policy)(a) == Admitted(a, policy);
      assert Stage2(policy)(a) == (!IsContrib(a) && (|policy.allow| == 0 || a.appLabel in policy.allow));
      assert Stage3(policy)(a) == (Stage2(policy)(a) && (!Given(policy.appLabel) || a.appLabel == policy.appLabel.value));
    }
    FilterSame(registry, AdmittedBy(policy), Stage3(policy));
  }

  /** Selecting again from a selection changes nothing. */
  lemma SelectIdempotent(registry: seq<App>, policy: Policy)
    ensures SelectApps(SelectApps(registry, policy), policy) == SelectApps(registry, policy)
  {
    FilterIdempotent(registry, AdmittedBy(policy));
  }

  /** One entry of `app_models_map`: an app and the models found for it. */
  datatype Entry = Entry(app: App, models: seq<ModelDesc>)

  /** The scan's outcome: the ordered `app_models_map`, `total_apps` and `total_models`. */
  datatype ScanResult = ScanResult(entries: seq<Entry>, totalApps: nat, totalModels: nat)

  /** The number of models over all entries. */
  function ModelCount(entries: seq<Entry>): nat
    decreases |entries|
  {
    if |entries| == 0 then 0 else |entries[0].models| + ModelCount(entries[1..])
  }

  /** The apps of the entries, in order. */
  function AppsOf(entries: seq<Entry>): (r: seq<App>)
    ensures |r| == |entries|
    ensures forall i :: 0 <= i < |entries| ==> r[i] == entries[i].app
  {
    seq(|entries|, i requires 0 <= i < |entries| => entries[i].app)
  }

  /** Which apps the scan keeps: those with models, and with `--include-empty` all of them. */
  function Scanned(includeEmpty: bool): App -> bool {
    (a: App) => includeEmpty || |a.models| > 0
  }

  /**
   * The scan loop: each app is kept when it has models or `--include-empty` is given;
   * a kept app adds one to `total_apps` and its model count to `total_models`.
   */
  function Scan(apps: seq<App>, includeEmpty: bool): (r: ScanResult)
    ensures r.totalApps == |r.entries|
    ensures r.totalModels == ModelCount(r.entries)
    ensures forall i :: 0 <= i < |r.entries| ==> r.entries[i].models == r.entries[i].app.models
    ensures !includeEmpty ==> forall i :: 0 <= i < |r.entries| ==> |r.entries[i].models| > 0
    decreases |apps|
  {
    if |apps| == 0 then ScanResult([], 0, 0)
    else
      var rest := Scan(apps[1..], includeEmpty);
      var models := apps[0].models;
      if |models| == 0 && !includeEmpty then rest
      else
        var entries := [Entry(apps[0], models)] + rest.entries;
        assert entries[1..] == rest.entries;
        ScanResult(entries, rest.totalApps + 1, rest.totalModels + |models|)
  }

  /** The map's apps are exactly the apps the scan keeps, in the selection's order. */
  lemma {:induction false} ScanKeepsOrder(apps: seq<App>, includeEmpty: bool)
    ensures AppsOf(Scan(apps, includeEmpty).entries) == Filter(apps, Scanned(includeEmpty))
    decreases |apps|
  {
    if |apps| > 0 {
      ScanKeepsOrder(apps[1..], includeEmpty);
      var rest := Scan(apps[1..], includeEmpty).entries;
      if includeEmpty || |apps[0].models| > 0 {
        assert AppsOf([Entry(apps[0], apps[0].models)] + rest) == [apps[0]] + AppsOf(rest);
      }
    }
  }

  /** With `--include-empty` every selected app enters the map, in order, models or not. */
  lemma IncludeEmptyKeepsAll(apps: seq<App>)
    ensures AppsOf(Scan(apps, true).entries) == apps
  {
    ScanKeepsOrder(apps, true);
    FilterKeepsAll(apps, Scanned(true));
  }
}
