/**
 * `Command.handle` of the `autoapi_scan` management command: configuration, selection,
 * scan, then either the budget estimate or the confirmed generation phase.
 */
module Command {
  import opened Wrappers
  import opened Seqs
  import opened Text
  import opened Registry
  import opened Config
  import opened LlmClient
  import opened Selection
  import opened Budget
  import opened Generation

  /** The command-line options. */
  datatype Options = Options(
    appLabel: Option<string>,   // --app
    includeEmpty: bool,         // --include-empty
    yes: bool,                  // --yes
    modelName: Option<string>,  // --model
    budgetOnly: bool)           // --budget-only

  /** The selection policy read from the merged configuration and `--app`. */
  function PolicyOf(cfg: Settings, appLabel: Option<string>): (p: Policy)
    ensures p.appLabel == appLabel
    ensures Get(cfg, IncludeKey).Null? ==> p.allow == []
    ensures Get(cfg, IncludeKey).Labels? ==> p.allow == Get(cfg, IncludeKey).labels
    ensures Get(cfg, ExcludeKey).Null? ==> p.exclude == []
    ensures Get(cfg, ExcludeKey).Labels? ==> p.exclude == Get(cfg, ExcludeKey).labels
  {
    Policy(AsLabels(Get(cfg, IncludeKey)), AsLabels(Get(cfg, ExcludeKey)), appLabel)
  }

  /** Without settings nothing is allow-listed or excluded: only contrib apps and `--app` narrow the scan. */
  lemma DefaultsSelectAllButContrib(registry: seq<App>, appLabel: Option<string>)
    ensures PolicyOf(GetConfig(None), appLabel) == Policy([], [], appLabel)
    ensures SelectApps(registry, PolicyOf(GetConfig(None), appLabel))
            == Filter(registry, (a: App) => !IsContrib(a) && (!Given(appLabel) || a.appLabel == appLabel.value))
  {
    NoSettingsGivesDefaults(None);
    NoListsRestrictOnlyContrib(registry, appLabel);
  }

  /**
   * The operator's answer accepts when, stripped and lower-cased, it is "y" or "yes": once
   * stripped it is y or yes in any mix of cases.
   */
  function Confirmed(answer: string): (ok: bool)
    ensures ok <==>
      var s := Strip(answer);
      || (|s| == 1 && (s[0] == 'y' || s[0] == 'Y'))
      || (|s| == 3 && (s[0] == 'y' || s[0] == 'Y') && (s[1] == 'e' || s[1] == 'E') && (s[2] == 's' || s[2] == 'S'))
  {
    AcceptedIff(Strip(answer));
    Lower(Strip(answer)) in {"y", "yes"}
  }

  /** The two characters that lower-case to a given lower-case ASCII letter. */
  lemma LowersTo(c: char, lower: char, upper: char)
    requires 'a' <= lower <= 'z' && upper as int == lower as int - 32
    ensures AsciiLower(c) == lower <==> c == lower || c == upper
  {
  }

  /** A stripped answer lower-cases to "y" or "yes" exactly when it is y or yes in any case. */
  lemma AcceptedIff(s: string)
    ensures Lower(s) in {"y", "yes"} <==>
      || (|s| == 1 && (s[0] == 'y' || s[0] == 'Y'))
      || (|s| == 3 && (s[0] == 'y' || s[0] == 'Y') && (s[1] == 'e' || s[1] == 'E') && (s[2] == 's' || s[2] == 'S'))
  {
    var l := Lower(s);
    if |s| == 1 {
      LowersTo(s[0], 'y', 'Y');
      assert l == "y" <==> l[0] == 'y';
    } else if |s| == 3 {
      LowersTo(s[0], 'y', 'Y');
      LowersTo(s[1], 'e', 'E');
      LowersTo(s[2], 's', 'S');
      assert l == "yes" <==> l[0] == 'y' && l[1] == 'e' && l[2] == 's';
    }
  }

  /** Where a run of the command stops. */
  datatype Stop =
    | NoMatchingApps                              // the filter chain left nothing
    | NoAppsWithModels                            // the scan kept no app
    | NothingToEstimate(scan: ScanResult)         // --budget-only with no models
    | Estimated(scan: ScanResult, estimate: Estimate)
    | NothingToGenerate(scan: ScanResult)         // apps kept, but no models
    | Declined(scan: ScanResult)                  // the operator did not confirm
    | Generated(scan: ScanResult, runs: seq<AppRun>)

  /** The stop reached and the output files afterwards. */
  datatype RunResult = RunResult(stop: Stop, files: Files)

  /**
   * `handle` from the scan on: stop when no app was kept, estimate under `--budget-only`,
   * stop when there are no models or the operator declines, and otherwise generate.
   */
  function AfterScan(scan: ScanResult, opts: Options, answer: string, llm: Llm, files: Files): (r: RunResult)
    ensures !r.stop.Generated? ==> r.files == files
    ensures r.stop.Generated? ==> PhaseOutcome(scan.entries, opts.modelName, llm, files, r.stop.runs, r.files)
    ensures r.stop.Generated? ==> OutputPaths(scan.entries) <= r.files.Keys
    ensures r.stop.NoAppsWithModels? <==> scan.totalApps == 0
    ensures r.stop.NothingToEstimate? <==> scan.totalApps > 0 && opts.budgetOnly && scan.totalModels == 0
    ensures r.stop.Estimated? <==> scan.totalApps > 0 && opts.budgetOnly && scan.totalModels > 0
    ensures scan.totalApps > 0 && opts.budgetOnly && scan.totalModels > 0 ==>
              r.stop == Estimated(scan, EstimateFor(scan.totalModels).value)
    ensures r.stop.NothingToGenerate? <==> scan.totalApps > 0 && !opts.budgetOnly && scan.totalModels == 0
    ensures r.stop.Declined? <==>
              scan.totalApps > 0 && !opts.budgetOnly && scan.totalModels > 0 && !opts.yes && !Confirmed(answer)
    ensures r.stop.Generated? <==>
              scan.totalApps > 0 && !opts.budgetOnly && scan.totalModels > 0 && (opts.yes || Confirmed(answer))
    ensures !r.stop.NoMatchingApps?
    ensures !r.stop.NoAppsWithModels? ==> r.stop.scan == scan
  {
    if scan.totalApps == 0 then RunResult(NoAppsWithModels, files)
    else if opts.budgetOnly then
      match EstimateFor(scan.totalModels)
      case None => RunResult(NothingToEstimate(scan), files)
      case Some(estimate) => RunResult(Estimated(scan, estimate), files)
    else if scan.totalModels == 0 then RunResult(NothingToGenerate(scan), files)
    else if !opts.yes && !Confirmed(answer) then RunResult(Declined(scan), files)
    else
      GeneratePhaseOutcome(scan.entries, opts.modelName, llm, files);
      var phase := GeneratePhase(scan.entries, opts.modelName, llm, files);
      RunResult(Generated(scan, phase.runs), phase.files)
  }

  /**
   * `handle`, with the settings, the app registry, the operator's answer, the completion
   * service and the existing output files passed in. The answer is read only when
   * generation is about to start without `--yes`.
   */
  function Handle(user: Option<Settings>, registry: seq<App>, opts: Options, answer: string, llm: Llm,
                  files: Files): (r: RunResult)
    ensures var selected := SelectApps(registry, PolicyOf(GetConfig(user), opts.appLabel));
      var scan := Scan(selected, opts.includeEmpty);
      && (r.stop.NoMatchingApps? <==> selected == [])
      && (r.stop.NoAppsWithModels? <==> selected != [] && scan.entries == [])
      && (r.stop.NothingToEstimate? <==> selected != [] && scan.entries != [] && opts.budgetOnly && scan.totalModels == 0)
      && (r.stop.Estimated? <==> selected != [] && opts.budgetOnly && scan.totalModels > 0)
      && (r.stop.NothingToGenerate? <==> selected != [] && scan.entries != [] && !opts.budgetOnly && scan.totalModels == 0)
      && (r.stop.Declined? <==> selected != [] && !opts.budgetOnly && scan.totalModels > 0 && !opts.yes && !Confirmed(answer))
      && (r.stop.Generated? <==>
            selected != [] && !opts.budgetOnly && scan.totalModels > 0 && (opts.yes || Confirmed(answer)))
    ensures var selected := SelectApps(registry, PolicyOf(GetConfig(user), opts.appLabel));
      var scan := Scan(selected, opts.includeEmpty);
      && (!r.stop.NoMatchingApps? && !r.stop.NoAppsWithModels? ==> r.stop.scan == scan)
      && (r.stop.Estimated? ==> r.stop.estimate.tokens == 1000 * scan.totalModels)
      && (r.stop.Generated? ==> PhaseOutcome(scan.entries, opts.modelName, llm, files, r.stop.runs, r.files))
      && (!r.stop.Generated? ==> r.files == files)
  {
    var selected := SelectApps(registry, PolicyOf(GetConfig(user), opts.appLabel));
    if |selected| == 0 then RunResult(NoMatchingApps, files)
    else AfterScan(Scan(selected, opts.includeEmpty), opts, answer, llm, files)
  }

  /** Whatever the scan maps, and so whatever is estimated or generated, is a selected app. */
  lemma {:induction false} HandleScansSelectedApps(user: Option<Settings>, registry: seq<App>, opts: Options, answer: string,
                                llm: Llm, files: Files)
    ensures var r := Handle(user, registry, opts, answer, llm, files);
      !r.stop.NoMatchingApps? && !r.stop.NoAppsWithModels? ==>
        forall i :: 0 <= i < |r.stop.scan.entries| ==>
          r.stop.scan.entries[i].app in registry
          && Admitted(r.stop.scan.entries[i].app, PolicyOf(GetConfig(user), opts.appLabel))
  {
    var policy := PolicyOf(GetConfig(user), opts.appLabel);
    var r := Handle(user, registry, opts, answer, llm, files);
    if !r.stop.NoMatchingApps? && !r.stop.NoAppsWithModels? {
      var entries := r.stop.scan.entries;
      assert entries == Scan(SelectApps(registry, policy), opts.includeEmpty).entries;
      forall i | 0 <= i < |entries| ensures entries[i].app in registry && Admitted(entries[i].app, policy) {
        ScannedAppSelected(registry, policy, opts.includeEmpty, entries[i]);
      }
    }
  }

  /** Every app the scan maps is a selected app of the registry. */
  lemma {:induction false} ScannedAppSelected(registry: seq<App>, policy: Policy, includeEmpty: bool, e: Entry)
    requires e in Scan(SelectApps(registry, policy), includeEmpty).entries
    ensures e.app in registry && Admitted(e.app, policy)
  {
    var selected := SelectApps(registry, policy);
    var entries := Scan(selected, includeEmpty).entries;
    SelectedAreAdmitted(registry, policy);
    ScanKeepsOrder(selected, includeEmpty);
    FilterMembers(selected, Scanned(includeEmpty));
    var i :| 0 <= i < |entries| && entries[i] == e;
    assert AppsOf(entries)[i] == e.app;
  }

  /** `--budget-only` never reaches the service or the operator, and writes no file. */
  lemma BudgetOnlyIsOffline(user: Option<Settings>, registry: seq<App>, opts: Options, files: Files,
                            answer1: string, llm1: Llm, answer2: string, llm2: Llm)
    requires opts.budgetOnly
    ensures Handle(user, registry, opts, answer1, llm1, files) == Handle(user, registry, opts, answer2, llm2, files)
    ensures Handle(user, registry, opts, answer1, llm1, files).files == files
  {
  }

  /**
   * Under `--budget-only` a selection with models stops with the estimate for exactly the
   * scanned models: 1000 tokens and $0.0009 per model.
   */
  lemma BudgetOnlyEstimatesScan(user: Option<Settings>, registry: seq<App>, opts: Options, answer: string,
                                llm: Llm, files: Files)
    requires opts.budgetOnly
    ensures var selected := SelectApps(registry, PolicyOf(GetConfig(user), opts.appLabel));
      var scan := Scan(selected, opts.includeEmpty);
      var r := Handle(user, registry, opts, answer, llm, files);
      selected != [] && scan.totalModels > 0 ==>
        r.stop == Estimated(scan, Estimate(scan.totalModels, 1000 * scan.totalModels, scan.totalModels as real * 0.0009))
  {
  }

  /** `--yes` makes the operator's answer irrelevant. */
  lemma YesSkipsConfirmation(user: Option<Settings>, registry: seq<App>, opts: Options, llm: Llm, files: Files,
                             answer1: string, answer2: string)
    requires opts.yes
    ensures Handle(user, registry, opts, answer1, llm, files) == Handle(user, registry, opts, answer2, llm, files)
  {
  }

  /** After the scan, a service that always fails for want of a key writes only headers. */
  lemma NoKeyAfterScan(scan: ScanResult, opts: Options, answer: string, llm: Llm, files: Files)
    requires forall p :: llm(p) == ConfigFailure
    ensures var r := AfterScan(scan, opts, answer, llm, files);
      forall p :: p in r.files ==> r.files[p] == (if p in files then files[p] else Header)
  {
    var r := AfterScan(scan, opts, answer, llm, files);
    if r.stop.Generated? {
      NoKeyStillVisitsEveryApp(scan.entries, opts.modelName, llm, files);
    }
  }

  /**
   * With the shipped empty key and no `OPENAI_API_KEY`, a confirmed run still visits every
   * app: it creates each missing output file with only the header and changes no other file.
   */
  lemma {:induction false} MissingKeyCreatesOnlyHeaders(user: Option<Settings>, registry: seq<App>, opts: Options, answer: string,
                                     service: Service, files: Files)
    ensures var r := Handle(user, registry, opts, answer, (p: string) => GenerateCode(None, ApiKey, service, p), files);
      forall p :: p in r.files ==> r.files[p] == (if p in files then files[p] else Header)
    ensures var selected := SelectApps(registry, PolicyOf(GetConfig(user), opts.appLabel));
      var scan := Scan(selected, opts.includeEmpty);
      var r := Handle(user, registry, opts, answer, (p: string) => GenerateCode(None, ApiKey, service, p), files);
      selected != [] && !opts.budgetOnly && scan.totalModels > 0 && (opts.yes || Confirmed(answer)) ==>
        OutputPaths(scan.entries) <= r.files.Keys
  {
    var llm := (p: string) => GenerateCode(None, ApiKey, service, p);
    forall p ensures llm(p) == ConfigFailure {
      ShippedKeyNeedsEnvironment(None);
    }
    var selected := SelectApps(registry, PolicyOf(GetConfig(user), opts.appLabel));
    if selected != [] {
      NoKeyAfterScan(Scan(selected, opts.includeEmpty), opts, answer, llm, files);
    }
  }
}
