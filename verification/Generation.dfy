/**
 * The generation phase: `_generate_for_app` folded over one app's models, and the outer
 * loop over `app_models_map`. The completion service is an oracle from prompt to reply and
 * the filesystem is a map from path to file content.
 */
module Generation {
  import opened Wrappers
  import opened Seqs
  import opened Text
  import opened Registry
  import opened Prompts
  import opened LlmClient
  import opened Selection

  /** The text a new output file starts with. */
  const Header := "from rest_framework import serializers\n\n"

  /** The output file's name inside the app directory. */
  const OutputName := "api_serializers_ai.py"

  /**
   * `Path(app.path) / "api_serializers_ai.py"`: the output file sits directly inside the app
   * directory, so the directory can be read back from the file's path.
   */
  function OutputPath(appPath: string): (r: string)
    ensures |r| == |appPath| + 1 + |OutputName|
    ensures r[..|appPath|] == appPath
    ensures r[|appPath|..] == "/" + OutputName
  {
    appPath + "/" + OutputName
  }

  /** Distinct app directories get distinct output files. */
  lemma OutputPathInjective(a: string, b: string)
    ensures OutputPath(a) == OutputPath(b) <==> a == b
  {
    if OutputPath(a) == OutputPath(b) {
      assert |a| == |b|;
      assert a == OutputPath(a)[..|a|];
    }
  }

  /** `generate_code` as the generation loop sees it: a reply for each prompt. */
  type Llm = string -> LlmReply

  /** The files the program writes: a path is present exactly when its file exists. */
  type Files = map<string, string>

  /** One output file before generation. */
  datatype FileState = Absent | Present(content: string)

  function Lookup(files: Files, path: string): (r: FileState)
    ensures r.Present? <==> path in files
    ensures r.Present? ==> r.content == files[path]
  {
    if path in files then Present(files[path]) else Absent
  }

  // ---- Field metadata ----

  /** A field is described unless it is auto-created and not concrete (a reverse relation). */
  predicate IsKept(f: Field) {
    !(f.autoCreated && !f.concrete)
  }

  /** The `{"name", "type"}` entry of a field. */
  function MetaOf(f: Field): FieldMeta {
    FieldMeta(f.name, f.className)
  }

  /** The entries of some fields, in order. */
  function MetasOf(fields: seq<Field>): (r: seq<FieldMeta>)
    ensures |r| == |fields|
    ensures forall i :: 0 <= i < |fields| ==> r[i] == MetaOf(fields[i])
  {
    seq(|fields|, i requires 0 <= i < |fields| => MetaOf(fields[i]))
  }

  /** The entries of a field list that starts with `f`. */
  lemma MetasOfCons(f: Field, fields: seq<Field>)
    ensures MetasOf([f] + fields) == [MetaOf(f)] + MetasOf(fields)
  {
  }

  /**
   * The loop that builds `fields_meta`: the fields that are kept, in `get_fields()` order,
   * each as its name and class name.
   */
  function FieldsMeta(fields: seq<Field>): (r: seq<FieldMeta>)
    ensures r == MetasOf(Filter(fields, IsKept))
    decreases |fields|
  {
    if |fields| == 0 then []
    else if IsKept(fields[0]) then
      var rest := FieldsMeta(fields[1..]);
      MetasOfCons(fields[0], Filter(fields[1..], IsKept));
      [MetaOf(fields[0])] + rest
    else FieldsMeta(fields[1..])
  }

  /**
   * A field is described exactly when it is kept: every kept field has its entry, and every
   * entry comes from a kept field.
   */
  lemma FieldKeptIff(fields: seq<Field>)
    ensures forall i :: 0 <= i < |fields| && IsKept(fields[i]) ==> MetaOf(fields[i]) in FieldsMeta(fields)
    ensures forall j :: 0 <= j < |FieldsMeta(fields)| ==>
              exists i :: 0 <= i < |fields| && IsKept(fields[i]) && FieldsMeta(fields)[j] == MetaOf(fields[i])
  {
    var kept := Filter(fields, IsKept);
    FilterMembers(fields, IsKept);
    forall i | 0 <= i < |fields| && IsKept(fields[i])
      ensures MetaOf(fields[i]) in FieldsMeta(fields)
    {
      var k :| 0 <= k < |kept| && kept[k] == fields[i];
      assert FieldsMeta(fields)[k] == MetaOf(fields[i]);
    }
    forall j | 0 <= j < |FieldsMeta(fields)|
      ensures exists i :: 0 <= i < |fields| && IsKept(fields[i]) && FieldsMeta(fields)[j] == MetaOf(fields[i])
    {
      var i :| 0 <= i < |fields| && fields[i] == kept[j];
      assert IsKept(fields[i]);
    }
  }

  // ---- One model ----

  /** What happened to one model. */
  datatype Status =
    | Written(code: string) // the code was appended to the file
    | SkippedFiltered       // `--model` names another model
    | SkippedBlank          // the reply was empty or whitespace only
    | FailedConfig          // `OpenAIConfigError`: the rest of the app is abandoned
    | FailedOther           // any other exception: only this model is skipped

  datatype Report = Report(model: string, status: Status)

  /** The `--model` option lets a model through when absent, empty, or equal to its name. */
  predicate ModelSelected(modelFilter: Option<string>, name: string) {
    !Given(modelFilter) || name == modelFilter.value
  }

  /** The prompt sent for a model of an app. */
  function PromptFor(appLabel: string, m: ModelDesc): string {
    BuildPrompt(appLabel, m.name, FieldsMeta(m.fields))
  }

  /** How a reply is handled. */
  function Classify(reply: LlmReply): (s: Status)
    ensures s.Written? ==> reply.Code? && s.code == reply.text && !IsBlank(reply.text)
    ensures s.SkippedBlank? <==> reply.Code? && IsBlank(reply.text)
    ensures s.FailedConfig? <==> reply.ConfigFailure?
    ensures s.FailedOther? <==> reply.OtherFailure?
    ensures !s.SkippedFiltered?
  {
    match reply
    case ConfigFailure => FailedConfig
    case OtherFailure => FailedOther
    case Code(text) => if IsBlank(text) then SkippedBlank else Written(text)
  }

  /** The status of one model: filtered out without a request, or the handled reply. */
  function StatusOf(appLabel: string, m: ModelDesc, modelFilter: Option<string>, llm: Llm): (s: Status)
    ensures s.SkippedFiltered? <==> !ModelSelected(modelFilter, m.name)
    ensures s.FailedConfig? <==> ModelSelected(modelFilter, m.name) && llm(PromptFor(appLabel, m)).ConfigFailure?
    ensures s.FailedOther? <==> ModelSelected(modelFilter, m.name) && llm(PromptFor(appLabel, m)).OtherFailure?
    ensures s.SkippedBlank? <==>
              ModelSelected(modelFilter, m.name) && llm(PromptFor(appLabel, m)).Code? && IsBlank(llm(PromptFor(appLabel, m)).text)
    ensures s.Written? ==> ModelSelected(modelFilter, m.name) && llm(PromptFor(appLabel, m)) == Code(s.code) && !IsBlank(s.code)
  {
    if !ModelSelected(modelFilter, m.name) then SkippedFiltered
    else Classify(llm(PromptFor(appLabel, m)))
  }

  /** What one write appends: the code, a newline unless it ends with one, and a blank line. */
  function Chunk(code: string): (r: string)
    ensures StartsWith(r, code)
    ensures |r| >= 3 && r[|r| - 3..] == "\n\n\n"
    ensures |r| == |code| + (if EndsWithNewline(code) then 2 else 3)
  {
    code + (if EndsWithNewline(code) then "" else "\n") + "\n\n"
  }

  /** The text a report's write adds. */
  function WrittenBy(status: Status): string {
    if status.Written? then Chunk(status.code) else ""
  }

  /** Everything the reports wrote, in order. */
  function AppendedText(reports: seq<Report>): string
    decreases |reports|
  {
    if |reports| == 0 then ""
    else
      WrittenBy(reports[0].status) + AppendedText(reports[1..])
  }

  /** One more report in front adds its write in front. */
  lemma AppendedTextCons(report: Report, rest: seq<Report>)
    ensures AppendedText([report] + rest) == WrittenBy(report.status) + AppendedText(rest)
  {
    assert ([report] + rest)[1..] == rest;
  }

  /**
   * The reports of one app are those of its models, in order, up to and including the
   * first configuration failure and none after it.
   */
  ghost predicate ReportsFollowModels(appLabel: string, models: seq<ModelDesc>, modelFilter: Option<string>,
                                      llm: Llm, reports: seq<Report>)
  {
    && |reports| <= |models|
    && (forall i :: 0 <= i < |reports| ==>
          reports[i] == Report(models[i].name, StatusOf(appLabel, models[i], modelFilter, llm)))
    && (forall i :: 0 <= i < |reports| - 1 ==> !reports[i].status.FailedConfig?)
    && (|reports| < |models| ==> |reports| > 0 && reports[|reports| - 1].status.FailedConfig?)
  }

  /** One app's output after generation, and its reports. */
  datatype AppRun = AppRun(content: string, reports: seq<Report>)

  /** A model that is not a configuration failure, followed by reports of the rest. */
  lemma ReportsCons(appLabel: string, models: seq<ModelDesc>, modelFilter: Option<string>, llm: Llm,
                    rest: seq<Report>)
    requires |models| > 0
    requires !StatusOf(appLabel, models[0], modelFilter, llm).FailedConfig?
    requires ReportsFollowModels(appLabel, models[1..], modelFilter, llm, rest)
    ensures ReportsFollowModels(appLabel, models, modelFilter, llm,
                                [Report(models[0].name, StatusOf(appLabel, models[0], modelFilter, llm))] + rest)
  {
  }

  /**
   * The per-model loop of `_generate_for_app`, starting from the file's current content:
   * a configuration failure returns at once, everything else moves on to the next model,
   * and only non-blank code is appended.
   */
  function RunModels(appLabel: string, models: seq<ModelDesc>, modelFilter: Option<string>, llm: Llm,
                     content: string): (r: AppRun)
    ensures |r.reports| <= |models|
    decreases |models|
  {
    if |models| == 0 then AppRun(content, [])
    else
      var status := StatusOf(appLabel, models[0], modelFilter, llm);
      var report := Report(models[0].name, status);
      if status.FailedConfig? then AppRun(content, [report])
      else
        var rest := RunModels(appLabel, models[1..], modelFilter, llm, content + WrittenBy(status));
        AppRun(rest.content, [report] + rest.reports)
  }

  /** The reports of the per-model loop, which do not depend on the file's content. */
  function ModelReports(appLabel: string, models: seq<ModelDesc>, modelFilter: Option<string>, llm: Llm): (r: seq<Report>)
    ensures |r| <= |models|
    decreases |models|
  {
    if |models| == 0 then []
    else
      var report := Report(models[0].name, StatusOf(appLabel, models[0], modelFilter, llm));
      if report.status.FailedConfig? then [report]
      else [report] + ModelReports(appLabel, models[1..], modelFilter, llm)
  }

  /** The loop's reports are the models' reports, whatever the file held before. */
  lemma {:induction false} RunModelsReports(appLabel: string, models: seq<ModelDesc>, modelFilter: Option<string>,
                                            llm: Llm, content: string)
    ensures RunModels(appLabel, models, modelFilter, llm, content).reports == ModelReports(appLabel, models, modelFilter, llm)
    decreases |models|
  {
    if |models| > 0 {
      var status := StatusOf(appLabel, models[0], modelFilter, llm);
      if !status.FailedConfig? {
        RunModelsReports(appLabel, models[1..], modelFilter, llm, content + WrittenBy(status));
      }
    }
  }

  /** The loop reports its models in order and stops right after a configuration failure. */
  lemma {:induction false} ModelReportsFollowModels(appLabel: string, models: seq<ModelDesc>, modelFilter: Option<string>,
                                                    llm: Llm)
    ensures ReportsFollowModels(appLabel, models, modelFilter, llm, ModelReports(appLabel, models, modelFilter, llm))
    decreases |models|
  {
    if |models| > 0 {
      var status := StatusOf(appLabel, models[0], modelFilter, llm);
      if !status.FailedConfig? {
        ModelReportsFollowModels(appLabel, models[1..], modelFilter, llm);
        ReportsCons(appLabel, models, modelFilter, llm, ModelReports(appLabel, models[1..], modelFilter, llm));
      }
    }
  }

  /** The file grows by exactly what the reports wrote, on top of its starting content. */
  lemma {:induction false} RunModelsAppends(appLabel: string, models: seq<ModelDesc>, modelFilter: Option<string>,
                                            llm: Llm, content: string)
    ensures var r := RunModels(appLabel, models, modelFilter, llm, content);
      r.content == content + AppendedText(r.reports)
    decreases |models|
  {
    if |models| > 0 {
      var status := StatusOf(appLabel, models[0], modelFilter, llm);
      var report := Report(models[0].name, status);
      if status.FailedConfig? {
        AppendedTextCons(report, []);
      } else {
        var rest := RunModels(appLabel, models[1..], modelFilter, llm, content + WrittenBy(status));
        RunModelsAppends(appLabel, models[1..], modelFilter, llm, content + WrittenBy(status));
        AppendedTextCons(report, rest.reports);
        ConcatAssoc(content, WrittenBy(status), AppendedText(rest.reports));
      }
    }
  }

  /**
   * `_generate_for_app`: a missing file is first created with the header (an existing one
   * is never rewritten), then the models' code is appended.
   */
  function GenerateForApp(app: App, models: seq<ModelDesc>, modelFilter: Option<string>, llm: Llm,
                          file: FileState): (r: AppRun)
    ensures r.reports == ModelReports(app.appLabel, models, modelFilter, llm)
    ensures file.Absent? ==> r.content == Header + AppendedText(r.reports)
    ensures file.Present? ==> r.content == file.content + AppendedText(r.reports)
  {
    var start := if file.Absent? then Header else file.content;
    RunModelsReports(app.appLabel, models, modelFilter, llm, start);
    RunModelsAppends(app.appLabel, models, modelFilter, llm, start);
    RunModels(app.appLabel, models, modelFilter, llm, start)
  }

  /** Only writes add text: reports without a written model append nothing. */
  lemma {:induction false} NothingWrittenAppendsNothing(reports: seq<Report>)
    requires forall i :: 0 <= i < |reports| ==> !reports[i].status.Written?
    ensures AppendedText(reports) == ""
    decreases |reports|
  {
    if |reports| > 0 {
      NothingWrittenAppendsNothing(reports[1..]);
    }
  }

  /**
   * A configuration failure at model `k` (the first one) ends the app there: models
   * `0..k` are reported and no later model is requested.
   */
  lemma ConfigFailureEndsApp(app: App, models: seq<ModelDesc>, modelFilter: Option<string>, llm: Llm,
                             file: FileState, k: nat)
    requires k < |models|
    requires StatusOf(app.appLabel, models[k], modelFilter, llm).FailedConfig?
    requires forall i :: 0 <= i < k ==> !StatusOf(app.appLabel, models[i], modelFilter, llm).FailedConfig?
    ensures |GenerateForApp(app, models, modelFilter, llm, file).reports| == k + 1
  {
    ModelReportsFollowModels(app.appLabel, models, modelFilter, llm);
  }

  /**
   * Without a configuration failure every model is reported: an other failure or a blank
   * reply skips only its own model.
   */
  lemma WithoutConfigFailureEveryModelReported(app: App, models: seq<ModelDesc>, modelFilter: Option<string>,
                                               llm: Llm, file: FileState)
    requires forall i :: 0 <= i < |models| ==> !StatusOf(app.appLabel, models[i], modelFilter, llm).FailedConfig?
    ensures |GenerateForApp(app, models, modelFilter, llm, file).reports| == |models|
  {
    ModelReportsFollowModels(app.appLabel, models, modelFilter, llm);
  }

  /** A model that `--model` filters out is never requested and is reported as filtered. */
  lemma FilteredModelNotRequested(appLabel: string, m: ModelDesc, modelFilter: Option<string>, llm1: Llm, llm2: Llm)
    requires Given(modelFilter) && m.name != modelFilter.value
    ensures StatusOf(appLabel, m, modelFilter, llm1) == StatusOf(appLabel, m, modelFilter, llm2) == SkippedFiltered
  {
  }

  /** An existing output file only grows: its old content is a prefix of the new. */
  lemma ExistingFileOnlyGrows(app: App, models: seq<ModelDesc>, modelFilter: Option<string>, llm: Llm,
                              prior: string)
    ensures StartsWith(GenerateForApp(app, models, modelFilter, llm, Present(prior)).content, prior)
  {
  }

  // ---- All apps ----

  /** The output files of the entries' apps. */
  function OutputPaths(entries: seq<Entry>): set<string> {
    set i | 0 <= i < |entries| :: OutputPath(entries[i].app.path)
  }

  /** The files after generation, and one run per app of the map. */
  datatype Phase = Phase(files: Files, runs: seq<AppRun>)

  /**
   * The outer loop of `handle`: `_generate_for_app` for every entry of the map in order,
   * each seeing the files as the earlier apps left them. A configuration failure only
   * ends the app it occurs in; the loop still moves on to the next app.
   */
  function GeneratePhase(entries: seq<Entry>, modelFilter: Option<string>, llm: Llm, files: Files): (r: Phase)
    ensures |r.runs| == |entries|
    ensures r.files.Keys == files.Keys + OutputPaths(entries)
    ensures forall p :: p in files ==> StartsWith(r.files[p], files[p])
    ensures forall p :: p in files && p !in OutputPaths(entries) ==> r.files[p] == files[p]
    ensures forall p :: p in r.files && p !in files ==> StartsWith(r.files[p], Header)
    decreases |entries|
  {
    if |entries| == 0 then Phase(files, [])
    else
      var e := entries[0];
      var path := OutputPath(e.app.path);
      var run := GenerateForApp(e.app, e.models, modelFilter, llm, Lookup(files, path));
      var files' := files[path := run.content];
      var rest := GeneratePhase(entries[1..], modelFilter, llm, files');
      OutputPathsCons(entries);
      PhaseStep(files, path, run.content, rest.files, OutputPaths(entries[1..]), OutputPaths(entries));
      Phase(rest.files, [run] + rest.runs)
  }

  /** The `i`-th run of the outer loop carries the `i`-th app's reports, whatever the files held. */
  lemma {:induction false} PhaseRunReports(entries: seq<Entry>, modelFilter: Option<string>, llm: Llm,
                                           files: Files, i: nat)
    requires i < |entries|
    ensures GeneratePhase(entries, modelFilter, llm, files).runs[i].reports
            == ModelReports(entries[i].app.appLabel, entries[i].models, modelFilter, llm)
    decreases i
  {
    var path := OutputPath(entries[0].app.path);
    var run := GenerateForApp(entries[0].app, entries[0].models, modelFilter, llm, Lookup(files, path));
    var files' := files[path := run.content];
    var rest := GeneratePhase(entries[1..], modelFilter, llm, files');
    assert GeneratePhase(entries, modelFilter, llm, files).runs == [run] + rest.runs;
    if i > 0 {
      PhaseRunReports(entries[1..], modelFilter, llm, files', i - 1);
      assert entries[1..][i - 1] == entries[i];
    }
  }

  /** So every app of the map is reported model by model, up to its first configuration failure. */
  lemma PhaseReportsFollowModels(entries: seq<Entry>, modelFilter: Option<string>, llm: Llm, files: Files, i: nat)
    requires i < |entries|
    ensures ReportsFollowModels(entries[i].app.appLabel, entries[i].models, modelFilter, llm,
                                GeneratePhase(entries, modelFilter, llm, files).runs[i].reports)
  {
    PhaseRunReports(entries, modelFilter, llm, files, i);
    ModelReportsFollowModels(entries[i].app.appLabel, entries[i].models, modelFilter, llm);
  }

  /** The first entry's output file, and then those of the rest. */
  lemma OutputPathsCons(entries: seq<Entry>)
    requires |entries| > 0
    ensures OutputPaths(entries) == {OutputPath(entries[0].app.path)} + OutputPaths(entries[1..])
  {
    var path := OutputPath(entries[0].app.path);
    forall q | q in OutputPaths(entries) ensures q in {path} + OutputPaths(entries[1..]) {
      var i :| 0 <= i < |entries| && q == OutputPath(entries[i].app.path);
      if i > 0 {
        assert entries[1..][i - 1] == entries[i];
      }
    }
    forall q | q in OutputPaths(entries[1..]) ensures q in OutputPaths(entries) {
      var i :| 0 <= i < |entries[1..]| && q == OutputPath(entries[1..][i].app.path);
      assert entries[1..][i] == entries[i + 1];
    }
  }

  /** The file facts of one step of the outer loop compose with those of the remaining steps. */
  lemma PhaseStep(files: Files, path: string, content: string, final: Files, later: set<string>, all: set<string>)
    requires all == {path} + later
    requires path in files ==> StartsWith(content, files[path])
    requires path !in files ==> StartsWith(content, Header)
    requires final.Keys == files[path := content].Keys + later
    requires forall p :: p in files[path := content] ==> StartsWith(final[p], files[path := content][p])
    requires forall p :: p in files[path := content] && p !in later ==> final[p] == files[path := content][p]
    requires forall p :: p in final && p !in files[path := content] ==> StartsWith(final[p], Header)
    ensures final.Keys == files.Keys + all
    ensures forall p :: p in files ==> StartsWith(final[p], files[p])
    ensures forall p :: p in files && p !in all ==> final[p] == files[p]
    ensures forall p :: p in final && p !in files ==> StartsWith(final[p], Header)
  {
    var files' := files[path := content];
    forall p | p in files ensures StartsWith(final[p], files[p]) {
      if p == path {
        StartsWithTrans(final[p], files'[p], files[p]);
      }
    }
    forall p | p in final && p !in files ensures StartsWith(final[p], Header) {
      if p == path {
        StartsWithTrans(final[p], files'[p], Header);
      }
    }
  }

  /** A reply that never carries code leaves an app's file as it found it, or as a bare header. */
  lemma NoCodeNoText(app: App, models: seq<ModelDesc>, modelFilter: Option<string>, llm: Llm, file: FileState)
    requires forall p :: !llm(p).Code?
    ensures GenerateForApp(app, models, modelFilter, llm, file).content
            == (if file.Present? then file.content else Header)
  {
    var r := GenerateForApp(app, models, modelFilter, llm, file).reports;
    ModelReportsFollowModels(app.appLabel, models, modelFilter, llm);
    forall i | 0 <= i < |r| ensures !r[i].status.Written? {
      assert r[i].status == StatusOf(app.appLabel, models[i], modelFilter, llm);
    }
    NothingWrittenAppendsNothing(r);
  }

  /** The outer loop's files after the first app are those the remaining apps leave. */
  lemma PhaseFilesStep(entries: seq<Entry>, modelFilter: Option<string>, llm: Llm, files: Files)
    requires |entries| > 0
    ensures var path := OutputPath(entries[0].app.path);
      var run := GenerateForApp(entries[0].app, entries[0].models, modelFilter, llm, Lookup(files, path));
      GeneratePhase(entries, modelFilter, llm, files).files
      == GeneratePhase(entries[1..], modelFilter, llm, files[path := run.content]).files
  {
  }

  /** Writing an untouched file or a bare header keeps "existing as found, new as header". */
  lemma OnlyHeadersStep(files: Files, path: string, content: string, final: Files)
    requires content == (if path in files then files[path] else Header)
    requires forall p :: p in final ==> final[p] == (if p in files[path := content] then files[path := content][p] else Header)
    ensures forall p :: p in final ==> final[p] == (if p in files then files[p] else Header)
  {
  }

  /**
   * When every request fails for want of a key, every app of the map is still visited:
   * each missing output file is created holding only the header, and every existing file
   * is left as it was.
   */
  lemma {:induction false} NoKeyStillVisitsEveryApp(entries: seq<Entry>, modelFilter: Option<string>, llm: Llm,
                                                   files: Files)
    requires forall p :: llm(p) == ConfigFailure
    ensures var r := GeneratePhase(entries, modelFilter, llm, files);
      forall p :: p in r.files ==> r.files[p] == (if p in files then files[p] else Header)
    decreases |entries|
  {
    if |entries| > 0 {
      var e := entries[0];
      var path := OutputPath(e.app.path);
      var file := Lookup(files, path);
      NoCodeNoText(e.app, e.models, modelFilter, llm, file);
      var run := GenerateForApp(e.app, e.models, modelFilter, llm, file);
      var files' := files[path := run.content];
      NoKeyStillVisitsEveryApp(entries[1..], modelFilter, llm, files');
      PhaseFilesStep(entries, modelFilter, llm, files);
      OnlyHeadersStep(files, path, run.content, GeneratePhase(entries[1..], modelFilter, llm, files').files);
    }
  }

  // ---- File contents after the outer loop ----

  /** The text an app's file is written from: its content, or the header for a new file. */
  function StartText(files: Files, path: string): string {
    if path in files then files[path] else Header
  }

  /** What the apps of the map whose output file is `path` write there, in map order. */
  function PhaseText(entries: seq<Entry>, modelFilter: Option<string>, llm: Llm, path: string): string
    decreases |entries|
  {
    if |entries| == 0 then ""
    else
      (if OutputPath(entries[0].app.path) == path
       then AppendedText(ModelReports(entries[0].app.appLabel, entries[0].models, modelFilter, llm))
       else "")
      + PhaseText(entries[1..], modelFilter, llm, path)
  }

  /**
   * Every file after the outer loop is its starting text followed by everything the apps
   * writing to it appended, in map order; a file no app writes to is unchanged.
   */
  lemma {:induction false} PhaseFileContents(entries: seq<Entry>, modelFilter: Option<string>, llm: Llm, files: Files)
    ensures var r := GeneratePhase(entries, modelFilter, llm, files);
      forall p :: p in r.files ==> r.files[p] == StartText(files, p) + PhaseText(entries, modelFilter, llm, p)
    decreases |entries|
  {
    if |entries| > 0 {
      var e := entries[0];
      var path := OutputPath(e.app.path);
      var run := GenerateForApp(e.app, e.models, modelFilter, llm, Lookup(files, path));
      var files' := files[path := run.content];
      var rest := GeneratePhase(entries[1..], modelFilter, llm, files');
      PhaseFileContents(entries[1..], modelFilter, llm, files');
      PhaseFilesStep(entries, modelFilter, llm, files);
      var text := AppendedText(ModelReports(e.app.appLabel, e.models, modelFilter, llm));
      AppContent(e, modelFilter, llm, files);
      ContentStep(files, path, text, rest.files, p => PhaseText(entries[1..], modelFilter, llm, p));
      PhaseTextCons(entries, modelFilter, llm);
    }
  }

  /**
   * What the outer loop leaves: one run per app; every existing file kept and extended;
   * every new file an output file that starts with the header; and each file its starting
   * text followed by what the apps writing to it appended, in map order.
   */
  ghost predicate PhaseOutcome(entries: seq<Entry>, modelFilter: Option<string>, llm: Llm, files: Files,
                               runs: seq<AppRun>, final: Files)
  {
    && |runs| == |entries|
    && final.Keys == files.Keys + OutputPaths(entries)
    && (forall p :: p in files ==> StartsWith(final[p], files[p]))
    && (forall p :: p in final && p !in files ==> StartsWith(final[p], Header))
    && (forall p :: p in final ==> final[p] == StartText(files, p) + PhaseText(entries, modelFilter, llm, p))
  }

  /** The outer loop leaves the outcome described above. */
  lemma GeneratePhaseOutcome(entries: seq<Entry>, modelFilter: Option<string>, llm: Llm, files: Files)
    ensures var r := GeneratePhase(entries, modelFilter, llm, files);
      PhaseOutcome(entries, modelFilter, llm, files, r.runs, r.files)
  {
    PhaseFileContents(entries, modelFilter, llm, files);
  }

  /** An app's file is its starting text followed by what the app's models wrote. */
  lemma AppContent(e: Entry, modelFilter: Option<string>, llm: Llm, files: Files)
    ensures var path := OutputPath(e.app.path);
      GenerateForApp(e.app, e.models, modelFilter, llm, Lookup(files, path)).content
      == StartText(files, path) + AppendedText(ModelReports(e.app.appLabel, e.models, modelFilter, llm))
  {
  }

  /** The first app's text, then the rest's. */
  lemma PhaseTextCons(entries: seq<Entry>, modelFilter: Option<string>, llm: Llm)
    requires |entries| > 0
    ensures forall p ::
              PhaseText(entries, modelFilter, llm, p) ==
                (if OutputPath(entries[0].app.path) == p
                 then AppendedText(ModelReports(entries[0].app.appLabel, entries[0].models, modelFilter, llm))
                 else "") + PhaseText(entries[1..], modelFilter, llm, p)
  {
  }

  /** Writing `text` after a file's starting text composes with what later apps append. */
  lemma ContentStep(files: Files, path: string, text: string, final: Files, later: string -> string)
    requires forall p :: p in final ==> final[p] == StartText(files[path := StartText(files, path) + text], p) + later(p)
    ensures forall p :: p in final ==> final[p] == StartText(files, p) + ((if p == path then text else "") + later(p))
  {
    var files' := files[path := StartText(files, path) + text];
    forall p | p in final ensures final[p] == StartText(files, p) + ((if p == path then text else "") + later(p)) {
      var before, after := StartText(files, p), StartText(files', p);
      if p == path {
        assert after == before + text;
        ConcatAssoc(before, text, later(p));
      } else {
        assert after == before;
        assert (if p == path then text else "") + later(p) == later(p);
      }
    }
  }

  /** No app of the map writes to a path that is not its output file. */
  lemma {:induction false} PhaseTextElsewhere(entries: seq<Entry>, modelFilter: Option<string>, llm: Llm, path: string)
    requires forall j :: 0 <= j < |entries| ==> OutputPath(entries[j].app.path) != path
    ensures PhaseText(entries, modelFilter, llm, path) == ""
    decreases |entries|
  {
    if |entries| > 0 {
      PhaseTextElsewhere(entries[1..], modelFilter, llm, path);
    }
  }

  /** When no later app shares the first app's directory, its file gets only the first app's text. */
  lemma PhaseTextOfFirst(entries: seq<Entry>, modelFilter: Option<string>, llm: Llm)
    requires |entries| > 0
    requires forall j :: 0 < j < |entries| ==> entries[j].app.path != entries[0].app.path
    ensures PhaseText(entries, modelFilter, llm, OutputPath(entries[0].app.path))
            == AppendedText(ModelReports(entries[0].app.appLabel, entries[0].models, modelFilter, llm))
  {
    var path := OutputPath(entries[0].app.path);
    var rest := entries[1..];
    forall j | 0 <= j < |rest| ensures OutputPath(rest[j].app.path) != path {
      assert rest[j] == entries[j + 1];
      OutputPathInjective(rest[j].app.path, entries[0].app.path);
    }
    PhaseTextElsewhere(rest, modelFilter, llm, path);
  }

  /** When only the `i`-th app writes to a path, what is written there is that app's text. */
  lemma {:induction false} PhaseTextOfOne(entries: seq<Entry>, modelFilter: Option<string>, llm: Llm, i: nat)
    requires i < |entries|
    requires forall j :: 0 <= j < |entries| && j != i ==> entries[j].app.path != entries[i].app.path
    ensures PhaseText(entries, modelFilter, llm, OutputPath(entries[i].app.path))
            == AppendedText(ModelReports(entries[i].app.appLabel, entries[i].models, modelFilter, llm))
    decreases i
  {
    if i == 0 {
      PhaseTextOfFirst(entries, modelFilter, llm);
    } else {
      var rest := entries[1..];
      assert rest[i - 1] == entries[i];
      OutputPathInjective(entries[0].app.path, entries[i].app.path);
      forall j | 0 <= j < |rest| && j != i - 1 ensures rest[j].app.path != rest[i - 1].app.path {
        assert rest[j] == entries[j + 1];
      }
      PhaseTextOfOne(rest, modelFilter, llm, i - 1);
    }
  }

  /**
   * When app directories are distinct, each app's output file ends up as its starting text
   * followed by exactly what that app's run appended.
   */
  lemma PhaseFileOfApp(entries: seq<Entry>, modelFilter: Option<string>, llm: Llm, files: Files, i: nat)
    requires i < |entries|
    requires forall j :: 0 <= j < |entries| && j != i ==> entries[j].app.path != entries[i].app.path
    ensures var r := GeneratePhase(entries, modelFilter, llm, files);
      var path := OutputPath(entries[i].app.path);
      path in r.files && r.files[path] == StartText(files, path) + AppendedText(r.runs[i].reports)
  {
    var r := GeneratePhase(entries, modelFilter, llm, files);
    var path := OutputPath(entries[i].app.path);
    assert path in OutputPaths(entries);
    PhaseFileContents(entries, modelFilter, llm, files);
    PhaseTextOfOne(entries, modelFilter, llm, i);
    PhaseRunReports(entries, modelFilter, llm, files, i);
  }
}
