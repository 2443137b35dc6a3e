# django-autoapi `autoapi_scan`, modelled in Dafny

This project models the `autoapi_scan` management command of django-autoapi. The command:

- picks the project's apps through a chain of filters (contrib apps, the `INCLUDE_APPS` allow-list, `--app`, `EXCLUDE_APPS`);
- maps each kept app to its models and totals them;
- then either prints a token/cost estimate (`--budget-only`) or, after the operator confirms, asks a language model for one DRF `ModelSerializer` per model and appends the code to `<app>/api_serializers_ai.py`.

It also models the pieces the command relies on:

- the prompt builder (`build_serializer_prompt`);
- the settings overlay (`get_config`);
- the key lookup and reply normalisation of the OpenAI client.

The modules follow the program:

- `Registry`: what Django reflection reports — apps, models, fields.
- `Config`: `DEFAULT_CONFIG` and `get_config`.
- `LlmClient`: `_get_api_key` and `generate_code`, with the chat-completion service as an oracle.
- `Prompts`: `build_serializer_prompt`.
- `Selection`: the filter chain and the scan loop.
- `Budget`: the estimate.
- `Generation`: `_generate_for_app` and the outer generation loop.
- `Command`: `handle` as a whole.
- `Scenarios`: a concrete run.

`Wrappers`, `Seqs` and `Text` hold shared pieces:

- options and results;
- filtering and subsequences;
- Python's `str.join`, `str.split`, `str.strip` and `str.lower`.

The inputs of a run are parameters:

- the user's `DJANGO_AUTO_API` setting (`Option<Settings>`);
- the app registry, as a sequence of `App`;
- the command-line options;
- the operator's answer to the `[y/N]` question, read only when it is asked;
- the language model, as a function from prompt to reply;
- the existing files, as a map from path to content. A path is in the map exactly when its file exists.

A run returns where it stopped and the files afterwards.

Two behaviours of the code are easy to miss; the model follows the code:

- A missing API key (`OpenAIConfigError`) ends only the app being generated. `_generate_for_app` returns (`autoapi_scan.py:211`), and the outer loop (`autoapi_scan.py:162-163`) goes on to the next app.
  - Every app of the map therefore still gets its output file, holding only the header when the file was missing.
  - See `Generation.NoKeyStillVisitsEveryApp` and `Command.MissingKeyCreatesOnlyHeaders`.
- Under `--include-empty`, apps without models enter `app_models_map` (`autoapi_scan.py:96-102`), not only the printed listing. The generation loop therefore visits them too and creates their output file with only the header.

## Model

| member | source | states |
|---|---|---|
| Config.GetConfig | django_auto_api/config.py:18-22 | The merged configuration has the default keys plus the user's keys. Every user value overrides the default, and every default the user does not set survives. |
| Config.NoSettingsGivesDefaults | django_auto_api/config.py:5-22 | With no setting, or an empty one, the configuration is exactly the defaults. `INCLUDE_APPS` reads as None and `EXCLUDE_APPS` gives no labels. |
| Config.AsLabels | django_auto_api/management/commands/autoapi_scan.py:54-55 | `set(...)` of a setting: None gives no labels and a list gives its labels. A bare string gives its characters as one-character labels, one per character, in order. |
| Command.PolicyOf | django_auto_api/management/commands/autoapi_scan.py:54-55 | `--app` passes through unchanged. A missing `INCLUDE_APPS` or `EXCLUDE_APPS` gives an empty list, and a list of labels is used as given. |
| LlmClient.ResolveKey | django_auto_api/llm_client.py:15-30 | A non-empty `OPENAI_API_KEY` wins. Otherwise a non-empty pasted key is used. The lookup fails exactly when both are missing or empty, and a resolved key is never empty. |
| LlmClient.ShippedKeyNeedsEnvironment | django_auto_api/llm_client.py:12-30 | With the key shipped empty, a key is found if and only if the environment provides a non-empty one. |
| LlmClient.GenerateCode | django_auto_api/llm_client.py:38-64 | The reply is a configuration failure exactly when no key resolves. It is another failure exactly when the service raises. Code is the reply content, or "" when the content is None. |
| LlmClient.NoKeyNoRequest | django_auto_api/llm_client.py:33-45 | Without a key no request is made: any two services give the same configuration failure. |
| Prompts.FieldLines | django_auto_api/prompts.py:14-16 | One `- name: type` line per field, in field order. |
| Prompts.FieldsSectionLines | django_auto_api/prompts.py:14-16 | No fields give an empty section. Otherwise splitting the section at newlines gives back exactly the field lines, when names and types hold no newline. |
| Prompts.PromptLines | django_auto_api/prompts.py:18-37 | The prompt, split into lines, is the fixed head (blank, intro, blank, app line, model line, blank, `Fields:`), then the field section's lines, then the task and the six rules, and a final empty line. |
| Prompts.PromptEnds | django_auto_api/prompts.py:18-37 | The prompt has at least twenty lines. The first seven are the fixed head with the label and model name, and the last twelve are the task and rule block ending in an empty line, whatever the fields. |
| Prompts.PromptNamesAppAndModel | django_auto_api/prompts.py:21-33 | Lines 3 and 4 of the prompt are `App label: <label>` and `Model name: <model>`. The task line asks for a ModelSerializer named `<model>Serializer`, and a rule line reads `- Define Meta.model = <model>.`. |
| Prompts.PromptFixedText | django_auto_api/prompts.py:18-37 | Any two prompts have the same lines everywhere except the app, model, task and `Meta.model` lines and the field section. |
| Prompts.BuildPrompt | django_auto_api/prompts.py:18-37 | The prompt is at least two characters long and starts and ends with a newline, whatever the label, model name and fields. |
| Selection.ChainIsOneFilter | django_auto_api/management/commands/autoapi_scan.py:59-82 | The four filters applied one after another equal one filter by the conjunction of the four stages. |
| Selection.SelectApps | django_auto_api/management/commands/autoapi_scan.py:59-82 | The selected apps are exactly the registry apps that are not contrib apps, are in a non-empty allow-list (if any), carry the `--app` label (if given) and are not excluded, in registry order. |
| Selection.SelectionSpec | django_auto_api/management/commands/autoapi_scan.py:59-82 | The selection is a subsequence of the registry. Every selected app passes every stage, and every registry app that passes every stage is selected. |
| Selection.SelectedAreAdmitted | django_auto_api/management/commands/autoapi_scan.py:59-82 | Every selected app is a registry app that passes every stage. |
| Selection.SelectionExcludes | django_auto_api/management/commands/autoapi_scan.py:60-82 | No contrib app and no excluded label is ever selected, whatever the allow-list and `--app`. |
| Selection.AppOutsideAllowListSelectsNothing | django_auto_api/management/commands/autoapi_scan.py:66-77 | An `--app` label outside a non-empty allow-list selects no app. |
| Selection.NoListsRestrictOnlyContrib | django_auto_api/management/commands/autoapi_scan.py:59-82 | With no allow-list and no exclusions, the selection is the non-contrib apps that `--app` admits. |
| Selection.NoExclusionsExcludeNothing | django_auto_api/management/commands/autoapi_scan.py:79-82 | An empty `EXCLUDE_APPS`, which is also what None gives, drops nothing: the selection is what the first three stages keep. |
| Selection.SelectIdempotent | django_auto_api/management/commands/autoapi_scan.py:59-82 | Selecting again from a selection changes nothing. |
| Selection.Scan | django_auto_api/management/commands/autoapi_scan.py:88-102 | `total_apps` is the number of map entries and `total_models` the number of their models. Each entry holds its app's models, and without `--include-empty` no entry is empty. |
| Selection.ScanKeepsOrder | django_auto_api/management/commands/autoapi_scan.py:93-102 | The map's apps are exactly the selected apps that have models (all of them under `--include-empty`), in selection order. |
| Selection.IncludeEmptyKeepsAll | django_auto_api/management/commands/autoapi_scan.py:96-102 | Under `--include-empty`, every selected app enters the map, in order. |
| Budget.EstimateFor | django_auto_api/management/commands/autoapi_scan.py:123-134 | With no models there is nothing to estimate. Otherwise the estimate has 1000 tokens per model and costs 0.0009 dollars per model. |
| Generation.FieldsMeta | django_auto_api/management/commands/autoapi_scan.py:186-197 | The field metadata is the name/type entry of each kept field, in field order. |
| Generation.FieldKeptIff | django_auto_api/management/commands/autoapi_scan.py:188-191 | A field is described if and only if it is not both auto-created and non-concrete. |
| Generation.OutputPath | django_auto_api/management/commands/autoapi_scan.py:171 | The output path is the app directory, a `/`, and `api_serializers_ai.py`, so the directory can be read back from it. |
| Generation.OutputPathInjective | django_auto_api/management/commands/autoapi_scan.py:171 | Two apps share an output file if and only if they share a directory. |
| Generation.Classify | django_auto_api/management/commands/autoapi_scan.py:207-224 | A configuration failure and any other failure are told apart. Blank code is skipped, and only non-blank code is written. |
| Generation.StatusOf | django_auto_api/management/commands/autoapi_scan.py:183-224 | A model is skipped as filtered exactly when `--model` names another model. Otherwise its status follows the reply to its prompt: a configuration failure, another failure, blank code skipped, or non-blank code written as received. |
| Generation.Chunk | django_auto_api/management/commands/autoapi_scan.py:226-231 | A write appends the code, then a newline unless the code already ends with one, then two more newlines. The code's last line is thus followed by two empty lines, and the file ends with three newlines. |
| Generation.RunModels | django_auto_api/management/commands/autoapi_scan.py:180-231 | The per-model loop reports at most one entry per model. Its reports and content are pinned down by the lemmas below. |
| Generation.ModelReports | django_auto_api/management/commands/autoapi_scan.py:180-224 | There is at most one report per model. Their order and content are stated by `Generation.ModelReportsFollowModels`. |
| Generation.RunModelsReports | django_auto_api/management/commands/autoapi_scan.py:180-231 | The loop's reports do not depend on what the file held before. |
| Generation.ModelReportsFollowModels | django_auto_api/management/commands/autoapi_scan.py:180-224 | The reports are the models' statuses, in model order, up to and including the first configuration failure and none after it. Every model is reported when no configuration failure occurs. |
| Generation.RunModelsAppends | django_auto_api/management/commands/autoapi_scan.py:218-231 | The file ends as its starting content followed by the written chunks, in order. |
| Generation.GenerateForApp | django_auto_api/management/commands/autoapi_scan.py:167-238 | A missing file is created with the header and an existing file is never rewritten. The final content is the header or the old content, followed by the written code. |
| Generation.NothingWrittenAppendsNothing | django_auto_api/management/commands/autoapi_scan.py:218-231 | Reports with no write append nothing. |
| Generation.ConfigFailureEndsApp | django_auto_api/management/commands/autoapi_scan.py:207-211 | A first configuration failure at model k ends the app after exactly k+1 reports. |
| Generation.WithoutConfigFailureEveryModelReported | django_auto_api/management/commands/autoapi_scan.py:212-224 | Without a configuration failure every model is reported: another failure or blank code skips only its own model. |
| Generation.FilteredModelNotRequested | django_auto_api/management/commands/autoapi_scan.py:183-184 | A model that `--model` filters out is reported as filtered, whatever the service would answer. |
| Generation.ExistingFileOnlyGrows | django_auto_api/management/commands/autoapi_scan.py:173-178 | An existing output file keeps its old content as a prefix. |
| Generation.NoCodeNoText | django_auto_api/management/commands/autoapi_scan.py:173-231 | When no reply carries code, an app's file stays as it was, or is just the header if it was missing. |
| Generation.GeneratePhase | django_auto_api/management/commands/autoapi_scan.py:161-163 | One run per map entry. The files afterwards are the old files plus each app's output file. Every existing file keeps its old content as a prefix, files of apps outside the map are unchanged, and every new file starts with the header. |
| Generation.PhaseRunReports | django_auto_api/management/commands/autoapi_scan.py:161-163 | The i-th run carries the i-th app's model reports, whatever earlier apps wrote. |
| Generation.PhaseReportsFollowModels | django_auto_api/management/commands/autoapi_scan.py:161-163 | Every app of the map is reported model by model, up to its own first configuration failure: one app's failure does not stop the next app. |
| Generation.PhaseFileContents | django_auto_api/management/commands/autoapi_scan.py:161-231 | Every file after the loop is its old content, or the header for a new file, followed by what each app writing to it appended, in map order. |
| Generation.GeneratePhaseOutcome | django_auto_api/management/commands/autoapi_scan.py:161-231 | After the loop there is one run per app, and the files are the old files plus every app's output file. Old content stays a prefix and new files start with the header. Each file is its starting text followed by what the apps writing to it appended. |
| Generation.PhaseFileOfApp | django_auto_api/management/commands/autoapi_scan.py:161-231 | When no other app of the map has the same directory, that app's output file ends as its old content, or the header, followed by exactly the code of that app's own run. |
| Generation.NoKeyStillVisitsEveryApp | django_auto_api/management/commands/autoapi_scan.py:161-211 | When every request fails for want of a key, every missing output file is created holding only the header. Every existing file is unchanged. |
| Command.DefaultsSelectAllButContrib | django_auto_api/management/commands/autoapi_scan.py:54-82 | Without settings the policy has no allow-list and no exclusions. Only contrib apps and `--app` narrow the selection. |
| Command.Confirmed | django_auto_api/management/commands/autoapi_scan.py:153-157 | An answer confirms if and only if, once stripped, it is `y` or `yes` in any mix of cases. |
| Command.AfterScan | django_auto_api/management/commands/autoapi_scan.py:112-163 | Each stop happens exactly when the source stops there: no apps, `--budget-only` with no models or with an estimate of the model total, no models, declined, or generated. Generation happens if and only if apps and models were found, `--budget-only` is off, and `--yes` is given or the answer confirms. Its files are then the phase outcome, covering every app's output file. Every other stop leaves the files alone. |
| Command.Handle | django_auto_api/management/commands/autoapi_scan.py:46-163 | In terms of the selection and its scan: the run stops before scanning if and only if nothing is selected. It stops for no apps, for nothing to estimate or generate, with an estimate of 1000 tokens per scanned model, declined, or generated, each exactly under the source's conditions. A generating run leaves every output file holding its old content or the header followed by what the apps appended. Every other run writes nothing. |
| Command.HandleScansSelectedApps | django_auto_api/management/commands/autoapi_scan.py:59-102 | Every app that is scanned, estimated or generated is a registry app that passes every stage of the filter chain. |
| Command.ScannedAppSelected | django_auto_api/management/commands/autoapi_scan.py:93-102 | Every map entry's app is a selected app. |
| Command.BudgetOnlyIsOffline | django_auto_api/management/commands/autoapi_scan.py:122-146 | Under `--budget-only` the outcome depends neither on the service nor on the operator's answer, and no file changes. |
| Command.BudgetOnlyEstimatesScan | django_auto_api/management/commands/autoapi_scan.py:122-146 | Under `--budget-only`, a selection with models stops with the estimate for exactly the scanned models: 1000 tokens and 0.0009 dollars per model. |
| Command.YesSkipsConfirmation | django_auto_api/management/commands/autoapi_scan.py:152-159 | Under `--yes` the operator's answer does not matter. |
| Command.NoKeyAfterScan | django_auto_api/management/commands/autoapi_scan.py:148-163 | After the scan, a service that always fails for want of a key writes nothing but headers of new files. |
| Command.MissingKeyCreatesOnlyHeaders | django_auto_api/llm_client.py:12-30 | With the shipped empty key and no `OPENAI_API_KEY`, a run leaves every file as it was or holding only the header. When generation starts, every app of the map gets its output file. |
| Scenarios.PrimaryKeyKeptReverseRelationDropped | django_auto_api/management/commands/autoapi_scan.py:188-197 | A concrete auto-created primary key is described, and a reverse relation is not. |
| Scenarios.BlogPostEndToEnd | django_auto_api/management/commands/autoapi_scan.py:46-238 | The app `blog` with one model, under `--yes` and against a service answering with a class, yields exactly one new file: `/proj/blog/api_serializers_ai.py`. It holds the header, then the code followed by three newlines: the end of the code's last line and two empty lines. |

## Left out

- Django's app registry and model reflection: `get_app_configs`, `get_models` and `_meta.get_fields` are a snapshot passed in as data (`Registry`). `apps.py` is not part of this model.
- The OpenAI request: `generate_code` sees the completion service as a function of the key and the prompt. Model name, temperature and the system message are not modelled, because they only shape the request. The generation loop sees `generate_code` as a deterministic function from prompt to reply, so a flaky service is not modelled.
- Filesystem I/O is a map from path to content: encodings, permissions, partial writes and I/O errors are not modelled. `Path` joining is plain concatenation with `/`, without normalisation.
- `os.getenv` and `input()`: the environment value and the operator's answer are parameters.
- Console output: every `stdout.write` message, the styling, and the formatting of numbers (`{:,}`, `{:.4f}`) are left out. Stops are reported as a `Stop` value instead.
- Budget.EstimateFor: the cost is an exact real number, not a binary float. Rounding in `0.0009 * n` is not modelled.
- Text.Lower: lower-cases only ASCII letters. No other character lower-cases to `y`, `e` or `s`, so the confirmation decision is unaffected.
- Config.AsLabels: settings values other than None, a sequence of labels or a string are not modelled (for example a dict or a number used as `INCLUDE_APPS`). Neither is the insertion order of the settings dictionary.
- `--help` text and `add_arguments` parsing: the options arrive already parsed as `Options`.
- Generation.RunModels: its own contract only bounds the number of reports. Which reports it produces and what it writes are stated by `Generation.RunModelsReports`, `Generation.ModelReportsFollowModels` and `Generation.RunModelsAppends`, which keeps each proof small.
- Generation.ModelReports: its own contract only bounds the number of reports. Their order and contents are stated by `Generation.ModelReportsFollowModels`.
