/** `build_serializer_prompt`: the user prompt that asks for one DRF ModelSerializer. */
module Prompts {
  import opened Text

  /** One `{"name": ..., "type": ...}` entry of the field list. */
  datatype FieldMeta = FieldMeta(name: string, typeName: string)

  /** The bullet line for one field. */
  function FieldLine(f: FieldMeta): string {
    "- " + f.name + ": " + f.typeName
  }

  /** The field lines, in order. */
  function FieldLines(fields: seq<FieldMeta>): (r: seq<string>)
    ensures |r| == |fields|
    ensures forall i :: 0 <= i < |fields| ==> r[i] == FieldLine(fields[i])
  {
    seq(|fields|, i requires 0 <= i < |fields| => FieldLine(fields[i]))
  }

  /** The `Fields:` section: the bullet lines joined by newlines. */
  function FieldsSection(fields: seq<FieldMeta>): string {
    Join(FieldLines(fields), "\n")
  }

  /**
   * Fixed lines of the template. Lines longer than a few dozen characters are written as
   * concatenations of shorter literals, which the verifier inspects character by character.
   */
  const Intro := "You are given a Django model definition."
  const FieldsHeading := "Fields:"
  const TaskHeading := "Task:"
  const RulesHeading := "Rules:"
  const RuleImport := "- Import from rest_framework " + "import serializers."
  const RuleBase := "- Use serializers.ModelSerializer."
  const RuleAll := "- Set Meta.fields = \"__all__\"."
  const RuleNoComments := "- Do NOT include any " + "explanation or comments."
  const RuleOnlyCode := "- Output ONLY valid Python code " + "that can be appended to " + "a serializers module."

  /** The line naming the app. */
  function AppLine(appLabel: string): string { "App label: " + appLabel }

  /** The line naming the model. */
  function ModelLine(modelName: string): string { "Model name: " + modelName }

  /** The task line, which names the serializer class `<model>Serializer`. */
  function TaskLine(modelName: string): string {
    "Write a Django REST Framework " + "ModelSerializer named " + modelName + "Serializer for this model."
  }

  /** The rule fixing `Meta.model`. */
  function MetaModelRule(modelName: string): string { "- Define Meta.model = " + modelName + "." }

  /** The lines of the prompt up to and including the `Fields:` heading. */
  function HeadLines(appLabel: string, modelName: string): seq<string> {
    ["", Intro, "", AppLine(appLabel), ModelLine(modelName), "", FieldsHeading]
  }

  /** The lines of the prompt after the field section. */
  function TailLines(modelName: string): seq<string> {
    ["", TaskHeading, TaskLine(modelName), "", RulesHeading, RuleImport, RuleBase,
     MetaModelRule(modelName), RuleAll, RuleNoComments, RuleOnlyCode, ""]
  }

  /**
   * The prompt. The source writes it as one triple-quoted f-string; that text is exactly
   * these lines joined by newlines: an empty first line, so the prompt opens with a newline,
   * the fixed lines with the label and model name interpolated, the field section, and an
   * empty last line, so it ends with a newline.
   */
  function BuildPrompt(appLabel: string, modelName: string, fields: seq<FieldMeta>): (r: string)
    ensures |r| > 1 && r[0] == '\n' && r[|r| - 1] == '\n'
  {
    JoinFraming(HeadLines(appLabel, modelName), FieldsSection(fields), TailLines(modelName));
    Join(HeadLines(appLabel, modelName) + [FieldsSection(fields)] + TailLines(modelName), "\n")
  }

  /** With no fields the section is empty; otherwise it splits back into one line per field. */
  lemma FieldsSectionLines(fields: seq<FieldMeta>)
    requires forall i :: 0 <= i < |fields| ==> '\n' !in fields[i].name && '\n' !in fields[i].typeName
    ensures |fields| == 0 ==> FieldsSection(fields) == ""
    ensures |fields| > 0 ==> Split(FieldsSection(fields), '\n') == FieldLines(fields)
  {
    if |fields| > 0 {
      var ls := FieldLines(fields);
      forall i | 0 <= i < |ls| ensures '\n' !in ls[i] {
        assert ls[i] == "- " + fields[i].name + ": " + fields[i].typeName;
      }
      SplitJoin(ls, '\n');
    }
  }

  /** The fixed rule lines are single lines. */
  lemma RuleLinesAreLines()
    ensures '\n' !in RuleImport && '\n' !in RuleBase && '\n' !in RuleAll
    ensures '\n' !in RuleNoComments && '\n' !in RuleOnlyCode
  {
    ImportIsLine();
    NoCommentsIsLine();
    OnlyCodeIsLine();
  }

  // One lemma per long literal keeps each character-by-character check small.
  lemma ImportIsLine() ensures '\n' !in RuleImport {}
  lemma NoCommentsIsLine() ensures '\n' !in RuleNoComments {}
  lemma OnlyCodeIsLine() ensures '\n' !in RuleOnlyCode {}
  lemma IntroIsLine() ensures '\n' !in Intro {}

  /** No line of the template contains a newline, given a label and a model name without one. */
  lemma TemplateLinesAreLines(appLabel: string, modelName: string)
    requires '\n' !in appLabel && '\n' !in modelName
    ensures forall i :: 0 <= i < |HeadLines(appLabel, modelName)| ==> '\n' !in HeadLines(appLabel, modelName)[i]
    ensures forall i :: 0 <= i < |TailLines(modelName)| ==> '\n' !in TailLines(modelName)[i]
  {
    RuleLinesAreLines();
    IntroIsLine();
    TaskLineIsLine(modelName);
    var h, t := HeadLines(appLabel, modelName), TailLines(modelName);
    assert forall i :: 0 <= i < |h| ==> h[i] in {"", Intro, AppLine(appLabel), ModelLine(modelName), FieldsHeading};
    assert forall i :: 0 <= i < |t| ==> t[i] in {"", TaskHeading, TaskLine(modelName), RulesHeading, RuleImport, RuleBase,
                                                  MetaModelRule(modelName), RuleAll, RuleNoComments, RuleOnlyCode};
  }

  /** The interpolated task and `Meta.model` lines stay single lines. */
  lemma TaskLineIsLine(modelName: string)
    requires '\n' !in modelName
    ensures '\n' !in TaskLine(modelName) && '\n' !in MetaModelRule(modelName)
  {}

  /**
   * The line structure of the prompt: fixed lines naming the app and the model, then the
   * field section's lines, then fixed task and rule lines in which only the model name varies.
   */
  lemma {:induction false} PromptLines(appLabel: string, modelName: string, fields: seq<FieldMeta>)
    requires '\n' !in appLabel && '\n' !in modelName
    ensures Split(BuildPrompt(appLabel, modelName, fields), '\n')
            == HeadLines(appLabel, modelName) + Split(FieldsSection(fields), '\n') + TailLines(modelName)
  {
    TemplateLinesAreLines(appLabel, modelName);
    SplitJoinMiddle(HeadLines(appLabel, modelName), FieldsSection(fields), TailLines(modelName), '\n');
  }

  /** The prompt's first seven lines are the head and its last twelve the tail. */
  lemma PromptEnds(appLabel: string, modelName: string, fields: seq<FieldMeta>)
    requires '\n' !in appLabel && '\n' !in modelName
    ensures var ls := Split(BuildPrompt(appLabel, modelName, fields), '\n');
      && |ls| >= 20
      && ls[..7] == HeadLines(appLabel, modelName)
      && ls[|ls| - 12..] == TailLines(modelName)
  {
    PromptLines(appLabel, modelName, fields);
    var mid := Split(FieldsSection(fields), '\n');
    var ls := HeadLines(appLabel, modelName) + mid + TailLines(modelName);
    assert ls[..7] == HeadLines(appLabel, modelName);
    assert ls[|ls| - 12..] == TailLines(modelName);
  }

  /**
   * The prompt names the app and the model on lines 3 and 4, asks for the class
   * `<model>Serializer` on the tenth line from the end, and fixes `Meta.model` on the fifth.
   */
  lemma PromptNamesAppAndModel(appLabel: string, modelName: string, fields: seq<FieldMeta>)
    requires '\n' !in appLabel && '\n' !in modelName
    ensures var ls := Split(BuildPrompt(appLabel, modelName, fields), '\n');
      && |ls| >= 20
      && ls[3] == "App label: " + appLabel
      && ls[4] == "Model name: " + modelName
      && ls[|ls| - 10] == "Write a Django REST Framework " + "ModelSerializer named " + modelName + "Serializer for this model."
      && ls[|ls| - 5] == "- Define Meta.model = " + modelName + "."
  {
    PromptEnds(appLabel, modelName, fields);
    var ls := Split(BuildPrompt(appLabel, modelName, fields), '\n');
    assert ls[3] == ls[..7][3];
    assert ls[4] == ls[..7][4];
    assert ls[|ls| - 10] == ls[|ls| - 12..][2];
    assert ls[|ls| - 5] == ls[|ls| - 12..][7];
  }

  /**
   * Everything but the interpolated parts is fixed: two prompts agree on every head line
   * other than the app and model lines, and on every tail line other than the task and
   * `Meta.model` lines.
   */
  lemma PromptFixedText(a1: string, m1: string, f1: seq<FieldMeta>, a2: string, m2: string, f2: seq<FieldMeta>)
    requires '\n' !in a1 && '\n' !in m1 && '\n' !in a2 && '\n' !in m2
    ensures var ls1, ls2 := Split(BuildPrompt(a1, m1, f1), '\n'), Split(BuildPrompt(a2, m2, f2), '\n');
      && |ls1| >= 20 && |ls2| >= 20
      && ls1[..3] == ls2[..3] && ls1[5..7] == ls2[5..7]
      && ls1[|ls1| - 12..|ls1| - 10] == ls2[|ls2| - 12..|ls2| - 10]
      && ls1[|ls1| - 9..|ls1| - 5] == ls2[|ls2| - 9..|ls2| - 5]
      && ls1[|ls1| - 4..] == ls2[|ls2| - 4..]
  {
    PromptEnds(a1, m1, f1);
    PromptEnds(a2, m2, f2);
    var ls1, ls2 := Split(BuildPrompt(a1, m1, f1), '\n'), Split(BuildPrompt(a2, m2, f2), '\n');
    var t1, t2 := ls1[|ls1| - 12..], ls2[|ls2| - 12..];
    assert ls1[..3] == ls1[..7][..3] && ls2[..3] == ls2[..7][..3];
    assert ls1[5..7] == ls1[..7][5..] && ls2[5..7] == ls2[..7][5..];
    assert ls1[|ls1| - 12..|ls1| - 10] == t1[..2] && ls2[|ls2| - 12..|ls2| - 10] == t2[..2];
    assert ls1[|ls1| - 9..|ls1| - 5] == t1[3..7] && ls2[|ls2| - 9..|ls2| - 5] == t2[3..7];
    assert ls1[|ls1| - 4..] == t1[8..] && ls2[|ls2| - 4..] == t2[8..];
  }

  /** Lines that start and end with an empty line join to a text framed by newlines. */
  lemma JoinFraming(h: seq<string>, s: string, t: seq<string>)
    requires |h| > 1 && h[0] == "" && |t| > 1 && t[|t| - 1] == ""
    ensures var p := Join(h + [s] + t, "\n"); |p| > 1 && p[0] == '\n' && p[|p| - 1] == '\n'
  {
    JoinAppend(h, [s] + t, "\n");
    assert h + [s] + t == h + ([s] + t);
    JoinCons("", h[1..], "\n");
    assert [""] + h[1..] == h;
    var n := |t| - 1;
    JoinAppend([s] + t[..n], [""], "\n");
    assert [s] + t[..n] + [""] == [s] + t;
  }
}
