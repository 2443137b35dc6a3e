/** Concrete runs of the command on small registries. */
module Scenarios {
  import opened Wrappers
  import opened Text
  import opened Registry
  import opened Prompts
  import opened LlmClient
  import opened Selection
  import opened Generation
  import opened Command

  const TitleField := Field("title", "CharField", false, true)
  const IdField := Field("id", "AutoField", true, true)
  const Post := ModelDesc("Post", [TitleField, IdField])
  const Blog := App("blog", "blog", "/proj/blog", [Post])
  const PostCode := "class PostSerializer: ..."

  /** A concrete auto-created primary key is described; a reverse relation is not. */
  lemma PrimaryKeyKeptReverseRelationDropped()
    ensures FieldsMeta([TitleField, IdField, Field("comments", "ManyToOneRel", true, false)])
            == [FieldMeta("title", "CharField"), FieldMeta("id", "AutoField")]
  {
    var fs := [TitleField, IdField, Field("comments", "ManyToOneRel", true, false)];
    assert fs[1..] == [IdField, Field("comments", "ManyToOneRel", true, false)];
    assert fs[1..][1..] == [Field("comments", "ManyToOneRel", true, false)];
  }

  /** A service stand-in that answers every prompt with the `Post` serializer. */
  function AnswerPost(prompt: string): LlmReply {
    Code(PostCode)
  }

  const BlogOptions := Options(None, false, true, None, false)

  lemma BlogSelected()
    ensures SelectApps([Blog], PolicyOf(Config.GetConfig(None), None)) == [Blog]
  {
    var policy := PolicyOf(Config.GetConfig(None), None);
    assert !IsContrib(Blog);
    assert Admitted(Blog, policy);
    assert [Blog][1..] == [];
  }

  lemma BlogScanned()
    ensures Scan([Blog], false) == ScanResult([Entry(Blog, [Post])], 1, 1)
  {
    assert [Blog][1..] == [];
    assert Scan([], false) == ScanResult([], 0, 0);
  }

  lemma PostWritten()
    ensures GenerateForApp(Blog, [Post], None, AnswerPost, Absent) == AppRun(Header + PostCode + "\n\n\n", [Report("Post", Written(PostCode))])
  {
    assert PostCode[0] == 'c';
    assert !IsBlank(PostCode);
    assert !EndsWithNewline(PostCode);
    assert [Post][1..] == [];
    var run := GenerateForApp(Blog, [Post], None, AnswerPost, Absent);
    assert run.reports == [Report("Post", Written(PostCode))];
    assert AppendedText(run.reports) == PostCode + "\n\n\n";
  }

  lemma BlogPhase()
    ensures GeneratePhase([Entry(Blog, [Post])], None, AnswerPost, map[]).files
            == map[OutputPath("/proj/blog") := Header + PostCode + "\n\n\n"]
  {
    var entries := [Entry(Blog, [Post])];
    assert entries[1..] == [];
    PostWritten();
    assert Lookup(map[], OutputPath("/proj/blog")) == Absent;
  }

  lemma BlogGenerated()
    ensures AfterScan(ScanResult([Entry(Blog, [Post])], 1, 1), BlogOptions, "", AnswerPost, map[]).files
            == map[OutputPath("/proj/blog") := Header + PostCode + "\n\n\n"]
  {
    BlogPhase();
  }

  /**
   * The app `blog` with one model `Post`, confirmed with `--yes`, against a service that
   * answers with a serializer class: a fresh output file holds the header and that code.
   */
  lemma BlogPostEndToEnd()
    ensures Handle(None, [Blog], BlogOptions, "", AnswerPost, map[]).files
            == map[OutputPath("/proj/blog") := Header + PostCode + "\n\n\n"]
  {
    var r := Handle(None, [Blog], BlogOptions, "", AnswerPost, map[]);
    BlogSelected();
    assert !r.stop.NoMatchingApps?;
    BlogScanned();
    assert r == AfterScan(ScanResult([Entry(Blog, [Post])], 1, 1), BlogOptions, "", AnswerPost, map[]);
    BlogGenerated();
  }
}
