/**
 * The scenarios of KBStatisticsTest, stated line by line: the PC
 * benchmark (a plain entry), the smartwatch feature model (a feature-model
 * entry) and the first two files of the bamboo-bike directory (two
 * feature-model entries under one counter). The collaborators' answers are
 * the fixtures' known statistics; the lemmas show the exact lines the run emits.
 */
module Fixtures {
  import opened Wrappers
  import opened Decimal
  import opened KnowledgeBases
  import opened StatisticsReport
  import opened KBStatistics

  /** Where the PC and Renault benchmarks come from. */
  const ClibSource := "https://www.itu.dk/research/cla/externals/clib/"

  const SmartwatchPath := "./src/test/resources/smartwatch.sxfm"
  const SmartwatchModel := FeatureModel(12, 6, 4, 2, 2, 1, 1, 2, 1)
  const SmartwatchKB := KB("smartwatch.sxfm", "SPLOT", 12, 10, 26, 22)

  // The small line lemmas below state single literal lines. They only split
  // the fixture proofs into pieces the verifier handles quickly and say
  // nothing about the program beyond the layout lemmas they feed.

  lemma FirstAndVerdictLines()
    ensures NatToString(1) == "1"
    ensures ConsistencyLabel + BoolText(true) == "Consistency: true"
  {
  }

  lemma PCNameLine()
    ensures NameLabel + "PCConfigurationProblem" == "Name: PCConfigurationProblem"
  {
  }

  lemma PCCountLines()
    ensures CountLine(VariablesLabel, 45) == "#variables: 45"
    ensures CountLine(ConstraintsLabel, 36) == "#constraints: 36"
  {
  }

  lemma PCChocoLines()
    ensures CountLine(ChocoVariablesLabel, 1158) == "#Choco variables: 1158"
    ensures CountLine(ChocoConstraintsLabel, 644) == "#Choco constraints: 644"
  {
    assert NatToString(1158) == "1158";
  }

  lemma SmartwatchHeadLines()
    ensures NameLabel + "smartwatch.sxfm" == "Name: smartwatch.sxfm"
    ensures SourceLabel + "SPLOT" == "Source: SPLOT"
  {
  }

  lemma SmartwatchCountLines()
    ensures CountLine(VariablesLabel, 12) == "#variables: 12"
    ensures CountLine(ConstraintsLabel, 10) == "#constraints: 10"
  {
  }

  lemma SmartwatchChocoLines()
    ensures CountLine(ChocoVariablesLabel, 26) == "#Choco variables: 26"
    ensures CountLine(ChocoConstraintsLabel, 22) == "#Choco constraints: 22"
  {
  }

  lemma SmartwatchModelLines()
    ensures CTCLabel + "0.4" == "CTC ratio: 0.4"
    ensures CountLine(FeaturesLabel, 12) == "#features: 12"
    ensures CountLine(RelationshipsLabel, 6) == "#relationships: 6"
    ensures CountLine(ConstraintsLabel, 4) == "#constraints: 4"
  {
  }

  lemma SmartwatchKindLines()
    ensures CountLine(KindLabel(MANDATORY), 2) == "#MANDATORY: 2"
    ensures CountLine(KindLabel(OPTIONAL), 2) == "#OPTIONAL: 2"
    ensures CountLine(KindLabel(ALTERNATIVE), 1) == "#ALTERNATIVE: 1"
  {
  }

  lemma SmartwatchConstraintKindLines()
    ensures CountLine(KindLabel(OR), 1) == "#OR: 1"
    ensures CountLine(KindLabel(REQUIRES), 2) == "#REQUIRES: 2"
    ensures CountLine(KindLabel(EXCLUDES), 1) == "#EXCLUDES: 1"
  {
  }

  /** A run over `-kb PC` writes the eight lines of the PC benchmark, numbered 1. */
  lemma PCReport(env: Env)
    requires env.pc == KB("PCConfigurationProblem", ClibSource, 45, 36, 1158, 644)
    requires env.consistent(NamedKB(env.pc))
    ensures ReportOf(Config(["PC"], None, None), env) == RunResult(
      [ "1",
        "Name: PCConfigurationProblem",
        "Source: " + ClibSource,
        "#variables: 45",
        "#constraints: 36",
        "#Choco variables: 1158",
        "#Choco constraints: 644",
        "Consistency: true" ],
      None)
  {
    var cfg := Config(["PC"], None, None);
    assert Sources(cfg) == [Named("PC")];
    SingleSourceRun(cfg, env);
    FirstAndVerdictLines();
    PCNameLine();
    PCCountLines();
    PCChocoLines();
  }

  lemma SmartwatchPlainPart()
    ensures PlainEntry(PlainRecord(1, SmartwatchKB, true)) ==
      [ "1",
        "Name: smartwatch.sxfm",
        "Source: SPLOT",
        "#variables: 12",
        "#constraints: 10",
        "#Choco variables: 26",
        "#Choco constraints: 22",
        "Consistency: true" ]
  {
    FirstAndVerdictLines();
    SmartwatchHeadLines();
    SmartwatchCountLines();
    SmartwatchChocoLines();
  }

  lemma SmartwatchModelPart()
    ensures FMBlock("0.4", SmartwatchModel) ==
      [ "",
        "CTC ratio: 0.4",
        "#features: 12",
        "#relationships: 6",
        "#constraints: 4",
        "#MANDATORY: 2",
        "#OPTIONAL: 2",
        "#ALTERNATIVE: 1",
        "#OR: 1",
        "#REQUIRES: 2",
        "#EXCLUDES: 1" ]
  {
    SmartwatchModelLines();
    SmartwatchKindLines();
    SmartwatchConstraintKindLines();
  }

  /** The smartwatch entry: the plain part for the derived KB, a blank line and the model's block. */
  lemma SmartwatchEntry()
    ensures Render(WithFM(PlainRecord(1, SmartwatchKB, true), "0.4", SmartwatchModel)) ==
      [ "1",
        "Name: smartwatch.sxfm",
        "Source: SPLOT",
        "#variables: 12",
        "#constraints: 10",
        "#Choco variables: 26",
        "#Choco constraints: 22",
        "Consistency: true",
        "",
        "CTC ratio: 0.4",
        "#features: 12",
        "#relationships: 6",
        "#constraints: 4",
        "#MANDATORY: 2",
        "#OPTIONAL: 2",
        "#ALTERNATIVE: 1",
        "#OR: 1",
        "#REQUIRES: 2",
        "#EXCLUDES: 1" ]
  {
    SmartwatchPlainPart();
    SmartwatchModelPart();
  }

  /** A run over `-fm ./src/test/resources/smartwatch.sxfm` writes the nineteen lines of that model, numbered 1. */
  lemma SmartwatchReport(env: Env)
    requires env.loadFM(SmartwatchPath) == Success(SmartwatchModel)
    requires env.fmkb(SmartwatchPath, SmartwatchModel) == SmartwatchKB
    requires env.consistent(ParsedFM(SmartwatchPath, SmartwatchModel, SmartwatchKB))
    requires env.ctcText(4, 10) == "0.4"
    ensures ReportOf(Config([], Some(SmartwatchPath), None), env) == RunResult(
      [ "1",
        "Name: smartwatch.sxfm",
        "Source: SPLOT",
        "#variables: 12",
        "#constraints: 10",
        "#Choco variables: 26",
        "#Choco constraints: 22",
        "Consistency: true",
        "",
        "CTC ratio: 0.4",
        "#features: 12",
        "#relationships: 6",
        "#constraints: 4",
        "#MANDATORY: 2",
        "#OPTIONAL: 2",
        "#ALTERNATIVE: 1",
        "#OR: 1",
        "#REQUIRES: 2",
        "#EXCLUDES: 1" ],
      None)
  {
    var cfg := Config([], Some(SmartwatchPath), None);
    assert Sources(cfg) == [ModelFile(SmartwatchPath)];
    SingleSourceRun(cfg, env);
    SmartwatchEntry();
  }

  // ---- Two files of one directory: bamboobike.xmi and bamboobike_featureide.xml ----

  const BambooXmiPath := "./src/test/resources/fms/bamboobike.xmi"
  const BambooFeatureIdePath := "./src/test/resources/fms/bamboobike_featureide.xml"

  /** Both files hold the same model, so only the KB's name tells their entries apart. */
  const BambooModel := FeatureModel(11, 6, 2, 2, 2, 1, 1, 1, 1)

  function BambooKB(name: string): KB {
    KB(name, "SPLOT", 11, 8, 24, 19)
  }

  lemma SecondCounterLine()
    ensures NatToString(2) == "2"
  {
  }

  lemma BambooNameLines()
    ensures NameLabel + "bamboobike.xmi" == "Name: bamboobike.xmi"
    ensures NameLabel + "bamboobike_featureide.xml" == "Name: bamboobike_featureide.xml"
  {
  }

  lemma BambooCountLines()
    ensures CountLine(VariablesLabel, 11) == "#variables: 11"
    ensures CountLine(ConstraintsLabel, 8) == "#constraints: 8"
  {
  }

  lemma BambooChocoLines()
    ensures CountLine(ChocoVariablesLabel, 24) == "#Choco variables: 24"
    ensures CountLine(ChocoConstraintsLabel, 19) == "#Choco constraints: 19"
  {
  }

  lemma BambooModelLines()
    ensures CTCLabel + "0.25" == "CTC ratio: 0.25"
    ensures CountLine(FeaturesLabel, 11) == "#features: 11"
    ensures CountLine(RelationshipsLabel, 6) == "#relationships: 6"
    ensures CountLine(ConstraintsLabel, 2) == "#constraints: 2"
  {
  }

  lemma BambooKindLines()
    ensures CountLine(KindLabel(MANDATORY), 2) == "#MANDATORY: 2"
    ensures CountLine(KindLabel(OPTIONAL), 2) == "#OPTIONAL: 2"
    ensures CountLine(KindLabel(ALTERNATIVE), 1) == "#ALTERNATIVE: 1"
  {
  }

  lemma BambooConstraintKindLines()
    ensures CountLine(KindLabel(OR), 1) == "#OR: 1"
    ensures CountLine(KindLabel(REQUIRES), 1) == "#REQUIRES: 1"
    ensures CountLine(KindLabel(EXCLUDES), 1) == "#EXCLUDES: 1"
  {
  }

  /** The six plain lines after the name, the same for both files. */
  const BambooPlainTail: seq<string> :=
    [ "Source: SPLOT",
      "#variables: 11",
      "#constraints: 8",
      "#Choco variables: 24",
      "#Choco constraints: 19",
      "Consistency: true" ]

  /** The feature-model block, the same for both files. */
  const BambooModelBlock: seq<string> :=
    [ "",
      "CTC ratio: 0.25",
      "#features: 11",
      "#relationships: 6",
      "#constraints: 2",
      "#MANDATORY: 2",
      "#OPTIONAL: 2",
      "#ALTERNATIVE: 1",
      "#OR: 1",
      "#REQUIRES: 1",
      "#EXCLUDES: 1" ]

  lemma BambooPlainPart(counter: nat, name: string)
    ensures PlainEntry(PlainRecord(counter, BambooKB(name), true))
         == [NatToString(counter), NameLabel + name] + BambooPlainTail
  {
    FirstAndVerdictLines();
    SmartwatchHeadLines();
    BambooCountLines();
    BambooChocoLines();
  }

  lemma BambooModelPart()
    ensures FMBlock("0.25", BambooModel) == BambooModelBlock
  {
    BambooModelLines();
    BambooKindLines();
    BambooConstraintKindLines();
  }

  /** The entry of one bamboo-bike file, as the run builds it. */
  function BambooEntry(counter: nat, name: string): EntryRecord {
    WithFM(PlainRecord(counter, BambooKB(name), true), "0.25", BambooModel)
  }

  /** Every bamboo-bike entry: its counter, its name, then seventeen lines shared by both files. */
  lemma BambooEntryLines(counter: nat, name: string)
    ensures Render(BambooEntry(counter, name))
         == [NatToString(counter), NameLabel + name] + (BambooPlainTail + BambooModelBlock)
  {
    var e := BambooEntry(counter, name);
    BambooPlainPart(counter, name);
    BambooModelPart();
    assert Render(e) == PlainEntry(e.plain) + FMBlock(e.ctc, e.fm);
    var h := [NatToString(counter), NameLabel + name];
    assert (h + BambooPlainTail) + BambooModelBlock == h + (BambooPlainTail + BambooModelBlock);
  }

  /** The two files resolve in listing order and get entries 1 and 2. */
  lemma BambooDirectoryRun(env: Env)
    requires env.loadFM(BambooXmiPath) == Success(BambooModel)
    requires env.loadFM(BambooFeatureIdePath) == Success(BambooModel)
    requires env.fmkb(BambooXmiPath, BambooModel) == BambooKB("bamboobike.xmi")
    requires env.fmkb(BambooFeatureIdePath, BambooModel) == BambooKB("bamboobike_featureide.xml")
    requires env.consistent(ParsedFM(BambooXmiPath, BambooModel, BambooKB("bamboobike.xmi")))
    requires env.consistent(ParsedFM(BambooFeatureIdePath, BambooModel, BambooKB("bamboobike_featureide.xml")))
    requires env.ctcText(2, 8) == "0.25"
    ensures ReportOf(Config([], None, Some(Listing([BambooXmiPath, BambooFeatureIdePath]))), env)
         == RunResult(Render(BambooEntry(1, "bamboobike.xmi")) + Render(BambooEntry(2, "bamboobike_featureide.xml")), None)
  {
    var cfg := Config([], None, Some(Listing([BambooXmiPath, BambooFeatureIdePath])));
    assert Sources(cfg) == [ModelFile(BambooXmiPath), ModelFile(BambooFeatureIdePath)];
    TwoSourceRun(cfg, env);
  }

  /**
   * A run over `-fm-dir ./src/test/resources/fms` whose listing is
   * bamboobike.xmi then bamboobike_featureide.xml writes two nineteen-line
   * entries, numbered 1 and 2, that differ only in their counter and name
   * lines; the other seventeen lines are `BambooPlainTail` then `BambooModelBlock`.
   */
  lemma BambooDirectoryReport(env: Env)
    requires env.loadFM(BambooXmiPath) == Success(BambooModel)
    requires env.loadFM(BambooFeatureIdePath) == Success(BambooModel)
    requires env.fmkb(BambooXmiPath, BambooModel) == BambooKB("bamboobike.xmi")
    requires env.fmkb(BambooFeatureIdePath, BambooModel) == BambooKB("bamboobike_featureide.xml")
    requires env.consistent(ParsedFM(BambooXmiPath, BambooModel, BambooKB("bamboobike.xmi")))
    requires env.consistent(ParsedFM(BambooFeatureIdePath, BambooModel, BambooKB("bamboobike_featureide.xml")))
    requires env.ctcText(2, 8) == "0.25"
    ensures var r := ReportOf(Config([], None, Some(Listing([BambooXmiPath, BambooFeatureIdePath]))), env);
      && r.error == None
      && |r.output| == 38
      && r.output[..19] == ["1", "Name: bamboobike.xmi"] + (BambooPlainTail + BambooModelBlock)
      && r.output[19..] == ["2", "Name: bamboobike_featureide.xml"] + (BambooPlainTail + BambooModelBlock)
  {
    var out := ReportOf(Config([], None, Some(Listing([BambooXmiPath, BambooFeatureIdePath]))), env).output;
    var first := Render(BambooEntry(1, "bamboobike.xmi"));
    var second := Render(BambooEntry(2, "bamboobike_featureide.xml"));
    BambooDirectoryRun(env);
    assert out[..19] == first && out[19..] == second;
    FirstAndVerdictLines();
    SecondCounterLine();
    BambooNameLines();
    BambooEntryLines(1, "bamboobike.xmi");
    BambooEntryLines(2, "bamboobike_featureide.xml");
  }
}
