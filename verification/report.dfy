/**
 * The report entry layout written by `saveStatistics` and `saveFMStatistics`,
 * and a reader for it. The reader is the partner of the writer: every entry,
 * and every concatenation of entries, reads back as exactly the records that
 * produced it, which pins down field order, labels and the entry boundaries.
 */
module StatisticsReport {
  import opened Wrappers
  import opened Decimal
  import opened Lines
  import opened KnowledgeBases

  /** The content of a plain entry: its sequence number, the KB's fields and the solver verdict. */
  datatype PlainRecord = PlainRecord(counter: nat, kb: KB, consistent: bool)

  /** One report entry; a feature-model entry adds the CTC ratio text and the model's counts. */
  datatype EntryRecord =
    | Plain(plain: PlainRecord)
    | WithFM(plain: PlainRecord, ctc: string, fm: FeatureModel)

  const NameLabel := "Name: "
  const SourceLabel := "Source: "
  const VariablesLabel := "#variables: "
  const ConstraintsLabel := "#constraints: "
  const ChocoVariablesLabel := "#Choco variables: "
  const ChocoConstraintsLabel := "#Choco constraints: "
  const ConsistencyLabel := "Consistency: "
  const CTCLabel := "CTC ratio: "
  const FeaturesLabel := "#features: "
  const RelationshipsLabel := "#relationships: "

  function KindLabel(t: RelationshipType): string {
    match t
    case MANDATORY => "#MANDATORY: "
    case OPTIONAL => "#OPTIONAL: "
    case ALTERNATIVE => "#ALTERNATIVE: "
    case OR => "#OR: "
    case REQUIRES => "#REQUIRES: "
    case EXCLUDES => "#EXCLUDES: "
  }

  /** Java's rendering of a boolean. */
  function BoolText(b: bool): string {
    if b then "true" else "false"
  }

  function CountLine(caption: string, n: nat): string {
    caption + NatToString(n)
  }

  /** The lines `saveStatistics` writes for one knowledge base. */
  function PlainEntry(r: PlainRecord): (lines: seq<string>)
    ensures |lines| == 8
  {
    [ NatToString(r.counter),
      NameLabel + r.kb.name,
      SourceLabel + r.kb.source,
      CountLine(VariablesLabel, r.kb.numVariables),
      CountLine(ConstraintsLabel, r.kb.numConstraints),
      CountLine(ChocoVariablesLabel, r.kb.numChocoVars),
      CountLine(ChocoConstraintsLabel, r.kb.numChocoConstraints),
      ConsistencyLabel + BoolText(r.consistent) ]
  }

  /** The lines `saveFMStatistics` appends after the plain entry of the derived KB. */
  function FMBlock(ctc: string, fm: FeatureModel): (lines: seq<string>)
    ensures |lines| == 11
  {
    [ "",
      CTCLabel + ctc,
      CountLine(FeaturesLabel, fm.numFeatures),
      CountLine(RelationshipsLabel, fm.numRelationships),
      CountLine(ConstraintsLabel, fm.numConstraints),
      CountLine(KindLabel(MANDATORY), fm.NumOfRelationships(MANDATORY)),
      CountLine(KindLabel(OPTIONAL), fm.NumOfRelationships(OPTIONAL)),
      CountLine(KindLabel(ALTERNATIVE), fm.NumOfRelationships(ALTERNATIVE)),
      CountLine(KindLabel(OR), fm.NumOfRelationships(OR)),
      CountLine(KindLabel(REQUIRES), fm.NumOfRelationships(REQUIRES)),
      CountLine(KindLabel(EXCLUDES), fm.NumOfRelationships(EXCLUDES)) ]
  }

  /** The lines of one entry, in the layout its kind calls for. */
  function Render(e: EntryRecord): (lines: seq<string>)
    ensures |lines| == (if e.Plain? then 8 else 19)
  {
    match e
    case Plain(p) => PlainEntry(p)
    case WithFM(p, ctc, fm) => PlainEntry(p) + FMBlock(ctc, fm)
  }

  /** Every entry starts with the plain entry of its KB; a feature-model entry continues with a blank line. */
  lemma RenderPrefix(e: EntryRecord)
    ensures Render(e)[..8] == PlainEntry(e.plain)
    ensures e.WithFM? ==> Render(e)[8] == ""
  {
  }

  /** A report: the entries' lines one after the other, with no separator. */
  function RenderAll(es: seq<EntryRecord>): seq<string>
    decreases |es|
  {
    if |es| == 0 then [] else Render(es[0]) + RenderAll(es[1..])
  }

  // Two generic sequence facts, kept apart so that proofs about reports stay small.

  lemma AppendAssoc<T>(x: seq<T>, y: seq<T>, z: seq<T>)
    ensures x + (y + z) == (x + y) + z
  {
  }

  lemma HeadTailAppend<T>(a: seq<T>, b: seq<T>)
    requires |a| > 0
    ensures (a + b)[0] == a[0] && (a + b)[1..] == a[1..] + b
  {
  }

  lemma RenderAllAppendStep(a: seq<EntryRecord>, b: seq<EntryRecord>)
    requires |a| > 0
    requires RenderAll(a[1..] + b) == RenderAll(a[1..]) + RenderAll(b)
    ensures RenderAll(a + b) == RenderAll(a) + RenderAll(b)
  {
    var h := Render(a[0]);
    HeadTailAppend(a, b);
    assert RenderAll(a + b) == h + RenderAll(a[1..] + b);
    assert RenderAll(a) == h + RenderAll(a[1..]);
    AppendAssoc(h, RenderAll(a[1..]), RenderAll(b));
  }

  lemma {:induction false} RenderAllAppend(a: seq<EntryRecord>, b: seq<EntryRecord>)
    ensures RenderAll(a + b) == RenderAll(a) + RenderAll(b)
    decreases |a|
  {
    if |a| == 0 {
      assert a + b == b;
    } else {
      RenderAllAppend(a[1..], b);
      RenderAllAppendStep(a, b);
    }
  }

  /** Writing one more entry appends exactly its lines. */
  lemma RenderAllSnoc(es: seq<EntryRecord>, e: EntryRecord)
    ensures RenderAll(es + [e]) == RenderAll(es) + Render(e)
  {
    RenderAllAppend(es, [e]);
    assert [e][1..] == [];
  }

  /** A non-empty report starts with the first entry's sequence number, so its first line is not blank. */
  lemma RenderAllHead(es: seq<EntryRecord>)
    requires |es| > 0
    ensures |RenderAll(es)| > 0 && RenderAll(es)[0] == NatToString(es[0].plain.counter)
  {
    var r := Render(es[0]);
    RenderPrefix(es[0]);
    assert r[..8][0] == r[0];
  }

  // ---- Reading a report back ----

  /** The value part of `line` when it carries `caption`. */
  function StripLabel(caption: string, line: string): Option<string> {
    if |caption| <= |line| && line[..|caption|] == caption then Some(line[|caption|..]) else None
  }

  function ReadCount(caption: string, line: string): Option<nat> {
    var v :- StripLabel(caption, line);
    ParseNat(v)
  }

  function ReadBool(s: string): Option<bool> {
    if s == "true" then Some(true) else if s == "false" then Some(false) else None
  }

  function DecodePlain(lines: seq<string>): Option<PlainRecord> {
    if |lines| != 8 then None
    else
      var counter :- ParseNat(lines[0]);
      var name :- StripLabel(NameLabel, lines[1]);
      var source :- StripLabel(SourceLabel, lines[2]);
      var vars :- ReadCount(VariablesLabel, lines[3]);
      var cons :- ReadCount(ConstraintsLabel, lines[4]);
      var chocoVars :- ReadCount(ChocoVariablesLabel, lines[5]);
      var chocoCons :- ReadCount(ChocoConstraintsLabel, lines[6]);
      var verdict :- StripLabel(ConsistencyLabel, lines[7]);
      var consistent :- ReadBool(verdict);
      Some(PlainRecord(counter, KB(name, source, vars, cons, chocoVars, chocoCons), consistent))
  }

  function DecodeFMBlock(lines: seq<string>): Option<(string, FeatureModel)> {
    if |lines| != 11 || lines[0] != "" then None
    else
      var ctc :- StripLabel(CTCLabel, lines[1]);
      var features :- ReadCount(FeaturesLabel, lines[2]);
      var relationships :- ReadCount(RelationshipsLabel, lines[3]);
      var constraints :- ReadCount(ConstraintsLabel, lines[4]);
      var mandatory :- ReadCount(KindLabel(MANDATORY), lines[5]);
      var optional :- ReadCount(KindLabel(OPTIONAL), lines[6]);
      var alternative :- ReadCount(KindLabel(ALTERNATIVE), lines[7]);
      var or :- ReadCount(KindLabel(OR), lines[8]);
      var requires_ :- ReadCount(KindLabel(REQUIRES), lines[9]);
      var excludes :- ReadCount(KindLabel(EXCLUDES), lines[10]);
      Some((ctc, FeatureModel(features, relationships, constraints,
                              mandatory, optional, alternative, or, requires_, excludes)))
  }

  /**
   * Reads the entry at the head of `lines` and says how many lines it took:
   * eight, or nineteen when a blank line follows the plain part.
   */
  function DecodeEntry(lines: seq<string>): (r: Option<(EntryRecord, nat)>)
    ensures r.Some? ==> 8 <= r.value.1 <= |lines|
  {
    if |lines| < 8 then None
    else
      var p :- DecodePlain(lines[..8]);
      if |lines| > 8 && lines[8] == "" then
        if |lines| < 19 then None
        else
          var block :- DecodeFMBlock(lines[8..19]);
          Some((WithFM(p, block.0, block.1), 19))
      else
        Some((Plain(p), 8))
  }

  /** Reads a whole report into its entries, or fails if any entry is malformed. */
  function DecodeReport(lines: seq<string>): Option<seq<EntryRecord>>
    decreases |lines|
  {
    if |lines| == 0 then Some([])
    else
      var head :- DecodeEntry(lines);
      var rest :- DecodeReport(lines[head.1..]);
      Some([head.0] + rest)
  }

  lemma StripLabelOf(caption: string, v: string)
    ensures StripLabel(caption, caption + v) == Some(v)
  {
    assert (caption + v)[..|caption|] == caption;
    assert (caption + v)[|caption|..] == v;
  }

  lemma ReadCountOf(caption: string, n: nat)
    ensures ReadCount(caption, CountLine(caption, n)) == Some(n)
  {
    StripLabelOf(caption, NatToString(n));
    ParseNatToString(n);
  }

  /** A plain entry reads back as the counter, all six KB fields and the verdict, in that order. */
  lemma DecodePlainEntry(r: PlainRecord)
    ensures DecodePlain(PlainEntry(r)) == Some(r)
  {
    ParseNatToString(r.counter);
    StripLabelOf(NameLabel, r.kb.name);
    StripLabelOf(SourceLabel, r.kb.source);
    ReadCountOf(VariablesLabel, r.kb.numVariables);
    ReadCountOf(ConstraintsLabel, r.kb.numConstraints);
    ReadCountOf(ChocoVariablesLabel, r.kb.numChocoVars);
    ReadCountOf(ChocoConstraintsLabel, r.kb.numChocoConstraints);
    StripLabelOf(ConsistencyLabel, BoolText(r.consistent));
  }

  /** The feature-model block reads back as the CTC text and all nine model counts. */
  lemma DecodeFMBlockOf(ctc: string, fm: FeatureModel)
    ensures DecodeFMBlock(FMBlock(ctc, fm)) == Some((ctc, fm))
  {
    StripLabelOf(CTCLabel, ctc);
    ReadCountOf(FeaturesLabel, fm.numFeatures);
    ReadCountOf(RelationshipsLabel, fm.numRelationships);
    ReadCountOf(ConstraintsLabel, fm.numConstraints);
    ReadCountOf(KindLabel(MANDATORY), fm.numMandatory);
    ReadCountOf(KindLabel(OPTIONAL), fm.numOptional);
    ReadCountOf(KindLabel(ALTERNATIVE), fm.numAlternative);
    ReadCountOf(KindLabel(OR), fm.numOr);
    ReadCountOf(KindLabel(REQUIRES), fm.numRequires);
    ReadCountOf(KindLabel(EXCLUDES), fm.numExcludes);
  }

  /** An entry followed by anything that does not start with a blank line reads back as that entry. */
  lemma DecodeEntryRender(e: EntryRecord, rest: seq<string>)
    requires |rest| == 0 || rest[0] != ""
    ensures DecodeEntry(Render(e) + rest) == Some((e, |Render(e)|))
  {
    var r := Render(e);
    var lines := r + rest;
    RenderPrefix(e);
    assert lines[..8] == PlainEntry(e.plain);
    DecodePlainEntry(e.plain);
    match e
    case Plain(p) =>
      assert |lines| > 8 ==> lines[8] == rest[0];
    case WithFM(p, ctc, fm) =>
      assert lines[8..19] == FMBlock(ctc, fm);
      DecodeFMBlockOf(ctc, fm);
  }

  /** A report never starts with a blank line. */
  lemma RenderAllNotBlank(es: seq<EntryRecord>)
    ensures |RenderAll(es)| == 0 || RenderAll(es)[0] != ""
  {
    if |es| > 0 {
      RenderAllHead(es);
    }
  }

  /** One step of reading a report: its head entry, then the rest. */
  lemma DecodeReportStep(head: seq<string>, rest: seq<string>, e: EntryRecord, tail: seq<EntryRecord>)
    requires |head| > 0
    requires DecodeEntry(head + rest) == Some((e, |head|))
    requires DecodeReport(rest) == Some(tail)
    ensures DecodeReport(head + rest) == Some([e] + tail)
  {
    assert (head + rest)[|head|..] == rest;
  }

  /** Writing an entry in front of a readable report gives a report that reads back one entry longer. */
  lemma DecodeReportPrepend(e: EntryRecord, rest: seq<string>, tail: seq<EntryRecord>)
    requires |rest| == 0 || rest[0] != ""
    requires DecodeReport(rest) == Some(tail)
    ensures DecodeReport(Render(e) + rest) == Some([e] + tail)
  {
    DecodeEntryRender(e, rest);
    DecodeReportStep(Render(e), rest, e, tail);
  }

  lemma RenderAllCons(es: seq<EntryRecord>)
    requires |es| > 0
    ensures RenderAll(es) == Render(es[0]) + RenderAll(es[1..])
  {
  }

  /** A report reads back as exactly the entries that were written, in order. */
  lemma {:induction false} DecodeReportRenderAll(es: seq<EntryRecord>)
    ensures DecodeReport(RenderAll(es)) == Some(es)
    decreases |es|
  {
    if |es| > 0 {
      var tail := RenderAll(es[1..]);
      RenderAllNotBlank(es[1..]);
      DecodeReportRenderAll(es[1..]);
      DecodeReportPrepend(es[0], tail, es[1..]);
      RenderAllCons(es);
      assert es == [es[0]] + es[1..];
    }
  }

  /** The free-text fields of an entry hold no line break. */
  predicate Printable(e: EntryRecord) {
    && NoNewline(e.plain.kb.name)
    && NoNewline(e.plain.kb.source)
    && (e.WithFM? ==> NoNewline(e.ctc))
  }

  lemma CountLineNoNewline(caption: string, n: nat)
    requires NoNewline(caption)
    ensures NoNewline(CountLine(caption, n))
  {
    NatToStringNoNewline(n);
  }

  lemma KBCountLinesNoNewline(kb: KB)
    ensures NoNewline(CountLine(VariablesLabel, kb.numVariables))
    ensures NoNewline(CountLine(ConstraintsLabel, kb.numConstraints))
    ensures NoNewline(CountLine(ChocoVariablesLabel, kb.numChocoVars))
    ensures NoNewline(CountLine(ChocoConstraintsLabel, kb.numChocoConstraints))
  {
    CountLineNoNewline(VariablesLabel, kb.numVariables);
    CountLineNoNewline(ConstraintsLabel, kb.numConstraints);
    CountLineNoNewline(ChocoVariablesLabel, kb.numChocoVars);
    CountLineNoNewline(ChocoConstraintsLabel, kb.numChocoConstraints);
  }

  lemma PlainEntryNoNewline(r: PlainRecord)
    requires NoNewline(r.kb.name) && NoNewline(r.kb.source)
    ensures forall i :: 0 <= i < 8 ==> NoNewline(PlainEntry(r)[i])
  {
    var p := PlainEntry(r);
    NatToStringNoNewline(r.counter);
    assert NoNewline(p[1]) && NoNewline(p[2]) && NoNewline(p[7]);
    KBCountLinesNoNewline(r.kb);
  }

  lemma KindLinesNoNewline(fm: FeatureModel)
    ensures forall t: RelationshipType :: NoNewline(CountLine(KindLabel(t), fm.NumOfRelationships(t)))
  {
    forall t: RelationshipType
      ensures NoNewline(CountLine(KindLabel(t), fm.NumOfRelationships(t)))
    {
      CountLineNoNewline(KindLabel(t), fm.NumOfRelationships(t));
    }
  }

  lemma FMBlockNoNewline(ctc: string, fm: FeatureModel)
    requires NoNewline(ctc)
    ensures forall i :: 0 <= i < 11 ==> NoNewline(FMBlock(ctc, fm)[i])
  {
    var b := FMBlock(ctc, fm);
    assert NoNewline(b[0]) && NoNewline(b[1]);
    CountLineNoNewline(FeaturesLabel, fm.numFeatures);
    CountLineNoNewline(RelationshipsLabel, fm.numRelationships);
    CountLineNoNewline(ConstraintsLabel, fm.numConstraints);
    KindLinesNoNewline(fm);
  }

  lemma RenderNoNewline(e: EntryRecord)
    requires Printable(e)
    ensures forall i :: 0 <= i < |Render(e)| ==> NoNewline(Render(e)[i])
  {
    PlainEntryNoNewline(e.plain);
    if e.WithFM? {
      FMBlockNoNewline(e.ctc, e.fm);
    }
  }

  lemma {:induction false} RenderAllNoNewline(es: seq<EntryRecord>)
    requires forall i :: 0 <= i < |es| ==> Printable(es[i])
    ensures forall i :: 0 <= i < |RenderAll(es)| ==> NoNewline(RenderAll(es)[i])
    decreases |es|
  {
    if |es| > 0 {
      RenderNoNewline(es[0]);
      RenderAllNoNewline(es[1..]);
    }
  }

  /**
   * The report file itself: splitting its text at newlines and reading the
   * lines back yields the entries written, when no name, source or CTC text
   * holds a line break.
   */
  lemma ReportTextRoundTrip(es: seq<EntryRecord>)
    requires forall i :: 0 <= i < |es| ==> Printable(es[i])
    ensures DecodeReport(SplitLines(Text(RenderAll(es)))) == Some(es)
  {
    RenderAllNoNewline(es);
    SplitLinesText(RenderAll(es));
    DecodeReportRenderAll(es);
  }
}
