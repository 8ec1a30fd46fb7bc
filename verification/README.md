# KBStatistics report pipeline, in Dafny

This project models the statistics aggregation and report-emission core of
KBStatistics. That core is the `calculate`, `processFM`, `saveStatistics` and
`saveFMStatistics` methods of `KBStatistics.java`. It takes a run
configuration and writes a numbered, line-oriented report. The configuration
has three parts: `-kb` names, an optional `-fm` feature-model file and an
optional `-fm-dir` directory.

The model is functional. Stat records are immutable datatypes. The external
collaborators are fields of an `Env` record:

- the PC and Renault benchmark KBs;
- feature-model loading, which covers format detection, parser lookup and parsing;
- the FM-to-KB encoding;
- the consistency solver;
- the rendering of the CTC ratio.

A run is a pure function from a configuration and an `Env` to the flushed
report lines and an optional error.

Files:

- `wrappers.dfy`: `Option` and `Result`.
- `decimal.dfy`: Java's decimal rendering of a non-negative `int`, and its reader.
- `lines.dfy`: the report as text. Every line is followed by `"\n"`, and the text splits back at newlines.
- `knowledge_bases.dfy`: the `KB` and `FeatureModel` records and the six relationship kinds.
- `report.dfy`: the entry layouts (`PlainEntry`, `FMBlock`, `Render`, `RenderAll`) and a reader for them. The reader is the writer's partner: every report reads back as exactly the entries written.
- `kb_statistics.dfy`: the orchestrator. It covers the source order (`Sources`), name dispatch and FM loading (`Resolve`), the first-failure split (`ResolvePrefix`), the loop with the shared counter (`Emit`, `Calculate`) and the run-level properties.
- `fixtures.dfy`: the exact lines of the repository's PC, smartwatch and two-file bamboo-bike fixtures.

Two behaviours of the program shape the model:

- The run aborts on the first unsupported name (`checkArgument`, KBStatistics.java:132), the first parse failure (`parser.parse`, line 163) and an unlistable directory (line 151). Nothing after the failing source is written, and every entry before it stays in the file, because the writer is flushed after each entry.
- `Objects.requireNonNull(folder.listFiles())` (line 151) throws when the `-fm-dir` path cannot be listed. The model has an explicit `Unlistable` directory, which ends the run with `DirectoryNotListable` after the named KBs and the `-fm` file.

The FM-to-KB encoding is keyed by the file the model came from, so each file's KB carries its own name. The consistency verdict is keyed by the resolved source, so two files whose statistics agree may still get different verdicts.

## Model

| member | source | states |
|---|---|---|
| Decimal.NatToString | src/main/java/at/tugraz/ist/ase/knowledgebases/app/KBStatistics.java:175-181 | The counter and every count are written as a non-empty digit string with no leading zero. |
| Decimal.ParseNatIff | src/main/java/at/tugraz/ist/ase/knowledgebases/app/KBStatistics.java:175-181 | Decimal rendering and reading are exact inverses: a string reads as n exactly when it is the rendering of n. So a count is written verbatim. |
| Lines.TextAppend | src/main/java/at/tugraz/ist/ase/knowledgebases/app/KBStatistics.java:175-202 | Writing two runs of newline-terminated lines one after the other is plain concatenation of their texts, with no separator. |
| Lines.SplitLinesText | src/main/java/at/tugraz/ist/ase/knowledgebases/app/KBStatistics.java:175-202 | Every line is newline-terminated, so the written text splits back into exactly the lines written, provided none holds a newline. |
| StatisticsReport.Render | src/main/java/at/tugraz/ist/ase/knowledgebases/app/KBStatistics.java:172-202 | A plain entry has 8 lines and a feature-model entry has 19. |
| StatisticsReport.RenderPrefix | src/main/java/at/tugraz/ist/ase/knowledgebases/app/KBStatistics.java:187-192 | A feature-model entry starts with the unchanged plain entry of its derived KB, followed by a blank line. |
| StatisticsReport.DecodePlainEntry | src/main/java/at/tugraz/ist/ase/knowledgebases/app/KBStatistics.java:172-185 | The 8 plain lines read back as the counter, name, source, #variables, #constraints, #Choco variables, #Choco constraints and the consistency verdict, in that order and under those labels. |
| StatisticsReport.DecodeFMBlockOf | src/main/java/at/tugraz/ist/ase/knowledgebases/app/KBStatistics.java:192-202 | The feature-model block reads back as the blank line, the CTC text, #features, #relationships, #constraints and the six kind counts. The kinds come in the order MANDATORY, OPTIONAL, ALTERNATIVE, OR, REQUIRES, EXCLUDES. |
| StatisticsReport.DecodeEntryRender | src/main/java/at/tugraz/ist/ase/knowledgebases/app/KBStatistics.java:172-204 | An entry followed by the next entry reads back as that entry, with its exact length. The entry boundary is unambiguous. |
| StatisticsReport.DecodeReportRenderAll | src/main/java/at/tugraz/ist/ase/knowledgebases/app/KBStatistics.java:135-152 | A report, the concatenation of entries with no separator, reads back as exactly the entries written, in order. |
| StatisticsReport.ReportTextRoundTrip | src/main/java/at/tugraz/ist/ase/knowledgebases/app/KBStatistics.java:172-204 | The report file's text, split at newlines and read, gives back the entries written. This holds when no name, source or CTC text holds a newline. |
| KBStatistics.Sources | src/main/java/at/tugraz/ist/ase/knowledgebases/app/KBStatistics.java:121-154 | Sources are visited in this order: named KBs in the given order, then the `-fm` file, then the directory entries in listing order. An unlistable directory comes last. |
| KBStatistics.Resolve | src/main/java/at/tugraz/ist/ase/knowledgebases/app/KBStatistics.java:123-164 | A name resolves exactly when it is "PC" or "Renault": "PC" to the PC benchmark KB and "Renault" to the Renault KB. Any other name fails with UnsupportedKB. An unlistable directory fails with DirectoryNotListable. A model file resolves exactly when it loads, to its path, its model and the KB encoded from that file's model; otherwise it fails with that file's parse error. |
| KBStatistics.ResolvePrefix | src/main/java/at/tugraz/ist/ase/knowledgebases/app/KBStatistics.java:121-154 | It splits the sources at the first one that fails. All before it resolve, it fails with the reported error, and there is no error exactly when all resolve. |
| KBStatistics.Emit | src/main/java/at/tugraz/ist/ase/knowledgebases/app/KBStatistics.java:119-154 | The loop uses one counter, starting at 0 and pre-incremented per source. The lines written equal the reference run up to the first failure. It makes exactly one consistency solve per entry written. |
| KBStatistics.Calculate | src/main/java/at/tugraz/ist/ase/knowledgebases/app/KBStatistics.java:116-155 | A configured run writes what the reference report of the configuration prescribes and stops with its error. It makes one solve per entry. |
| KBStatistics.ReportReadsBack | src/main/java/at/tugraz/ist/ase/knowledgebases/app/KBStatistics.java:119-152 | On every run, successful or not, the report reads back as one entry per source before the first failure. The i-th entry is numbered i+1 and carries its own source's statistics. Its Consistency line is the solver's verdict on that entry's KB. |
| KBStatistics.SuccessfulRunCount | src/main/java/at/tugraz/ist/ase/knowledgebases/app/KBStatistics.java:121-154 | A run ends without error exactly when every source resolves. It then has (number of names) + (1 if -fm) + (number of directory entries) entries. |
| KBStatistics.NamedKBsFirst | src/main/java/at/tugraz/ist/ase/knowledgebases/app/KBStatistics.java:121-139 | On success, the first #kbs entries are the named KBs in the order given. Each is a plain entry of the KB its name dispatches to. |
| KBStatistics.ModelFileAfterNamedKBs | src/main/java/at/tugraz/ist/ase/knowledgebases/app/KBStatistics.java:141-145 | On success, the `-fm` file's feature-model entry comes right after the named KBs, numbered #kbs + 1. |
| KBStatistics.DirectoryEntriesLast | src/main/java/at/tugraz/ist/ase/knowledgebases/app/KBStatistics.java:147-154 | On success, the directory's files come last, in listing order. They continue the same counter. |
| KBStatistics.FailureKeepsPrefix | src/main/java/at/tugraz/ist/ase/knowledgebases/app/KBStatistics.java:132-184 | When source k is the first to fail, the run reports its error. The flushed report holds exactly the k earlier entries, numbered 1..k. |
| KBStatistics.UnknownKBAborts | src/main/java/at/tugraz/ist/ase/knowledgebases/app/KBStatistics.java:123-135 | A name other than "PC"/"Renault" aborts with UnsupportedKB(name). Only the named KBs before it have entries, and nothing after it is written. |
| KBStatistics.DirectoryParseFailureAborts | src/main/java/at/tugraz/ist/ase/knowledgebases/app/KBStatistics.java:151-167 | A directory file that fails to load ends the run with its parse error. The report reads back as exactly the entries of the named KBs, the `-fm` file and the earlier directory files, each numbered by its position and carrying its own source's statistics, and no later ones. |
| Fixtures.PCReport | src/test/java/at/tugraz/ist/ase/knowledgebases/app/KBStatisticsTest.java:26-53 | `-kb PC` with the PC fixture's statistics writes exactly the eight expected lines, numbered 1. |
| Fixtures.SmartwatchReport | src/test/java/at/tugraz/ist/ase/knowledgebases/app/KBStatisticsTest.java:116-154 | `-fm ./src/test/resources/smartwatch.sxfm` with that model's statistics writes exactly the nineteen expected lines, numbered 1. |
| Fixtures.BambooDirectoryReport | src/test/java/at/tugraz/ist/ase/knowledgebases/app/KBStatisticsTest.java:156-212 | `-fm-dir ./src/test/resources/fms` listing bamboobike.xmi then bamboobike_featureide.xml writes two nineteen-line entries numbered 1 and 2. The files hold the same model, and the entries differ only in the counter and `Name:` lines. |

## Left out

- File I/O is not modelled: `BufferedWriter`, `FileWriter`, `flush`, the `@Cleanup` close, and failures to open or write the output file. The writer is an append-only line sequence. Each entry is appended whole, which is what flushing after every entry makes visible. An I/O error between the two flushes of a feature-model entry (lines 184 and 204) is not modelled.
- The progress messages on `System.out`, `main`, the banner strings, and command-line parsing with its default output path `./statistics.txt` are left out. They are I/O and static configuration.
- The consistency solve (`getSolver().solve()`) is the oracle `Env.consistent`. The Choco solver is external, and its running time and lack of a timeout are outside the model.
- Format detection, parser lookup and parsing are the single oracle `Env.loadFM`, whose failure is a message. This covers `FMFormat.getFMFormat`, `FMParserFactory.getParser` and `parse`. These are external libraries.
- The KB constructors `PCKB`, `RenaultKB` and `FMKB` are the values `Env.pc` and `Env.renault` and the oracle `Env.fmkb`. These are external libraries.
- The CTC ratio is the oracle `Env.ctcText(#FM constraints, #KB constraints)`. The model keeps its position and arguments. It does not model the double division, `Double.toString`, or the Infinity/NaN rendering when the KB has no constraints.
- Counts and the counter are unbounded `nat`s. Java's `int` could in principle be negative or overflow past 2^31-1, and the model does not represent either.
- Exceptions other than the three modelled ones are not modelled. These include a solver failure and a runtime exception inside a parser. An absent `-fm` option is skipped by the guard on line 141, which the model represents as `fm == None`.
- The source has two loops (lines 122 and 151) and one conditional call for the `-fm` file (lines 141-145), all sharing one counter. The model runs one loop over the concatenated source list, which produces the same order and numbering.
- Resolve: does not promise that a model file's KB is named after the file's base name (`File.getName`). That name is set inside the parsers and `FMKB`, which are external; the fixtures state it for the files they use.
- Fixtures.BambooDirectoryReport: assumes a listing of just the first two files that the test expects. That is enough to show the shared counter running across directory entries; the test's other five files add no new behaviour.
- Determinism across runs (same configuration, same report) is inherent in a pure function. No separate lemma states it.
