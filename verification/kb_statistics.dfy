/**
 * The batch orchestrator of KBStatistics (`calculate` and `processFM`): it
 * walks the configured sources in a fixed order, numbers them with one shared
 * counter, resolves each to a knowledge base (optionally with its feature
 * model), asks the solver once for its consistency and appends its entry to
 * the report. The first source that cannot be resolved ends the run; the
 * report then holds exactly the entries written before it, since the writer
 * is flushed after every entry.
 */
module KBStatistics {
  import opened Wrappers
  import opened KnowledgeBases
  import opened StatisticsReport

  /** What `-fm-dir` yields: the directory's entries in listing order, or no listing at all. */
  datatype Directory = Listing(files: seq<string>) | Unlistable

  /** The run configuration: `-kb` names, the `-fm` file and the `-fm-dir` directory. */
  datatype Config = Config(kbs: seq<string>, fm: Option<string>, fmDir: Option<Directory>)

  /**
   * The collaborators the orchestrator calls but does not implement: the two
   * built-in benchmark KBs, feature-model loading (format detection, parser
   * lookup and parsing, failing with a message), the FM-to-KB encoding, the
   * consistency solve and the textual CTC ratio of (#FM constraints, #KB constraints).
   * The encoding is keyed by the file the model was parsed from, since the KB
   * it builds carries that file's name; the solve is keyed by the resolved
   * source, since two KBs with equal statistics may still differ in their
   * constraints.
   */
  datatype Env = Env(
    pc: KB,
    renault: KB,
    loadFM: string -> Result<FeatureModel, string>,
    fmkb: (string, FeatureModel) -> KB,
    consistent: Resolved -> bool,
    ctcText: (nat, nat) -> string)

  /** One unit of work. An unlistable directory is a source that always fails. */
  datatype Source = Named(name: string) | ModelFile(path: string) | UnlistableDir

  /** Why a run stopped early. */
  datatype Error =
    | UnsupportedKB(name: string)
    | ParseError(path: string, message: string)
    | DirectoryNotListable

  /** A source after its knowledge base (and, for a model file, its feature model) have been built. */
  datatype Resolved = NamedKB(kb: KB) | ParsedFM(path: string, fm: FeatureModel, kb: KB)

  /** What a run leaves behind: the report lines flushed so far and the error that ended it, if any. */
  datatype RunResult = RunResult(output: seq<string>, error: Option<Error>)

  function FMSources(fm: Option<string>): seq<Source> {
    if fm.Some? then [ModelFile(fm.value)] else []
  }

  function DirSources(d: Option<Directory>): seq<Source> {
    match d
    case None => []
    case Some(Listing(files)) => seq(|files|, i requires 0 <= i < |files| => ModelFile(files[i]))
    case Some(Unlistable) => [UnlistableDir]
  }

  function DirCount(d: Option<Directory>): nat {
    if d.Some? && d.value.Listing? then |d.value.files| else 0
  }

  /**
   * The order in which `calculate` visits sources: the named KBs as given,
   * then the `-fm` file, then the directory's entries in listing order.
   */
  function Sources(cfg: Config): (srcs: seq<Source>)
    ensures |srcs| == |cfg.kbs| + |FMSources(cfg.fm)| + |DirSources(cfg.fmDir)|
    ensures forall i :: 0 <= i < |cfg.kbs| ==> srcs[i] == Named(cfg.kbs[i])
    ensures cfg.fm.Some? ==> srcs[|cfg.kbs|] == ModelFile(cfg.fm.value)
    ensures cfg.fmDir.Some? && cfg.fmDir.value.Listing? ==>
      var files := cfg.fmDir.value.files;
      var offset := |cfg.kbs| + |FMSources(cfg.fm)|;
      forall j :: 0 <= j < |files| ==> srcs[offset + j] == ModelFile(files[j])
    ensures cfg.fmDir == Some(Unlistable) ==> srcs[|srcs| - 1] == UnlistableDir
  {
    seq(|cfg.kbs|, i requires 0 <= i < |cfg.kbs| => Named(cfg.kbs[i]))
      + FMSources(cfg.fm) + DirSources(cfg.fmDir)
  }

  /** The named-KB dispatch: only the exact names "PC" and "Renault" are supported. */
  function LookupNamed(env: Env, name: string): Option<KB> {
    if name == "PC" then Some(env.pc)
    else if name == "Renault" then Some(env.renault)
    else None
  }

  /** Builds the knowledge base of one source, or the error that aborts the run. */
  function Resolve(env: Env, src: Source): (r: Result<Resolved, Error>)
    ensures src.Named? ==>
      (r.Success? <==> src.name == "PC" || src.name == "Renault")
    ensures src.Named? && r.Failure? ==> r.error == UnsupportedKB(src.name)
    ensures src == Named("PC") ==> r == Success(NamedKB(env.pc))
    ensures src == Named("Renault") ==> r == Success(NamedKB(env.renault))
    ensures src.ModelFile? ==>
      (r.Success? <==> env.loadFM(src.path).Success?)
    ensures src.ModelFile? && r.Success? ==>
      r.value == ParsedFM(src.path, env.loadFM(src.path).value, env.fmkb(src.path, env.loadFM(src.path).value))
    ensures src.ModelFile? && r.Failure? ==>
      r.error == ParseError(src.path, env.loadFM(src.path).error)
    ensures src.UnlistableDir? ==> r == Failure(DirectoryNotListable)
  {
    match src
    case Named(name) =>
      (match LookupNamed(env, name)
       case Some(kb) => Success(NamedKB(kb))
       case None => Failure(UnsupportedKB(name)))
    case ModelFile(path) =>
      (match env.loadFM(path)
       case Success(fm) => Success(ParsedFM(path, fm, env.fmkb(path, fm)))
       case Failure(msg) => Failure(ParseError(path, msg)))
    case UnlistableDir => Failure(DirectoryNotListable)
  }

  /**
   * The entry written for a resolved source with sequence number `counter`,
   * given the solver's verdict on its KB: a plain entry for a named KB, a
   * feature-model entry (with the CTC text of #FM constraints over #KB
   * constraints) for a parsed model.
   */
  function EntryOf(env: Env, counter: nat, r: Resolved, verdict: bool): EntryRecord {
    match r
    case NamedKB(kb) => Plain(PlainRecord(counter, kb, verdict))
    case ParsedFM(_, fm, kb) =>
      WithFM(PlainRecord(counter, kb, verdict), env.ctcText(fm.numConstraints, kb.numConstraints), fm)
  }

  /**
   * Splits the sources at the first one that fails: the resolved sources
   * before it, and its error (none when every source resolves).
   */
  function ResolvePrefix(env: Env, srcs: seq<Source>): (r: (seq<Resolved>, Option<Error>))
    ensures |r.0| <= |srcs|
    ensures forall i :: 0 <= i < |r.0| ==> Resolve(env, srcs[i]) == Success(r.0[i])
    ensures r.1.None? <==> |r.0| == |srcs|
    ensures r.1.Some? ==> Resolve(env, srcs[|r.0|]) == Failure(r.1.value)
    decreases |srcs|
  {
    if |srcs| == 0 then ([], None)
    else
      match Resolve(env, srcs[0])
      case Failure(e) => ([], Some(e))
      case Success(x) =>
        var rest := ResolvePrefix(env, srcs[1..]);
        ([x] + rest.0, rest.1)
  }

  /** The entries for resolved sources numbered from 1, each with its own solver verdict. */
  function Records(env: Env, done: seq<Resolved>): seq<EntryRecord> {
    seq(|done|, i requires 0 <= i < |done| => EntryOf(env, i + 1, done[i], env.consistent(done[i])))
  }

  /** The reference outcome of a run: the entries of the sources before the first failure, and that failure. */
  function ReportOf(cfg: Config, env: Env): RunResult {
    RunOver(env, Sources(cfg))
  }

  /** `ResolvePrefix` is determined by where the first failure is. */
  lemma ResolvePrefixUnique(env: Env, srcs: seq<Source>, done: seq<Resolved>, err: Option<Error>)
    requires |done| <= |srcs|
    requires forall i :: 0 <= i < |done| ==> Resolve(env, srcs[i]) == Success(done[i])
    requires err.None? ==> |done| == |srcs|
    requires err.Some? ==> |done| < |srcs| && Resolve(env, srcs[|done|]) == Failure(err.value)
    ensures ResolvePrefix(env, srcs) == (done, err)
  {
    var r := ResolvePrefix(env, srcs);
    assert |r.0| == |done|;
    assert r.0 == done;
  }

  lemma ResolvedSnoc(env: Env, srcs: seq<Source>, done: seq<Resolved>, x: Resolved)
    requires |done| < |srcs|
    requires forall j :: 0 <= j < |done| ==> Resolve(env, srcs[j]) == Success(done[j])
    requires Resolve(env, srcs[|done|]) == Success(x)
    ensures forall j :: 0 <= j < |done| + 1 ==> Resolve(env, srcs[j]) == Success((done + [x])[j])
  {
    forall j | 0 <= j < |done| + 1
      ensures Resolve(env, srcs[j]) == Success((done + [x])[j])
    {
      if j < |done| {
        assert (done + [x])[j] == done[j];
      }
    }
  }

  /** Resolving one more source appends exactly its entry, numbered one past the last. */
  lemma RenderRecordsSnoc(env: Env, done: seq<Resolved>, x: Resolved)
    ensures RenderAll(Records(env, done + [x]))
         == RenderAll(Records(env, done)) + Render(EntryOf(env, |done| + 1, x, env.consistent(x)))
  {
    var e := EntryOf(env, |done| + 1, x, env.consistent(x));
    assert Records(env, done + [x]) == Records(env, done) + [e];
    RenderAllSnoc(Records(env, done), e);
  }

  /** The outcome of processing `srcs` in order: entries up to the first failure, then that failure. */
  function RunOver(env: Env, srcs: seq<Source>): RunResult {
    var split := ResolvePrefix(env, srcs);
    RunResult(RenderAll(Records(env, split.0)), split.1)
  }

  /**
   * The loops of `calculate`: one counter, starting at 0 and pre-incremented
   * for every source; each resolved source costs one consistency solve and
   * appends its entry to the writer (then flushed); the first source that
   * fails ends the run. Returns the lines written, the error, and the number
   * of consistency solves made.
   */
  method Emit(env: Env, srcs: seq<Source>) returns (out: seq<string>, err: Option<Error>, solves: nat)
    ensures RunResult(out, err) == RunOver(env, srcs)
    ensures solves == |ResolvePrefix(env, srcs).0|
  {
    var counter: nat := 0;
    out := [];
    solves := 0;
    ghost var done: seq<Resolved> := [];
    var i := 0;
    while i < |srcs|
      invariant 0 <= i <= |srcs|
      invariant |done| == i && counter == i && solves == i
      invariant forall j :: 0 <= j < i ==> Resolve(env, srcs[j]) == Success(done[j])
      invariant out == RenderAll(Records(env, done))
    {
      var r := Resolve(env, srcs[i]);
      if r.Failure? {
        err := Some(r.error);
        ResolvePrefixUnique(env, srcs, done, err);
        return;
      }
      var x := r.value;
      counter := counter + 1;
      var verdict := env.consistent(x);
      solves := solves + 1;
      var entry := EntryOf(env, counter, x, verdict);
      RenderRecordsSnoc(env, done, x);
      out := out + Render(entry);
      ResolvedSnoc(env, srcs, done, x);
      done := done + [x];
      i := i + 1;
    }
    err := None;
    ResolvePrefixUnique(env, srcs, done, err);
  }

  /**
   * `calculate`: the named KBs, then the `-fm` file, then the directory
   * entries, all under the one counter of `Emit`.
   */
  method Calculate(cfg: Config, env: Env) returns (out: seq<string>, err: Option<Error>, solves: nat)
    ensures RunResult(out, err) == ReportOf(cfg, env)
    ensures solves == |ResolvePrefix(env, Sources(cfg)).0|
  {
    out, err, solves := Emit(env, Sources(cfg));
  }

  // ---- Properties of a run, stated on the report as it reads back ----

  /**
   * Entry `e` is the one source `src` yields as entry number `counter`: the
   * statistics of the KB the source resolves to, and the solver's verdict on it.
   */
  predicate EntryFrom(env: Env, e: EntryRecord, counter: nat, src: Source) {
    && e.plain.counter == counter
    && match src
       case Named(name) =>
         && e.Plain?
         && LookupNamed(env, name) == Some(e.plain.kb)
         && e.plain.consistent == env.consistent(NamedKB(e.plain.kb))
       case ModelFile(path) =>
         && e.WithFM?
         && env.loadFM(path) == Success(e.fm)
         && e.plain.kb == env.fmkb(path, e.fm)
         && e.plain.consistent == env.consistent(ParsedFM(path, e.fm, e.plain.kb))
         && e.ctc == env.ctcText(e.fm.numConstraints, e.plain.kb.numConstraints)
       case UnlistableDir => false
  }

  lemma EntryOfFrom(env: Env, counter: nat, src: Source)
    requires Resolve(env, src).Success?
    ensures EntryFrom(env, EntryOf(env, counter, Resolve(env, src).value,
                                   env.consistent(Resolve(env, src).value)), counter, src)
  {
  }

  /**
   * Whatever happens, the report reads back as one entry per source before
   * the first failure, numbered 1, 2, 3, ... in source order, each carrying
   * its own source's statistics and the solver's verdict on that source's KB.
   */
  lemma ReportReadsBack(cfg: Config, env: Env)
    ensures var srcs := Sources(cfg);
            var recs := DecodeReport(ReportOf(cfg, env).output);
            && recs.Some?
            && |recs.value| == |ResolvePrefix(env, srcs).0|
            && forall i :: 0 <= i < |recs.value| ==> EntryFrom(env, recs.value[i], i + 1, srcs[i])
  {
    var srcs := Sources(cfg);
    var done := ResolvePrefix(env, srcs).0;
    var recs := Records(env, done);
    DecodeReportRenderAll(recs);
    forall i | 0 <= i < |recs|
      ensures EntryFrom(env, recs[i], i + 1, srcs[i])
    {
      EntryOfFrom(env, i + 1, srcs[i]);
    }
  }

  /**
   * A run finishes without error exactly when every source resolves; it then
   * writes one entry per named KB, one for the `-fm` file if given and one
   * per directory entry.
   */
  lemma SuccessfulRunCount(cfg: Config, env: Env)
    ensures ReportOf(cfg, env).error.None?
        <==> forall i :: 0 <= i < |Sources(cfg)| ==> Resolve(env, Sources(cfg)[i]).Success?
    ensures ReportOf(cfg, env).error.None? ==>
      && cfg.fmDir != Some(Unlistable)
      && DecodeReport(ReportOf(cfg, env).output).Some?
      && |DecodeReport(ReportOf(cfg, env).output).value|
         == |cfg.kbs| + (if cfg.fm.Some? then 1 else 0) + DirCount(cfg.fmDir)
  {
    var srcs := Sources(cfg);
    var split := ResolvePrefix(env, srcs);
    ReportReadsBack(cfg, env);
    if split.1.None? {
      if |srcs| > 0 {
        assert Resolve(env, srcs[|srcs| - 1]) == Success(split.0[|srcs| - 1]);
      }
    } else {
      assert Resolve(env, srcs[|split.0|]).Failure?;
    }
  }

  /** On a successful run every source has its entry, the i-th source's numbered i + 1. */
  lemma SuccessfulReport(cfg: Config, env: Env)
    requires ReportOf(cfg, env).error.None?
    ensures var recs := DecodeReport(ReportOf(cfg, env).output);
            && recs.Some?
            && |recs.value| == |Sources(cfg)|
            && forall i :: 0 <= i < |recs.value| ==> EntryFrom(env, recs.value[i], i + 1, Sources(cfg)[i])
  {
    ReportReadsBack(cfg, env);
  }

  /** On a successful run the named KBs come first, in the order given, numbered from 1. */
  lemma NamedKBsFirst(cfg: Config, env: Env)
    requires ReportOf(cfg, env).error.None?
    ensures var recs := DecodeReport(ReportOf(cfg, env).output);
            && recs.Some?
            && |cfg.kbs| <= |recs.value|
            && forall i :: 0 <= i < |cfg.kbs| ==> EntryFrom(env, recs.value[i], i + 1, Named(cfg.kbs[i]))
  {
    SuccessfulReport(cfg, env);
  }

  /** On a successful run the `-fm` file, if given, has the entry right after the named KBs. */
  lemma ModelFileAfterNamedKBs(cfg: Config, env: Env)
    requires ReportOf(cfg, env).error.None?
    requires cfg.fm.Some?
    ensures var recs := DecodeReport(ReportOf(cfg, env).output);
            && recs.Some?
            && |cfg.kbs| < |recs.value|
            && EntryFrom(env, recs.value[|cfg.kbs|], |cfg.kbs| + 1, ModelFile(cfg.fm.value))
  {
    SuccessfulReport(cfg, env);
  }

  /** Entries that follow the sources one for one place the directory's files after the named KBs and the `-fm` file. */
  lemma DirectorySegment(cfg: Config, env: Env, recs: seq<EntryRecord>)
    requires cfg.fmDir.Some? && cfg.fmDir.value.Listing?
    requires |recs| == |Sources(cfg)|
    requires forall i :: 0 <= i < |recs| ==> EntryFrom(env, recs[i], i + 1, Sources(cfg)[i])
    ensures var offset := |cfg.kbs| + (if cfg.fm.Some? then 1 else 0);
            var files := cfg.fmDir.value.files;
            && |recs| == offset + |files|
            && forall j :: 0 <= j < |files| ==>
                 EntryFrom(env, recs[offset + j], offset + j + 1, ModelFile(files[j]))
  {
    var offset := |cfg.kbs| + (if cfg.fm.Some? then 1 else 0);
    var files := cfg.fmDir.value.files;
    forall j | 0 <= j < |files|
      ensures EntryFrom(env, recs[offset + j], offset + j + 1, ModelFile(files[j]))
    {
      DirectorySource(cfg, j);
      assert EntryFrom(env, recs[offset + j], offset + j + 1, Sources(cfg)[offset + j]);
    }
  }

  /** The `j`-th file of a listed directory is the source right after the named KBs, the `-fm` file and `j` earlier files. */
  lemma DirectorySource(cfg: Config, j: nat)
    requires cfg.fmDir.Some? && cfg.fmDir.value.Listing?
    requires j < |cfg.fmDir.value.files|
    ensures var offset := |cfg.kbs| + (if cfg.fm.Some? then 1 else 0);
            offset + j < |Sources(cfg)| && Sources(cfg)[offset + j] == ModelFile(cfg.fmDir.value.files[j])
  {
    assert |FMSources(cfg.fm)| == (if cfg.fm.Some? then 1 else 0);
  }

  /**
   * On a successful run the directory entries come last, in listing order,
   * continuing the numbering of the named KBs and the `-fm` file.
   */
  lemma DirectoryEntriesLast(cfg: Config, env: Env)
    requires ReportOf(cfg, env).error.None?
    requires cfg.fmDir.Some? && cfg.fmDir.value.Listing?
    ensures var recs := DecodeReport(ReportOf(cfg, env).output);
            var offset := |cfg.kbs| + (if cfg.fm.Some? then 1 else 0);
            var files := cfg.fmDir.value.files;
            && recs.Some?
            && |recs.value| == offset + |files|
            && forall j :: 0 <= j < |files| ==>
                 EntryFrom(env, recs.value[offset + j], offset + j + 1, ModelFile(files[j]))
  {
    SuccessfulReport(cfg, env);
    DirectorySegment(cfg, env, DecodeReport(ReportOf(cfg, env).output).value);
  }

  /**
   * When the source at position `k` is the first that fails, the run reports
   * its error and the report holds exactly the entries of the `k` sources
   * before it, numbered 1 to `k`.
   */
  lemma FailureKeepsPrefix(cfg: Config, env: Env, k: nat)
    requires k < |Sources(cfg)|
    requires forall i :: 0 <= i < k ==> Resolve(env, Sources(cfg)[i]).Success?
    requires Resolve(env, Sources(cfg)[k]).Failure?
    ensures ReportOf(cfg, env).error == Some(Resolve(env, Sources(cfg)[k]).error)
    ensures var recs := DecodeReport(ReportOf(cfg, env).output);
            && recs.Some?
            && |recs.value| == k
            && forall i :: 0 <= i < k ==> EntryFrom(env, recs.value[i], i + 1, Sources(cfg)[i])
  {
    var srcs := Sources(cfg);
    var done := seq(k, i requires 0 <= i < k => Resolve(env, srcs[i]).value);
    ResolvePrefixUnique(env, srcs, done, Some(Resolve(env, srcs[k]).error));
    ReportReadsBack(cfg, env);
  }

  /**
   * A `-kb` name other than "PC" and "Renault" aborts the run with an
   * unsupported-KB error; only the named KBs before it have entries.
   */
  lemma UnknownKBAborts(cfg: Config, env: Env, k: nat)
    requires k < |cfg.kbs|
    requires cfg.kbs[k] != "PC" && cfg.kbs[k] != "Renault"
    requires forall i :: 0 <= i < k ==> cfg.kbs[i] == "PC" || cfg.kbs[i] == "Renault"
    ensures ReportOf(cfg, env).error == Some(UnsupportedKB(cfg.kbs[k]))
    ensures var recs := DecodeReport(ReportOf(cfg, env).output);
            && recs.Some?
            && |recs.value| == k
            && forall i :: 0 <= i < k ==> EntryFrom(env, recs.value[i], i + 1, Named(cfg.kbs[i]))
  {
    FailureKeepsPrefix(cfg, env, k);
  }

  /**
   * A directory entry that fails to parse aborts the rest of the directory:
   * the report keeps the named KBs, the `-fm` file and the directory entries
   * before it, and the run ends with its parse error.
   */
  lemma DirectoryParseFailureAborts(cfg: Config, env: Env, k: nat)
    requires cfg.fmDir.Some? && cfg.fmDir.value.Listing?
    requires k < |cfg.fmDir.value.files|
    requires forall i :: 0 <= i < |cfg.kbs| ==> cfg.kbs[i] == "PC" || cfg.kbs[i] == "Renault"
    requires cfg.fm.Some? ==> env.loadFM(cfg.fm.value).Success?
    requires forall j :: 0 <= j < k ==> env.loadFM(cfg.fmDir.value.files[j]).Success?
    requires env.loadFM(cfg.fmDir.value.files[k]).Failure?
    ensures var path := cfg.fmDir.value.files[k];
            ReportOf(cfg, env).error == Some(ParseError(path, env.loadFM(path).error))
    ensures var recs := DecodeReport(ReportOf(cfg, env).output);
            && recs.Some?
            && |recs.value| == |cfg.kbs| + (if cfg.fm.Some? then 1 else 0) + k
            && forall i :: 0 <= i < |recs.value| ==> EntryFrom(env, recs.value[i], i + 1, Sources(cfg)[i])
  {
    var srcs := Sources(cfg);
    var offset := |cfg.kbs| + |FMSources(cfg.fm)|;
    forall i | 0 <= i < offset + k
      ensures Resolve(env, srcs[i]).Success?
    {
      if i >= offset {
        assert srcs[offset + (i - offset)] == ModelFile(cfg.fmDir.value.files[i - offset]);
      }
    }
    FailureKeepsPrefix(cfg, env, offset + k);
  }

  // ---- The layouts of the repository's own fixtures ----

  /** A run over a single source that resolves writes just that source's entry, numbered 1. */
  lemma SingleSourceRun(cfg: Config, env: Env)
    requires |Sources(cfg)| == 1 && Resolve(env, Sources(cfg)[0]).Success?
    ensures var x := Resolve(env, Sources(cfg)[0]).value;
            ReportOf(cfg, env) == RunResult(Render(EntryOf(env, 1, x, env.consistent(x))), None)
  {
    var x := Resolve(env, Sources(cfg)[0]).value;
    ResolvePrefixUnique(env, Sources(cfg), [x], None);
    var e := EntryOf(env, 1, x, env.consistent(x));
    assert Records(env, [x]) == [e];
    RenderAllSnoc([], e);
    assert [] + [e] == [e];
  }

  /**
   * A run over two sources that both resolve writes their two entries one
   * after the other, numbered 1 and 2.
   */
  lemma TwoSourceRun(cfg: Config, env: Env)
    requires |Sources(cfg)| == 2
    requires Resolve(env, Sources(cfg)[0]).Success? && Resolve(env, Sources(cfg)[1]).Success?
    ensures var x := Resolve(env, Sources(cfg)[0]).value;
            var y := Resolve(env, Sources(cfg)[1]).value;
            ReportOf(cfg, env) == RunResult(
              Render(EntryOf(env, 1, x, env.consistent(x))) + Render(EntryOf(env, 2, y, env.consistent(y))),
              None)
  {
    var x := Resolve(env, Sources(cfg)[0]).value;
    var y := Resolve(env, Sources(cfg)[1]).value;
    ResolvePrefixUnique(env, Sources(cfg), [x, y], None);
    var e1 := EntryOf(env, 1, x, env.consistent(x));
    var e2 := EntryOf(env, 2, y, env.consistent(y));
    assert Records(env, [x, y]) == [e1] + [e2];
    RenderAllSnoc([], e1);
    RenderAllSnoc([e1], e2);
    assert [] + [e1] == [e1];
  }
}
