/** The sequence of `run` in main.ts: validate the options, prepare the
    destination, fetch every page, write the records. Every fatal exit is a
    failed result, and the side effects of the run are recorded in order. */
module Driver {
  import opened Wrappers
  import opened Tracks
  import opened Paginator
  import opened Cli
  import opened Sink

  /** Why a run ends without writing the export. */
  datatype RunError = Config(error: ConfigError) | OverwriteDeclined

  /** A side effect of the run: the destination file is created (or
      truncated), the paginator requests a page or reports progress, or the
      records are written to the destination. */
  datatype Effect = CreateFile(path: string) | Paginate(event: Event) | WriteFile(path: string, records: seq<TrackItem>)

  /** How a run ends (the path of the written file, or the error) and the
      side effects it had, in order. */
  datatype Outcome = Outcome(result: Result<string, RunError>, effects: seq<Effect>)

  /** The options are valid and the destination may be (re)created, so the
      run goes on to fetch the pages. */
  predicate ReachesFetch(args: Args, fileExists: bool, answer: Option<string>)
  {
    ResolveDestination(args).Success? && PrepareDestination(fileExists, answer) == Proceed
  }

  /** The paginator's events as effects of the run. */
  function PaginationEffects(trace: seq<Event>): (r: seq<Effect>)
    ensures |r| == |trace|
    ensures forall k :: 0 <= k < |r| ==> r[k] == Paginate(trace[k])
  {
    seq(|trace|, k requires 0 <= k < |trace| => Paginate(trace[k]))
  }

  /** `run`, given whether the destination exists, the operator's answer to
      the overwrite prompt and the oracle of pages. The pages need to end
      only when the run gets as far as fetching them. */
  function Run(args: Args, fileExists: bool, answer: Option<string>, pages: seq<Page>): (r: Outcome)
    requires ReachesFetch(args, fileExists, answer) ==> HasLastPage(pages, 0)
    ensures r.result.Success? <==> ReachesFetch(args, fileExists, answer)
    ensures r.result.Failure? ==> r.effects == []
    ensures ResolveDestination(args).Failure? ==> r.result == Failure(Config(ResolveDestination(args).error))
    ensures r.result.Success? ==>
      && r.result == Success(ResolveDestination(args).value)
      && |r.effects| == |ExportAll(pages).trace| + 2
      && r.effects[0] == CreateFile(r.result.value)
      && r.effects[1..|r.effects| - 1] == PaginationEffects(ExportAll(pages).trace)
      && r.effects[|r.effects| - 1] == WriteFile(r.result.value, ExportAll(pages).items)
  {
    match ResolveDestination(args)
    case Failure(e) => Outcome(Failure(Config(e)), [])
    case Success(path) =>
      if PrepareDestination(fileExists, answer) == Abort then
        Outcome(Failure(OverwriteDeclined), [])
      else
        var fetched := ExportAll(pages);
        var middle := PaginationEffects(fetched.trace);
        var effects := [CreateFile(path)] + middle + [WriteFile(path, fetched.items)];
        assert effects[1..|effects| - 1] == middle;
        Outcome(Success(path), effects)
  }

  /** A missing token or an unsupported extension ends the run before any
      file is created and before any page is requested, whatever the
      destination, the answer and the pages. */
  lemma ConfigErrorHasNoEffects(args: Args, fileExists: bool, answer: Option<string>, pages: seq<Page>)
    requires !HasToken(args) || FileExt(args) !in SupportedExts
    ensures Run(args, fileExists, answer, pages).effects == []
    ensures !HasToken(args) ==> Run(args, fileExists, answer, pages).result == Failure(Config(MissingToken))
  {
  }

  /** With `--fileExt=csv` the run fails on the extension (or on the token,
      which is checked first) without touching the file or the network. */
  lemma CsvRejected(args: Args, fileExists: bool, answer: Option<string>, pages: seq<Page>)
    requires args.fileExt == Some("csv")
    ensures Run(args, fileExists, answer, pages).result.Failure?
    ensures Run(args, fileExists, answer, pages).effects == []
    ensures HasToken(args) ==> Run(args, fileExists, answer, pages).result == Failure(Config(UnsupportedExt("csv")))
  {
  }

  /** A declined overwrite of an existing file ends a valid run with no
      effect: the file is neither recreated nor written. */
  lemma DeclinedOverwrite(args: Args, answer: Option<string>, pages: seq<Page>)
    requires ResolveDestination(args).Success? && Declines(answer)
    ensures Run(args, true, answer, pages) == Outcome(Failure(OverwriteDeclined), [])
  {
  }

  /** A successful run creates the destination before it requests any page,
      requests offsets 0, 20, 40, ... up to the first page without a next
      page, and writes exactly the records of the fetched pages, last. */
  lemma SuccessfulRun(args: Args, fileExists: bool, answer: Option<string>, pages: seq<Page>)
    requires ReachesFetch(args, fileExists, answer) && HasLastPage(pages, 0)
    ensures var r, s := Run(args, fileExists, answer, pages), LastPage(pages, 0);
      && r.result == Success(FileName(args) + "." + FileExt(args))
      && r.effects[0] == CreateFile(r.result.value)
      && r.effects[1] == Paginate(Fetch(0))
      && |r.effects| == 2 * s + 3
      && r.effects[|r.effects| - 1] == WriteFile(r.result.value, ConcatProjected(pages[..s + 1]))
  {
  }
}
