/** Validation of the parsed command-line options and the destination path
    built from them (the start of `run` in main.ts). The options arrive
    already parsed: each is absent or a string. */
module Cli {
  import opened Wrappers

  const DefaultFileName: string := "export"
  const DefaultFileExt: string := "json"

  /** The extensions `run` accepts, compared exactly as typed. */
  const SupportedExts: seq<string> := ["json", "xml"]

  /** The values of `--OAuth`, `--fileName` and `--fileExt`. */
  datatype Args = Args(oauth: Option<string>, fileName: Option<string>, fileExt: Option<string>)

  /** Why a configuration is rejected before anything else happens. */
  datatype ConfigError = MissingToken | UnsupportedExt(ext: string)

  /** The token is present and not the empty string (`!OAuth` is false). */
  predicate HasToken(args: Args)
  {
    args.oauth.Some? && args.oauth.value != ""
  }

  /** The file name after the default for an absent `--fileName`. */
  function FileName(args: Args): string
  {
    args.fileName.GetOr(DefaultFileName)
  }

  /** The extension after the default for an absent `--fileExt`. */
  function FileExt(args: Args): string
  {
    args.fileExt.GetOr(DefaultFileExt)
  }

  /** The index of the last `c` in `s`, or -1 when there is none. */
  function LastIndexOf(s: string, c: char): (r: int)
    ensures -1 <= r < |s|
    ensures r >= 0 ==> s[r] == c
    ensures forall k :: r < k < |s| ==> s[k] != c
    decreases |s|
  {
    if |s| == 0 then -1
    else if s[|s| - 1] == c then |s| - 1
    else LastIndexOf(s[..|s| - 1], c)
  }

  /** Splits a path at its last dot into file name and extension; a path
      without a dot has an empty extension. */
  function SplitExtension(path: string): (string, string)
  {
    var d := LastIndexOf(path, '.');
    if d < 0 then (path, "") else (path[..d], path[d + 1..])
  }

  /** The token check, then the extension check, then the path
      `<fileName>.<fileExt>`. */
  function ResolveDestination(args: Args): (r: Result<string, ConfigError>)
    ensures r.Failure? <==> !HasToken(args) || FileExt(args) !in SupportedExts
    ensures !HasToken(args) ==> r == Failure(MissingToken)
    ensures HasToken(args) && FileExt(args) !in SupportedExts ==> r == Failure(UnsupportedExt(FileExt(args)))
    ensures r.Success? ==> SplitExtension(r.value) == (FileName(args), FileExt(args))
  {
    if !HasToken(args) then Failure(MissingToken)
    else
      var ext := FileExt(args);
      if ext !in SupportedExts then Failure(UnsupportedExt(ext))
      else
        PathRoundTrip(FileName(args), ext);
        Success(FileName(args) + "." + ext)
  }

  /** The path determines the file name and the extension it was built
      from, whatever dots the file name holds, as long as the extension
      holds none. */
  lemma PathRoundTrip(name: string, ext: string)
    requires '.' !in ext
    ensures SplitExtension(name + "." + ext) == (name, ext)
  {
    var path := name + "." + ext;
    var d := LastIndexOf(path, '.');
    assert path[|name|] == '.';
    forall k | |name| < k < |path|
      ensures path[k] != '.'
    {
      assert path[k] == ext[k - |name| - 1];
    }
    assert d == |name|;
    assert path[..d] == name;
    assert path[d + 1..] == ext;
  }

  /** With only a token given, the destination is "export.json". */
  lemma DefaultDestination(token: string)
    requires token != ""
    ensures ResolveDestination(Args(Some(token), None, None)) == Success("export.json")
  {
    assert DefaultFileName + "." + DefaultFileExt == "export.json";
  }

  /** Extensions are compared as typed: "csv" and "JSON" are refused. */
  lemma ExtensionExamples(token: string, name: Option<string>)
    requires token != ""
    ensures ResolveDestination(Args(Some(token), name, Some("csv"))) == Failure(UnsupportedExt("csv"))
    ensures ResolveDestination(Args(Some(token), name, Some("JSON"))) == Failure(UnsupportedExt("JSON"))
    ensures ResolveDestination(Args(Some(token), name, Some("xml"))).Success?
  {
  }
}
