# Saved-tracks exporter: a Dafny model of its logic

The exporter reads a user's saved tracks from a music-streaming web API and
writes them to a local file. It pages through the library 20 tracks at a
time, flattens each track into a small record and writes all records at the
end. This project models the logic around that I/O, all in `main.ts`, as
pure Dafny functions and lemmas:

- `tracks.dfy` (module `Tracks`): the projector `prepareTrackData`. A raw
  entry becomes a `TrackItem`: the album is reduced to its name, the artist
  names are joined with `", "`, and id, name and external identifiers are
  copied. `Join` models `Array.prototype.join`. `SplitArtists` undoes the
  join for a non-empty list of names none of which contains ", ".
- `paginator.dfy` (module `Paginator`): `recursiveFetchSpotify`. The HTTP
  fetch becomes an oracle `pages: seq<Page>`: `pages[i]` is the response to
  the request at offset `20 * i`. A `Page` holds the raw entries, the
  reported `total` and, of `next`, only whether it is present. A run returns the records and a trace of its side effects, made
  of page requests (`Fetch(offset)`) and progress reports
  (`Report(total, current)`).
- `cli.dfy` (module `Cli`): the option checks at the start of `run`, and
  the destination path `<fileName>.<fileExt>`. It works on options that are
  already parsed; each option is absent or a string.
- `sink.dfy` (module `Sink`): the overwrite decision of
  `createImportFile`. The answer is the return value of `prompt`, an
  `Option<string>`: absent when there is no input to read, and the default
  "yes/no" (main.ts:64) when the operator just presses Enter.
- `driver.dfy` (module `Driver`): `run` as a whole. A fatal exit becomes a
  failed result. The side effects are recorded in order: the file is
  created, pages are requested, progress is reported, the records are
  written.
- `wrappers.dfy` (module `Wrappers`): `Option` and `Result`.

Two facts about the program that are easy to get wrong:
- Only a present, non-empty answer other than "yes" or "y" aborts; an
  absent or empty answer lets the run go on (main.ts:66). The default
  "yes/no" that `prompt` returns on a bare Enter aborts (`CaseSensitive`).
- The number of records is the number of raw entries on the fetched pages;
  `total` has no effect on it (`TwoPages`, `ExportAllSpec`).

The type `TrackItem` declares the last field as `extternal_ids`
(main.ts:11). The object actually built uses the key `external_ids`
(main.ts:41). The model's `TrackItem.externalIds` stands for that emitted
key.

## Model

| member | source | states |
|---|---|---|
| `Tracks.Join` | main.ts:40 | the join of no names is empty; otherwise its length is the names' lengths plus one separator per adjacent pair, and it begins with the first name |
| `Tracks.PrepareTrackData` | main.ts:35-43 | one record per raw entry, in order; each record copies the track's id, name and external ids, holds the album's name and the artist names joined with ", " |
| `Tracks.JoinExamples` | main.ts:40 | no artists give "", ["A"] gives "A", ["A","B","C"] gives "A, B, C" |
| `Tracks.JoinSnoc` | main.ts:40 | appending a name to the list appends one separator and that name to the joined string |
| `Tracks.SplitJoin` | main.ts:40 | for at least one name, none of which contains ", ", splitting the joined string at ", " gives back exactly the names, in order, with duplicates kept |
| `Tracks.JoinAmbiguous` | main.ts:40 | the join is lossy: ["Tyler, The Creator"] and ["Tyler","The Creator"] join to the same string, and so do [] and [""] (both ""), which `SplitArtists` maps to [""] |
| `Paginator.LastPage` | main.ts:53 | the last page fetched is the first page at or after the start whose `next` is absent; every page before it has `next` |
| `Paginator.FetchFrom` | main.ts:50-51 | every run starts with a request at its own offset |
| `Paginator.FetchFromSpec` | main.ts:50-58 | a run from page i yields the records of pages i to the last page, concatenated in order; its trace alternates requests at offsets 20*i, 20*(i+1), ... with one report of (that page's total, its offset) after each page that has `next`, and ends with the last page's request |
| `Paginator.FetchFromCounts` | main.ts:53-55 | the requested offsets are consecutive multiples of 20 up to the last page; there are as many progress reports as pages with `next`, one fewer than requests |
| `Paginator.LaterPagesIgnored` | main.ts:53-57 | pages after the first page without `next` are never requested: oracles that agree up to it give the same export |
| `Paginator.ExportAll` | main.ts:106 | the export from offset 0 holds the records of pages 0 to the first page without `next`, concatenated in order; its trace has 2k + 1 events for k pages with `next`, request and report alternating position by position |
| `Paginator.ExportAllSpec` | main.ts:50-58 | from offset 0: as many records as raw entries on the fetched pages; offsets 0, 20, 40, ... up to the last page; k reports for k pages with `next` |
| `Paginator.SinglePage` | main.ts:56-57 | when the first page has no `next`: one request at offset 0, no report, the result is that page's records |
| `Paginator.TwoPages` | main.ts:53-57 | first page with `next`, second without: trace is request 0, report (first page's total, 0), request 20; the records are both pages' records, in order |
| `Cli.ResolveDestination` | main.ts:88-103 | fails iff the token is absent or empty or the extension (default "json") is not "json" or "xml"; a missing token is reported first; on success the path splits back into the file name (default "export") and the extension |
| `Cli.PathRoundTrip` | main.ts:103 | for an extension without a dot, splitting `name + "." + ext` at its last dot gives back name and ext |
| `Cli.DefaultDestination` | main.ts:90 | with only a non-empty token the destination is "export.json" |
| `Cli.ExtensionExamples` | main.ts:98-101 | "csv" and "JSON" are refused as unsupported extensions, "xml" is accepted |
| `Sink.PrepareDestination` | main.ts:61-75 | the run aborts exactly when the file exists and the answer is none of: absent, "", "yes", "y"; a missing file is created without asking |
| `Sink.ProceedingAnswers` | main.ts:66 | an answer lets the run go on iff it is absent, "", "yes" or "y" |
| `Sink.CaseSensitive` | main.ts:64-66 | "Yes", "Y", "YES", "no", "n" and the prompt's default "yes/no" all abort |
| `Driver.Run` | main.ts:87-110 | a run succeeds iff the options are valid and the overwrite is not declined; a failed run has no side effect; a successful one creates the file, then makes exactly the paginator's requests and reports, then writes exactly the exported records to the validated path |
| `Driver.ConfigErrorHasNoEffects` | main.ts:93-101 | a missing token or an unsupported extension ends the run with no file created and no page requested, for any destination state, answer and pages |
| `Driver.CsvRejected` | main.ts:98-101 | `--fileExt=csv` fails with no side effect, with the extension error when a token is given |
| `Driver.DeclinedOverwrite` | main.ts:64-67 | a declined overwrite of an existing file ends a valid run with no side effect |
| `Driver.SuccessfulRun` | main.ts:103-107 | a successful run writes to `<fileName>.<fileExt>`, creates the file before the first request (at offset 0), has 2k + 3 effects for k pages with `next`, and writes exactly the fetched pages' records last |

## Left out

- The HTTP request, its headers and its status handling (main.ts:14-33). The page oracle stands in for them. A failed request, which ends the process in the source, is not modelled: the oracle always answers.
- The token only goes into the request's header. The model checks that it is present and not empty, and ignores its value after that.
- `next` is a URL or null in the response. The model keeps only whether it is there (`Page.next`).
- Termination of pagination: the source stops only when the provider sends a page without `next`. The model assumes such a page exists (`HasLastPage`). `Driver.Run` makes this assumption only when the run gets as far as fetching.
- The percentage and the stdout write of `updateProgressBar` (main.ts:45-48): `Math.round` over floating-point division, and console output. Each report keeps only its `(total, current)` pair.
- `JSON.stringify` and `Deno.writeTextFile` (main.ts:78-85). The write is recorded as a `WriteFile` effect carrying the records. A failed write, which ends the process in the source, is not modelled.
- `Deno.stat`, `Deno.create` and the exception flow of `createImportFile` (main.ts:61-76): filesystem I/O. Whether the file exists is a parameter. A `Deno.stat` error other than "not found" is swallowed by the source and the run goes on without creating the file; the model does not cover that case. The prompt's message is left out; its default answer "yes/no" is an ordinary answer in the model.
- `parseArgs` (main.ts:88-91): an external flags library. The model starts from the parsed options.
- `console.error`, `console.log` and `Deno.exit`. Fatal paths are failed results. The final message (main.ts:109) is represented by the path in a successful result.
- `async`/`await`: the source never has two requests in flight at once, so everything is sequential. The `Deno.create` that is not awaited (main.ts:73) is treated as done before the first request.
