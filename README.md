# go-wkhtmltopdf core, modelled in Dafny

This project models the core of a Go wrapper around the `wkhtmltopdf` command-line tool
(`wkhtmltopdf.go`). A `PDFGenerator` holds these parts:

- global options and outline options;
- an optional cover and an optional table of contents;
- an ordered list of input pages, each a file/URL page or a stream page;
- an output file name.

It turns them into the ordered argument list that the external tool's grammar expects. It
locates the executable, plus an optional `xvfb-run` wrapper, in three places tried in a
fixed order, and caches the result for the whole process. It then runs the tool: stdin is
wired to the first page that has a reader, and a failure is reported with a chosen error text.

Modules:

- `Wrappers` (`wrappers.dfy`): `Option`, and `Result` for Go's `(value, error)` pairs.
- `Text` (`text.dfy`): Go's `strings.TrimSpace` and `strings.Join`, with `unicode.IsSpace`
  written out, and splitting on a space as the inverse of `Join` for round-trip lemmas.
- `Pages` (`pages.dfy`): option groups and the two page variants (`FilePage`,
  `ReaderPage`) with `InputFile`, `Args` and `Reader`.
- `Locator` (`locator.dfy`): `findCommandPath` as a pure function over a `Host` oracle.
  It also holds the `stringStore` class, the two process-wide stores (`PathCache`) and
  `ResolveCommand`, the path `initCommand` settles on.
- `Generator` (`generator.dfy`): the `PDFGenerator` class and `ComposeArgs`, the function
  that specifies `Args`. The class holds the `Args` loop, `AddPage`/`SetPages`,
  `InitCommand`, the stdin scan and `Run`/`Create`. Beside it are the stdin and
  error-message rules and the lemmas about the argument layout.

Behaviour of `wkhtmltopdf.go` worth noting:

- When the env-var directory is set but the lookup there fails, `findCommandPath` returns
  an empty path and no error. It does not return "not found". `FindCommandPath`,
  `SearchPrecedence` and `EmptyResolution` state this.
- When that empty main path meets a found wrapper, `initCommand` settles on the wrapper
  path followed by one space and no main binary. The string is non-empty, so it is cached
  and reused for the rest of the process. `EmptyMainWithWrapper` states this.
- A failed run reports the captured stderr as it is, untrimmed. Trimming only decides
  whether stderr is blank. `ErrorMessage` states this.
- With a wrapper found, `initCommand` stores the single string `wrapper + " " + main`.
  `run` hands that string to `exec.Command` (wkhtmltopdf.go:275) as one program name,
  and nothing splits it again. The string contains a path separator, so Go does no
  `PATH` lookup and tries to start a program of that whole name. That start can be
  expected to fail whenever `xvfb-run` is found and the cache was not seeded with
  `SetPath`. The process oracle is unconstrained, so the model does not show the
  failure. `ComposeCommandSplits` shows only that the two paths can be recovered from
  the string when neither holds a space.
- A second stream page is not rejected. The stdin scan takes the first page that has a
  reader (`FirstReader`). A stream page made with a nil reader still contributes the
  input token "-", but it is skipped by the stdin scan.
- A preparer can never run the tool, even after `SetPath`. `run` starts the program named
  by the generator's own path field (wkhtmltopdf.go:275). Only `initCommand` writes that
  field, and `NewPDFPreparer` never calls it. `SetPath` seeds only the shared cache. The
  comment at wkhtmltopdf.go:352-354 says otherwise. `PreparerAfterSetPath` states that the
  tool is then started with an empty program name.

## Model

| member | source | states |
|---|---|---|
| `Text.TrimSpace` | wkhtmltopdf.go:290 | the trimmed text is empty exactly when every character of stderr is Go white space; otherwise it starts and ends with a non-space |
| `Text.Join` | wkhtmltopdf.go:205 | `strings.Join`: nothing for no pieces; otherwise the result begins with the first piece and ends with the last |
| `Text.JoinSplitRoundTrip` | wkhtmltopdf.go:203-206 | joining a non-empty argument list with single spaces and splitting on spaces gives the list back when no argument holds a space |
| `Pages.PageOptions.Args` | wkhtmltopdf.go:129-132 | the page-options fragment comes first and the header/footer fragment follows it, with nothing added |
| `Pages.NewPageOptions` | wkhtmltopdf.go:135-140 | fresh per-page options render no arguments |
| `Pages.Page.InputFile` | wkhtmltopdf.go:65-97 | a file/URL page's input token is its input string; every stream page's input token is "-", whether or not it has a reader |
| `Pages.Page.Args` | wkhtmltopdf.go:70-102 | a page's arguments are its page options followed by its header/footer options, for both page kinds |
| `Pages.NewPage` | wkhtmltopdf.go:64-85 | a file/URL page's input token is exactly the given string, it supplies no reader, and its fresh options render nothing |
| `Pages.NewPageReader` | wkhtmltopdf.go:94-115 | a stream page's input token is "-" whatever the stream, its reader is the given one, and its fresh options render nothing |
| `Pages.Page.Reader` | wkhtmltopdf.go:74-107 | only stream pages can supply a reader; file pages never do |
| `Locator.LookPathResult.Hit` | wkhtmltopdf.go:248-260 | a lookup is accepted only with no error and a non-empty path |
| `Locator.JoinPath` | wkhtmltopdf.go:247 | the joined path is the directory, one "/", then the command name |
| `Locator.Candidates` | wkhtmltopdf.go:243-259 | the places tried: next to the running program, then the bare name on PATH, then the env-var directory only when that is set |
| `Locator.FirstHit` | wkhtmltopdf.go:247-262 | reference search: no result exactly when no candidate's lookup is a hit; else the path of a hit candidate with no hit before it |
| `Locator.FindCommandPath` | wkhtmltopdf.go:242-264 | a failing program directory is returned as the error unchanged; any other error arises only when nothing is found and the env var is unset, with text "<command> not found"; an empty path with no error only when the env var is set |
| `Locator.FindCommandPathSearchOrder` | wkhtmltopdf.go:242-264 | findCommandPath equals the first hit among the candidates in their fixed order; with no hit it is "not found" when the env var is unset and an empty path otherwise |
| `Locator.SearchPrecedence` | wkhtmltopdf.go:247-263 | an adjacent hit wins whatever PATH and the env var hold; a PATH hit wins over the env directory; the env directory is used when both miss; all missing gives "not found" or the empty path |
| `Locator.WrapperPath` | wkhtmltopdf.go:309 | a found wrapper path is used as it is; the wrapper lookup's error is dropped and gives an empty wrapper path |
| `Locator.ResolveCommand` | wkhtmltopdf.go:298-317 | a set cache is the result; otherwise an error is exactly the main lookup's error, and success is the main path composed with the wrapper path |
| `Locator.WrappedResolution` | wkhtmltopdf.go:304-317 | with an empty cache, a found main path m and a found wrapper w resolve to "w m" |
| `Locator.ComposeCommand` | wkhtmltopdf.go:314-317 | the command is the main path alone without a wrapper, otherwise the wrapper and main paths joined by one space |
| `Locator.ComposeCommandSplits` | wkhtmltopdf.go:314-317 | when neither path holds a space, splitting the composed command on spaces yields exactly [wrapper, main] |
| `Locator.CachedPathSkipsSearch` | wkhtmltopdf.go:299-302 | a non-empty cached path is the result on every host: no lookup is made |
| `Locator.MainLookupErrorUnchanged` | wkhtmltopdf.go:304-307 | with an empty cache, resolution fails exactly when the main lookup fails, with the same error text; the wrapper lookup never causes a failure |
| `Locator.ResolvedPathIsReused` | wkhtmltopdf.go:299-322 | a non-empty path resolved with an empty cache is returned unchanged by every later resolution once cached, whatever the host |
| `Locator.EmptyResolution` | wkhtmltopdf.go:255-322 | if the main lookup yields the empty path (only possible with its env var set) and no wrapper is found, resolution succeeds with the empty path |
| `Locator.EmptyMainWithWrapper` | wkhtmltopdf.go:309-322 | an empty main path with a found wrapper resolves to the wrapper path plus one space, which every later resolution then reuses |
| `Locator.StringStore.Get` | wkhtmltopdf.go:24-28 | returns the stored value |
| `Locator.StringStore.Set` | wkhtmltopdf.go:30-34 | the stored value becomes the given string |
| `Locator.PathCache.SetPath` | wkhtmltopdf.go:38-41 | seeds the main-path store; the wrapper store is unchanged |
| `Locator.PathCache.GetPath` | wkhtmltopdf.go:43-46 | returns the main-path store's value |
| `Locator.PathCache.SetWrapper` | wkhtmltopdf.go:50-52 | sets the wrapper store; the main-path store is unchanged |
| `Locator.PathCache.GetWrapper` | wkhtmltopdf.go:54-56 | returns the wrapper store's value |
| `Locator.PathCache.SetThenGetPath` | wkhtmltopdf.go:24-34 | a path read back after it was set is the path that was set |
| `Generator.CoverSegment` | wkhtmltopdf.go:180-184 | the cover segment is present exactly when the cover input is non-empty |
| `Generator.CoverSegmentLayout` | wkhtmltopdf.go:181-183 | a present cover segment is "cover", the cover input, then the cover's page options |
| `Generator.TocSegment` | wkhtmltopdf.go:185-189 | the table-of-contents segment is present exactly when inclusion is set |
| `Generator.TocSegmentLayout` | wkhtmltopdf.go:186-188 | a present TOC segment is "toc", then the TOC's page options, then its TOC options |
| `Generator.OutputTarget` | wkhtmltopdf.go:195-199 | the output target is the output file whenever one is named, and "-" (standard output) when none is |
| `Generator.ComposeArgs` | wkhtmltopdf.go:177-200 | the argument list is never empty and its last element is the output target (the file, or "-") |
| `Generator.ArgsLayout` | wkhtmltopdf.go:177-200 | the argument list is exactly global options, outline options, cover segment, TOC segment, page segments and the output target, each starting where the previous one ends |
| `Generator.ArgsTokens` | wkhtmltopdf.go:180-194 | "cover" and the cover input come right after the outline options; "toc" comes right after the cover segment; "page" and the first page's input token come right after the TOC segment |
| `Generator.PageSegment` | wkhtmltopdf.go:191-193 | one page's segment is "page", then its input token, then its own options |
| `Generator.PageSegments` | wkhtmltopdf.go:190-194 | the page segments are empty exactly when there are no pages, and hold at least two arguments per page; their order is stated by PageSegmentsAppend and PageSegmentAt |
| `Generator.PageSegmentsAppend` | wkhtmltopdf.go:190-194 | the page segments of two lists placed one after the other are the segments of the first followed by those of the second |
| `Generator.PageSegmentAt` | wkhtmltopdf.go:190-194 | page k's segment ("page", its input token, its options) sits after the segments of pages 0..k-1 and before those of the later pages |
| `Generator.AddPageExtendsArgs` | wkhtmltopdf.go:211-213 | adding a page inserts exactly its segment just before the output target and leaves the rest of the argument list unchanged |
| `Generator.FirstReader` | wkhtmltopdf.go:280-285 | no stdin exactly when no page has a reader; otherwise the reader of a page with no reader-bearing page before it |
| `Generator.ErrorMessage` | wkhtmltopdf.go:289-292 | the message is the raw stderr when it holds any non-space character, and the run error's text when it is all white space |
| `Generator.RunError` | wkhtmltopdf.go:287-295 | a run fails exactly when the process reports an error, and then with the message ErrorMessage chooses |
| `Generator.NoDisplayScenario` | wkhtmltopdf.go:288-293 | a failed process whose stderr is "Error: no display" makes the run fail with exactly "Error: no display" |
| `Generator.PDFGenerator.Preparer` | wkhtmltopdf.go:355-369 | a new preparer has default option groups, no cover, no TOC, no pages, no output file, no executable path and an empty buffer |
| `Generator.PDFGenerator.NewPDFGenerator` | wkhtmltopdf.go:329-350 | a new generator is a preparer whose executable path and the shared cache are set as InitCommand sets them |
| `Generator.PDFGenerator.Args` | wkhtmltopdf.go:177-201 | the segment-by-segment build, with its loop over the pages, yields exactly ComposeArgs of the current configuration |
| `Generator.PDFGenerator.ArgString` | wkhtmltopdf.go:204-206 | the arguments of ComposeArgs joined by single spaces |
| `Generator.PDFGenerator.AddPage` | wkhtmltopdf.go:211-213 | the page list gains the page at its end; every other part of the document is unchanged |
| `Generator.PDFGenerator.SetPages` | wkhtmltopdf.go:216-218 | the page list is replaced wholesale; every other part of the document is unchanged |
| `Generator.PDFGenerator.InitCommand` | wkhtmltopdf.go:298-325 | with the cache set, this generator takes the cached path and no search happens; otherwise a main-lookup error is returned and nothing changes, or the composed path is stored in both the cache and this generator |
| `Generator.PDFGenerator.StdinReader` | wkhtmltopdf.go:280-285 | the loop over the pages picks exactly FirstReader of the page list |
| `Generator.PDFGenerator.Run` | wkhtmltopdf.go:271-296 | the tool is started with the generator's path, ComposeArgs and FirstReader; its stdout is appended to the buffer, and the returned error is RunError of the outcome |
| `Generator.PDFGenerator.Create` | wkhtmltopdf.go:267-269 | the same effect and result as one Run |
| `Generator.PreparerAfterSetPath` | wkhtmltopdf.go:352-369 | a fresh preparer run after the shared path was set starts the tool with an empty program name, arguments ["-"] and no stdin, whatever path was set |
| `Generator.ReportExample` | wkhtmltopdf.go:177-213 | a preparer with one file page "report.html" and nothing else set yields exactly ["page", "report.html", "-"] |

## Left out

- Process execution (`exec.Command`, `cmd.Run`) is an oracle from the invocation to what the process wrote to stdout and stderr and the error `cmd.Run` returned. Blocking, stream copying and the process itself are outside the model.
- `os.Args`, `filepath.Abs` and `filepath.Dir`, `exec.LookPath` and `os.Getenv` are fields of the `Host` oracle. `filepath.Join` is modelled as `dir + "/" + name`, without Go's path cleaning or the Windows separator.
- The `sync.Mutex` inside `stringStore` is left out. It only serialises concurrent access, and the model is sequential.
- The process-wide variables `binPath` and `wrapperCmd` are the two stores of a `PathCache` object, passed to the operations that use them.
- `Buffer`, `Bytes` and `WriteFile` are thin accessors of the output buffer. Only the buffer itself is modelled, as a byte sequence that `Run` appends to.
- `log.Println` is left out. So is `log.Fatal` in `NewPDFGenerator`: the model returns the error, where the source ends the process.
- How the option groups (global, outline, page, header/footer, TOC) render their named options is not part of this model. Each group is kept as the fragment it renders to. A fresh group renders nothing, because default-valued options are omitted. The property that toggling a boolean option on and back off restores the default output is therefore not stated.
- JSON persistence of the configuration is not part of this model.
- The `if err != nil` check after the wrapper lookup (wkhtmltopdf.go:310-312) is left out: it re-tests the main lookup's error, which is already known to be nil there.
- The public `Wrapper` field and the private `wrapperPath` field are left out. No code in the file reads them or writes a value to them. The `wrapperCmd` store is modelled, but `initCommand` never consults it.
- Nil pages are not modelled. A `Page` value always exists, so the panics that a nil page given to `AddPage` or `SetPages` causes in `Args` (wkhtmltopdf.go:192) and `run` (wkhtmltopdf.go:281) are outside the model.
- Pages are values. In the source they are pointers in a slice that `SetPages` shares with the caller, so a later change to a page object would show in `Args`. Aliasing is not modelled.
- Strings are sequences of Unicode characters. `TrimSpace` on invalid UTF-8 bytes in stderr is not modelled.
