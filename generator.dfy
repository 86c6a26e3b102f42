/**
 * The document model: a `PDFGenerator` owns the option groups, the cover, the table of
 * contents, the ordered page list and the output target, and turns them into the
 * ordered argument list handed to wkhtmltopdf. Running the tool is an oracle that maps
 * the invocation to what the process wrote and how it ended.
 */
module Generator {
  import opened Wrappers
  import opened Text
  import opened Pages
  import opened Locator

  /** The cover page: used only when its input is non-empty. */
  datatype Cover = Cover(input: string, pageOptions: OptionGroup)

  /** The table of contents: used only when `included` is set. */
  datatype Toc = Toc(included: bool, pageOptions: OptionGroup, tocOptions: OptionGroup)

  /** Everything the argument list is built from. */
  datatype Document = Document(
    globalOptions: OptionGroup,
    outlineOptions: OptionGroup,
    cover: Cover,
    toc: Toc,
    pages: seq<Page>,
    outputFile: string)

  /** A document as `NewPDFPreparer` or `NewPDFGenerator` leaves it. */
  const EmptyDocument := Document(
    DefaultOptions, DefaultOptions,
    Cover("", DefaultOptions),
    Toc(false, DefaultOptions, DefaultOptions),
    [], "")

  /** The cover segment: present only when the cover has an input. */
  function CoverSegment(c: Cover): (r: seq<string>)
    ensures r != [] <==> c.input != ""
  {
    if c.input != "" then ["cover", c.input] + c.pageOptions.Args() else []
  }

  /** A present cover segment: "cover", the cover input, then the cover's page options. */
  lemma CoverSegmentLayout(c: Cover)
    requires c.input != ""
    ensures var r := CoverSegment(c);
      |r| >= 2 && r[0] == "cover" && r[1] == c.input && r[2..] == c.pageOptions.Args()
  {
  }

  /** The table-of-contents segment: present only when it is included. */
  function TocSegment(t: Toc): (r: seq<string>)
    ensures r != [] <==> t.included
  {
    if t.included then ["toc"] + t.pageOptions.Args() + t.tocOptions.Args() else []
  }

  /** A present table-of-contents segment: "toc", its page options, then its TOC options. */
  lemma TocSegmentLayout(t: Toc)
    requires t.included
    ensures var r := TocSegment(t);
      var k := 1 + |t.pageOptions.Args()|;
      && |r| == k + |t.tocOptions.Args()| && r[0] == "toc"
      && r[1..k] == t.pageOptions.Args() && r[k..] == t.tocOptions.Args()
  {
  }

  /** One page's segment: "page", its input token, then its own options. */
  function PageSegment(p: Page): (r: seq<string>)
    ensures |r| == 2 + |p.Args()|
    ensures r[0] == "page" && r[1] == p.InputFile()
    ensures r[2..] == p.Args()
  {
    ["page", p.InputFile()] + p.Args()
  }

  /** The page segments, one after the other in list order. */
  function PageSegments(pages: seq<Page>): (r: seq<string>)
    ensures r == [] <==> pages == []
    ensures |r| >= 2 * |pages|
    decreases |pages|
  {
    if pages == [] then [] else PageSegment(pages[0]) + PageSegments(pages[1..])
  }

  /** The last argument: the output file, or "-" (standard output) when none is named. */
  function OutputTarget(outputFile: string): (r: string)
    ensures r != ""
    ensures outputFile != "" ==> r == outputFile
    ensures outputFile == "" ==> r == "-"
  {
    if outputFile != "" then outputFile else "-"
  }

  /** What precedes the pages: global options, outline options, cover, table of contents. */
  function Preamble(d: Document): seq<string> {
    d.globalOptions.Args() + d.outlineOptions.Args() + CoverSegment(d.cover) + TocSegment(d.toc)
  }

  /** The argument list of `PDFGenerator.Args`: never empty, and it ends with the output target. */
  function ComposeArgs(d: Document): (r: seq<string>)
    ensures |r| >= 1 && r[|r| - 1] == OutputTarget(d.outputFile)
  {
    Preamble(d) + PageSegments(d.pages) + [OutputTarget(d.outputFile)]
  }

  /** Page segments of a concatenated list are the concatenation of the segments. */
  lemma {:induction false} PageSegmentsAppend(front: seq<Page>, back: seq<Page>)
    ensures PageSegments(front + back) == PageSegments(front) + PageSegments(back)
    decreases |front|
  {
    if front == [] {
      assert front + back == back;
    } else {
      assert (front + back)[1..] == front[1..] + back;
      PageSegmentsAppend(front[1..], back);
    }
  }

  lemma PageSegmentsSingle(p: Page)
    ensures PageSegments([p]) == PageSegment(p)
  {
    assert [p][1..] == [];
  }

  /** Page k contributes its own segment, after those of pages 0..k-1 and before the rest. */
  lemma PageSegmentAt(pages: seq<Page>, k: nat)
    requires k < |pages|
    ensures PageSegments(pages) ==
      PageSegments(pages[..k]) + PageSegment(pages[k]) + PageSegments(pages[k + 1..])
  {
    var front, rest := pages[..k], pages[k..];
    assert front + rest == pages;
    PageSegmentsAppend(front, rest);
    assert rest[0] == pages[k] && rest[1..] == pages[k + 1..];
    assert PageSegments(rest) == PageSegment(pages[k]) + PageSegments(pages[k + 1..]);
    ConcatAssoc(PageSegments(front), PageSegment(pages[k]), PageSegments(pages[k + 1..]));
  }

  /**
   * The layout of the argument list: global options, outline options, the cover segment,
   * the table-of-contents segment, the page segments, and the output target, each at the
   * offset where the previous one ends.
   */
  lemma ArgsLayout(d: Document)
    ensures var r := ComposeArgs(d);
      var g := |d.globalOptions.Args()|;
      var o := g + |d.outlineOptions.Args()|;
      var c := o + |CoverSegment(d.cover)|;
      var t := c + |TocSegment(d.toc)|;
      && t + |PageSegments(d.pages)| + 1 == |r|
      && r[..g] == d.globalOptions.Args()
      && r[g..o] == d.outlineOptions.Args()
      && r[o..c] == CoverSegment(d.cover)
      && r[c..t] == TocSegment(d.toc)
      && r[t..|r| - 1] == PageSegments(d.pages)
  {
    var gl, ou, co, tc := d.globalOptions.Args(), d.outlineOptions.Args(), CoverSegment(d.cover), TocSegment(d.toc);
    var ps := PageSegments(d.pages);
    var r := ComposeArgs(d);
    ConcatLayout(gl, ou, co, tc, ps, [OutputTarget(d.outputFile)]);
  }

  /** Where each part of a six-way concatenation sits. */
  lemma ConcatLayout<T>(a: seq<T>, b: seq<T>, c: seq<T>, d: seq<T>, e: seq<T>, f: seq<T>)
    ensures var r := a + b + c + d + e + f;
      var i, j, k, l := |a|, |a| + |b|, |a| + |b| + |c|, |a| + |b| + |c| + |d|;
      && r[..i] == a && r[i..j] == b && r[j..k] == c && r[k..l] == d && r[l..l + |e|] == e
  {
  }

  /** The fixed tokens: "cover" right after the outline options, "toc" right after the cover
      segment, and "page" with the first page's input right after the table of contents. */
  lemma ArgsTokens(d: Document)
    ensures var r := ComposeArgs(d);
      var o := |d.globalOptions.Args()| + |d.outlineOptions.Args()|;
      var c := o + |CoverSegment(d.cover)|;
      var t := c + |TocSegment(d.toc)|;
      && (d.cover.input != "" ==> r[o] == "cover" && r[o + 1] == d.cover.input)
      && (d.toc.included ==> r[c] == "toc")
      && (d.pages != [] ==> r[t] == "page" && r[t + 1] == d.pages[0].InputFile())
  {
    var gl, ou, co, tc := d.globalOptions.Args(), d.outlineOptions.Args(), CoverSegment(d.cover), TocSegment(d.toc);
    ConcatHeads(gl, ou, co, tc, PageSegments(d.pages), [OutputTarget(d.outputFile)]);
  }

  /** The leading elements of the middle parts of a six-way concatenation. */
  lemma ConcatHeads<T>(a: seq<T>, b: seq<T>, c: seq<T>, d: seq<T>, e: seq<T>, f: seq<T>)
    ensures var r := a + b + c + d + e + f;
      var j, k, l := |a| + |b|, |a| + |b| + |c|, |a| + |b| + |c| + |d|;
      && (|c| >= 2 ==> r[j] == c[0] && r[j + 1] == c[1])
      && (|d| >= 1 ==> r[k] == d[0])
      && (|e| >= 2 ==> r[l] == e[0] && r[l + 1] == e[1])
  {
  }

  /** Adding a page inserts exactly its segment just before the output target. */
  lemma AddPageExtendsArgs(d: Document, p: Page)
    ensures var before := ComposeArgs(d);
      ComposeArgs(d.(pages := d.pages + [p])) ==
        before[..|before| - 1] + PageSegment(p) + [OutputTarget(d.outputFile)]
  {
    var pre, ps, target := Preamble(d), PageSegments(d.pages), [OutputTarget(d.outputFile)];
    var before := ComposeArgs(d);
    assert before == (pre + ps) + target;
    assert before[..|before| - 1] == pre + ps;
    var d' := d.(pages := d.pages + [p]);
    PageSegmentsAppend(d.pages, [p]);
    PageSegmentsSingle(p);
    assert PageSegments(d'.pages) == ps + PageSegment(p);
    assert Preamble(d') == pre;
    assert ComposeArgs(d') == pre + (ps + PageSegment(p)) + target;
    ConcatAssoc(pre, ps, PageSegment(p));
  }

  lemma AppendSegment<T>(a: seq<T>, x: T, y: T, b: seq<T>)
    ensures a + [x] + [y] + b == a + ([x, y] + b)
  {
  }

  lemma ConcatAssoc<T>(a: seq<T>, b: seq<T>, c: seq<T>)
    ensures a + (b + c) == (a + b) + c
  {
  }

  /** What the tool is started with. */
  datatype ProcessCall = ProcessCall(command: string, args: seq<string>, stdin: Option<Stream>)

  /** What the process left behind: its stdout bytes, its stderr text and the error of `cmd.Run`. */
  datatype ProcessOutcome = ProcessOutcome(stdout: seq<bv8>, stderr: string, err: Option<string>)

  /** The reader wired to stdin: the first page that has one; later stream pages are ignored. */
  function FirstReader(pages: seq<Page>): (r: Option<Stream>)
    ensures r.None? <==> forall i :: 0 <= i < |pages| ==> pages[i].Reader().None?
    ensures r.Some? ==>
      exists i :: 0 <= i < |pages| && pages[i].Reader() == r && forall j :: 0 <= j < i ==> pages[j].Reader().None?
    decreases |pages|
  {
    if pages == [] then None
    else if pages[0].Reader().Some? then pages[0].Reader()
    else
      var rest := FirstReader(pages[1..]);
      assert forall i :: 1 <= i < |pages| ==> pages[i] == pages[1..][i - 1];
      rest
  }

  /** The error text of a failed run: stderr when it holds anything but white space, else the run error. */
  function ErrorMessage(stderr: string, runError: string): (r: string)
    ensures (exists i :: 0 <= i < |stderr| && !IsSpace(stderr[i])) ==> r == stderr
    ensures AllSpace(stderr) ==> r == runError
  {
    if TrimSpace(stderr) == "" then runError else stderr
  }

  /** The error `run` returns for an outcome: none on success, else the chosen message. */
  function RunError(outcome: ProcessOutcome): (r: Option<string>)
    ensures r.None? <==> outcome.err.None?
    ensures r.Some? ==> r.value == ErrorMessage(outcome.stderr, outcome.err.value)
  {
    match outcome.err
    case None => None
    case Some(e) => Some(ErrorMessage(outcome.stderr, e))
  }

  /** A failing run whose stderr says "Error: no display" reports exactly that text. */
  lemma NoDisplayScenario(stdout: seq<bv8>, runError: string)
    ensures RunError(ProcessOutcome(stdout, "Error: no display", Some(runError))) == Some("Error: no display")
  {
    var stderr := "Error: no display";
    assert !IsSpace(stderr[0]);
  }

  /** The generator. The option groups are fields the caller sets before `Create`. */
  class PDFGenerator {
    var globalOptions: OptionGroup
    var outlineOptions: OptionGroup
    var cover: Cover
    var toc: Toc
    var outputFile: string
    var binPath: string
    var outbuf: seq<bv8>
    var pages: seq<Page>

    function Doc(): Document
      reads this
    {
      Document(globalOptions, outlineOptions, cover, toc, pages, outputFile)
    }

    /** `NewPDFPreparer`: every group at its defaults, no pages, no executable path. */
    constructor Preparer()
      ensures Doc() == EmptyDocument
      ensures binPath == "" && outbuf == []
    {
      globalOptions := DefaultOptions;
      outlineOptions := DefaultOptions;
      cover := Cover("", DefaultOptions);
      toc := Toc(false, DefaultOptions, DefaultOptions);
      outputFile := "";
      binPath := "";
      outbuf := [];
      pages := [];
    }

    /**
     * `NewPDFGenerator`: a preparer whose executable path is then resolved. In the source a
     * resolution error ends the process; here it is returned.
     */
    static method NewPDFGenerator(cache: PathCache, host: Host) returns (pdfg: PDFGenerator, err: Option<string>)
      requires cache.Valid()
      modifies cache.binPath
      ensures fresh(pdfg) && pdfg.Doc() == EmptyDocument && pdfg.outbuf == []
      ensures match ResolveCommand(old(cache.binPath.val), host)
        case Ok(path) => err == None && pdfg.binPath == path && cache.binPath.val == path
        case Err(e) => err == Some(e) && pdfg.binPath == "" && cache.binPath.val == old(cache.binPath.val)
    {
      pdfg := new PDFGenerator.Preparer();
      err := pdfg.InitCommand(cache, host);
    }

    /** `Args`: the argument list, built by appending segment after segment. */
    method Args() returns (args: seq<string>)
      ensures args == ComposeArgs(Doc())
    {
      ghost var doc := Doc();
      args := globalOptions.Args();
      args := args + outlineOptions.Args();
      if cover.input != "" {
        args := args + ["cover"];
        args := args + [cover.input];
        args := args + cover.pageOptions.Args();
      }
      assert args == doc.globalOptions.Args() + doc.outlineOptions.Args() + CoverSegment(doc.cover);
      if toc.included {
        args := args + ["toc"];
        args := args + toc.pageOptions.Args();
        args := args + toc.tocOptions.Args();
      }
      ghost var preamble := Preamble(doc);
      assert args == preamble;
      var ps := pages;
      var i := 0;
      while i < |ps|
        invariant 0 <= i <= |ps|
        invariant preamble + PageSegments(ps) == args + PageSegments(ps[i..])
      {
        ghost var before := args;
        args := args + ["page"];
        args := args + [ps[i].InputFile()];
        args := args + ps[i].Args();
        AppendSegment(before, "page", ps[i].InputFile(), ps[i].Args());
        assert ps[i..][1..] == ps[i + 1..];
        ConcatAssoc(before, PageSegment(ps[i]), PageSegments(ps[i + 1..]));
        i := i + 1;
      }
      assert ps[i..] == [];
      assert args == preamble + PageSegments(doc.pages);
      if outputFile != "" {
        args := args + [outputFile];
      } else {
        args := args + ["-"];
      }
      assert args == ComposeArgs(doc);
    }

    /** `ArgString`: the arguments joined by single spaces. */
    method ArgString() returns (s: string)
      ensures s == Join(ComposeArgs(Doc()), " ")
    {
      var args := Args();
      s := Join(args, " ");
    }

    /** `AddPage`: the page goes at the end; nothing else changes. */
    method AddPage(p: Page)
      modifies this`pages
      ensures Doc() == old(Doc()).(pages := old(pages) + [p])
    {
      pages := pages + [p];
    }

    /** `SetPages`: the list is replaced wholesale; nothing else changes. */
    method SetPages(ps: seq<Page>)
      modifies this`pages
      ensures Doc() == old(Doc()).(pages := ps)
    {
      pages := ps;
    }

    /**
     * `initCommand`: a set cache is used without searching; otherwise a main-lookup error is
     * returned unchanged, and a found path (prefixed by the wrapper when there is one) is
     * stored both in the cache and in this generator.
     */
    method InitCommand(cache: PathCache, host: Host) returns (err: Option<string>)
      requires cache.Valid()
      modifies this`binPath, cache.binPath
      ensures match ResolveCommand(old(cache.binPath.val), host)
        case Ok(path) => err == None && binPath == path && cache.binPath.val == path
        case Err(e) => err == Some(e) && binPath == old(binPath) && cache.binPath.val == old(cache.binPath.val)
    {
      var cached := cache.GetPath();
      if cached != "" {
        binPath := cached;
        return None;
      }
      var mainPath := FindCommandPath(host, MainCommand, MainPathEnv);
      if mainPath.Err? {
        return Some(mainPath.message);
      }
      var wrapPath := match FindCommandPath(host, WrapperCommand, WrapperPathEnv)
        case Ok(p) => p
        case Err(_) => "";
      var finalPath := if wrapPath != "" then wrapPath + " " + mainPath.value else mainPath.value;
      cache.SetPath(finalPath);
      binPath := finalPath;
      return None;
    }

    /** The stdin scan of `run`: the reader of the first page that has one. */
    method StdinReader() returns (stdin: Option<Stream>)
      ensures stdin == FirstReader(pages)
    {
      stdin := None;
      var i := 0;
      while i < |pages|
        invariant 0 <= i <= |pages|
        invariant FirstReader(pages[i..]) == FirstReader(pages)
      {
        assert pages[i..][1..] == pages[i + 1..];
        if pages[i].Reader().Some? {
          stdin := pages[i].Reader();
          break;
        }
        i := i + 1;
      }
    }

    /**
     * `run`: starts the tool with the resolved command and the argument list, stdin from the
     * first stream page; its stdout is appended to the output buffer, and a failure is
     * reported with the error text `RunError` chooses.
     */
    method Run(process: ProcessCall -> ProcessOutcome) returns (err: Option<string>)
      modifies this`outbuf
      ensures var outcome := process(ProcessCall(binPath, ComposeArgs(Doc()), FirstReader(pages)));
        outbuf == old(outbuf) + outcome.stdout && err == RunError(outcome)
    {
      var args := Args();
      var stdin := StdinReader();
      var outcome := process(ProcessCall(binPath, args, stdin));
      outbuf := outbuf + outcome.stdout;
      err := None;
      if outcome.err.Some? {
        var errStr := outcome.stderr;
        if TrimSpace(errStr) == "" {
          errStr := outcome.err.value;
        }
        err := Some(errStr);
      }
    }

    /** `Create`: runs the tool once with the current configuration. */
    method Create(process: ProcessCall -> ProcessOutcome) returns (err: Option<string>)
      modifies this`outbuf
      ensures var outcome := process(ProcessCall(binPath, ComposeArgs(Doc()), FirstReader(pages)));
        outbuf == old(outbuf) + outcome.stdout && err == RunError(outcome)
    {
      err := Run(process);
    }
  }

  /**
   * A preparer never gets an executable path: `SetPath` seeds only the shared cache, and
   * only `InitCommand` copies it into the generator. So the tool is started with an
   * empty program name, whatever path was set.
   */
  method PreparerAfterSetPath(cache: PathCache, path: string, process: ProcessCall -> ProcessOutcome)
    returns (err: Option<string>)
    requires cache.Valid()
    modifies cache.binPath
    ensures err == RunError(process(ProcessCall("", ["-"], None)))
  {
    var pdfg := new PDFGenerator.Preparer();
    cache.SetPath(path);
    err := pdfg.Create(process);
    assert Preamble(EmptyDocument) == [] && PageSegments([]) == [];
    assert ComposeArgs(EmptyDocument) == ["-"];
  }

  /** One file page "report.html", default options, no cover, no table of contents, no output file. */
  method ReportExample() returns (args: seq<string>)
    ensures args == ["page", "report.html", "-"]
  {
    var pdfg := new PDFGenerator.Preparer();
    pdfg.AddPage(NewPage("report.html"));
    args := pdfg.Args();
    var p := NewPage("report.html");
    var d := pdfg.Doc();
    assert d == EmptyDocument.(pages := [p]);
    assert Preamble(d) == [];
    PageSegmentsSingle(p);
    assert PageSegments(d.pages) == ["page", "report.html"];
    assert OutputTarget(d.outputFile) == "-";
  }
}
