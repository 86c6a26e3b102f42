/**
 * Input pages of a document. Option groups are kept only as the argument fragment
 * they render to: how each group renders its named options lives outside this model.
 */
module Pages {
  import opened Wrappers

  /** The handle of an `io.Reader` a stream-backed page reads its HTML from. */
  datatype Stream = Stream(handle: nat)

  /** An option group (global, outline, page, header/footer or table-of-contents options),
      represented by the argument fragment it renders to. */
  datatype OptionGroup = OptionGroup(rendered: seq<string>) {
    function Args(): seq<string> { rendered }
  }

  /** A freshly created group: every option is at its default, and default options are omitted. */
  const DefaultOptions := OptionGroup([])

  /** The per-page options: the page group followed by the header and footer group. */
  datatype PageOptions = PageOptions(pageOptions: OptionGroup, headerAndFooterOptions: OptionGroup) {
    function Args(): (r: seq<string>)
      ensures |r| == |pageOptions.Args()| + |headerAndFooterOptions.Args()|
      ensures r[..|pageOptions.Args()|] == pageOptions.Args()
      ensures r[|pageOptions.Args()|..] == headerAndFooterOptions.Args()
    {
      pageOptions.Args() + headerAndFooterOptions.Args()
    }
  }

  function NewPageOptions(): (po: PageOptions)
    ensures po.Args() == []
  {
    PageOptions(DefaultOptions, DefaultOptions)
  }

  /** The two implementations of the page interface: a file or URL, and a stream read from stdin. */
  datatype Page =
    | FilePage(input: string, options: PageOptions)
    | ReaderPage(stream: Option<Stream>, options: PageOptions)
  {
    /** The input token passed to the tool: the path or URL, or "-" for standard input. */
    function InputFile(): (r: string)
      ensures FilePage? ==> r == input
      ensures ReaderPage? ==> r == "-"
      ensures Reader().Some? ==> r == "-"
    {
      match this
      case FilePage(input, _) => input
      case ReaderPage(_, _) => "-"
    }

    /** The page's own options: page options first, then header and footer options. */
    function Args(): (r: seq<string>)
      ensures |r| == |options.pageOptions.Args()| + |options.headerAndFooterOptions.Args()|
      ensures r[..|options.pageOptions.Args()|] == options.pageOptions.Args()
      ensures r[|options.pageOptions.Args()|..] == options.headerAndFooterOptions.Args()
    {
      options.Args()
    }

    /** The reader to connect to the tool's standard input, if any. */
    function Reader(): (r: Option<Stream>)
      ensures r.Some? ==> ReaderPage?
    {
      match this
      case FilePage(_, _) => None
      case ReaderPage(stream, _) => stream
    }
  }

  /** A page read from a local file or a URL: its input token is exactly the given string. */
  function NewPage(input: string): (p: Page)
    ensures p.InputFile() == input
    ensures p.Reader() == None
    ensures p.Args() == []
  {
    FilePage(input, NewPageOptions())
  }

  /** A page read from a stream: its input token is "-" whatever the stream holds. */
  function NewPageReader(input: Option<Stream>): (p: Page)
    ensures p.InputFile() == "-"
    ensures p.Reader() == input
    ensures p.Args() == []
  {
    ReaderPage(input, NewPageOptions())
  }
}
