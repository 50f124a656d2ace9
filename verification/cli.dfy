/** `main` of render_github_markdown.go: the four flag values are checked and
    defaulted in place, the input file is read, its text is rendered by the
    remote markdown service, the rendered body is put into one of the two
    presets, and the built document goes to the output. Reading the file and
    calling the service are parameters of the model; the model records which
    of them `main` performs, and in what order. */
module Cli {
  import opened Wrappers
  import Paths
  import Document

  // The flag sentinels and the two format targets.
  const Required: string := "REQUIRED"
  const Optional: string := "OPTIONAL"
  const Web: string := "web"
  const Pdf: string := "pdf"

  /** The values of `-in`, `-out`, `-title` and `-format-for` after
      `flag.Parse`. */
  datatype Flags = Flags(inPath: string, outPath: string, title: string, formatFor: string)

  /** What `flag.Parse` leaves for a flag that is not on the command line. */
  const DefaultFlags: Flags := Flags(Required, Optional, Optional, Web)

  /** The format targets accepted by `-format-for`. */
  datatype Format = WebFormat | PdfFormat

  /** The flags once checked and defaulted. */
  datatype Params = Params(inPath: string, outPath: string, title: string, format: Format)

  /** The failures `main` reports through `checkErr` before exiting. */
  datatype Error =
    | MissingInput      // "in is required"
    | InvalidFormat     // "type must be web or pdf"
    | FileReadError     // ioutil.ReadFile failed
    | RenderError       // reading the service's response failed

  datatype Result<T> = Ok(value: T) | Err(error: Error)

  /** The input and network operations `main` performs. */
  datatype Call = ReadFile(path: string) | RenderMarkdown(markdown: string)

  /** Where the document goes: printed with a trailing newline, or written
      to a file. */
  datatype Sink = Stdout(text: string) | File(path: string, content: string)

  /** `-in` is missing: empty or still its sentinel. */
  predicate MissingIn(f: Flags) {
    f.inPath == "" || f.inPath == Required
  }

  /** `-format-for` names one of the two targets, exactly. */
  predicate KnownFormat(f: Flags) {
    f.formatFor == Web || f.formatFor == Pdf
  }

  /** The output path after defaulting: an empty or unset `-out` becomes the
      input's file name with `.html`; any other value is kept. Either way it
      is never the "unset" sentinel and never empty. */
  function ResolvedOutPath(inPath: string, outPath: string): (r: string)
    ensures outPath == "" || outPath == Optional ==> r == Paths.FileName(inPath) + ".html"
    ensures outPath != "" && outPath != Optional ==> r == outPath
    ensures r != Optional && r != ""
  {
    if outPath == "" || outPath == Optional then
      var derived := Paths.FileName(inPath) + ".html";
      assert derived[|derived| - 1] == 'l' && Optional[|Optional| - 1] == 'L';
      derived
    else outPath
  }

  /** The title after defaulting: an empty or unset `-title` becomes the
      input's file name; any other value is kept. */
  function ResolvedTitle(inPath: string, title: string): (r: string)
    ensures title == "" || title == Optional ==> r == Paths.FileName(inPath)
    ensures title == "" || title == Optional ==> r + Paths.Ext(inPath) == Paths.Base(inPath)
    ensures title != "" && title != Optional ==> r == title
  {
    if title == "" || title == Optional then
      Paths.FileNameSplitsBase(inPath);
      Paths.FileName(inPath)
    else title
  }

  /** Lines 31-42 of `main`: check `-in`, default `-out` and `-title` in
      place, then check `-format-for`. A missing input wins over a bad
      format; on success nothing but the defaults changes. */
  method ResolveFlags(f: Flags) returns (r: Result<Params>)
    ensures r == Err(MissingInput) <==> MissingIn(f)
    ensures r == Err(InvalidFormat) <==> !MissingIn(f) && !KnownFormat(f)
    ensures r.Ok? <==> !MissingIn(f) && KnownFormat(f)
    ensures r.Ok? ==> r.value == Params(f.inPath,
                                        ResolvedOutPath(f.inPath, f.outPath),
                                        ResolvedTitle(f.inPath, f.title),
                                        if f.formatFor == Web then WebFormat else PdfFormat)
    ensures r.Ok? ==> r.value.outPath != Optional
  {
    var inPath, outPath, title, formatFor := f.inPath, f.outPath, f.title, f.formatFor;
    if inPath == "" || inPath == Required {
      return Err(MissingInput);
    }
    if outPath == "" || outPath == Optional {
      outPath := Paths.FileName(inPath) + ".html";
    }
    if title == "" || title == Optional {
      title := Paths.FileName(inPath);
    }
    if formatFor != Web && formatFor != Pdf {
      return Err(InvalidFormat);
    }
    var format := if formatFor == Web then WebFormat else PdfFormat;
    return Ok(Params(inPath, outPath, title, format));
  }

  /** Lines 61-68 of `main`: print when the output path is the "unset"
      sentinel, write the file otherwise. */
  function ChooseSink(outPath: string, generated: string): (s: Sink)
    ensures s.Stdout? <==> outPath == Optional
    ensures s.Stdout? ==> s.text == generated + "\n"
    ensures s.File? ==> s.path == outPath && s.content == generated
  {
    if outPath == Optional then Stdout(generated + "\n") else File(outPath, generated)
  }

  /** The preset `main` picks with its `switch` on the format target. */
  function Preset(format: Format, title: string, body: string): (b: Document.DocBuilder)
    ensures b.title == title && b.body == body
    ensures format == WebFormat ==> b == Document.NewWebDoc(title, body)
    ensures format == PdfFormat ==> b == Document.NewPdfDoc(title, body)
  {
    match format
    case WebFormat => Document.NewWebDoc(title, body)
    case PdfFormat => Document.NewPdfDoc(title, body)
  }

  /** `main`, with `readFile` standing for `ioutil.ReadFile` and `render` for
      `renderMarkdown` (None is a failure). Flag errors stop the run before
      any call; each failing call stops it right after that call; a run that
      gets through always writes a file: the print branch is never taken. */
  method Run(f: Flags, readFile: string -> Option<string>, render: string -> Option<string>)
    returns (r: Result<Sink>, calls: seq<Call>)
    ensures MissingIn(f) ==> r == Err(MissingInput) && calls == []
    ensures !MissingIn(f) && !KnownFormat(f) ==> r == Err(InvalidFormat) && calls == []
    ensures !MissingIn(f) && KnownFormat(f) ==> |calls| >= 1 && calls[0] == ReadFile(f.inPath)
    ensures !MissingIn(f) && KnownFormat(f) && readFile(f.inPath).None? ==>
              r == Err(FileReadError) && calls == [ReadFile(f.inPath)]
    ensures !MissingIn(f) && KnownFormat(f) && readFile(f.inPath).Some? ==>
              calls == [ReadFile(f.inPath), RenderMarkdown(readFile(f.inPath).value)]
    ensures !MissingIn(f) && KnownFormat(f) && readFile(f.inPath).Some? && render(readFile(f.inPath).value).None? ==>
              r == Err(RenderError)
    ensures r.Ok? <==> !MissingIn(f) && KnownFormat(f) && readFile(f.inPath).Some? && render(readFile(f.inPath).value).Some?
    ensures r.Ok? ==>
              r.value == File(ResolvedOutPath(f.inPath, f.outPath),
                              Document.BuildDoc(Preset(if f.formatFor == Web then WebFormat else PdfFormat,
                                                       ResolvedTitle(f.inPath, f.title),
                                                       render(readFile(f.inPath).value).value)))
    ensures r.Ok? ==> r.value.File?
  {
    calls := [];
    var resolved := ResolveFlags(f);
    if resolved.Err? {
      r := Err(resolved.error);
      return;
    }
    var params := resolved.value;

    calls := calls + [ReadFile(params.inPath)];
    var markdown := readFile(params.inPath);
    if markdown.None? {
      r := Err(FileReadError);
      return;
    }

    calls := calls + [RenderMarkdown(markdown.value)];
    var rendered := render(markdown.value);
    if rendered.None? {
      r := Err(RenderError);
      return;
    }

    var builder: Document.DocBuilder;
    match params.format {
      case WebFormat => builder := Document.NewWebDoc(params.title, rendered.value);
      case PdfFormat => builder := Document.NewPdfDoc(params.title, rendered.value);
    }
    var generated := Document.BuildDoc(builder);
    r := Ok(ChooseSink(params.outPath, generated));
  }

  /** The name of the page written for `readme.md`. This step of
      `ReadmeDefaults` is a lemma of its own only to keep the solver's cost
      down: proved next to the path lemmas, the equality of the literals is
      far more expensive. */
  lemma ReadmePageName()
    ensures "readme" + ".html" == "readme.html"
  {
  }

  /** With only `-in readme.md` given, the output goes to `readme.html` and
      the title is `readme`. */
  lemma ReadmeDefaults()
    ensures ResolvedOutPath("readme.md", Optional) == "readme.html"
    ensures ResolvedTitle("readme.md", Optional) == "readme"
  {
    Paths.FileNameOfReadme();
    ReadmePageName();
  }

  /** The example of a run with only `-in readme.md` given: the document goes
      to `readme.html`, is titled `readme` and uses the screen preset. */
  method ReadmeExample(readFile: string -> Option<string>, render: string -> Option<string>)
    requires readFile("readme.md") == Some("hello")
    requires render("hello") == Some("<p>hello</p>")
  {
    ReadmeDefaults();
    var r, calls := Run(Flags("readme.md", Optional, Optional, Web), readFile, render);
    assert calls == [ReadFile("readme.md"), RenderMarkdown("hello")];
    assert r == Ok(File("readme.html", Document.BuildDoc(Document.NewWebDoc("readme", "<p>hello</p>"))));
  }

  /** With no flags at all, the run stops before reading anything. */
  method NoFlagsExample(readFile: string -> Option<string>, render: string -> Option<string>) {
    var r, calls := Run(DefaultFlags, readFile, render);
    assert r == Err(MissingInput) && calls == [];
  }
}
