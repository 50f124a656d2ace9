# render_github_markdown in Dafny

`render_github_markdown` is a command-line tool. It reads one markdown file,
sends its text to GitHub's markdown rendering service, and wraps the returned
HTML in a small styled page. The page has one of two style presets: `web` for
reading on screen and `pdf` for converting to PDF. The tool writes the page to
a file.

This project models the deterministic part of the program and proves
properties of it:

- `Paths` (paths.dfy) models `fileName`. It also models the Go library
  functions that `fileName` uses: `strings.TrimSuffix`, and the Unix
  behaviour of `filepath.Base` and `filepath.Ext`. The two `filepath`
  functions are written as index recursions that follow the library's own
  loops.
- `Document` (document.dfy) models the `docBuilder` record, the presets
  `newWebDoc` and `newPDFDoc`, and `buildDoc`. `buildDoc` executes the fixed
  `docTemplate`. That template has four field actions and no other logic, and
  `text/template` does not escape, so executing it means putting each field,
  verbatim, between the five text pieces of the template. The lemmas are
  proved for every template of that shape and then applied to the text of
  `docTemplate`. `Decompose` reads a document back into its fields, and it is
  proved to be the inverse of `buildDoc`.
- `Cli` (cli.dfy) models `main`. `ResolveFlags` checks and defaults the flag
  values in the same order as `main`, overwriting its local copies. `Run` is
  the whole of `main`. Reading the input file and calling the rendering
  service are function parameters of `Run`. `Run` returns the list of those
  calls that it makes, so the contract can say which calls happen, in which
  order, and which are skipped after a failure. A process exit through
  `checkErr` is modelled as an `Err` result.

`Run` proves a latent defect of the source. Line 61 has a branch that prints
the document to standard output when `-out` is `"OPTIONAL"`. But lines 34-35
have already replaced an empty or `"OPTIONAL"` `-out` with `<name>.html`, so
that branch is dead, and every successful run writes a file. The code does
not show which behaviour was intended, so the model keeps the code as
written.

## Model

| member | source | states |
|---|---|---|
| `Paths.TrimSuffix` | render_github_markdown.go:92 | `strings.TrimSuffix`: the result is a prefix of `s`. When `s` ends with the suffix, putting the suffix back gives `s`. Otherwise `s` is unchanged. |
| `Paths.TrimmedLength` | render_github_markdown.go:92 | The first scan of `filepath.Base` stops at a character that is not a separator, or at the start of the path. |
| `Paths.LastSeparator` | render_github_markdown.go:92 | The second scan of `filepath.Base` stops at a separator, or at -1 when it reaches the start. |
| `Paths.Base` | render_github_markdown.go:92 | `filepath.Base` never returns the empty string. |
| `Paths.ExtIndex` | render_github_markdown.go:92 | The scan of `filepath.Ext` stops at a dot, or reports that there is no extension. |
| `Paths.TrimmedTail` | render_github_markdown.go:92 | The first scan of `filepath.Base` passes only separators. |
| `Paths.NoSeparatorAfter` | render_github_markdown.go:92 | The second scan of `filepath.Base` passes no separator. |
| `Paths.ExtIndexScan` | render_github_markdown.go:92 | The dot that `filepath.Ext` finds comes after the last separator, and no dot or separator follows it. When the scan finds no dot, no dot follows the last separator. |
| `Paths.TrimmedToNothing` | render_github_markdown.go:92 | Trailing separators use up the whole path exactly when the path is made only of separators. |
| `Paths.BaseOfSeparators` | render_github_markdown.go:92 | For a non-empty path, `filepath.Base` is `"/"` exactly when the path is made only of separators. |
| `Paths.BaseIsLastElement` | render_github_markdown.go:92 | For any other non-empty path, `filepath.Base` is the last element. The element is not empty and has no separator. It starts the path or follows a separator, and only separators follow it. |
| `Paths.BaseHasNoSeparator` | render_github_markdown.go:92 | The base name contains a separator only when it is `"/"`. |
| `Paths.ExtIsLastDot` | render_github_markdown.go:92 | `filepath.Ext` of the whole path is either empty or a suffix of the path. A non-empty result starts with a dot and has no later dot or separator. It is empty exactly when no dot follows the last separator. |
| `Paths.ExtIsSuffixOfBase` | render_github_markdown.go:91-93 | The extension of the whole path is always a suffix of its base name, so `TrimSuffix` in `fileName` always removes it. |
| `Paths.FileNameSplitsBase` | render_github_markdown.go:91-93 | `fileName(p)` followed by `Ext(p)` is `Base(p)`. So `fileName(p)` is a prefix of `Base(p)`, and it contains `/` only when `Base(p)` is `"/"`. |
| `Paths.TrailingSeparatorKeepsDot` | render_github_markdown.go:91-93 | For a path ending in `/`, the extension is empty and `fileName` is the whole base name, dots included. |
| `Paths.BaseOfPlainName` | render_github_markdown.go:92 | A non-empty path without separators is its own base name. |
| `Paths.FileNameOfReadme` | render_github_markdown.go:91-93 | `fileName("readme.md")` is `"readme"`. |
| `Document.Execute` | render_github_markdown.go:140-166 | Executing a template of the `docTemplate` shape starts with the template's first text piece. Its length is the template text plus the four fields. |
| `Document.BuildDoc` | render_github_markdown.go:109-120 | `buildDoc` always succeeds. The document starts with the template head (`<!DOCTYPE html>` …) and its length is the template text plus the four field lengths. |
| `Document.DecomposeExecute` | render_github_markdown.go:140-166 | Each field is written verbatim at its own action, in the order Title, FontSize, LineHeight, Body: `Decompose` recovers all four from the executed template. |
| `Document.DecomposeIsExecuted` | render_github_markdown.go:140-166 | Conversely, any document that `Decompose` accepts is the template executed on the fields it returns. |
| `Document.BuildDocRoundTrip` | render_github_markdown.go:109-120 | For `docTemplate`: a string is the document built from a given builder if and only if it decomposes into that builder. Once the lengths of the title and style values are fixed, `buildDoc` is one-to-one. |
| `Document.TitleElement` | render_github_markdown.go:146 | The title is the unescaped content of the `<title>` element. |
| `Document.FontSizeDeclaration` | render_github_markdown.go:149 | The document declares `font-size: <FontSize>;`. |
| `Document.LineHeightDeclaration` | render_github_markdown.go:150 | The document declares `line-height: <LineHeight>;`. |
| `Document.BodyElement` | render_github_markdown.go:163-165 | The rendered body appears unescaped between `<body>` and `</body>`. |
| `Document.BuildDocElements` | render_github_markdown.go:140-166 | `docTemplate` meets the conditions of the four lemmas above, so every built document contains the title element, both style declarations and the body element. |
| `Document.PresetDeclarations` | render_github_markdown.go:122-138 | The style declarations written for the presets are `font-size: 1.1em;` and `line-height: 1.5em;` for web, and `font-size: 0.9em;` and `line-height: 1.3em;` for pdf. |
| `Document.WebDocStyle` | render_github_markdown.go:122-129 | The web preset keeps the title and body. Its document contains `font-size: 1.1em;` and `line-height: 1.5em;`. |
| `Document.PdfDocStyle` | render_github_markdown.go:131-138 | The pdf preset keeps the title and body. Its document contains `font-size: 0.9em;` and `line-height: 1.3em;`. |
| `Cli.ResolvedOutPath` | render_github_markdown.go:34-36 | An empty or `"OPTIONAL"` `-out` becomes `fileName(in) + ".html"`. Any other value is kept. The result is never `"OPTIONAL"` and never empty. |
| `Cli.ResolvedTitle` | render_github_markdown.go:37-39 | An empty or `"OPTIONAL"` `-title` becomes `fileName(in)`, the base name of the input without its extension: followed by `Ext(in)` it gives `Base(in)`. Any other value is kept. |
| `Cli.ResolveFlags` | render_github_markdown.go:31-42 | The result is `MissingInput` exactly when `-in` is empty or `"REQUIRED"`; this check comes first. The result is `InvalidFormat` exactly when `-in` is present and `-format-for` is not exactly `web` or `pdf`. Otherwise the result holds the input path unchanged, the defaulted output path and title, and the chosen format. The resolved output path is never `"OPTIONAL"`. |
| `Cli.ChooseSink` | render_github_markdown.go:61-68 | The document is printed, with a trailing newline, exactly when the output path is `"OPTIONAL"`. Otherwise it is written verbatim to the output path. |
| `Cli.Preset` | render_github_markdown.go:50-56 | The `web` target selects `newWebDoc` and the `pdf` target selects `newPDFDoc`. Both keep the title and the rendered body. |
| `Cli.ReadmeDefaults` | render_github_markdown.go:34-39 | With only `-in readme.md` given, the output path becomes `readme.html` and the title becomes `readme`. |
| `Cli.Run` | render_github_markdown.go:24-69 | A flag error makes no call at all. Otherwise the file is read first; a read failure stops the run before rendering. A render failure stops it before any output. The run succeeds exactly when every step succeeds. A successful run writes the document built from the chosen preset, the resolved title and the rendered body to the resolved output path. It never prints to standard output. |

## Left out

- `renderMarkdown` (render_github_markdown.go:71-89) is network I/O: JSON encoding and an HTTP POST to GitHub. It is the `render` parameter of `Run`. `None` stands for the error returned while reading the response body. The source prints and ignores errors from encoding and from the request itself. It does not check the HTTP status, and with a failed request it dereferences a nil response. None of this is modelled.
- Reading the input file (line 44) is the `readFile` parameter of `Run`. Creating and writing the output file (lines 64-67) is described by the returned `Sink`. Errors from the write are not modelled.
- `checkErr` and `os.Exit` (lines 95-100) are modelled as an `Err` result. The printing of the error message is not modelled.
- Command-line parsing by the `flag` package is not modelled. The model's input is the four flag values after parsing, and `DefaultFlags` holds the values for flags that are not given.
- The `text/template` engine is not modelled in general. Only its effect on a template with four field actions and no other logic is modelled. The parse and execute errors that `buildDoc` can return cannot occur for the fixed template, so `BuildDoc` returns a plain string.
- `filepath` is modelled with Unix semantics only. Windows separators and volume names are not modelled. Go strings are bytes, and the model works on characters. The results are the same, because `/` and `.` are ASCII.
- `Document.BuildDocElements` proves that the title element, the style declarations and the body element occur in the document. It does not prove that each occurs exactly once, because that is false when the title or body itself contains such markup.
