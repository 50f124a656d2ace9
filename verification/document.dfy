/** The document builder of render_github_markdown.go: the `docBuilder`
    record, its two style presets, and `buildDoc`, which executes the fixed
    `docTemplate` with `text/template`. That template has four field actions
    and no other logic, and `text/template` writes string fields verbatim
    (it escapes nothing), so executing it is the concatenation of five fixed
    text fragments with the four field values between them. The lemmas are
    proved once for every template of that shape and then applied to the
    text of `docTemplate`. */
module Document {
  import opened Wrappers

  /** `docBuilder`: the values substituted into the template. */
  datatype DocBuilder = DocBuilder(title: string, fontSize: string, lineHeight: string, body: string)

  /** `newWebDoc`: the preset for reading on screen. */
  function NewWebDoc(title: string, body: string): DocBuilder {
    DocBuilder(title, "1.1em", "1.5em", body)
  }

  /** `newPDFDoc`: the preset for conversion to PDF. */
  function NewPdfDoc(title: string, body: string): DocBuilder {
    DocBuilder(title, "0.9em", "1.3em", body)
  }

  /** A template made of five text pieces around the actions {{.Title}},
      {{.FontSize}}, {{.LineHeight}} and {{.Body}}, in that order. */
  datatype Template = Template(
    beforeTitle: string,
    beforeFontSize: string,
    beforeLineHeight: string,
    beforeBody: string,
    afterBody: string)

  // The text of `docTemplate` around its four actions.

  const BeforeTitle: string :=
    "\n<!DOCTYPE html>\n<html>\n<head>\n"
    + "    <meta http-equiv=\"Content-Type\" content=\"text/html; charset=UTF-8\">\n"
    + "    <meta name=\"viewport\" content=\"width=device-width\">\n"
    + "    <title>"

  const BeforeFontSize: string :=
    "</title>\n"
    + "    <style type=\"text/css\">\n"
    + "        body {\n"
    + "            font-size: "

  const BeforeLineHeight: string :=
    ";\n"
    + "            line-height: "

  const BeforeBody: string :=
    ";\n"
    + "            max-width: 45em;\n"
    + "            margin: auto;\n"
    + "            padding: 0 2%;\n"
    + "            font-family: system-ui;\n"
    + "        }\n"
    + "        img {\n"
    + "            max-width: 100%;\n"
    + "            margin-left: 0.5em;\n"
    + "            vertical-align: -0.3em;\n"
    + "        }\n"
    + "    </style>\n"
    + "</head>\n"
    + "<body>\n"

  const AfterBody: string :=
    "\n</body>\n"

  /** `docTemplate`. */
  const DocTemplate: Template :=
    Template(BeforeTitle, BeforeFontSize, BeforeLineHeight, BeforeBody, AfterBody)

  /** The length of a template's text without its actions. */
  function TextLength(t: Template): nat {
    |t.beforeTitle| + |t.beforeFontSize| + |t.beforeLineHeight| + |t.beforeBody| + |t.afterBody|
  }

  /** `t` occurs in `s` starting at index `i`. */
  predicate OccursAt(s: string, t: string, i: int) {
    0 <= i && i + |t| <= |s| && s[i..i + |t|] == t
  }

  /** `t` occurs somewhere in `s`. */
  ghost predicate Contains(s: string, t: string) {
    exists i :: OccursAt(s, t, i)
  }

  /** What `text/template` produces for a template of this shape: the text
      pieces with each action replaced by its field, unescaped. */
  function Execute(t: Template, b: DocBuilder): (doc: string)
    ensures t.beforeTitle <= doc
    ensures |doc| == TextLength(t) + |b.title| + |b.fontSize| + |b.lineHeight| + |b.body|
  {
    t.beforeTitle + (b.title + (t.beforeFontSize + (b.fontSize + (t.beforeLineHeight
      + (b.lineHeight + (t.beforeBody + (b.body + t.afterBody)))))))
  }

  /** `docBuilder.buildDoc`: `docTemplate` executed on the builder. The
      template is fixed and well formed, so the parse and execute errors of
      the source cannot arise and the result is a plain string. */
  function BuildDoc(b: DocBuilder): (doc: string)
    ensures BeforeTitle <= doc
    ensures |doc| == TextLength(DocTemplate) + |b.title| + |b.fontSize| + |b.lineHeight| + |b.body|
  {
    Execute(DocTemplate, b)
  }

  /** `s` without its prefix `p`, if `s` starts with `p`. */
  function DropPrefix(s: string, p: string): (r: Option<string>)
    ensures r.Some? <==> p <= s
    ensures r.Some? ==> s == p + r.value
  {
    if p <= s then Some(s[|p|..]) else None
  }

  /** `s` without its suffix `p`, if `s` ends with `p`. */
  function DropSuffix(s: string, p: string): (r: Option<string>)
    ensures r.Some? <==> |p| <= |s| && s[|s| - |p|..] == p
    ensures r.Some? ==> s == r.value + p
  {
    if |p| <= |s| && s[|s| - |p|..] == p then Some(s[..|s| - |p|]) else None
  }

  /** `s` cut after its first `n` characters, if it has that many. */
  function Cut(s: string, n: nat): (r: Option<(string, string)>)
    ensures r.Some? <==> n <= |s|
    ensures r.Some? ==> |r.value.0| == n && s == r.value.0 + r.value.1
  {
    if n <= |s| then Some((s[..n], s[n..])) else None
  }

  /** Reads a document back into its four fields, given the lengths of the
      first three (the body is what is left): None unless every text piece
      of `t` is where `t` puts it. */
  function Decompose(t: Template, doc: string, titleLen: nat, fontSizeLen: nat, lineHeightLen: nat): Option<DocBuilder> {
    var r1 :- DropPrefix(doc, t.beforeTitle);
    var c1 :- Cut(r1, titleLen);
    var r2 :- DropPrefix(c1.1, t.beforeFontSize);
    var c2 :- Cut(r2, fontSizeLen);
    var r3 :- DropPrefix(c2.1, t.beforeLineHeight);
    var c3 :- Cut(r3, lineHeightLen);
    var r4 :- DropPrefix(c3.1, t.beforeBody);
    var body :- DropSuffix(r4, t.afterBody);
    Some(DocBuilder(c1.0, c2.0, c3.0, body))
  }

  lemma DropPrefixOfConcat(p: string, s: string)
    ensures DropPrefix(p + s, p) == Some(s)
  {
    assert (p + s)[|p|..] == s;
  }

  lemma CutOfConcat(a: string, s: string)
    ensures Cut(a + s, |a|) == Some((a, s))
  {
    assert (a + s)[..|a|] == a && (a + s)[|a|..] == s;
  }

  lemma DropSuffixOfConcat(s: string, p: string)
    ensures DropSuffix(s + p, p) == Some(s)
  {
    assert (s + p)[|s|..] == p && (s + p)[..|s|] == s;
  }

  /** Every field lands verbatim at its own action, in template order: the
      four fields can be read back out of the executed template. */
  lemma DecomposeExecute(t: Template, b: DocBuilder)
    ensures Decompose(t, Execute(t, b), |b.title|, |b.fontSize|, |b.lineHeight|) == Some(b)
  {
    var r4 := b.body + t.afterBody;
    var r3 := t.beforeBody + r4;
    var c3 := b.lineHeight + r3;
    var r2 := t.beforeLineHeight + c3;
    var c2 := b.fontSize + r2;
    var r1 := t.beforeFontSize + c2;
    var c1 := b.title + r1;
    DropPrefixOfConcat(t.beforeTitle, c1);
    CutOfConcat(b.title, r1);
    DropPrefixOfConcat(t.beforeFontSize, c2);
    CutOfConcat(b.fontSize, r2);
    DropPrefixOfConcat(t.beforeLineHeight, c3);
    CutOfConcat(b.lineHeight, r3);
    DropPrefixOfConcat(t.beforeBody, r4);
    DropSuffixOfConcat(b.body, t.afterBody);
  }

  /** Conversely, a document that decomposes is the template executed on the
      fields it decomposes into. */
  lemma DecomposeIsExecuted(t: Template, doc: string, titleLen: nat, fontSizeLen: nat, lineHeightLen: nat)
    requires Decompose(t, doc, titleLen, fontSizeLen, lineHeightLen).Some?
    ensures Execute(t, Decompose(t, doc, titleLen, fontSizeLen, lineHeightLen).value) == doc
  {
  }

  /** `buildDoc` is one-to-one once the lengths of the title and the two
      style values are fixed, and a document is built by it exactly when it
      decomposes against `docTemplate` into the builder's fields. */
  lemma BuildDocRoundTrip(b: DocBuilder, doc: string)
    ensures Decompose(DocTemplate, BuildDoc(b), |b.title|, |b.fontSize|, |b.lineHeight|) == Some(b)
    ensures Decompose(DocTemplate, doc, |b.title|, |b.fontSize|, |b.lineHeight|) == Some(b) <==> BuildDoc(b) == doc
  {
    DecomposeExecute(DocTemplate, b);
    if Decompose(DocTemplate, doc, |b.title|, |b.fontSize|, |b.lineHeight|) == Some(b) {
      DecomposeIsExecuted(DocTemplate, doc, |b.title|, |b.fontSize|, |b.lineHeight|);
    }
  }

  /** A field wrapped in the text just before and just after its action:
      `open` ends the piece before the action and `close` starts the rest. */
  lemma FieldInContext(pre: string, field: string, post: string, open: string, close: string)
    requires |open| <= |pre| && pre[|pre| - |open|..] == open
    requires close <= post
    ensures OccursAt(pre + (field + post), open + field + close, |pre| - |open|)
  {
    var s := pre + (field + post);
    var i := |pre| - |open|;
    assert s[i..|pre|] == open;
    assert s[|pre|..|pre| + |field|] == field;
    assert s[|pre| + |field|..|pre| + |field| + |close|] == close;
    assert s[i..i + |open| + |field| + |close|]
        == s[i..|pre|] + s[|pre|..|pre| + |field|] + s[|pre| + |field|..|pre| + |field| + |close|];
  }

  /** An occurrence stays one when text is put in front. */
  lemma OccursAfterPrefix(a: string, s: string, t: string, i: int)
    requires OccursAt(s, t, i)
    ensures OccursAt(a + s, t, |a| + i)
  {
    assert (a + s)[|a| + i..|a| + i + |t|] == s[i..i + |t|];
  }

  /** In any template of this shape whose title piece ends with `<title>`
      and whose next piece starts with `</title>`, the title is the content
      of the `<title>` element. */
  lemma TitleElement(t: Template, b: DocBuilder)
    requires |t.beforeTitle| >= 7 && t.beforeTitle[|t.beforeTitle| - 7..] == "<title>"
    requires "</title>" <= t.beforeFontSize
    ensures OccursAt(Execute(t, b), "<title>" + b.title + "</title>", |t.beforeTitle| - 7)
  {
    FieldInContext(t.beforeTitle, b.title, Execute(t, b)[|t.beforeTitle| + |b.title|..], "<title>", "</title>");
  }

  /** Likewise the font size, between `font-size: ` and `;`. */
  lemma FontSizeDeclaration(t: Template, b: DocBuilder)
    requires |t.beforeFontSize| >= 11 && t.beforeFontSize[|t.beforeFontSize| - 11..] == "font-size: "
    requires ";" <= t.beforeLineHeight
    ensures Contains(Execute(t, b), "font-size: " + b.fontSize + ";")
  {
    var r2 := t.beforeLineHeight + (b.lineHeight + (t.beforeBody + (b.body + t.afterBody)));
    var r1 := t.beforeFontSize + (b.fontSize + r2);
    var w := "font-size: " + b.fontSize + ";";
    FieldInContext(t.beforeFontSize, b.fontSize, r2, "font-size: ", ";");
    OccursAfterPrefix(b.title, r1, w, |t.beforeFontSize| - 11);
    OccursAfterPrefix(t.beforeTitle, b.title + r1, w, |b.title| + |t.beforeFontSize| - 11);
  }

  /** Likewise the line height, between `line-height: ` and `;`. */
  lemma LineHeightDeclaration(t: Template, b: DocBuilder)
    requires |t.beforeLineHeight| >= 13 && t.beforeLineHeight[|t.beforeLineHeight| - 13..] == "line-height: "
    requires ";" <= t.beforeBody
    ensures Contains(Execute(t, b), "line-height: " + b.lineHeight + ";")
  {
    var r3 := t.beforeBody + (b.body + t.afterBody);
    var r2 := t.beforeLineHeight + (b.lineHeight + r3);
    var r1 := t.beforeFontSize + (b.fontSize + r2);
    var w := "line-height: " + b.lineHeight + ";";
    var k := |t.beforeLineHeight| - 13;
    FieldInContext(t.beforeLineHeight, b.lineHeight, r3, "line-height: ", ";");
    OccursAfterPrefix(b.fontSize, r2, w, k);
    k := |b.fontSize| + k;
    OccursAfterPrefix(t.beforeFontSize, b.fontSize + r2, w, k);
    k := |t.beforeFontSize| + k;
    OccursAfterPrefix(b.title, r1, w, k);
    k := |b.title| + k;
    OccursAfterPrefix(t.beforeTitle, b.title + r1, w, k);
  }

  /** Likewise the body, between `<body>` and `</body>`. */
  lemma BodyElement(t: Template, b: DocBuilder)
    requires |t.beforeBody| >= 7 && t.beforeBody[|t.beforeBody| - 7..] == "<body>\n"
    requires "\n</body>\n" <= t.afterBody
    ensures Contains(Execute(t, b), "<body>\n" + b.body + "\n</body>\n")
  {
    var r3 := t.beforeBody + (b.body + t.afterBody);
    var r2 := t.beforeLineHeight + (b.lineHeight + r3);
    var r1 := t.beforeFontSize + (b.fontSize + r2);
    var w := "<body>\n" + b.body + "\n</body>\n";
    var k := |t.beforeBody| - 7;
    FieldInContext(t.beforeBody, b.body, t.afterBody, "<body>\n", "\n</body>\n");
    OccursAfterPrefix(b.lineHeight, r3, w, k);
    k := |b.lineHeight| + k;
    OccursAfterPrefix(t.beforeLineHeight, b.lineHeight + r3, w, k);
    k := |t.beforeLineHeight| + k;
    OccursAfterPrefix(b.fontSize, r2, w, k);
    k := |b.fontSize| + k;
    OccursAfterPrefix(t.beforeFontSize, b.fontSize + r2, w, k);
    k := |t.beforeFontSize| + k;
    OccursAfterPrefix(b.title, r1, w, k);
    k := |b.title| + k;
    OccursAfterPrefix(t.beforeTitle, b.title + r1, w, k);
  }

  /** The title is the content of the document's `<title>` element, the style
      block declares the font size and the line height, and the body sits,
      unescaped, between `<body>` and `</body>`. */
  lemma BuildDocElements(b: DocBuilder)
    ensures Contains(BuildDoc(b), "<title>" + b.title + "</title>")
    ensures Contains(BuildDoc(b), "font-size: " + b.fontSize + ";")
    ensures Contains(BuildDoc(b), "line-height: " + b.lineHeight + ";")
    ensures Contains(BuildDoc(b), "<body>\n" + b.body + "\n</body>\n")
  {
    assert BeforeTitle[|BeforeTitle| - 7..] == "<title>";
    assert "</title>" <= BeforeFontSize;
    assert BeforeFontSize[|BeforeFontSize| - 11..] == "font-size: ";
    assert ";" <= BeforeLineHeight;
    assert BeforeLineHeight[|BeforeLineHeight| - 13..] == "line-height: ";
    assert ";" <= BeforeBody;
    assert BeforeBody[|BeforeBody| - 7..] == "<body>\n";
    assert "\n</body>\n" <= AfterBody;
    TitleElement(DocTemplate, b);
    FontSizeDeclaration(DocTemplate, b);
    LineHeightDeclaration(DocTemplate, b);
    BodyElement(DocTemplate, b);
  }

  // The declarations the two presets put into the style block.
  const WebFontSize: string := "font-size: 1.1em;"
  const WebLineHeight: string := "line-height: 1.5em;"
  const PdfFontSize: string := "font-size: 0.9em;"
  const PdfLineHeight: string := "line-height: 1.3em;"

  /** The declarations are the preset values between the property names and
      the closing `;`. This step of `WebDocStyle` and `PdfDocStyle` is a lemma
      of its own only to keep the solver's cost down: proved next to the
      template text, the equality of the literals is far more expensive. */
  lemma PresetDeclarations()
    ensures "font-size: " + NewWebDoc("", "").fontSize + ";" == WebFontSize
    ensures "line-height: " + NewWebDoc("", "").lineHeight + ";" == WebLineHeight
    ensures "font-size: " + NewPdfDoc("", "").fontSize + ";" == PdfFontSize
    ensures "line-height: " + NewPdfDoc("", "").lineHeight + ";" == PdfLineHeight
  {
  }

  /** The screen preset's document sets `font-size: 1.1em` and
      `line-height: 1.5em`, and keeps the title and body it was given. */
  lemma WebDocStyle(title: string, body: string)
    ensures NewWebDoc(title, body).title == title && NewWebDoc(title, body).body == body
    ensures Contains(BuildDoc(NewWebDoc(title, body)), WebFontSize)
    ensures Contains(BuildDoc(NewWebDoc(title, body)), WebLineHeight)
  {
    BuildDocElements(NewWebDoc(title, body));
    PresetDeclarations();
  }

  /** The print preset's document sets `font-size: 0.9em` and
      `line-height: 1.3em`, and keeps the title and body it was given. */
  lemma PdfDocStyle(title: string, body: string)
    ensures NewPdfDoc(title, body).title == title && NewPdfDoc(title, body).body == body
    ensures Contains(BuildDoc(NewPdfDoc(title, body)), PdfFontSize)
    ensures Contains(BuildDoc(NewPdfDoc(title, body)), PdfLineHeight)
  {
    BuildDocElements(NewPdfDoc(title, body));
    PresetDeclarations();
  }
}
