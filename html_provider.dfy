/** The HTML preview provider: a render mode with three payloads and a
    title, set through property setters, from which the preview page and the
    preview target are chosen. The markdown renderer is a parameter. */
module HtmlPreview {
  import opened Wrappers

  datatype RenderType = Url | Markdown | Html

  /** The two kinds of document the preview command is pointed at. */
  datatype Uri = FileUri(path: string) | ParsedUri(text: string)

  /** The arguments of the `vscode.previewHtml` command. */
  datatype Preview = Preview(uri: Uri, column: int, title: string)

  const PreviewUri := ParsedUri("html-preview://")
  const IndexPath := "res/web/index.html"
  const ViewColumnOne := 1

  const PageHead :=
    "<!DOCTYPE html>\n\t\t<html lang=\"en\">\n\t\t<head>\n"
    + "\t\t\t<meta charset=\"UTF-8\">\n"
    + "\t\t\t<meta name=\"viewport\" content=\"width=device-width, initial-scale=1.0\">\n"
    + "\t\t\t<meta http-equiv=\"X-UA-Compatible\" content=\"ie=edge\">\n"
    + "\t\t</head>\n\t\t<body>\n"
    + "\t\t<div style=\"position:absolute; left:0; top:0; right:0; bottom:0;\">\n\t\t\t"
  const PageTail := "\n\t\t</div>\n\t\t</body>\n\t\t</html>"

  /** The text written to `res/web/main.js` for a url preview. */
  function MainScript(url: string): string {
    "window.targetSrc=\"" + url + "\""
  }

  class HtmlProvider {
    const markdown2html: string -> string
    var renderType: RenderType
    var mdStr: string
    var url: string
    var html: string
    var title: string
    var changes: nat               // change events fired for the preview uri
    var mainScript: Option<string> // contents of res/web/main.js, if written

    constructor (markdown2html: string -> string, mainScript: Option<string>)
      ensures this.markdown2html == markdown2html
      ensures renderType == Url && mdStr == "" && url == "" && html == "" && title == ""
      ensures changes == 0 && this.mainScript == mainScript
    {
      this.markdown2html := markdown2html;
      renderType := Url;
      mdStr, url, html, title := "", "", "", "";
      changes := 0;
      this.mainScript := mainScript;
    }

    /** `getContent`: rendered markdown in markdown mode, the stored html in
        every other mode (so a url preview serves whatever html was set last). */
    function GetContent(): (r: string)
      reads this
      ensures renderType == Markdown ==> r == markdown2html(mdStr)
      ensures renderType != Markdown ==> r == html
    {
      if renderType == Markdown then markdown2html(mdStr) else html
    }

    /** `provideTextDocumentContent`: the fixed page with the content placed
        inside the full-window div. */
    function ProvideTextDocumentContent(): (r: string)
      reads this
      ensures |r| == |PageHead| + |GetContent()| + |PageTail|
      ensures r[..|PageHead|] == PageHead
      ensures r[|PageHead|..|r| - |PageTail|] == GetContent()
      ensures r[|r| - |PageTail|..] == PageTail
    {
      PageHead + GetContent() + PageTail
    }

    /** The `markdown` setter. */
    method SetMarkdown(s: string)
      modifies this`renderType, this`mdStr, this`changes
      ensures renderType == Markdown && mdStr == s && changes == old(changes) + 1
      ensures url == old(url) && html == old(html) && title == old(title)
      ensures GetContent() == markdown2html(s)
    {
      renderType := Markdown;
      mdStr := s;
      changes := changes + 1;
    }

    /** The `url` setter. */
    method SetUrl(s: string)
      modifies this`renderType, this`url, this`changes
      ensures renderType == Url && url == s && changes == old(changes) + 1
      ensures mdStr == old(mdStr) && html == old(html) && title == old(title)
      ensures GetContent() == old(html)
    {
      renderType := Url;
      url := s;
      changes := changes + 1;
    }

    /** The `html` setter. */
    method SetHtml(s: string)
      modifies this`renderType, this`html, this`changes
      ensures renderType == Html && html == s && changes == old(changes) + 1
      ensures mdStr == old(mdStr) && url == old(url) && title == old(title)
      ensures GetContent() == s
    {
      renderType := Html;
      html := s;
      changes := changes + 1;
    }

    /** The `title` setter: no mode change, no change event. */
    method SetTitle(s: string)
      modifies this`title
      ensures title == s
    {
      title := s;
    }

    /** `render(column)`: in url mode it writes the url into `main.js` and
        previews the bundled index page; otherwise it previews the content
        uri. A missing (or zero) column means the first one. */
    method Render(column: Option<int>) returns (p: Preview)
      modifies this`mainScript
      ensures renderType == Url ==>
        p.uri == FileUri(IndexPath) && mainScript == Some(MainScript(url))
      ensures renderType != Url ==> p.uri == PreviewUri && mainScript == old(mainScript)
      ensures p.column == (if column.GetOr(0) != 0 then column.value else ViewColumnOne)
      ensures p.title == title
    {
      var uri;
      if renderType == Url {
        mainScript := Some(MainScript(url));
        uri := FileUri(IndexPath);
      } else {
        uri := PreviewUri;
      }
      p := Preview(uri, if column.GetOr(0) != 0 then column.value else ViewColumnOne, title);
    }
  }
}
