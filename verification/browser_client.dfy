/**
  The browser-client extension: a `beforeRender` listener that makes the
  `browserClientLink` helper available to every template, and the
  `html-with-browser-client` recipe that puts a script tag for the client
  library into rendered HTML.
 */
module BrowserClient {
  import opened JsValues
  import opened Reports
  import opened ExecuteEngine

  const UmdPath: string := "/extension/browser-client/public/js/jsreport.umd.js"

  /** The helper source the listener appends, exactly as the extension defines it. */
  const LinkHelperSource: string :=
    "function browserClientLink() {\n"
    + "      const jsreport = require('jsreport-proxy')\n"
    + "      if (!jsreport.req.context.http || !jsreport.req.context.http.baseUrl) {\n"
    + "        throw new Error('browserClientLink requires context.http.baseUrl to be set')\n"
    + "      }\n"
    + "      return jsreport.req.context.http.baseUrl + '/extension/browser-client/public/js/jsreport.umd.js'\n"
    + "    }"

  const LinkMissingBaseUrlMessage: string := "browserClientLink requires context.http.baseUrl to be set"
  const RecipeMissingBaseUrlMessage: string := "html-with-browser-client requires context.http.baseUrl to be set"

  /** `!http || !http.baseUrl` */
  predicate MissingBaseUrl(http: Option<Http>) {
    http.None? || !Truthy(http.value.baseUrl)
  }

  /** The `beforeRender` listener: `systemHelpers += <helper source> + '\n'`. */
  method OnBeforeRender(req: Request)
    modifies req`systemHelpers
    ensures req.systemHelpers == old(req.systemHelpers) + LinkHelperSource + "\n"
  {
    req.systemHelpers := req.systemHelpers + LinkHelperSource + "\n";
  }

  /**
    The listener only appends: the earlier system helpers stay a prefix, the
    new ones end in a line break, and the error line offset of the user's
    helpers grows by exactly the lines the added helper takes.
   */
  lemma ListenerOnlyAppends(before: string)
    ensures var after := before + LinkHelperSource + "\n";
            && StartsWith(after, before)
            && after[|after| - 1] == '\n'
            && LineOffset(after) == LineOffset(before) + CountChar(LinkHelperSource, '\n') + 1
  {
    var after := before + LinkHelperSource + "\n";
    assert after == before + (LinkHelperSource + "\n");
    assert after[..|before|] == before;
    CountCharAppend(before, LinkHelperSource + "\n", '\n');
    CountCharAppend(LinkHelperSource, "\n", '\n');
  }

  /** What the `browserClientLink` helper returns or throws. */
  function BrowserClientLink(http: Option<Http>): (r: Result<string>)
    ensures r.Err? <==> MissingBaseUrl(http)
    ensures r.Err? ==> r.error == PlainError(LinkMissingBaseUrlMessage)
    ensures r.Ok? ==> StartsWith(r.value, Stringify(http.value.baseUrl))
                      && r.value[|Stringify(http.value.baseUrl)|..] == UmdPath
  {
    if MissingBaseUrl(http) then Err(PlainError(LinkMissingBaseUrlMessage))
    else
      var link := Stringify(http.value.baseUrl) + UmdPath;
      assert link[..|Stringify(http.value.baseUrl)|] == Stringify(http.value.baseUrl);
      Ok(link)
  }

  /** The tag the recipe inserts: a script element whose `src` is the base URL followed by the UMD path. */
  function ScriptTag(baseUrl: Value): (tag: string)
    ensures var src := Stringify(baseUrl) + UmdPath;
            && StartsWith(tag, "<script src=\"")
            && |tag| == |"<script src=\""| + |src| + |"\"></script>"|
            && tag[|"<script src=\""|..|"<script src=\""| + |src|] == src
            && tag[|"<script src=\""| + |src|..] == "\"></script>"
  {
    "<script src=\"" + Stringify(baseUrl) + UmdPath + "\"></script>"
  }

  /** The tag the recipe inserts loads the same URL the helper hands to templates. */
  lemma ScriptTagLoadsLink(http: Option<Http>)
    requires !MissingBaseUrl(http)
    ensures ScriptTag(http.value.baseUrl) == "<script src=\"" + BrowserClientLink(http).value + "\"></script>"
  {
    var link := BrowserClientLink(http).value;
    assert link == Stringify(http.value.baseUrl) + UmdPath;
  }

  /** The characters JavaScript's `\s` class matches. */
  predicate IsJsWhitespace(c: char) {
    || c == '\t' || c == '\n' || c == '\U{000B}' || c == '\U{000C}' || c == '\r' || c == ' '
    || c == '\U{00A0}' || c == '\U{1680}' || ('\U{2000}' <= c <= '\U{200A}')
    || c == '\U{2028}' || c == '\U{2029}' || c == '\U{202F}' || c == '\U{205F}'
    || c == '\U{3000}' || c == '\U{FEFF}'
  }

  /** Length of the longest prefix of `s` that `\s*` consumes. */
  function WhitespaceRun(s: string): (n: nat)
    ensures n <= |s|
    ensures forall i :: 0 <= i < n ==> IsJsWhitespace(s[i])
    ensures n < |s| ==> !IsJsWhitespace(s[n])
    decreases |s|
  {
    if s == [] || !IsJsWhitespace(s[0]) then 0 else 1 + WhitespaceRun(s[1..])
  }

  const BodyClose: string := "</body"

  /**
    `</body\s*>` matches at the start of `t`. Since `>` is not white space,
    the greedy `\s*` matches exactly when the maximal white-space run after
    `</body` is followed by `>`.
   */
  predicate EndBodyStarts(t: string) {
    && StartsWith(t, BodyClose)
    && var rest := t[|BodyClose|..];
       WhitespaceRun(rest) < |rest| && rest[WhitespaceRun(rest)] == '>'
  }

  /** `</body\s*>` matches at position `i` of `s`. */
  predicate EndBodyAt(s: string, i: nat)
    requires i <= |s|
  {
    EndBodyStarts(s[i..])
  }

  /** `content.search(/<\/body\s*>/)` starting the scan at `from`: the first match at or after `from`, or -1. */
  function FindEndBody(s: string, from: nat): (i: int)
    requires from <= |s|
    ensures i == -1 || from <= i < |s|
    ensures i >= 0 ==> EndBodyAt(s, i)
    ensures forall j :: from <= j < |s| && (i < 0 || j < i) ==> !EndBodyAt(s, j)
    decreases |s| - from
  {
    if from == |s| then
      assert !StartsWith(s[from..], BodyClose);
      -1
    else if EndBodyAt(s, from) then from
    else FindEndBody(s, from + 1)
  }

  /** Where the script goes: before the first `</body\s*>`, or at the very start. */
  function InsertionPoint(content: string): (p: nat)
    ensures p <= |content|
    ensures FindEndBody(content, 0) >= 0 ==> p == FindEndBody(content, 0)
    ensures FindEndBody(content, 0) < 0 ==> p == 0
  {
    var endBody := FindEndBody(content, 0);
    if endBody == -1 then 0 else endBody
  }

  /** The splice of the recipe: `script + content`, or the script spliced in before the first closing body tag. */
  function InsertScript(content: string, script: string): (out: string)
    ensures |out| == |content| + |script|
    ensures out[..InsertionPoint(content)] == content[..InsertionPoint(content)]
    ensures out[InsertionPoint(content)..InsertionPoint(content) + |script|] == script
    ensures out[InsertionPoint(content) + |script|..] == content[InsertionPoint(content)..]
  {
    var endBody := FindEndBody(content, 0);
    var out := if endBody == -1 then script + content else content[..endBody] + script + content[endBody..];
    var p := InsertionPoint(content);
    assert out == content[..p] + script + content[p..];
    out
  }

  /** Taking the script back out of the output gives the original content. */
  lemma RemovingScriptRestoresContent(content: string, script: string)
    ensures var out := InsertScript(content, script);
            var p := InsertionPoint(content);
            out[..p] + out[p + |script|..] == content
  {
    var p := InsertionPoint(content);
    assert content[..p] + content[p..] == content;
  }

  /** When the content has a closing body tag, the script ends right where that tag now begins. */
  lemma ScriptPrecedesBodyClose(content: string, script: string)
    requires FindEndBody(content, 0) >= 0
    ensures var p := InsertionPoint(content);
            var out := InsertScript(content, script);
            EndBodyAt(out, p + |script|)
  {
    var p := InsertionPoint(content);
    var out := InsertScript(content, script);
    assert out[p + |script|..] == content[p..];
  }

  /** Without a closing body tag, the script is prepended. */
  lemma NoBodyClosePrepends(content: string, script: string)
    requires forall j :: 0 <= j < |content| ==> !EndBodyAt(content, j)
    ensures InsertScript(content, script) == script + content
  {
    var out := InsertScript(content, script);
    assert InsertionPoint(content) == 0;
    assert out[..|script|] == script;
    assert out[|script|..] == content;
  }

  /**
    The `html-with-browser-client` recipe: set the HTML meta first, refuse
    a request without a base URL, and otherwise splice the script tag into
    the content.
   */
  method Recipe(request: Request, response: Response) returns (failure: Option<JsError>)
    modifies response
    ensures response.meta == old(response.meta)["contentType" := Str("text/html")]["fileExtension" := Str("html")]
    ensures failure.Some? <==> MissingBaseUrl(request.http)
    ensures failure.Some? ==>
              failure.value == ReporterError(RecipeMissingBaseUrlMessage, 400, true)
              && response.content == old(response.content)
    ensures failure.None? ==>
              response.content == InsertScript(old(response.content), ScriptTag(request.http.value.baseUrl))
  {
    response.meta := response.meta["contentType" := Str("text/html")];
    response.meta := response.meta["fileExtension" := Str("html")];
    if MissingBaseUrl(request.http) {
      return Some(ReporterError(RecipeMissingBaseUrlMessage, 400, true));
    }
    var script := ScriptTag(request.http.value.baseUrl);
    response.content := InsertScript(response.content, script);
    failure := None;
  }
}
