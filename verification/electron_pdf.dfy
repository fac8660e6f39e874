/**
  The electron-pdf recipe: it fixes the template's electron options, maps
  them to the options of the HTML-to-PDF conversion with their defaults,
  and records the conversion's result on the response.
 */
module ElectronPdf {
  import opened JsValues
  import opened Reports

  /** The global the page sets when it is ready to print. */
  const ReadyVarName: string := "JSREPORT_READY_TO_START"

  datatype BrowserWindow = BrowserWindow(width: Value, height: Value, javascript: bool)

  datatype PdfSettings = PdfSettings(marginsType: Value, pageSize: Value, printBackground: Value, landscape: Value)

  /** What the recipe asks the converter for (the converter path is left to the converter). */
  datatype ConversionOptions = ConversionOptions(
    html: string,
    delay: Value,
    timeout: Value,
    waitForJS: Value,
    waitForJSVarName: string,
    browserWindow: BrowserWindow,
    pdf: PdfSettings)

  /** What the converter reports: the page count and the collected PDF output. */
  datatype ConversionResult = ConversionResult(numberOfPages: Value, content: string)

  /** `v != null ? v : fallback` */
  function OrDefault(v: Value, fallback: Value): (r: Value)
    ensures IsNullish(v) ==> r == fallback
    ensures !IsNullish(v) ==> r == v
  {
    if !IsNullish(v) then v else fallback
  }

  /**
    `parseIfJSON`: objects (and `null`) are kept; anything else goes through
    `JSON.parse` of its string form, and is kept when that throws.
   */
  function ParseIfJson(v: Value, jsonParse: string -> Option<Value>): (r: Value)
    ensures IsObjectTypeof(v) ==> r == v
    ensures !IsObjectTypeof(v) && jsonParse(Stringify(v)).Some? ==> r == jsonParse(Stringify(v)).value
    ensures !IsObjectTypeof(v) && jsonParse(Stringify(v)).None? ==> r == v
  {
    if IsObjectTypeof(v) then v
    else match jsonParse(Stringify(v))
      case Some(parsed) => parsed
      case None => v
  }

  /** An object format is never parsed, whatever the parser would do with it. */
  lemma ObjectFormatIgnoresParser(v: Value, parse1: string -> Option<Value>, parse2: string -> Option<Value>)
    requires IsObjectTypeof(v)
    ensures ParseIfJson(v, parse1) == ParseIfJson(v, parse2) == v
  {
  }

  /** `request.template.electron = request.template.electron || {}` then the timeout overwrite. */
  function ElectronFor(electron: Option<ElectronOptions>, reportTimeout: Value): (o: ElectronOptions)
    ensures o.timeout == reportTimeout
    ensures electron.None? ==> o == EmptyElectronOptions.(timeout := reportTimeout)
    ensures electron.Some? ==> o == electron.value.(timeout := reportTimeout)
  {
    var existing := if electron.Some? then electron.value else EmptyElectronOptions;
    existing.(timeout := reportTimeout)
  }

  /** The options object built for the conversion, with a default exactly where an option is null or undefined. */
  function ConversionOptionsFor(html: string, o: ElectronOptions, jsonParse: string -> Option<Value>)
    : (c: ConversionOptions)
    ensures c.html == html && c.delay == o.printDelay && c.timeout == o.timeout
    ensures c.waitForJSVarName == ReadyVarName
    ensures IsNullish(o.waitForJS) <==> c.waitForJS == Bool(false) && o.waitForJS != Bool(false)
    ensures !IsNullish(o.waitForJS) ==> c.waitForJS == o.waitForJS
    ensures c.browserWindow.width == o.width && c.browserWindow.height == o.height
    ensures c.browserWindow.javascript <==> !Truthy(o.blockJavaScript)
    ensures IsNullish(o.blockJavaScript) ==> c.browserWindow.javascript
    ensures c.pdf.marginsType == o.marginsType
    ensures c.pdf.pageSize == ParseIfJson(o.format, jsonParse)
    ensures IsNullish(o.printBackground) <==> c.pdf.printBackground == Bool(true) && o.printBackground != Bool(true)
    ensures !IsNullish(o.printBackground) ==> c.pdf.printBackground == o.printBackground
    ensures IsNullish(o.landscape) <==> c.pdf.landscape == Bool(false) && o.landscape != Bool(false)
    ensures !IsNullish(o.landscape) ==> c.pdf.landscape == o.landscape
  {
    ConversionOptions(
      html,
      o.printDelay,
      o.timeout,
      OrDefault(o.waitForJS, Bool(false)),
      ReadyVarName,
      BrowserWindow(o.width, o.height, !Truthy(OrDefault(o.blockJavaScript, Bool(false)))),
      PdfSettings(o.marginsType, ParseIfJson(o.format, jsonParse),
                  OrDefault(o.printBackground, Bool(true)), OrDefault(o.landscape, Bool(false))))
  }

  /**
    A template without electron options converts with the report timeout,
    without waiting for the page, with JavaScript on, backgrounds printed
    and portrait orientation.
   */
  lemma DefaultsForMissingOptions(html: string, reportTimeout: Value, jsonParse: string -> Option<Value>)
    ensures var c := ConversionOptionsFor(html, ElectronFor(None, reportTimeout), jsonParse);
            && c.timeout == reportTimeout
            && c.waitForJS == Bool(false)
            && c.browserWindow.javascript
            && c.pdf.printBackground == Bool(true)
            && c.pdf.landscape == Bool(false)
  {
  }

  /**
    The recipe: it fixes the template's electron options (kept even when the
    conversion fails), converts the response content, and records the
    result on the response.
   */
  method Recipe(request: Request, response: Response, reportTimeout: Value,
                jsonParse: string -> Option<Value>, convert: ConversionOptions -> Result<ConversionResult>)
    returns (failure: Option<JsError>)
    modifies request`template, response
    ensures request.template == old(request.template).(electron := Some(ElectronFor(old(request.template.electron), reportTimeout)))
    ensures var opts := ConversionOptionsFor(old(response.content), request.template.electron.value, jsonParse);
            match convert(opts)
            case Err(e) =>
              failure == Some(e) && response.meta == old(response.meta) && response.content == old(response.content)
            case Ok(res) =>
              && failure.None?
              && response.meta == old(response.meta)["contentType" := Str("application/pdf")]
                                                    ["fileExtension" := Str("pdf")]
                                                    ["numberOfPages" := res.numberOfPages]
              && response.content == res.content
  {
    request.template := request.template.(electron := Some(ElectronFor(request.template.electron, reportTimeout)));
    var options := request.template.electron.value;
    var converted := convert(ConversionOptionsFor(response.content, options, jsonParse));
    if converted.Err? {
      return Some(converted.error);
    }
    var result := converted.value;
    response.meta := response.meta["contentType" := Str("application/pdf")];
    response.meta := response.meta["fileExtension" := Str("pdf")];
    response.meta := response.meta["numberOfPages" := result.numberOfPages];
    response.content := result.content;
    failure := None;
  }
}
