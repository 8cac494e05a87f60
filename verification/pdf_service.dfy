/** The PDF renderer: a browser tab is opened, pointed at the HTML (inline or
    through a temporary file under ./tmp), printed and closed again; plus the
    duration formatter used in its log lines. */
module PdfService {
  import opened Common

  // ---------------------------------------------------------------------
  // Durations as the log lines print them
  // ---------------------------------------------------------------------

  /** `{:03}` of a number below 1000: exactly three digits, zero-padded. */
  function Pad3(n: nat): (s: string)
    requires n < 1000
    ensures |s| == 3 && AllDigits(s)
  {
    [DigitChar(n / 100), DigitChar(n / 10 % 10), DigitChar(n % 10)]
  }

  lemma {:induction false} Pad3RoundTrip(n: nat)
    requires n < 1000
    ensures Value(Pad3(n)) == n
  {
    var s := Pad3(n);
    DigitRoundTrip(n / 100);
    DigitRoundTrip(n / 10 % 10);
    DigitRoundTrip(n % 10);
    var one, two := [s[0]], [s[0], s[1]];
    assert s[..2] == two && two[..1] == one && one[..0] == [];
    assert Value(one) == DigitValue(s[0]);
    assert Value(two) == DigitValue(s[0]) * 10 + DigitValue(s[1]);
    assert Value(s) == Value(two) * 10 + DigitValue(s[2]);
    assert n / 10 == n / 100 * 10 + n / 10 % 10;
  }

  /** `TimingInfo::format` of a duration given in nanoseconds: whole seconds
      with milliseconds, else whole milliseconds with microseconds, else whole
      microseconds. */
  function FormatDuration(nanos: nat): (s: string)
    ensures ReadDuration(s) == Some(Shown(nanos))
  {
    var micros := nanos / 1000;
    var millis := nanos / 1000000;
    var secs := nanos / 1000000000;
    if secs > 0 then
      ReadsBackWithFraction(secs, millis % 1000, " segundos");
      Decimal(secs) + ("." + Pad3(millis % 1000) + " segundos")
    else if millis > 0 then
      ReadsBackWithFraction(millis, micros % 1000, " milisegundos");
      Decimal(millis) + ("." + Pad3(micros % 1000) + " milisegundos")
    else
      SplitDigitsOf(Decimal(micros), " microsegundos");
      DecimalRoundTrip(micros);
      Decimal(micros) + " microsegundos"
  }


  /** A formatted duration read back: the whole part, the three-digit
      fraction when there is one, and the unit word. */
  datatype Reading = Reading(whole: nat, fraction: Option<nat>, unit: string)

  /** The longest prefix of digits, and what follows it. */
  function SplitDigits(s: string): (r: (string, string))
    ensures AllDigits(r.0)
    ensures r.1 != [] ==> !IsDigit(r.1[0])
  {
    if s == [] || !IsDigit(s[0]) then ([], s)
    else
      var rest := SplitDigits(s[1..]);
      ([s[0]] + rest.0, rest.1)
  }

  /** The split loses nothing: the digits and the rest make up the input. */
  lemma {:induction false} SplitDigitsSplits(s: string)
    ensures SplitDigits(s).0 + SplitDigits(s).1 == s
  {
    if s != [] && IsDigit(s[0]) {
      SplitDigitsSplits(s[1..]);
      var rest := SplitDigits(s[1..]);
      assert ([s[0]] + rest.0) + rest.1 == [s[0]] + (rest.0 + rest.1);
      assert [s[0]] + s[1..] == s;
    }
  }

  lemma {:induction false} SplitDigitsOf(ds: string, rest: string)
    requires AllDigits(ds)
    requires rest != [] && !IsDigit(rest[0])
    ensures SplitDigits(ds + rest) == (ds, rest)
  {
    if ds == [] {
      assert ds + rest == rest;
    } else {
      assert (ds + rest)[0] == ds[0] && IsDigit(ds[0]);
      assert (ds + rest)[1..] == ds[1..] + rest;
      SplitDigitsOf(ds[1..], rest);
      assert [ds[0]] + ds[1..] == ds;
    }
  }

  /** Parses "<digits>.<three digits> <unit>" or "<digits> microsegundos". */
  function ReadDuration(s: string): Option<Reading> {
    var (whole, rest) := SplitDigits(s);
    if whole == [] then None
    else if rest != [] && rest[0] == '.' then
      var (fraction, tail) := SplitDigits(rest[1..]);
      if |fraction| == 3 && tail in {" segundos", " milisegundos"} then
        Some(Reading(Value(whole), Some(Value(fraction)), tail[1..]))
      else None
    else if rest == " microsegundos" then Some(Reading(Value(whole), None, "microsegundos"))
    else None
  }

  /** What a duration prints as, read back. */
  function Shown(nanos: nat): Reading {
    if nanos >= 1000000000 then Reading(nanos / 1000000000, Some(nanos / 1000000 % 1000), "segundos")
    else if nanos >= 1000000 then Reading(nanos / 1000000, Some(nanos / 1000 % 1000), "milisegundos")
    else Reading(nanos / 1000, None, "microsegundos")
  }

  /** Exactly one of the three forms is chosen, by magnitude, and the number
      shown is the duration truncated to the unit of its last digit. */
  lemma {:induction false} ShownIsTruncation(nanos: nat)
    ensures var r := Shown(nanos);
      && (r.unit == "segundos" <==> nanos >= 1000000000)
      && (r.unit == "milisegundos" <==> 1000000 <= nanos < 1000000000)
      && (r.unit == "microsegundos" <==> nanos < 1000000)
      && (r.unit != "microsegundos" ==> r.fraction.Some? && r.fraction.value < 1000 && r.whole > 0)
      && (r.unit == "segundos" ==>
            r.whole * 1000000000 + r.fraction.value * 1000000 <= nanos
            < r.whole * 1000000000 + (r.fraction.value + 1) * 1000000)
      && (r.unit == "milisegundos" ==>
            r.whole * 1000000 + r.fraction.value * 1000 <= nanos
            < r.whole * 1000000 + (r.fraction.value + 1) * 1000)
      && (r.unit == "microsegundos" ==> r.fraction.None? && r.whole * 1000 <= nanos < (r.whole + 1) * 1000)
  {
    var millis := nanos / 1000000;
    if nanos >= 1000000000 {
      assert nanos / 1000000000 == millis / 1000;
    } else if nanos >= 1000000 {
      assert millis == nanos / 1000 / 1000;
    }
  }

  lemma {:induction false} ReadsBackWithFraction(whole: nat, fraction: nat, unit: string)
    requires fraction < 1000 && (unit == " segundos" || unit == " milisegundos")
    ensures ReadDuration(Decimal(whole) + ("." + Pad3(fraction) + unit))
         == Some(Reading(whole, Some(fraction), unit[1..]))
  {
    var w, p := Decimal(whole), Pad3(fraction);
    UnitSplits(p, unit);
    DecimalRoundTrip(whole);
    Pad3RoundTrip(fraction);
    ReadsBackSplit(w, p, unit);
  }

  /** The three digits stop where the unit starts. */
  lemma {:induction false} UnitSplits(fraction: string, unit: string)
    requires AllDigits(fraction) && (unit == " segundos" || unit == " milisegundos")
    ensures SplitDigits(fraction + unit) == (fraction, unit)
  {
    assert unit[0] == ' ';
    SplitDigitsOf(fraction, unit);
  }

  lemma {:induction false} ReadsBackSplit(whole: string, fraction: string, unit: string)
    requires whole != [] && AllDigits(whole) && |fraction| == 3
    requires SplitDigits(fraction + unit) == (fraction, unit)
    requires unit == " segundos" || unit == " milisegundos"
    ensures ReadDuration(whole + ("." + fraction + unit)) == Some(Reading(Value(whole), Some(Value(fraction)), unit[1..]))
  {
    var rest := "." + fraction + unit;
    assert rest[0] == '.' && rest[1..] == fraction + unit;
    SplitDigitsOf(whole, rest);
    assert unit in {" segundos", " milisegundos"};
  }

  // ---------------------------------------------------------------------
  // Requests and print parameters
  // ---------------------------------------------------------------------

  datatype PdfOrientation = Portrait | Landscape

  datatype PdfPagePreset = A4 | Letter | Legal | A3 | Tabloid

  /** Lengths are carried as given and never computed with. */
  datatype PaperSize = PaperSize(width: real, height: real)

  datatype PdfMargins = PdfMargins(top: real, bottom: real, left: real, right: real)

  datatype PdfGlobalConfig = PdfGlobalConfig(
    defaultOrientation: string,
    defaultWidth: real,
    defaultHeight: real,
    defaultMarginTop: real,
    defaultMarginBottom: real,
    defaultMarginLeft: real,
    defaultMarginRight: real)

  /** The request with the fields its call sites fill in. */
  datatype PdfRequest = PdfRequest(
    fileName: string,
    html: string,
    orientation: Option<PdfOrientation>,
    pageSizePreset: Option<PdfPagePreset>,
    customPageSize: Option<PaperSize>,
    margins: Option<PdfMargins>,
    scale: Option<real>,
    sizeCategory: Option<string>,
    paperSize: Option<PaperSize>,
    storeLocalPdf: Option<bool>)

  datatype PrintParams = PrintParams(
    landscape: bool,
    paperWidth: real,
    paperHeight: real,
    marginTop: real,
    marginBottom: real,
    marginLeft: real,
    marginRight: real,
    printBackground: bool,
    preferCssPageSize: bool,
    scale: real,
    displayHeaderFooter: bool)

  /** The print parameters for a request: its paper size and margins, or the
      configured defaults; always portrait, at scale 1, with backgrounds. */
  function PrintParamsFor(config: PdfGlobalConfig, req: PdfRequest): (p: PrintParams)
    ensures !p.landscape && p.scale == 1.0
    ensures p.printBackground && !p.preferCssPageSize && !p.displayHeaderFooter
    ensures req.paperSize.Some? ==>
      p.paperWidth == req.paperSize.value.width && p.paperHeight == req.paperSize.value.height
    ensures req.paperSize.None? ==>
      p.paperWidth == config.defaultWidth && p.paperHeight == config.defaultHeight
    ensures req.margins.Some? ==>
      var m := req.margins.value;
      p.marginTop == m.top && p.marginBottom == m.bottom && p.marginLeft == m.left && p.marginRight == m.right
    ensures req.margins.None? ==>
      && p.marginTop == config.defaultMarginTop && p.marginBottom == config.defaultMarginBottom
      && p.marginLeft == config.defaultMarginLeft && p.marginRight == config.defaultMarginRight
  {
    var paper := req.paperSize.GetOr(PaperSize(config.defaultWidth, config.defaultHeight));
    var margins := req.margins.GetOr(PdfMargins(config.defaultMarginTop, config.defaultMarginBottom,
                                                config.defaultMarginLeft, config.defaultMarginRight));
    PrintParams(false, paper.width, paper.height, margins.top, margins.bottom, margins.left, margins.right,
                true, false, 1.0, false)
  }

  /** Orientation, preset, custom page size and scale of a request never
      reach the printer. */
  lemma IgnoredFields(config: PdfGlobalConfig, req: PdfRequest, orientation: Option<PdfOrientation>,
                      preset: Option<PdfPagePreset>, custom: Option<PaperSize>, scale: Option<real>)
    ensures PrintParamsFor(config, req.(orientation := orientation, pageSizePreset := preset,
                                        customPageSize := custom, scale := scale))
         == PrintParamsFor(config, req)
  {
  }

  // ---------------------------------------------------------------------
  // Rendering
  // ---------------------------------------------------------------------

  /** An entry of ./tmp: one of the renderer's HTML files, or anything else. */
  datatype TmpEntry = TempHtml(uuid: nat) | Other(name: string)

  /** Where the tab is sent: a `file://` URL of a temporary file, or a
      `data:text/html,` URL carrying the HTML itself. */
  datatype PageUrl = FileUrl(entry: TmpEntry) | DataUrl(html: string)

  datatype BrowserCall = NewPage | Goto(url: PageUrl) | WaitForNavigation | PrintToPdf(params: PrintParams) | ClosePage

  /** How the browser and the file system answer each step of one request. */
  datatype Chrome = Chrome(
    newPage: Outcome,
    createDir: Outcome,
    writeFile: Outcome,
    canonicalize: Outcome,
    goto: Outcome,
    waitForNavigation: Outcome,
    printToPdf: Outcome,
    pdf: Bytes,
    removeFile: Outcome,
    close: Outcome)

  /** What the work on an open tab yields: the result, the browser calls
      made, and the entries of ./tmp afterwards. */
  datatype Rendering = Rendering(result: Result<Bytes>, calls: seq<BrowserCall>, tmp: set<TmpEntry>)

  predicate IsLarge(req: PdfRequest) {
    req.sizeCategory.GetOr("small") == "large"
  }

  /** The work on an open tab, step by step; `uuid` names the temporary file
      a large request writes. */
  function Render(config: PdfGlobalConfig, chrome: Chrome, req: PdfRequest, tmp: set<TmpEntry>, uuid: nat): (r: Rendering)
    ensures NewPage !in r.calls && ClosePage !in r.calls
    ensures !IsLarge(req) ==> r.tmp == tmp
    ensures r.result.Ok? <==>
      && (IsLarge(req) ==> chrome.createDir.Pass? && chrome.writeFile.Pass? && chrome.canonicalize.Pass?)
      && chrome.goto.Pass? && chrome.waitForNavigation.Pass? && chrome.printToPdf.Pass?
    ensures r.result.Ok? ==> r.result.value == chrome.pdf
    ensures r.calls != [] ==>
      r.calls[0] == Goto(if IsLarge(req) then FileUrl(TempHtml(uuid)) else DataUrl(req.html))
    ensures forall k :: 0 <= k < |r.calls| && r.calls[k].PrintToPdf? ==> r.calls[k].params == PrintParamsFor(config, req)
  {
    var large := IsLarge(req);
    if large && chrome.createDir.Fault? then
      Rendering(Err(Context(Fail(chrome.createDir.message), "No se pudo crear directorio ./tmp")), [], tmp)
    else if large && chrome.writeFile.Fault? then
      Rendering(Err(Context(Fail(chrome.writeFile.message), "No se pudo escribir HTML en archivo")), [], tmp)
    else
      var written := if large then tmp + {TempHtml(uuid)} else tmp;
      if large && chrome.canonicalize.Fault? then
        Rendering(Err(Context(Fail(chrome.canonicalize.message), "No se pudo obtener ruta absoluta")), [], written)
      else
        var url := if large then FileUrl(TempHtml(uuid)) else DataUrl(req.html);
        if chrome.goto.Fault? then
          Rendering(Err(Fail("Error al navegar al HTML (chromiumoxide): " + chrome.goto.message)), [Goto(url)], written)
        else if chrome.waitForNavigation.Fault? then
          Rendering(Err(Fail("Error esperando a que cargue la página: " + chrome.waitForNavigation.message)),
                    [Goto(url), WaitForNavigation], written)
        else
          var calls := [Goto(url), WaitForNavigation, PrintToPdf(PrintParamsFor(config, req))];
          if chrome.printToPdf.Fault? then
            Rendering(Err(Fail("Error generando PDF: " + chrome.printToPdf.message)), calls, written)
          else
            Rendering(Ok(chrome.pdf), calls,
                      if large && chrome.removeFile.Pass? then written - {TempHtml(uuid)} else written)
  }

  /** What `generate_pdf` returns: the tab could not be opened, or what the
      work on it returned. */
  function Generated(config: PdfGlobalConfig, chrome: Chrome, req: PdfRequest, tmp: set<TmpEntry>, uuid: nat)
    : (r: Result<Bytes>)
    ensures r.Ok? <==> chrome.newPage.Pass? && Render(config, chrome, req, tmp, uuid).result.Ok?
    ensures r.Ok? ==> r.value == chrome.pdf
  {
    if chrome.newPage.Fault? then Err(Fail("No se pudo crear nueva página (tab): " + chrome.newPage.message))
    else Render(config, chrome, req, tmp, uuid).result
  }

  /** A successful large request whose file could be removed leaves ./tmp
      exactly as it found it, so its entry count is unchanged. */
  lemma {:induction false} TempFileCleanedUp(config: PdfGlobalConfig, chrome: Chrome, req: PdfRequest,
                                             tmp: set<TmpEntry>, uuid: nat)
    requires TempHtml(uuid) !in tmp
    requires Render(config, chrome, req, tmp, uuid).result.Ok? && chrome.removeFile.Pass?
    ensures Render(config, chrome, req, tmp, uuid).tmp == tmp
    ensures |Render(config, chrome, req, tmp, uuid).tmp| == |tmp|
  {
    if IsLarge(req) {
      assert tmp + {TempHtml(uuid)} - {TempHtml(uuid)} == tmp;
    }
  }

  /** A large request that fails after its file was written leaves the file
      behind: nothing removes it on the error path. */
  lemma {:induction false} TempFileLeaksOnError(config: PdfGlobalConfig, chrome: Chrome, req: PdfRequest,
                                                tmp: set<TmpEntry>, uuid: nat)
    requires IsLarge(req) && chrome.createDir.Pass? && chrome.writeFile.Pass?
    requires Render(config, chrome, req, tmp, uuid).result.Err?
    ensures Render(config, chrome, req, tmp, uuid).tmp == tmp + {TempHtml(uuid)}
  {
  }

  /** The browser with its pages and the ./tmp directory it shares with the
      process. */
  class Renderer {
    const config: PdfGlobalConfig
    /** Entries of ./tmp. */
    var tmp: set<TmpEntry>
    /** Every call made to the browser, oldest first. */
    var calls: seq<BrowserCall>
    /** Every uuid below `nextUuid` has been handed out. */
    var nextUuid: nat

    ghost predicate Valid()
      reads this
    {
      forall e :: e in tmp && e.TempHtml? ==> e.uuid < nextUuid
    }

    constructor (config: PdfGlobalConfig, tmp: set<TmpEntry>)
      requires forall e :: e in tmp ==> e.Other?
      ensures Valid() && this.config == config && this.tmp == tmp && calls == []
    {
      this.config := config;
      this.tmp := tmp;
      calls := [];
      nextUuid := 0;
    }

    /** `generate_pdf`: opens a tab, does the work, and closes the tab
        whatever the work returned; a failing close changes nothing. */
    method GeneratePdf(chrome: Chrome, req: PdfRequest) returns (r: Result<Bytes>)
      requires Valid()
      modifies this`tmp, this`calls, this`nextUuid
      ensures Valid()
      ensures r == Generated(config, chrome, req, old(tmp), old(nextUuid))
      ensures chrome.newPage.Fault? ==> calls == old(calls) + [NewPage] && tmp == old(tmp)
      ensures chrome.newPage.Pass? ==>
        var rd := Render(config, chrome, req, old(tmp), old(nextUuid));
        && calls == old(calls) + [NewPage] + rd.calls + [ClosePage]
        && tmp == rd.tmp
      ensures nextUuid >= old(nextUuid)
    {
      calls := calls + [NewPage];
      if chrome.newPage.Fault? {
        return Err(Fail("No se pudo crear nueva página (tab): " + chrome.newPage.message));
      }
      r := GenerateInternal(chrome, req);
      // the outcome of closing is only logged
      calls := calls + [ClosePage];
    }

    /** `_generate_pdf_internal`: the work on an open tab. */
    method GenerateInternal(chrome: Chrome, req: PdfRequest) returns (r: Result<Bytes>)
      requires Valid()
      modifies this`tmp, this`calls, this`nextUuid
      ensures Valid()
      ensures var rd := Render(config, chrome, req, old(tmp), old(nextUuid));
        r == rd.result && calls == old(calls) + rd.calls && tmp == rd.tmp
      ensures nextUuid >= old(nextUuid)
    {
      var large := req.sizeCategory.GetOr("small") == "large";
      var url: PageUrl;
      var uuid := nextUuid;
      if large {
        if chrome.createDir.Fault? {
          return Err(Context(Fail(chrome.createDir.message), "No se pudo crear directorio ./tmp"));
        }
        nextUuid := nextUuid + 1;
        if chrome.writeFile.Fault? {
          return Err(Context(Fail(chrome.writeFile.message), "No se pudo escribir HTML en archivo"));
        }
        tmp := tmp + {TempHtml(uuid)};
        if chrome.canonicalize.Fault? {
          return Err(Context(Fail(chrome.canonicalize.message), "No se pudo obtener ruta absoluta"));
        }
        url := FileUrl(TempHtml(uuid));
      } else {
        url := DataUrl(req.html);
      }
      calls := calls + [Goto(url)];
      if chrome.goto.Fault? {
        return Err(Fail("Error al navegar al HTML (chromiumoxide): " + chrome.goto.message));
      }
      calls := calls + [WaitForNavigation];
      if chrome.waitForNavigation.Fault? {
        return Err(Fail("Error esperando a que cargue la página: " + chrome.waitForNavigation.message));
      }
      var params := PrintParamsFor(config, req);
      calls := calls + [PrintToPdf(params)];
      if chrome.printToPdf.Fault? {
        return Err(Fail("Error generando PDF: " + chrome.printToPdf.message));
      }
      if large && TempHtml(uuid) in tmp && chrome.removeFile.Pass? {
        tmp := tmp - {TempHtml(uuid)};
      }
      r := Ok(chrome.pdf);
    }
  }
}
