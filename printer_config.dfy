/** Printer configuration of lib/ticket-printer.ts: a static default record,
    the environment overrides resolved with JavaScript `||` fallbacks, and
    the conversion of inches at a resolution into pixels. */
module PrinterConfig {
  import opened Wrappers

  /** The process environment: a variable that is not set has no key. */
  type Env = map<string, string>

  /** `Number(s)`: a parse that yields `None` where JavaScript yields `NaN`. */
  type NumberParse = string -> Option<real>

  datatype BocaPrinterConfig = BocaPrinterConfig(
    printerName: string,
    width: real,    // inches
    height: real,   // inches
    dpi: real,
    windowsPrintUtility: string)

  const PrinterNameVar := "PRINTER_NAME"
  const TicketWidthVar := "TICKET_WIDTH"
  const TicketHeightVar := "TICKET_HEIGHT"
  const PrinterDpiVar := "PRINTER_DPI"
  const WindowsPrintUtilityVar := "WINDOWS_PRINT_UTILITY"

  /** The variables `GetPrinterConfig` reads. */
  const ConfigVars: set<string> :=
    {PrinterNameVar, TicketWidthVar, TicketHeightVar, PrinterDpiVar, WindowsPrintUtilityVar}

  const DefaultPrinterConfig := BocaPrinterConfig(
    "BOCA_SYSTEMS_46_300",
    5.5,
    2.0,
    300.0,
    "C:\\Windows\\System32\\mspaint.exe")

  /** `process.env[name]`. */
  function Lookup(env: Env, name: string): (v: Option<string>)
    ensures v.Some? <==> name in env
    ensures v.Some? ==> v.value == env[name]
  {
    if name in env then Some(env[name]) else None
  }

  /** `s || fallback` for a value that is a string or `undefined`: the empty
      string is falsy like `undefined`. */
  function StringOr(s: Option<string>, fallback: string): (r: string)
    ensures r == fallback || (s == Some(r) && r != "")
    ensures s.Some? && s.value != "" ==> r == s.value
  {
    match s
    case Some(v) => if v != "" then v else fallback
    case None => fallback
  }

  /** `Number(s)`: `Number(undefined)` is `NaN`. */
  function NumberOf(parse: NumberParse, s: Option<string>): (n: Option<real>)
    ensures s.None? ==> n.None?
    ensures s.Some? ==> n == parse(s.value)
  {
    match s
    case Some(v) => parse(v)
    case None => None
  }

  /** `n || fallback` for a number: both `NaN` and `0` are falsy. */
  function NumberOr(n: Option<real>, fallback: real): (r: real)
    ensures r == fallback || (n == Some(r) && r != 0.0)
    ensures n.Some? && n.value != 0.0 ==> r == n.value
  {
    match n
    case Some(v) => if v != 0.0 then v else fallback
    case None => fallback
  }

  /** `getPrinterConfig()`: every field is its own variable's value when that
      is truthy, and the default otherwise. */
  function GetPrinterConfig(env: Env, parse: NumberParse): (cfg: BocaPrinterConfig)
    // the string fields are never empty and the numeric fields never 0
    ensures cfg.printerName != "" && cfg.windowsPrintUtility != ""
    ensures cfg.width != 0.0 && cfg.height != 0.0 && cfg.dpi != 0.0
    // each field is either the default or what its own variable supplies
    ensures cfg.printerName == DefaultPrinterConfig.printerName
            || Lookup(env, PrinterNameVar) == Some(cfg.printerName)
    ensures cfg.width == DefaultPrinterConfig.width
            || NumberOf(parse, Lookup(env, TicketWidthVar)) == Some(cfg.width)
    ensures cfg.height == DefaultPrinterConfig.height
            || NumberOf(parse, Lookup(env, TicketHeightVar)) == Some(cfg.height)
    ensures cfg.dpi == DefaultPrinterConfig.dpi
            || NumberOf(parse, Lookup(env, PrinterDpiVar)) == Some(cfg.dpi)
    ensures cfg.windowsPrintUtility == DefaultPrinterConfig.windowsPrintUtility
            || Lookup(env, WindowsPrintUtilityVar) == Some(cfg.windowsPrintUtility)
    // ... and it is what its variable supplies whenever that is truthy
    ensures var v := Lookup(env, PrinterNameVar);
            v.Some? && v.value != "" ==> cfg.printerName == v.value
    ensures var n := NumberOf(parse, Lookup(env, TicketWidthVar));
            n.Some? && n.value != 0.0 ==> cfg.width == n.value
    ensures var n := NumberOf(parse, Lookup(env, TicketHeightVar));
            n.Some? && n.value != 0.0 ==> cfg.height == n.value
    ensures var n := NumberOf(parse, Lookup(env, PrinterDpiVar));
            n.Some? && n.value != 0.0 ==> cfg.dpi == n.value
    ensures var v := Lookup(env, WindowsPrintUtilityVar);
            v.Some? && v.value != "" ==> cfg.windowsPrintUtility == v.value
  {
    BocaPrinterConfig(
      StringOr(Lookup(env, PrinterNameVar), DefaultPrinterConfig.printerName),
      NumberOr(NumberOf(parse, Lookup(env, TicketWidthVar)), DefaultPrinterConfig.width),
      NumberOr(NumberOf(parse, Lookup(env, TicketHeightVar)), DefaultPrinterConfig.height),
      NumberOr(NumberOf(parse, Lookup(env, PrinterDpiVar)), DefaultPrinterConfig.dpi),
      StringOr(Lookup(env, WindowsPrintUtilityVar), DefaultPrinterConfig.windowsPrintUtility))
  }

  /** A set, non-empty variable overrides the default name and utility. */
  lemma StringOverridesWin(env: Env, parse: NumberParse)
    ensures PrinterNameVar in env && env[PrinterNameVar] != ""
            ==> GetPrinterConfig(env, parse).printerName == env[PrinterNameVar]
    ensures WindowsPrintUtilityVar in env && env[WindowsPrintUtilityVar] != ""
            ==> GetPrinterConfig(env, parse).windowsPrintUtility == env[WindowsPrintUtilityVar]
    ensures (PrinterNameVar !in env || env[PrinterNameVar] == "")
            ==> GetPrinterConfig(env, parse).printerName == "BOCA_SYSTEMS_46_300"
    ensures (WindowsPrintUtilityVar !in env || env[WindowsPrintUtilityVar] == "")
            ==> GetPrinterConfig(env, parse).windowsPrintUtility == "C:\\Windows\\System32\\mspaint.exe"
  {
  }

  /** A numeric variable is taken exactly when it parses to a number other
      than 0; unset, unparsable (`NaN`) and 0 all fall back. */
  lemma NumericOverrides(env: Env, parse: NumberParse)
    ensures var cfg := GetPrinterConfig(env, parse);
            && (if TicketWidthVar in env && parse(env[TicketWidthVar]).Some?
                   && parse(env[TicketWidthVar]).value != 0.0
                then cfg.width == parse(env[TicketWidthVar]).value else cfg.width == 5.5)
            && (if TicketHeightVar in env && parse(env[TicketHeightVar]).Some?
                   && parse(env[TicketHeightVar]).value != 0.0
                then cfg.height == parse(env[TicketHeightVar]).value else cfg.height == 2.0)
            && (if PrinterDpiVar in env && parse(env[PrinterDpiVar]).Some?
                   && parse(env[PrinterDpiVar]).value != 0.0
                then cfg.dpi == parse(env[PrinterDpiVar]).value else cfg.dpi == 300.0)
  {
  }

  /** With none of the variables set, the resolved configuration is the
      default one, field for field. */
  lemma EmptyEnvGivesDefault(env: Env, parse: NumberParse)
    requires env.Keys !! ConfigVars
    ensures GetPrinterConfig(env, parse) == DefaultPrinterConfig
  {
  }

  /** Each field depends on its own variable only: changing or setting one
      variable leaves every other field as it was. */
  lemma FieldsAreIndependent(env: Env, parse: NumberParse, name: string, value: string)
    ensures var before := GetPrinterConfig(env, parse);
            var after := GetPrinterConfig(env[name := value], parse);
            && (name != PrinterNameVar ==> after.printerName == before.printerName)
            && (name != TicketWidthVar ==> after.width == before.width)
            && (name != TicketHeightVar ==> after.height == before.height)
            && (name != PrinterDpiVar ==> after.dpi == before.dpi)
            && (name != WindowsPrintUtilityVar ==> after.windowsPrintUtility == before.windowsPrintUtility)
  {
  }

  /** `Math.round` on an idealised real: the nearest integer, halves rounded
      towards positive infinity. */
  function Round(x: real): (n: int)
    ensures n as real - 0.5 <= x < n as real + 0.5
  {
    (x + 0.5).Floor
  }

  datatype PixelDimensions = PixelDimensions(widthPixels: int, heightPixels: int)

  /** `calculatePixelDimensions(widthInches, heightInches, dpi)`. */
  function CalculatePixelDimensions(widthInches: real, heightInches: real, dpi: real): (d: PixelDimensions)
    ensures d.widthPixels as real - 0.5 <= widthInches * dpi < d.widthPixels as real + 0.5
    ensures d.heightPixels as real - 0.5 <= heightInches * dpi < d.heightPixels as real + 0.5
  {
    PixelDimensions(Round(widthInches * dpi), Round(heightInches * dpi))
  }

  datatype CanvasDimensions = CanvasDimensions(width: int, height: int)

  /** `getCanvasDimensions()`: the pixel size of the resolved configuration. */
  function GetCanvasDimensions(env: Env, parse: NumberParse): (d: CanvasDimensions)
    ensures var cfg := GetPrinterConfig(env, parse);
            && d.width as real - 0.5 <= cfg.width * cfg.dpi < d.width as real + 0.5
            && d.height as real - 0.5 <= cfg.height * cfg.dpi < d.height as real + 0.5
  {
    var cfg := GetPrinterConfig(env, parse);
    var px := CalculatePixelDimensions(cfg.width, cfg.height, cfg.dpi);
    CanvasDimensions(px.widthPixels, px.heightPixels)
  }

  /** With no overrides the canvas is 1650 by 600 pixels, the size the ticket
      renderer allocates. */
  lemma DefaultCanvasDimensions(env: Env, parse: NumberParse)
    requires env.Keys !! ConfigVars
    ensures GetCanvasDimensions(env, parse) == CanvasDimensions(1650, 600)
  {
    EmptyEnvGivesDefault(env, parse);
  }
}
