# RCT ticket printer: a verified model of the ticket layout and print dispatch

The RCT ticket printer is a small Node service. It receives theatre tickets
over HTTP, draws each one onto a 1650×600 canvas over a template image, writes
the result as a PNG named after the ticket id, and sends that file to a BOCA
thermal printer, through the Windows print utility on win32 and CUPS `lp`
everywhere else.

This project models the decisions the service makes along the way and proves
properties about them:

- **Show slug** (`show_slug.dfy`, module `ShowSlug`). This is
  `getShowAbbreviation`, which names the logo file of a show. Proved:
  - the slug has no whitespace, no ASCII capitals and none of `! ? , ' : .`;
  - the slug is idempotent;
  - two whitespace-free words separated by any whitespace run slug to the
    two words' own slugs joined by one `-`.
- **Shrink-to-fit** (`font_fit.dfy`, module `FontFit`). These are the three
  `while` loops that shrink the title, the date and the attendee name. The
  loop is a method. It is proved against `FitSize`, which says:
  - the chosen size never grows and moves in steps of 2;
  - the chosen size stops once the text fits or the size reaches the floor
    (floor − 1 at the lowest, when the gap to the floor is odd);
  - every skipped size overflowed.
- **Logo fit** (`logo_fit.dfy`, module `LogoFit`). The show logo is
  aspect-fitted into a 540-pixel square centred on (1032, 300). Proved:
  - the aspect ratio is kept;
  - the logo stays inside the box;
  - the placement is the largest that keeps the aspect ratio and fits.
- **Canvas** (`canvas.dfy`, module `Canvas2D`). A 2D context class. It keeps
  the drawing state that `index.ts` sets (fill colour, font, alignment,
  baseline, transform, path) and logs each drawing call with the state it
  used.
- **Render** (`ticket_render.dfy`, module `TicketRender`).
  - `RenderTicket` drives a fresh canvas through the drawing stages of
    index.ts. It is proved to produce exactly `RenderPlan`: the ordered list
    of drawing calls and the output path, or `Failed` when the template or
    the logo image is missing or the QR code cannot be generated.
  - Lemmas about `TicketOps` give:
    - the draw order and the fixed anchors;
    - when the general-admission note and the subscriber badge appear;
    - the font-size ranges.
- **Printer configuration** (`printer_config.dfy`, module `PrinterConfig`).
  This is `lib/ticket-printer.ts`: the defaults, the environment overrides
  with JavaScript `||` fallback, and the pixel dimensions.
- **Print dispatch** (`direct_print.dfy`, module `DirectPrint`). Modelled:
  - the command line for each platform;
  - the rule that makes stderr an error;
  - which effects follow from how the spawned command ends.

  The command line is checked against a small shell word splitter. Under
  conditions on the quoting, the printing program receives exactly the
  intended arguments.

Collaborators the model cannot see are parameters:

- the environment is a map;
- `Number(...)` is a parse function that returns `None` for `NaN`;
- `measureText` is a `Measure` function;
- JavaScript number formatting is a `Format` function;
- the images that load are a map from path to size;
- running the print command is an `exec` function from the command line to
  its result.

## Model

| member | source | states |
|---|---|---|
| PrinterConfig.GetPrinterConfig | lib/ticket-printer.ts:20-28 | each field is its own variable's value when that is set and truthy (non-empty string; number not 0 and not NaN), and otherwise the default; every field is truthy |
| PrinterConfig.StringOr | lib/ticket-printer.ts:22 | `s \|\| fallback` on an optional string: the value when present and non-empty, else the fallback |
| PrinterConfig.NumberOf | lib/ticket-printer.ts:23-25 | `Number(process.env.X)`: NaN (`None`) when the variable is unset, else the parse of its value |
| PrinterConfig.DefaultPrinterConfig | lib/ticket-printer.ts:11-17 | the defaults: printer BOCA_SYSTEMS_46_300, 5.5 × 2 inches, 300 dpi, utility `C:\Windows\System32\mspaint.exe` |
| PrinterConfig.NumberOr | lib/ticket-printer.ts:23 | `Number(s) \|\| fallback`: the parsed number when it is neither NaN nor 0, else the fallback |
| PrinterConfig.Lookup | lib/ticket-printer.ts:22 | reading `process.env`: present exactly when the variable is set, with its value |
| PrinterConfig.StringOverridesWin | lib/ticket-printer.ts:22-26 | a set non-empty PRINTER_NAME / WINDOWS_PRINT_UTILITY wins; unset or empty gives the default |
| PrinterConfig.NumericOverrides | lib/ticket-printer.ts:23-25 | TICKET_WIDTH, TICKET_HEIGHT and PRINTER_DPI override exactly when they parse to a non-zero number |
| PrinterConfig.EmptyEnvGivesDefault | lib/ticket-printer.ts:11-28 | with none of the five variables set, the configuration equals `defaultPrinterConfig` |
| PrinterConfig.FieldsAreIndependent | lib/ticket-printer.ts:21-27 | setting one variable changes at most the field it configures |
| PrinterConfig.Round | lib/ticket-printer.ts:33-34 | `Math.round`: the nearest integer, halves rounding up |
| PrinterConfig.CalculatePixelDimensions | lib/ticket-printer.ts:31-36 | each pixel count is within one half of inches × dpi |
| PrinterConfig.GetCanvasDimensions | lib/ticket-printer.ts:39-47 | the pixel dimensions of the resolved configuration's width, height and dpi |
| PrinterConfig.DefaultCanvasDimensions | lib/ticket-printer.ts:39-47 | with defaults the canvas is 1650×600, the size index.ts:87 uses |
| ShowSlug.LowerChar | index.ts:34 | ASCII capitals map to their lower case, every other character is kept |
| ShowSlug.Lower | index.ts:34 | `toLowerCase` character by character, same length |
| ShowSlug.IsWhitespace | index.ts:34 | the JavaScript `\s` class: tab to carriage return, space, no-break space, U+1680, U+2000–U+200A, the line and paragraph separators, U+202F, U+205F, U+3000 and the byte-order mark |
| ShowSlug.DropWhitespace | index.ts:34 | removes exactly the leading run of `\s` characters |
| ShowSlug.CollapseWhitespace | index.ts:34 | `replace(/\s+/g, "-")`: no whitespace remains, length does not grow, no capitals are introduced |
| ShowSlug.StripDropped | index.ts:34 | `replaceAll(/[!\?,':\.]/g, "")`: a character survives exactly when it is not one of `! ? , ' : .` |
| ShowSlug.Slug | index.ts:31-35 | `getShowAbbreviation`: the result has no whitespace, no ASCII capitals, none of the dropped characters, and is no longer than the name |
| ShowSlug.CollapseWord | index.ts:34 | a word without whitespace passes through the collapse unchanged |
| ShowSlug.CollapseRun | index.ts:34 | a whole whitespace run becomes one `-` |
| ShowSlug.DropWhitespaceRun | index.ts:34 | dropping leading whitespace removes exactly the run |
| ShowSlug.LowerIdentity | index.ts:34 | lower-casing text without capitals is the identity |
| ShowSlug.StripIdentity | index.ts:34 | stripping text without dropped characters is the identity |
| ShowSlug.StripConcat | index.ts:34 | stripping distributes over concatenation |
| ShowSlug.SlugIdempotent | index.ts:31-35 | the slug of a slug is itself |
| ShowSlug.LowerConcat | index.ts:34 | lower-casing distributes over concatenation |
| ShowSlug.LowerKeepsNoWhitespace | index.ts:34 | lower-casing text without whitespace introduces none |
| ShowSlug.LowerOfTwoWords | index.ts:34 | lower-casing two whitespace-free words around a whitespace run lowers each word and keeps the run |
| ShowSlug.DropOneMore | index.ts:34 | the prefix `\s+` consumes stays all whitespace when one more leading blank is taken |
| ShowSlug.CollapseCons | index.ts:34 | a non-whitespace character passes through the run collapse |
| ShowSlug.StripCons | index.ts:34 | a character outside `! ? , ' : .` survives the strip |
| ShowSlug.StripOfJoin | index.ts:34 | stripping a `-` join strips each side and keeps the `-` |
| ShowSlug.SlugOfWord | index.ts:31-35 | the slug of a whitespace-free word is the word lower-cased and stripped |
| ShowSlug.CollapseOfTwoWords | index.ts:34 | two words separated by a whitespace run collapse to `w1-w2` |
| ShowSlug.StripOfDashJoin | index.ts:34 | stripping keeps the `-` join of two clean words |
| ShowSlug.SlugOfTwoWords | index.ts:31-35 | two whitespace-free words around any whitespace run ("My  Show") give `Slug(w1) + "-" + Slug(w2)` |
| FontFit.FitSize | index.ts:118-123 | the size the shrink loop stops at: never larger than the start, an even step below it, the text fits there unless the floor was reached, when the start is above the floor never below floor − 1, a start at or below the floor is kept, and every skipped size overflowed |
| FontFit.RuleSize | index.ts:108-123 | the size a field ends at under its rule: an even step at or below the start size, where the text fits unless the floor was reached |
| FontFit.TitleRule | index.ts:108-118 | the title starts at `500 70px HankenGrotesk`, floor 50, at most 700 wide |
| FontFit.DateRule | index.ts:149-159 | the date starts at `500 32px HankenGrotesk`, floor 12, at most 700 wide |
| FontFit.NameRule | index.ts:177-187 | the name starts at `600 42px HankenGrotesk`, floor 16, at most 570 wide |
| FontFit.ShrinkToFit | index.ts:118-123 | the loop: the font changes only in size, to exactly the size `FitSize` characterises, and the returned width is the width measured at that size |
| FontFit.RuleSizeInRange | index.ts:159-163 | with an even gap from start to floor the size stays in [floor, start], and text that fits at the start keeps the start size |
| FontFit.UsedRulesStayInRange | index.ts:187-191 | the title ends in [50, 70], the date in [12, 32] and the name in [16, 42]; each keeps its start size when it fits there |
| LogoFit.FitLogo | index.ts:132-142 | a taller logo gets height 540, any other gets width 540; the other side is positive and at most 540; the aspect ratio is kept; centred on (1032, 300) |
| LogoFit.FitLogoInsideBox | index.ts:132-142 | the placed logo lies inside x ∈ [762, 1302], y ∈ [30, 570] |
| LogoFit.FitLogoIsLargest | index.ts:132-142 | every aspect-preserving size within 540×540 is no larger than the placement |
| TicketRender.RenderPlan | index.ts:95-268 | `Failed` when the template is missing, when the slug-named logo is missing, or when `generateQRCode` rejects for the id; otherwise `Rendered` with `TicketOps` of the computed layout and `OutputPath` of the id |
| TicketRender.TicketOps | index.ts:97-255 | every drawing call of a rendered ticket: the body, then the note, then the badge, then the QR group |
| TicketRender.NoteOps | index.ts:208-213 | the general-admission note, black 500 25px left-aligned at (59, 562), for a subscriber in section "GA", and no call otherwise |
| TicketRender.BadgeOps | index.ts:216-229 | for a subscriber, the white disc of radius 10 at (663, 267), its black 1-pixel outline and the 350 25px centred thank-you line at (353, 588); no call otherwise |
| TicketRender.QrOps | index.ts:248-255 | the 180×180 QR code of the id at (1430, 380), then the id in black 350 37px, centred on the middle baseline, at the origin of the translated and rotated frame, at most 170 wide |
| TicketRender.DateBaseline | index.ts:129 | the date's baseline: 20 + the title size + 10 + 32 |
| TicketRender.ContactY | index.ts:166-173 | the contact block's baseline: 268 − (\|ascent\| + \|descent\|) + 10, measured in 350 26px |
| TicketRender.LogoPath | index.ts:131 | the logo file `img/logos/<slug>.png` |
| TicketRender.OutputPath | index.ts:247 | the staged file `./img/generated-tickets/<id>.png` |
| TicketRender.RenderTicket | index.ts:87-268 | rendering one ticket on a fresh canvas yields exactly `RenderPlan`: `Failed` when the template or the logo is missing or `generateQRCode` rejects, else the drawing calls of `TicketOps` and the output path |
| TicketRender.RenderSucceedsIff | index.ts:95-268 | a ticket renders exactly when the template and its show's logo (`img/logos/<slug>.png`) load and the QR code of its id is generated, and is then written to `./img/generated-tickets/<id>.png` |
| TicketRender.DecorationsAppearWhen | index.ts:208-229 | the general-admission note is drawn exactly for subscribers in section "GA"; the badge disc, its outline and the thank-you line exactly for subscribers |
| TicketRender.DrawOrder | index.ts:97-255 | the calls come in source order: the ten body calls, then the note, then the badge, then the QR code at (1430, 380) size 180 and the id rotated −90° about (1410, 470) |
| TicketRender.BodyAnchors | index.ts:97-205 | white fill and template over 1650×600, title at y = 20 + its size, logo, date 42 below the title, contact block, white name, section/row/seat on y = 515 |
| TicketRender.NotInBody | index.ts:193-228 | no body call draws text at x = 59, nor at (353, 588), where the note and the thank-you line go |
| TicketRender.LayoutBounds | index.ts:104-191 | the title size is in [50, 70], the date in [12, 32], the name in [16, 42]; the logo is centred on (1032, 300) and named by the show's slug |
| TicketRender.TicketTypeUnused | index.ts:14-24 | the optional ticket type does not affect what is drawn or where it is written |
| TicketRender.OutputPathInjective | index.ts:247 | distinct ticket ids give distinct output path strings |
| TicketRender.DrawBackground | index.ts:97-101 | appends the white clear and the template at the canvas size and leaves the fill white; only the fill and the log change |
| TicketRender.SetFittedFont | index.ts:107-123 | sets the colour, alignment and the starting font shrunk to `RuleSize`; draws nothing and changes no other state |
| TicketRender.DrawTitle | index.ts:107-126 | appends the title at its fitted size, returns that size, and leaves the fitted 500-weight font, black fill and left alignment set; nothing else changes |
| TicketRender.DrawLogo | index.ts:132-144 | appends the logo at its `FitLogo` placement and changes nothing else |
| TicketRender.DrawDate | index.ts:148-165 | appends the date at its fitted size on the baseline derived from the title size and leaves the fitted date font, black fill and left alignment set; nothing else changes |
| TicketRender.DrawContact | index.ts:166-173 | appends the contact block raised by its measured ascent plus descent, in the colour and alignment left by the date; only the font changes, to 350 26px |
| TicketRender.DrawName | index.ts:176-193 | appends the name, white, centred, at its fitted size, and leaves that fill, alignment and fitted 600-weight font set; nothing else changes |
| TicketRender.DrawSeatLabels | index.ts:196-205 | appends section, row and seat and leaves the 500 70px font, black fill and centre alignment set; nothing else changes |
| TicketRender.DrawSubscriberNote | index.ts:208-213 | appends the general-admission note exactly in its case and then leaves its black 500 25px left-aligned style set; otherwise nothing changes |
| TicketRender.DrawSubscriberBadge | index.ts:216-229 | appends the filled disc, its outline and the thank-you line exactly for subscribers, then leaving the disc path, black 1-pixel stroke and black 350 25px centred style set; otherwise nothing changes |
| TicketRender.DrawQrAndId | index.ts:248-255 | appends the QR code and the id drawn under translate-then-rotate, and leaves centre alignment, middle baseline, the transform `[Translate(1410, 470), Rotate(−90)]` and the 350 37px font set; the fill and the path stay |
| DirectPrint.CommandPassesArgv | index.ts:285-292 | when no value holds a double quote and the dpi is one token, the shell passes the print program exactly the intended arguments on each platform |
| DirectPrint.CommandIsLine | index.ts:285-292 | each platform's command is its eight shell words joined by single blanks |
| DirectPrint.LineSplitsIntoValues | index.ts:285-292 | splitting a line of well-formed words returns each word's value |
| DirectPrint.RunLine | index.ts:285-292 | scanning a line leaves every earlier word emitted and the last one pending |
| DirectPrint.RunWord | index.ts:285-292 | a bare or quoted word read from between words becomes the pending word, quotes removed |
| DirectPrint.RunConcat | index.ts:285-292 | scanning a concatenation is scanning its parts in turn |
| DirectPrint.PrintCommand | index.ts:285-292 | on win32, the quoted utility, `-printer`, the quoted name, `-dpi` and the dpi, `-papersize`, the quoted `<w>x<h>` and the quoted file; elsewhere, `lp -d`, the quoted name, `-o media=` with the quoted `BOCA <w>x<h>in`, `-o resolution=` and the dpi, and the quoted file |
| DirectPrint.Includes | index.ts:299 | `String.prototype.includes`: the pattern occurs at the start or, recursively, later |
| DirectPrint.IsPrintError | index.ts:299 | stderr is an error when it is non-empty and does not include "requesting printer" |
| DirectPrint.IncludesIff | index.ts:299 | `includes` holds exactly when the pattern occurs at some index |
| DirectPrint.PrintErrorIff | index.ts:299 | stderr is a print error exactly when it is non-empty and "requesting printer" occurs nowhere in it |
| DirectPrint.NoticeIsNotAnError | index.ts:299 | stderr that contains "requesting printer" anywhere is not an error |
| DirectPrint.DirectPrint | index.ts:278-309 | a print job first logs the command built from the resolved configuration |
| DirectPrint.CleanupFollowsExec | index.ts:296-309 | the staged file is deleted only when the command completes; a rejection skips the cleanup and rejects; a stderr error or a failed delete is logged and does not reject |

## Left out

- The Express server (index.ts:56-82, 265-276), the font registration (index.ts:38-54) and the console logging beyond what `DirectPrint` records are I/O around the model.
- The per-ticket `forEach(async ...)`: tickets render concurrently and the HTTP reply is sent before any finishes. The model renders one ticket.
- Pixels are not modelled. The canvas records which drawing calls are made, with which state and arguments. It does not record what they paint.
- `measureText` and the font files are not modelled: text metrics are the `Measure` parameter.
- The QR image generator (lib/qr-code.ts) is not part of this model. Whether `generateQRCode` resolves for a ticket id is the `QrGenerates` parameter; a rejection ends in the `.catch` at index.ts:265 like a missing image. The QR code is a `QrCode(data, 180, 180)` image reference. Its load at index.ts:246 is neither awaited nor caught, so the model treats it as always loading. A `generateQRCode` that never settles is not modelled either: lib/qr-code.ts:49-51 attaches no rejection handler to `getRawData()`, so a failure there leaves the ticket neither written nor answered "Error", a case the boolean `QrGenerates` has no value for.
- The writes to the PNG stream, the `exec` of the command and `fs.unlink` are I/O. Their outcomes are the `exec` and `unlinkSucceeds` parameters of `DirectPrint.DirectPrint`.
- Numbers are reals. There is no IEEE rounding, no −0 and no Infinity. `Number(...)` is the `NumberParse` parameter: `None` stands for NaN.
- Template-string number formatting is the `Format` parameter.
- ShowSlug.Lower and ShowSlug.LowerChar: only ASCII capitals are lowered; every other character is kept. JavaScript `toLowerCase` also lowers non-ASCII letters, and a few of them change length.
- FontFit.ShrinkToFit: the intermediate `ctx.font` assignments inside the loop are folded into one assignment after the loop. Nothing is drawn in between, so this changes nothing visible.
- The `textHeight` computed at index.ts:125 is never used and is not modelled.
- `getCanvasDimensions` is modelled and proved equal to 1650×600 under defaults. index.ts does not call it and uses the constants directly.
- DirectPrint.CommandPassesArgv: the shell word splitter handles only blanks and double quotes. Expansion by `/bin/sh` of `$`, backslashes and backticks inside double quotes, and by cmd.exe of `%`, is not modelled. The ticket id comes from the request body and reaches the command line inside the file path, so an id holding such characters is expanded by the real shell, and one holding `"` breaks out of the quotes; the lemma says nothing about those ids.
- Cleanup of the staged PNG is not unconditional. When the print command rejects, `directPrint` rejects before reaching `unlink`, and the model follows that code path.
