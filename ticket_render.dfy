/** The per-ticket render of index.ts (the callback of the POST handler):
    the draw calls made on a fresh 1650 by 600 canvas, in order, and the
    path the PNG is written to. `RenderPlan` states the calls as a value;
    `RenderTicket` makes them on a `Canvas`, changing its state step by
    step as the source does, and is proved to produce exactly that plan. */
module TicketRender {
  import opened Wrappers
  import opened Canvas2D
  import opened FontFit
  import opened LogoFit
  import opened ShowSlug

  /** One ticket of the request body. `ticketType` is accepted and never used. */
  datatype TicketData = TicketData(
    show: string,
    dateTime: string,
    name: string,
    ticketType: Option<string>,
    isSubscriber: bool,
    section: string,
    row: string,
    seat: string,
    ticketId: string)

  /** The image files `loadImage` can decode, by path; a path that is not a
      key makes `loadImage` reject. */
  type Images = map<string, ImageSize>

  /** A ticket's render either reaches the PNG stream (`Rendered`) or ends in
      the handler's `.catch` (`Failed`), which answers "Error". */
  datatype RenderOutcome = Failed | Rendered(ops: seq<DrawCmd>, outputPath: string)

  const CanvasWidth: nat := 1650
  const CanvasHeight: nat := 600

  const TemplatePath := "img/rct-ticket-template.png"

  function LogoPath(slug: string): string {
    "img/logos/" + slug + ".png"
  }

  /** Where the rendered ticket is staged for printing. */
  function OutputPath(ticketId: string): string {
    "./img/generated-tickets/" + ticketId + ".png"
  }

  const ContactText := "Renton Civic Theatre\n507 S Third St, Renton, WA 98507\nboxoffice@rentoncivictheatre.org | (425) 226-5529"
  const GaNote := "See board member for seat preference selection"
  const SubscriberThanks := "Thank you for being a subscriber!"

  const ContactFont := FontSpec(350, 26, HankenGrotesk)
  const SeatFont := FontSpec(500, 70, HankenGrotesk)
  const NoteFont := FontSpec(500, 25, HankenGrotesk)
  const ThanksFont := FontSpec(350, 25, HankenGrotesk)
  const IdFont := FontSpec(350, 37, HankenGrotesk)

  /** The QR code: 180 by 180, 40 pixels in from the bottom-right corner. */
  const QrSize: nat := 180
  const QrX: real := (1650 - 40 - 180) as real
  const QrY: real := (600 - 40 - 180) as real

  /** The id caption is drawn at the origin of a frame moved to the left
      edge of the QR code, 20 pixels out, at its mid-height, and turned a
      quarter turn counter-clockwise. */
  const IdTransform := [TransformOp.Translate((1650 - 40 - 180 - 20) as real, (600 - 40 - 180 / 2) as real),
                        TransformOp.Rotate(-90)]

  function Abs(x: real): real {
    if x < 0.0 then -x else x
  }

  /** A text style with no transform and the default baseline. */
  function Plain(fill: Color, font: FontSpec, align: TextAlign): TextStyle {
    TextStyle(fill, font, align, Alphabetic, [])
  }

  /** The baseline of the date line: 10 below the title's baseline plus the
      date's nominal 32-pixel height. */
  function DateBaseline(titleSize: int): int {
    20 + titleSize + 10 + 32
  }

  /** The contact block is raised by its measured height. */
  function ContactY(measure: Measure): real {
    var tm := measure(ContactFont, ContactText);
    268.0 - (Abs(tm.ascent) + Abs(tm.descent)) + 10.0
  }

  function GaNoteCmd(): DrawCmd {
    DrawCmd.FillText(GaNote, 59.0, 562.0, None, Plain(Black, NoteFont, Left))
  }

  const BadgePath := [PathSeg.Arc(663.0, 267.0, 10.0, 0.0, 1.0)]

  function ThanksCmd(): DrawCmd {
    DrawCmd.FillText(SubscriberThanks, (372 - 19) as real, (570 + 18) as real, None, Plain(Black, ThanksFont, Center))
  }

  function TitleSize(t: TicketData, measure: Measure): int {
    RuleSize(measure, t.show, TitleRule)
  }

  /** What the render decides from the ticket, the measured text and the
      logo: the three shrunk font sizes, the contact block's baseline, and
      the logo's file and placement. */
  datatype Layout = Layout(
    titleSize: int,
    dateSize: int,
    nameSize: int,
    contactY: real,
    logoPath: string,
    logo: Placement)

  function ComputeLayout(t: TicketData, logo: ImageSize, measure: Measure): Layout {
    Layout(
      TitleSize(t, measure),
      RuleSize(measure, t.dateTime, DateRule),
      RuleSize(measure, t.name, NameRule),
      ContactY(measure),
      LogoPath(Slug(t.show)),
      FitLogo(logo))
  }

  const ClearCmd := DrawCmd.FillRect(0.0, 0.0, CanvasWidth as real, CanvasHeight as real, White)

  const TemplateCmd :=
    DrawCmd.DrawImage(FileImage(TemplatePath), 0.0, 0.0, CanvasWidth as real, CanvasHeight as real, [])

  function TitleCmd(show: string, size: int): DrawCmd {
    DrawCmd.FillText(show, 38.0, (20 + size) as real, Some(700.0), Plain(Black, TitleRule.start.(size := size), Left))
  }

  function LogoCmd(path: string, p: Placement): DrawCmd {
    DrawCmd.DrawImage(FileImage(path), p.x, p.y, p.w, p.h, [])
  }

  function DateCmd(dateTime: string, titleSize: int, size: int): DrawCmd {
    DrawCmd.FillText(dateTime, 38.0, DateBaseline(titleSize) as real, Some(700.0),
                     Plain(Black, DateRule.start.(size := size), Left))
  }

  function ContactCmd(y: real): DrawCmd {
    DrawCmd.FillText(ContactText, 38.0, y, Some(700.0), Plain(Black, ContactFont, Left))
  }

  function NameCmd(name: string, size: int): DrawCmd {
    DrawCmd.FillText(name, (372 - 19) as real, (307 + 25) as real, Some(570.0),
                     Plain(White, NameRule.start.(size := size), Center))
  }

  /** Section, row and seat share one baseline and the 70-pixel font. */
  function SeatLabelCmd(text: string, centerX: int): DrawCmd {
    DrawCmd.FillText(text, (centerX - 19) as real, (490 + 25) as real, None, Plain(Black, SeatFont, Center))
  }

  function SeatLabelOps(t: TicketData): seq<DrawCmd> {
    [SeatLabelCmd(t.section, 187), SeatLabelCmd(t.row, 402), SeatLabelCmd(t.seat, 589)]
  }

  /** Background, title, logo, date, contact block, name, section, row and
      seat: the calls every rendered ticket makes, in order. */
  function BodyOps(t: TicketData, layout: Layout): seq<DrawCmd> {
    [ClearCmd, TemplateCmd] + [TitleCmd(t.show, layout.titleSize)] + [LogoCmd(layout.logoPath, layout.logo)]
    + [DateCmd(t.dateTime, layout.titleSize, layout.dateSize)] + [ContactCmd(layout.contactY)]
    + [NameCmd(t.name, layout.nameSize)] + SeatLabelOps(t)
  }

  /** The note for subscribers seated in general admission. */
  function NoteOps(t: TicketData): seq<DrawCmd> {
    if t.isSubscriber && t.section == "GA" then [GaNoteCmd()] else []
  }

  /** The subscriber badge (a white disc with a black outline) and caption. */
  function BadgeOps(t: TicketData): seq<DrawCmd> {
    if t.isSubscriber then
      [DrawCmd.FillPath(BadgePath, White), DrawCmd.StrokePath(BadgePath, Black, 1.0), ThanksCmd()]
    else []
  }

  function QrCmd(t: TicketData): DrawCmd {
    DrawCmd.DrawImage(QrCode(t.ticketId, QrSize, QrSize), QrX, QrY, QrSize as real, QrSize as real, [])
  }

  function IdCaptionCmd(t: TicketData): DrawCmd {
    DrawCmd.FillText(t.ticketId, 0.0, 0.0, Some(170.0), TextStyle(Black, IdFont, Center, Middle, IdTransform))
  }

  /** The QR code of the ticket id and the rotated id caption. */
  function QrOps(t: TicketData): seq<DrawCmd> {
    [QrCmd(t), IdCaptionCmd(t)]
  }

  /** Every call a rendered ticket makes, in order. */
  function TicketOps(t: TicketData, layout: Layout): seq<DrawCmd> {
    BodyOps(t, layout) + NoteOps(t) + BadgeOps(t) + QrOps(t)
  }

  /** Whether `generateQRCode` resolves for the given data. When it rejects,
      the rejection reaches the same `.catch` as a missing image. */
  type QrGenerates = string -> bool

  /** What rendering `t` draws and where it is written, or `Failed` when the
      template or the show's logo cannot be loaded or the QR code of the
      ticket id cannot be generated. */
  function RenderPlan(t: TicketData, images: Images, measure: Measure, qrGenerates: QrGenerates): RenderOutcome {
    if TemplatePath !in images then Failed
    else if LogoPath(Slug(t.show)) !in images then Failed
    else if !qrGenerates(t.ticketId) then Failed
    else Rendered(TicketOps(t, ComputeLayout(t, images[LogoPath(Slug(t.show))], measure)), OutputPath(t.ticketId))
  }

  /** A ticket renders exactly when the template and its show's logo load and
      its id's QR code is generated, and it is then written under its own id. */
  lemma RenderSucceedsIff(t: TicketData, images: Images, measure: Measure, qrGenerates: QrGenerates)
    ensures RenderPlan(t, images, measure, qrGenerates).Rendered?
            <==> TemplatePath in images && LogoPath(Slug(t.show)) in images && qrGenerates(t.ticketId)
    ensures RenderPlan(t, images, measure, qrGenerates).Rendered?
            ==> RenderPlan(t, images, measure, qrGenerates).outputPath == OutputPath(t.ticketId)
  {
  }

  /** The general-admission note is drawn exactly for subscribers in section
      "GA"; the badge and the thank-you caption exactly for subscribers. */
  lemma DecorationsAppearWhen(t: TicketData, layout: Layout)
    ensures GaNoteCmd() in TicketOps(t, layout) <==> t.isSubscriber && t.section == "GA"
    ensures DrawCmd.FillPath(BadgePath, White) in TicketOps(t, layout) <==> t.isSubscriber
    ensures DrawCmd.StrokePath(BadgePath, Black, 1.0) in TicketOps(t, layout) <==> t.isSubscriber
    ensures ThanksCmd() in TicketOps(t, layout) <==> t.isSubscriber
  {
    NotInBody(t, layout, GaNoteCmd());
    NotInBody(t, layout, ThanksCmd());
    InTicketOps(t, layout, GaNoteCmd());
    InTicketOps(t, layout, ThanksCmd());
    InTicketOps(t, layout, DrawCmd.FillPath(BadgePath, White));
    InTicketOps(t, layout, DrawCmd.StrokePath(BadgePath, Black, 1.0));
  }

  /** A call is made exactly when one of the four groups makes it. */
  lemma InTicketOps(t: TicketData, layout: Layout, c: DrawCmd)
    ensures c in TicketOps(t, layout)
            <==> c in BodyOps(t, layout) || c in NoteOps(t) || c in BadgeOps(t) || c in QrOps(t)
  {
  }

  /** Neither the note nor the thank-you line can be mistaken for a body
      call: no body text is drawn at x = 59, and the only body text at
      x = 353 is the name, on y = 332. */
  lemma NotInBody(t: TicketData, layout: Layout, c: DrawCmd)
    requires c.FillText? && (c.x == 59.0 || (c.x == 353.0 && c.y == 588.0))
    ensures c !in BodyOps(t, layout)
  {
    var body := BodyOps(t, layout);
    assert body == [body[0], body[1], body[2], body[3], body[4], body[5], body[6], body[7], body[8], body[9]];
  }

  /** The order of the calls: the ten body calls first, then the optional
      note and badge, then the QR code and the rotated id last. */
  lemma DrawOrder(t: TicketData, layout: Layout)
    ensures var ops := TicketOps(t, layout);
            && |ops| == 12 + |NoteOps(t)| + |BadgeOps(t)|
            && ops[..10] == BodyOps(t, layout)
            && ops[10..10 + |NoteOps(t)|] == NoteOps(t)
            && ops[10 + |NoteOps(t)|..|ops| - 2] == BadgeOps(t)
            && ops[|ops| - 2] == DrawCmd.DrawImage(QrCode(t.ticketId, 180, 180), 1430.0, 380.0, 180.0, 180.0, [])
            && ops[|ops| - 1].FillText? && ops[|ops| - 1].text == t.ticketId
            && ops[|ops| - 1].style.transform == [TransformOp.Translate(1410.0, 470.0), TransformOp.Rotate(-90)]
  {
    var ops := TicketOps(t, layout);
    var body, note, badge := BodyOps(t, layout), NoteOps(t), BadgeOps(t);
    assert |body| == 10;
    assert ops == body + note + badge + QrOps(t);
    assert ops[..10] == body;
    assert ops[10..10 + |note|] == note;
    assert ops[10 + |note|..|ops| - 2] == badge;
    assert ops[|ops| - 2] == QrCmd(t) && ops[|ops| - 1] == IdCaptionCmd(t);
  }

  /** The body calls and their fixed anchors: white fill and template over
      the whole canvas, the title at y = 20 + its size, the logo, the date
      42 below the title, the contact block, the white name, and section,
      row and seat on y = 515. */
  lemma BodyAnchors(t: TicketData, layout: Layout)
    ensures var ops := BodyOps(t, layout);
            && |ops| == 10
            && ops[0] == DrawCmd.FillRect(0.0, 0.0, 1650.0, 600.0, White)
            && ops[1] == DrawCmd.DrawImage(FileImage(TemplatePath), 0.0, 0.0, 1650.0, 600.0, [])
            && ops[2].FillText? && ops[2].text == t.show && ops[2].x == 38.0
            && ops[2].y == (20 + ops[2].style.font.size) as real
            && ops[3].DrawImage? && ops[3].image == FileImage(layout.logoPath)
            && ops[4].FillText? && ops[4].text == t.dateTime && ops[4].x == 38.0
            && ops[4].y == ops[2].y + 42.0
            && ops[5].FillText? && ops[5].text == ContactText && ops[5].x == 38.0
            && ops[6].FillText? && ops[6].text == t.name && ops[6].style.fill == White
            && ops[7].FillText? && ops[7].text == t.section && ops[7].y == 515.0
            && ops[8].FillText? && ops[8].text == t.row && ops[8].y == 515.0
            && ops[9].FillText? && ops[9].text == t.seat && ops[9].y == 515.0
  {
  }

  /** The font sizes chosen stay within each field's range, the title's
      baseline is between 70 and 90, and the logo is centred on (1032, 300)
      and is named by the show's slug. */
  lemma LayoutBounds(t: TicketData, logo: ImageSize, measure: Measure)
    ensures var layout := ComputeLayout(t, logo, measure);
            && 50 <= layout.titleSize <= 70 && 70 <= 20 + layout.titleSize <= 90
            && 12 <= layout.dateSize <= 32
            && 16 <= layout.nameSize <= 42
            && layout.logo.x + layout.logo.w / 2.0 == 1032.0 && layout.logo.y + layout.logo.h / 2.0 == 300.0
            && layout.logoPath == "img/logos/" + Slug(t.show) + ".png"
  {
    UsedRulesStayInRange(measure, t.show, t.dateTime, t.name);
  }

  /** The ticket type never affects what is drawn. */
  lemma TicketTypeUnused(t: TicketData, images: Images, measure: Measure, qrGenerates: QrGenerates,
                         ticketType: Option<string>)
    ensures RenderPlan(t.(ticketType := ticketType), images, measure, qrGenerates)
            == RenderPlan(t, images, measure, qrGenerates)
  {
  }

  /** Distinct ticket ids are staged under distinct paths. */
  lemma OutputPathInjective(a: string, b: string)
    ensures OutputPath(a) == OutputPath(b) ==> a == b
  {
    var prefix := "./img/generated-tickets/";
    if OutputPath(a) == OutputPath(b) {
      assert |a| == |b|;
      assert a == OutputPath(a)[|prefix|..|prefix| + |a|];
      assert b == OutputPath(b)[|prefix|..|prefix| + |b|];
    }
  }

  /** The canvas state every stage below relies on and, except the last,
      none changes. */
  predicate Untransformed(ctx: Canvas)
    reads ctx
  {
    ctx.transform == [] && ctx.textBaseline == Alphabetic
  }

  /** index.ts:97-101: clear to white and draw the template over the whole
      canvas. */
  method DrawBackground(ctx: Canvas)
    requires ctx.width == CanvasWidth && ctx.height == CanvasHeight && Untransformed(ctx)
    modifies ctx`fillStyle, ctx`ops
    ensures ctx.ops == old(ctx.ops) + [ClearCmd, TemplateCmd]
    ensures ctx.fillStyle == White
    ensures Untransformed(ctx)
  {
    ctx.fillStyle := White;
    ctx.FillRect(0.0, 0.0, ctx.width as real, ctx.height as real);
    ctx.DrawImage(FileImage(TemplatePath), 0.0, 0.0, ctx.width as real, ctx.height as real);
  }

  /** The style set-up and shrink loop shared by the title, the date and the
      name (index.ts:107-123, 148-163, 176-191): set the colour, the starting
      font and the alignment, then shrink the font until `text` fits. */
  method SetFittedFont(ctx: Canvas, text: string, rule: FitRule, fill: Color, align: TextAlign, measure: Measure)
    returns (fontSize: int)
    modifies ctx`fillStyle, ctx`font, ctx`textAlign
    ensures fontSize == RuleSize(measure, text, rule)
    ensures ctx.font == rule.start.(size := fontSize)
    ensures ctx.fillStyle == fill && ctx.textAlign == align
    ensures ctx.ops == old(ctx.ops) && ctx.transform == old(ctx.transform)
    ensures ctx.textBaseline == old(ctx.textBaseline)
  {
    ctx.fillStyle := fill;
    ctx.font := rule.start;
    ctx.textAlign := align;
    var fitted, _ := ShrinkToFit(text, ctx.font, rule.floor, rule.maxWidth, measure);
    ctx.font := fitted;
    fontSize := fitted.size;
  }

  /** index.ts:107-126: the show name, shrunk to fit 700 pixels; the fitted
      title font, black and left-aligned, stays set. */
  method DrawTitle(ctx: Canvas, t: TicketData, measure: Measure) returns (fontSize: int)
    requires Untransformed(ctx)
    modifies ctx`fillStyle, ctx`font, ctx`textAlign, ctx`ops
    ensures ctx.ops == old(ctx.ops) + [TitleCmd(t.show, TitleSize(t, measure))]
    ensures fontSize == TitleSize(t, measure)
    ensures ctx.font == TitleRule.start.(size := fontSize)
    ensures ctx.fillStyle == Black && ctx.textAlign == Left
    ensures Untransformed(ctx)
  {
    fontSize := SetFittedFont(ctx, t.show, TitleRule, Black, Left, measure);
    ctx.FillText(t.show, 38.0, (20 + fontSize) as real, Some(700.0));
  }

  /** index.ts:132-144: the logo, aspect-fit and centred; only a draw. */
  method DrawLogo(ctx: Canvas, logoPath: string, logo: ImageSize)
    requires Untransformed(ctx)
    modifies ctx`ops
    ensures ctx.ops == old(ctx.ops) + [LogoCmd(logoPath, FitLogo(logo))]
    ensures Untransformed(ctx)
  {
    var place := FitLogo(logo);
    ctx.DrawImage(FileImage(logoPath), place.x, place.y, place.w, place.h);
  }

  /** index.ts:148-165: the date, shrunk to fit 700 pixels, on the baseline
      derived from the title; the fitted date font, black and left-aligned,
      stays set. */
  method DrawDate(ctx: Canvas, t: TicketData, measure: Measure, dateY: int)
    requires dateY == DateBaseline(TitleSize(t, measure)) && Untransformed(ctx)
    modifies ctx`fillStyle, ctx`font, ctx`textAlign, ctx`ops
    ensures ctx.ops == old(ctx.ops)
                       + [DateCmd(t.dateTime, TitleSize(t, measure), RuleSize(measure, t.dateTime, DateRule))]
    ensures ctx.font == DateRule.start.(size := RuleSize(measure, t.dateTime, DateRule))
    ensures ctx.fillStyle == Black && ctx.textAlign == Left
    ensures Untransformed(ctx)
  {
    var _ := SetFittedFont(ctx, t.dateTime, DateRule, Black, Left, measure);
    ctx.FillText(t.dateTime, 38.0, dateY as real, Some(700.0));
  }

  /** index.ts:166-173: the contact block, raised by its measured height and
      drawn in the date's colour and alignment; only the font changes. */
  method DrawContact(ctx: Canvas, measure: Measure)
    requires Untransformed(ctx) && ctx.fillStyle == Black && ctx.textAlign == Left
    modifies ctx`font, ctx`ops
    ensures ctx.ops == old(ctx.ops) + [ContactCmd(ContactY(measure))]
    ensures ctx.font == ContactFont
    ensures Untransformed(ctx)
  {
    ctx.font := FontSpec(350, 26, HankenGrotesk);
    var textMetrics := measure(ctx.font, ContactText);
    var textHeight := Abs(textMetrics.ascent) + Abs(textMetrics.descent);
    ctx.FillText(ContactText, 38.0, 268.0 - textHeight + 10.0, Some(700.0));
  }

  /** index.ts:176-193: the attendee name, shrunk to fit 570 pixels; the
      fitted name font, white and centred, stays set. */
  method DrawName(ctx: Canvas, t: TicketData, measure: Measure)
    requires Untransformed(ctx)
    modifies ctx`fillStyle, ctx`font, ctx`textAlign, ctx`ops
    ensures ctx.ops == old(ctx.ops) + [NameCmd(t.name, RuleSize(measure, t.name, NameRule))]
    ensures ctx.font == NameRule.start.(size := RuleSize(measure, t.name, NameRule))
    ensures ctx.fillStyle == White && ctx.textAlign == Center
    ensures Untransformed(ctx)
  {
    var _ := SetFittedFont(ctx, t.name, NameRule, White, Center, measure);
    ctx.FillText(t.name, (372 - 19) as real, (307 + 25) as real, Some(570.0));
  }

  /** index.ts:196-205: section, row and seat, never shrunk; the 70-pixel
      font, black and centred, stays set. */
  method DrawSeatLabels(ctx: Canvas, t: TicketData)
    requires Untransformed(ctx)
    modifies ctx`fillStyle, ctx`font, ctx`textAlign, ctx`ops
    ensures ctx.ops == old(ctx.ops) + SeatLabelOps(t)
    ensures ctx.font == SeatFont && ctx.fillStyle == Black && ctx.textAlign == Center
    ensures Untransformed(ctx)
  {
    ctx.fillStyle := Black;
    ctx.font := FontSpec(500, 70, HankenGrotesk);
    ctx.textAlign := Center;
    ctx.FillText(t.section, (187 - 19) as real, (490 + 25) as real, None);
    ctx.FillText(t.row, (402 - 19) as real, (490 + 25) as real, None);
    ctx.FillText(t.seat, (589 - 19) as real, (490 + 25) as real, None);
  }

  /** index.ts:208-213: the note and its style only in its case; otherwise
      nothing changes. */
  method DrawSubscriberNote(ctx: Canvas, t: TicketData)
    requires Untransformed(ctx)
    modifies ctx`fillStyle, ctx`font, ctx`textAlign, ctx`ops
    ensures ctx.ops == old(ctx.ops) + NoteOps(t)
    ensures if t.isSubscriber && t.section == "GA"
            then ctx.fillStyle == Black && ctx.font == NoteFont && ctx.textAlign == Left
            else ctx.fillStyle == old(ctx.fillStyle) && ctx.font == old(ctx.font)
                 && ctx.textAlign == old(ctx.textAlign)
    ensures Untransformed(ctx)
  {
    if t.isSubscriber && t.section == "GA" {
      ctx.fillStyle := Black;
      ctx.font := FontSpec(500, 25, HankenGrotesk);
      ctx.textAlign := Left;
      ctx.FillText(GaNote, 59.0, 562.0, None);
    }
  }

  /** index.ts:216-229: for a subscriber, the disc path, the black one-pixel
      stroke and the caption's style stay set; otherwise nothing changes. */
  method DrawSubscriberBadge(ctx: Canvas, t: TicketData)
    requires Untransformed(ctx)
    modifies ctx`path, ctx`fillStyle, ctx`strokeStyle, ctx`lineWidth, ctx`font, ctx`textAlign, ctx`ops
    ensures ctx.ops == old(ctx.ops) + BadgeOps(t)
    ensures if t.isSubscriber
            then && ctx.path == BadgePath && ctx.strokeStyle == Black && ctx.lineWidth == 1.0
                 && ctx.fillStyle == Black && ctx.font == ThanksFont && ctx.textAlign == Center
            else && ctx.path == old(ctx.path) && ctx.strokeStyle == old(ctx.strokeStyle)
                 && ctx.lineWidth == old(ctx.lineWidth) && ctx.fillStyle == old(ctx.fillStyle)
                 && ctx.font == old(ctx.font) && ctx.textAlign == old(ctx.textAlign)
    ensures Untransformed(ctx)
  {
    if t.isSubscriber {
      ctx.BeginPath();
      ctx.Arc(663.0, 267.0, 10.0, 0.0, 1.0);
      assert ctx.path == BadgePath;
      ctx.fillStyle := White;
      ctx.Fill();
      ctx.strokeStyle := Black;
      ctx.lineWidth := 1.0;
      ctx.Stroke();

      ctx.fillStyle := Black;
      ctx.font := FontSpec(350, 25, HankenGrotesk);
      ctx.textAlign := Center;
      ctx.FillText(SubscriberThanks, (372 - 19) as real, (570 + 18) as real, None);
      assert ctx.ops == old(ctx.ops) + [DrawCmd.FillPath(BadgePath, White)]
                        + [DrawCmd.StrokePath(BadgePath, Black, 1.0)] + [ThanksCmd()];
    }
  }

  /** index.ts:248-255: the QR code, then the id turned a quarter turn
      beside it; the caption's alignment, baseline, transform and font stay
      set. */
  method DrawQrAndId(ctx: Canvas, t: TicketData)
    requires Untransformed(ctx) && ctx.fillStyle == Black
    modifies ctx`textAlign, ctx`textBaseline, ctx`transform, ctx`font, ctx`ops
    ensures ctx.ops == old(ctx.ops) + QrOps(t)
    ensures ctx.textAlign == Center && ctx.textBaseline == Middle
    ensures ctx.transform == IdTransform && ctx.font == IdFont
  {
    ctx.DrawImage(QrCode(t.ticketId, 180, 180), (1650 - 40 - 180) as real, (600 - 40 - 180) as real, 180.0, 180.0);
    ctx.textAlign := Center;
    ctx.textBaseline := Middle;
    ctx.Translate((1650 - 40 - 180 - 20) as real, (600 - 40 - 180 / 2) as real);
    ctx.Rotate(-90);
    assert ctx.transform == IdTransform;
    ctx.font := FontSpec(350, 37, HankenGrotesk);
    ctx.FillText(t.ticketId, 0.0, 0.0, Some(170.0));
    assert ctx.ops == old(ctx.ops) + [QrCmd(t)] + [IdCaptionCmd(t)];
  }

  /** index.ts:87-264 for one ticket: allocate the canvas, load the template,
      draw every field, load the logo, generate the QR code, and end with the
      path the PNG stream is written to. */
  method RenderTicket(t: TicketData, images: Images, measure: Measure, qrGenerates: QrGenerates)
    returns (outcome: RenderOutcome)
    ensures outcome == RenderPlan(t, images, measure, qrGenerates)
  {
    var ctx := new Canvas(CanvasWidth, CanvasHeight);
    if TemplatePath !in images {
      return Failed;
    }
    DrawBackground(ctx);
    assert ctx.ops == [ClearCmd, TemplateCmd];
    var showAbbrev := Slug(t.show);
    var fontSize := DrawTitle(ctx, t, measure);
    var dateY := 20 + fontSize + 10 + 32;
    var logoPath := LogoPath(showAbbrev);
    if logoPath !in images {
      return Failed;
    }
    DrawLogo(ctx, logoPath, images[logoPath]);
    DrawDate(ctx, t, measure, dateY);
    DrawContact(ctx, measure);
    DrawName(ctx, t, measure);
    DrawSeatLabels(ctx, t);
    assert ctx.ops == BodyOps(t, ComputeLayout(t, images[logoPath], measure));
    DrawSubscriberNote(ctx, t);
    DrawSubscriberBadge(ctx, t);
    if !qrGenerates(t.ticketId) {
      return Failed;
    }
    var outputFilepath := OutputPath(t.ticketId);
    DrawQrAndId(ctx, t);
    outcome := Rendered(ctx.ops, outputFilepath);
  }
}
