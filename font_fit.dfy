/** The shrink-to-fit rule index.ts applies to the show title, the date and
    the attendee name: starting from the font the field is set in, lower the
    font size by 2 while the measured width is over the maximum and the size
    is above the floor. When even the floor overflows, the text is drawn at
    that size and overflows. */
module FontFit {
  import opened Canvas2D

  predicate Overflows(measure: Measure, text: string, font: FontSpec, maxWidth: real) {
    measure(font, text).width > maxWidth
  }

  /** The size the loop stops at, as a function of the starting font. */
  function FitSize(measure: Measure, text: string, font: FontSpec, floor: int, maxWidth: real): (size: int)
    // never grows, and moves in steps of 2
    ensures size <= font.size && (font.size - size) % 2 == 0
    // stops as soon as the text fits, or at the floor
    ensures !Overflows(measure, text, font.(size := size), maxWidth) || size <= floor
    // never steps past the floor
    ensures font.size > floor ==> size > floor - 2
    ensures font.size <= floor ==> size == font.size
    // every larger step it passed over overflowed
    ensures forall s :: size < s <= font.size && (font.size - s) % 2 == 0
                        ==> Overflows(measure, text, font.(size := s), maxWidth)
    decreases font.size - floor
  {
    if Overflows(measure, text, font, maxWidth) && font.size > floor
    then FitSize(measure, text, font.(size := font.size - 2), floor, maxWidth)
    else font.size
  }

  /** The loop of index.ts:118-123, 159-163 and 187-191. `font` is the font
      the context is set to before the loop; the result is the font it is set
      to afterwards and the last measured width. */
  method ShrinkToFit(text: string, font: FontSpec, floor: int, maxWidth: real, measure: Measure)
    returns (fitted: FontSpec, width: real)
    ensures fitted == font.(size := FitSize(measure, text, font, floor, maxWidth))
    ensures width == measure(fitted, text).width
  {
    var fontSize := font.size;
    fitted := font;
    width := measure(fitted, text).width;
    while width > maxWidth && fontSize > floor
      invariant fitted == font.(size := fontSize)
      invariant width == measure(fitted, text).width
      invariant FitSize(measure, text, fitted, floor, maxWidth) == FitSize(measure, text, font, floor, maxWidth)
      decreases fontSize - floor
    {
      fontSize := fontSize - 2;
      fitted := font.(size := fontSize);
      width := measure(fitted, text).width;
    }
  }

  /** One use of the rule: the starting font, the floor and the maximum width. */
  datatype FitRule = FitRule(start: FontSpec, floor: int, maxWidth: real)

  /** The show title: "500 70px", floor 50, at most 700 wide (index.ts:108-118). */
  const TitleRule := FitRule(FontSpec(500, 70, HankenGrotesk), 50, 700.0)
  /** The date: "500 32px", floor 12, at most 700 wide (index.ts:149-159). */
  const DateRule := FitRule(FontSpec(500, 32, HankenGrotesk), 12, 700.0)
  /** The attendee name: "600 42px", floor 16, at most 570 wide (index.ts:177-187). */
  const NameRule := FitRule(FontSpec(600, 42, HankenGrotesk), 16, 570.0)

  /** The size a field ends at under its rule. */
  function RuleSize(measure: Measure, text: string, rule: FitRule): (size: int)
    ensures size <= rule.start.size && (rule.start.size - size) % 2 == 0
    ensures !Overflows(measure, text, rule.start.(size := size), rule.maxWidth) || size <= rule.floor
  {
    FitSize(measure, text, rule.start, rule.floor, rule.maxWidth)
  }

  /** When the starting size is the floor plus an even number, the loop ends
      on the floor at the lowest and so never drops below it; text that fits
      at the starting size keeps it. */
  lemma RuleSizeInRange(measure: Measure, text: string, rule: FitRule)
    requires rule.floor <= rule.start.size && (rule.start.size - rule.floor) % 2 == 0
    ensures rule.floor <= RuleSize(measure, text, rule) <= rule.start.size
    ensures !Overflows(measure, text, rule.start, rule.maxWidth) ==> RuleSize(measure, text, rule) == rule.start.size
  {
    var size := RuleSize(measure, text, rule);
    if size < rule.start.size {
      assert Overflows(measure, text, rule.start.(size := rule.start.size), rule.maxWidth);
      assert rule.start.(size := rule.start.size) == rule.start;
    }
  }

  /** For the three rules index.ts uses, the size stays between the floor
      and the start, and text that fits at the start keeps the start size. */
  lemma UsedRulesStayInRange(measure: Measure, title: string, date: string, name: string)
    ensures 50 <= RuleSize(measure, title, TitleRule) <= 70
    ensures 12 <= RuleSize(measure, date, DateRule) <= 32
    ensures 16 <= RuleSize(measure, name, NameRule) <= 42
    ensures measure(TitleRule.start, title).width <= 700.0 ==> RuleSize(measure, title, TitleRule) == 70
    ensures measure(DateRule.start, date).width <= 700.0 ==> RuleSize(measure, date, DateRule) == 32
    ensures measure(NameRule.start, name).width <= 570.0 ==> RuleSize(measure, name, NameRule) == 42
  {
    RuleSizeInRange(measure, title, TitleRule);
    RuleSizeInRange(measure, date, DateRule);
    RuleSizeInRange(measure, name, NameRule);
  }
}
