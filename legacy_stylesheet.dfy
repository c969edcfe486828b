/**
 * The older Stylesheet of the first GUI controller: the same text format and
 * parser as the current one, but colours are stored and returned as full
 * 32-bit values, without the 24-bit mask.
 */
module LegacyStylesheet {
  import opened Common
  import opened Text
  import opened Stylesheets

  class Stylesheet {
    var colors: map<ColorItem, U32>
    var text: string

    /** The default constructor: no colour set, empty text. */
    constructor()
      ensures colors == map[] && text == ""
    {
      colors, text := map[], "";
    }

    /** Both colours zeroed, the text kept and parsed tag by tag; the debug printf is not modelled. */
    constructor FromText(stylesheet: string)
      ensures text == stylesheet
      ensures colors == ParseColors(stylesheet)
    {
      var parsed := ParseTags(map[BackgroundColor := 0, Color := 0], GetlineSplit(stylesheet, ';'));
      colors, text := parsed, stylesheet;
    }

    /** getColor: the stored colour unmasked, 0 for an item never set. */
    function GetColor(item: ColorItem): (r: U32)
      reads this
      ensures item in colors ==> r == colors[item]
      ensures item !in colors ==> r == 0
    {
      ColorOf(colors, item)
    }

    /** setColor: the full colour is stored, the other one kept and the text regenerated. */
    method SetColor(item: ColorItem, color: U32)
      modifies this
      ensures colors == old(colors)[item := color]
      ensures text == StylesheetText(ColorOf(colors, BackgroundColor), ColorOf(colors, Color))
    {
      colors := colors[item := color];
      text := StylesheetText(ColorOf(colors, BackgroundColor), ColorOf(colors, Color));
    }

    /** A stylesheet parsed from what setColor generated reports every colour unchanged, for all 32-bit values. */
    lemma TextRoundTrip()
      requires text == StylesheetText(ColorOf(colors, BackgroundColor), ColorOf(colors, Color))
      ensures forall item :: ColorOf(ParseColors(text), item) == GetColor(item)
    {
      ParseOfText(ColorOf(colors, BackgroundColor), ColorOf(colors, Color));
      SameColors(ParseColors(text), colors);
    }
  }
}
