/**
 * Stylesheet: the two colours of a widget (background and text) kept beside
 * the Qt stylesheet text "background-color: #rrggbb;color: #rrggbb;". Setting
 * a colour regenerates the text; building from a text parses it tag by tag.
 * This module holds the text format shared by both controllers and the
 * Stylesheet class of the current controller, which masks colours to 24 bits.
 */
module Stylesheets {
  import opened Common
  import opened Text

  datatype ColorItem = BackgroundColor | Color

  /** std::map::operator[] gives 0 for an item never set. */
  function ColorOf(colors: map<ColorItem, U32>, item: ColorItem): U32
  {
    if item in colors then colors[item] else 0
  }

  // ---------------------------------------------------------------- the text format

  const BACKGROUND_TAG: string := "background-color: #"
  const COLOR_TAG: string := "color: #"

  /** snprintf(..., "background-color: #%.6x;color: #%.6x;", background, color) */
  function StylesheetText(background: U32, color: U32): string
  {
    (BACKGROUND_TAG + FormatHex6(background)) + ";" + (COLOR_TAG + FormatHex6(color)) + ";"
  }

  /** tag.substr(0, tag.find(':')): the whole tag when there is no ':'. */
  function TagProperty(tag: string): (r: string)
    ensures ':' !in r && |r| <= |tag| && r == tag[..|r|]
  {
    tag[..IndexOf(tag, ':')]
  }

  /** tag.substr(tag.find('#') + 1): npos + 1 wraps to 0, so the whole tag when there is no '#'. */
  function TagValue(tag: string): (r: string)
    ensures '#' in tag ==> r == tag[IndexOf(tag, '#') + 1..]
    ensures '#' !in tag ==> r == tag
  {
    var h := IndexOf(tag, '#');
    if h == |tag| then tag else tag[h + 1..]
  }

  /** The item a tag sets: "color" selects COLOR, every other property BACKGROUND_COLOR. */
  function TagItem(tag: string): (r: ColorItem)
    ensures r == Color <==> TagProperty(tag) == "color"
  {
    if TagProperty(tag) == "background-color" then BackgroundColor
    else if TagProperty(tag) == "color" then Color
    else BackgroundColor
  }

  /** `uint32_t color = strtol(value.c_str(), NULL, 16)`: the long is truncated to 32 bits. */
  function HexColor(value: string): U32
  {
    ToU32(Strtol16(value))
  }

  /** The colour a tag carries. */
  function TagColor(tag: string): U32
  {
    HexColor(TagValue(tag))
  }

  /** What one tag sets: an item and its colour. */
  datatype Setting = Setting(item: ColorItem, color: U32)

  function TagSetting(tag: string): Setting
  {
    Setting(TagItem(tag), TagColor(tag))
  }

  /** The settings of the tags, in the order of the tags. */
  function Settings(tags: seq<string>): (r: seq<Setting>)
    ensures |r| == |tags|
  {
    if tags == [] then [] else [TagSetting(tags[0])] + Settings(tags[1..])
  }

  /** The colours after the settings were applied one after another; a later one overrides an earlier one. */
  function Apply(colors: map<ColorItem, U32>, settings: seq<Setting>): map<ColorItem, U32>
    decreases settings
  {
    if settings == [] then colors
    else Apply(colors[settings[0].item := settings[0].color], settings[1..])
  }

  /** The colours parsed from a stylesheet text, both starting at 0. */
  function ParseColors(text: string): map<ColorItem, U32>
  {
    Apply(map[BackgroundColor := 0, Color := 0], Settings(GetlineSplit(text, ';')))
  }

  // ---------------------------------------------------------------- properties

  lemma NoDelimiterInHex(n: nat)
    ensures ';' !in FormatHex6(n) && '#' !in FormatHex6(n) && ':' !in FormatHex6(n)
  {
    var h := FormatHex6(n);
    forall i | 0 <= i < |h| ensures h[i] != ';' && h[i] != '#' && h[i] != ':' {
      assert IsHexDigit(h[i]);
    }
  }

  /** Two tags, each closed by ';', split into exactly those two tags. */
  lemma {:induction false} SplitTwoTags(a: string, b: string)
    requires ';' !in a && ';' !in b
    ensures GetlineSplit(a + ";" + b + ";", ';') == [a, b]
  {
    assert a + ";" + b + ";" == a + [';'] + (b + [';'] + []);
    SplitFirstToken(a, ';', b + [';'] + []);
    SplitFirstToken(b, ';', []);
  }

  /** The two tags of a generated stylesheet. */
  lemma TagsOfText(background: U32, color: U32)
    ensures GetlineSplit(StylesheetText(background, color), ';')
         == [BACKGROUND_TAG + FormatHex6(background), COLOR_TAG + FormatHex6(color)]
  {
    NoDelimiterInHex(background);
    NoDelimiterInHex(color);
    assert ';' !in BACKGROUND_TAG && ';' !in COLOR_TAG;
    SplitTwoTags(BACKGROUND_TAG + FormatHex6(background), COLOR_TAG + FormatHex6(color));
  }

  /** In "<property>: #<value>" the property ends at the ':' and the value starts after the '#'. */
  lemma {:induction false} TagParts(property: string, value: string)
    requires ':' !in property && '#' !in property
    ensures TagProperty(property + ": #" + value) == property
    ensures TagValue(property + ": #" + value) == value
  {
    var tag := property + ": #" + value;
    assert tag == property + [':'] + (" #" + value);
    IndexOfAfter(property, ':', " #" + value);
    assert '#' !in property + ": ";
    assert tag == (property + ": ") + ['#'] + value;
    IndexOfAfter(property + ": ", '#', value);
    assert tag[|property| + 3..] == value;
  }

  /** A generated tag sets the item its property names to the colour written. */
  lemma {:induction false} ReadTag(prefix: string, property: string, n: U32)
    requires (prefix == BACKGROUND_TAG && property == "background-color") || (prefix == COLOR_TAG && property == "color")
    ensures TagProperty(prefix + FormatHex6(n)) == property
    ensures TagSetting(prefix + FormatHex6(n)) == Setting(if property == "color" then Color else BackgroundColor, n)
  {
    assert ':' !in property && '#' !in property;
    assert prefix == property + ": #";
    TagParts(property, FormatHex6(n));
    HexColorOfText(n);
  }

  /** The colour read from "%.6x" text is the colour written, for every 32-bit value. */
  lemma HexColorOfText(n: U32)
    ensures HexColor(FormatHex6(n)) == n
  {
    Strtol16FormatHex6(n);
    var v := Strtol16(FormatHex6(n));
    assert v == n;
    assert ToU32(v) == n;
  }

  /** A background setting followed by a colour setting sets exactly those two colours. */
  lemma {:induction false} ApplyTwo(c1: U32, c2: U32)
    ensures Apply(map[BackgroundColor := 0, Color := 0], [Setting(BackgroundColor, c1), Setting(Color, c2)])
         == map[BackgroundColor := c1, Color := c2]
  {
    var initial: map<ColorItem, U32> := map[BackgroundColor := 0, Color := 0];
    ApplyCons(initial, Setting(BackgroundColor, c1), [Setting(Color, c2)]);
    ApplyCons(initial[BackgroundColor := c1], Setting(Color, c2), []);
    assert [Setting(BackgroundColor, c1)] + [Setting(Color, c2)] == [Setting(BackgroundColor, c1), Setting(Color, c2)];
    BothSet(initial, c1, c2);
  }

  /** A setting in front of others is applied before them. */
  lemma ApplyCons(colors: map<ColorItem, U32>, setting: Setting, rest: seq<Setting>)
    ensures Apply(colors, [setting] + rest) == Apply(colors[setting.item := setting.color], rest)
  {
    assert ([setting] + rest)[0] == setting && ([setting] + rest)[1..] == rest;
  }

  /** Two tags give their two settings. */
  lemma SettingsOfTwo(t1: string, t2: string)
    ensures Settings([t1, t2]) == [TagSetting(t1), TagSetting(t2)]
  {
    assert [t1, t2][1..] == [t2];
    assert [t2][1..] == [];
  }

  /** Parsing a generated stylesheet gives back both colours, for every 32-bit value. */
  lemma {:induction false} ParseOfText(background: U32, color: U32)
    ensures ParseColors(StylesheetText(background, color)) == map[BackgroundColor := background, Color := color]
  {
    var t1, t2 := BACKGROUND_TAG + FormatHex6(background), COLOR_TAG + FormatHex6(color);
    TagsOfText(background, color);
    SettingsOfTwo(t1, t2);
    ReadTag(BACKGROUND_TAG, "background-color", background);
    ReadTag(COLOR_TAG, "color", color);
    ApplyTwo(background, color);
  }

  /** Setting both items replaces whatever the two colours were. */
  lemma BothSet(colors: map<ColorItem, U32>, background: U32, color: U32)
    requires colors.Keys == {BackgroundColor, Color}
    ensures colors[BackgroundColor := background][Color := color] == map[BackgroundColor := background, Color := color]
  {
    var m := colors[BackgroundColor := background][Color := color];
    assert forall item :: item in m <==> item in map[BackgroundColor := background, Color := color];
  }

  /** A map holding both colours of another agrees with it on every item. */
  lemma SameColors(parsed: map<ColorItem, U32>, colors: map<ColorItem, U32>)
    requires parsed == map[BackgroundColor := ColorOf(colors, BackgroundColor), Color := ColorOf(colors, Color)]
    ensures forall item :: ColorOf(parsed, item) == ColorOf(colors, item)
  {
    forall item ensures ColorOf(parsed, item) == ColorOf(colors, item) {
      if item == BackgroundColor {
      } else {
      }
    }
  }

  /** An empty tag, or one whose property is not known, sets the background colour. */
  lemma {:induction false} UnknownPropertySetsBackground(colors: map<ColorItem, U32>, tag: string)
    requires TagProperty(tag) != "color"
    ensures Apply(colors, Settings([tag])) == colors[BackgroundColor := TagColor(tag)]
  {
    assert [tag][1..] == [];
    assert Settings([tag]) == [TagSetting(tag)];
    ApplyCons(colors, TagSetting(tag), []);
    assert [TagSetting(tag)] + [] == [TagSetting(tag)];
  }

  // ---------------------------------------------------------------- the class

  /** One tag: the property before ':' selects the item, the hex digits after '#' give the colour. */
  method ParseTag(tag: string) returns (item: ColorItem, color: U32)
    ensures item == TagItem(tag) && color == TagColor(tag)
  {
    var property := tag[..IndexOf(tag, ':')];
    var hash := IndexOf(tag, '#');
    var value := if hash == |tag| then tag else tag[hash + 1..];
    assert value == TagValue(tag);
    color := HexColor(value);
    assert property == TagProperty(tag);
    item := BackgroundColor;
    if property == "background-color" {
      item := BackgroundColor;
    } else if property == "color" {
      item := Color;
    }
  }

  /** parseStylesheet's loop: each tag sets the item its property names to the colour it carries. */
  method ParseTags(initial: map<ColorItem, U32>, tags: seq<string>) returns (parsed: map<ColorItem, U32>)
    ensures parsed == Apply(initial, Settings(tags))
  {
    parsed := initial;
    var i := 0;
    assert tags[0..] == tags;
    while i < |tags|
      invariant 0 <= i <= |tags|
      invariant Apply(parsed, Settings(tags[i..])) == Apply(initial, Settings(tags))
    {
      var tag := tags[i];
      var item, color := ParseTag(tag);
      assert tags[i..][0] == tag && tags[i..][1..] == tags[i + 1..];
      assert Settings(tags[i..]) == [Setting(item, color)] + Settings(tags[i + 1..]);
      ApplyCons(parsed, Setting(item, color), Settings(tags[i + 1..]));
      parsed := parsed[item := color];
      i := i + 1;
    }
  }

  const COLOR_MASK: nat := 0x100_0000

  class Stylesheet {
    var colors: map<ColorItem, U32>
    var text: string

    /** The default constructor: no colour set, empty text. */
    constructor()
      ensures colors == map[] && text == ""
    {
      colors, text := map[], "";
    }

    /** Both colours zeroed, the text kept and parsed tag by tag (std::getline on ';'). */
    constructor FromText(stylesheet: string)
      ensures text == stylesheet
      ensures colors == ParseColors(stylesheet)
    {
      var parsed := ParseTags(map[BackgroundColor := 0, Color := 0], GetlineSplit(stylesheet, ';'));
      colors, text := parsed, stylesheet;
    }

    /** getColor: the stored colour masked to 24 bits. */
    function GetColor(item: ColorItem): (r: U32)
      reads this
      ensures r < COLOR_MASK
      ensures ColorOf(colors, item) < COLOR_MASK ==> r == ColorOf(colors, item)
    {
      ColorOf(colors, item) % COLOR_MASK
    }

    /** setColor: the colour is masked to 24 bits, the other one is kept and the text regenerated. */
    method SetColor(item: ColorItem, color: U32)
      modifies this
      ensures colors == old(colors)[item := color % COLOR_MASK]
      ensures text == StylesheetText(ColorOf(colors, BackgroundColor), ColorOf(colors, Color))
    {
      colors := colors[item := color % COLOR_MASK];
      text := StylesheetText(ColorOf(colors, BackgroundColor), ColorOf(colors, Color));
    }

    /** Parsing what setColor generated gives the same two colours. */
    lemma TextRoundTrip()
      requires text == StylesheetText(ColorOf(colors, BackgroundColor), ColorOf(colors, Color))
      ensures forall item :: ColorOf(ParseColors(text), item) == ColorOf(colors, item)
    {
      ParseOfText(ColorOf(colors, BackgroundColor), ColorOf(colors, Color));
      SameColors(ParseColors(text), colors);
    }
  }
}
