/**
 * Colours and themes (src/colors.rs): the colour-string parser used when a theme
 * file is read, the deserialization rule for one colour slot, and the built-in
 * default theme.
 */
module Colors {
  import opened Wrappers
  import opened Strings

  newtype u8 = x: int | 0 <= x < 256

  /** The colours `parse_color` can produce: sixteen named ones and an RGB triple. */
  datatype Color =
    | Black | Red | Green | Yellow | Blue | Magenta | Cyan | Gray
    | DarkGray | LightRed | LightGreen | LightYellow | LightBlue | LightMagenta | LightCyan | White
    | Rgb(r: u8, g: u8, b: u8)

  /** The name a theme file uses for a named colour. */
  function ColorName(c: Color): string
    requires !c.Rgb?
  {
    match c
    case Black => "black"
    case Red => "red"
    case Green => "green"
    case Yellow => "yellow"
    case Blue => "blue"
    case Magenta => "magenta"
    case Cyan => "cyan"
    case Gray => "gray"
    case DarkGray => "darkgray"
    case LightRed => "lightred"
    case LightGreen => "lightgreen"
    case LightYellow => "lightyellow"
    case LightBlue => "lightblue"
    case LightMagenta => "lightmagenta"
    case LightCyan => "lightcyan"
    case White => "white"
  }

  /** The canonical way of writing a colour in a theme file. */
  function ColorText(c: Color): string {
    if c.Rgb? then "rgb(" + Decimal(c.r as nat) + "," + Decimal(c.g as nat) + "," + Decimal(c.b as nat) + ")"
    else ColorName(c)
  }

  /** The string `parse_color` matches on: trimmed, then lower-cased. */
  function Normalize(s: string): string {
    Lowercase(Trim(s))
  }

  /** The sixteen name arms of the `match`. */
  function NamedColor(t: string): Option<Color> {
    if t == "black" then Some(Black)
    else if t == "red" then Some(Red)
    else if t == "green" then Some(Green)
    else if t == "yellow" then Some(Yellow)
    else if t == "blue" then Some(Blue)
    else if t == "magenta" then Some(Magenta)
    else if t == "cyan" then Some(Cyan)
    else if t == "gray" then Some(Gray)
    else if t == "darkgray" then Some(DarkGray)
    else if t == "lightred" then Some(LightRed)
    else if t == "lightgreen" then Some(LightGreen)
    else if t == "lightyellow" then Some(LightYellow)
    else if t == "lightblue" then Some(LightBlue)
    else if t == "lightmagenta" then Some(LightMagenta)
    else if t == "lightcyan" then Some(LightCyan)
    else if t == "white" then Some(White)
    else None
  }

  function ParseByte(part: string): Option<u8> {
    match ParseUnsigned(Trim(part), U8_MAX)
    case Some(v) => Some(v as u8)
    case None => None
  }

  /** The `rgb(` … `)` fallback arm: the inner text must split into three byte-valued parts. */
  function RgbLiteral(t: string): Option<Color> {
    if |t| >= 5 && t[..4] == "rgb(" && t[|t| - 1] == ')' then
      var parts := Split(t[4..|t| - 1], ',');
      if |parts| == 3 then
        match (ParseByte(parts[0]), ParseByte(parts[1]), ParseByte(parts[2]))
        case (Some(r), Some(g), Some(b)) => Some(Rgb(r, g, b))
        case _ => None
      else None
    else None
  }

  /** `parse_color`. */
  function ParseColor(s: string): Option<Color> {
    var t := Normalize(s);
    if NamedColor(t).Some? then NamedColor(t) else RgbLiteral(t)
  }

  /**
   * The `Deserialize` impl of `MyColor`. After trimming and lower-casing, a string is
   * accepted as a colour exactly when it spells that colour: its name, or `rgb(` and
   * three comma-separated parts that trim to its bytes, then `)`. Anything else fails
   * with "Invalid color: " and the string as given.
   */
  function DeserializeColor(s: string): (r: Result<Color, string>)
    ensures r.Ok? ==> Spelled(Normalize(s), r.value)
    ensures forall c :: Spelled(Normalize(s), c) ==> r == Ok(c)
    ensures forall c :: s == ColorText(c) ==> r == Ok(c)
    ensures r.Err? ==> r.error == "Invalid color: " + s
  {
    SpelledExactly(s);
    match ParseColor(s)
    case Some(c) => Ok(c)
    case None => Err("Invalid color: " + s)
  }

  /** `t` (already trimmed and lower-cased) is how a theme file may write `c`. */
  predicate Spelled(t: string, c: Color) {
    if c.Rgb? then RgbShape(t, c.r, c.g, c.b) else t == ColorName(c)
  }

  /** A string that spells a colour parses to it. */
  lemma SpelledParses(s: string, c: Color)
    requires Spelled(Normalize(s), c)
    ensures ParseColor(s) == Some(c)
  {
    if c.Rgb? {
      SpelledRgbParses(s, c.r, c.g, c.b);
    } else {
      SpelledNameParses(s, c);
    }
  }

  lemma SpelledNameParses(s: string, c: Color)
    requires !c.Rgb? && Normalize(s) == ColorName(c)
    ensures ParseColor(s) == Some(c)
  {
    NamedColorName(c);
    ParseNormalizedArms(s);
  }

  lemma SpelledRgbParses(s: string, r: u8, g: u8, b: u8)
    requires RgbShape(Normalize(s), r, g, b)
    ensures ParseColor(s) == Some(Rgb(r, g, b))
  {
    RgbShapeLiteral(Normalize(s), r, g, b);
    RgbPrefix(Normalize(s));
    ParseUnnamed(s);
  }

  lemma RgbPrefix(t: string)
    requires |t| >= 4 && t[..4] == "rgb("
    ensures t[1] == 'g'
  {
    assert t[1] == t[..4][1];
  }

  lemma RgbShapeLiteral(t: string, r: u8, g: u8, b: u8)
    requires RgbShape(t, r, g, b)
    ensures RgbLiteral(t) == Some(Rgb(r, g, b))
  {
    var parts := Split(t[4..|t| - 1], ',');
    assert ParseByte(parts[0]) == Some(r);
    assert ParseByte(parts[1]) == Some(g);
    assert ParseByte(parts[2]) == Some(b);
  }

  /** `parse_color` accepts exactly the strings that spell a colour, and the canonical texts among them. */
  lemma SpelledExactly(s: string)
    ensures ParseColor(s).Some? ==> Spelled(Normalize(s), ParseColor(s).value)
    ensures forall c :: Spelled(Normalize(s), c) ==> ParseColor(s) == Some(c)
    ensures forall c :: s == ColorText(c) ==> ParseColor(s) == Some(c)
  {
    if ParseColor(s).Some? {
      var c := ParseColor(s).value;
      if c.Rgb? { ParseColorSoundRgb(s, c); } else { ParseColorSoundNamed(s, c); }
    }
    forall c | Spelled(Normalize(s), c) ensures ParseColor(s) == Some(c) {
      SpelledParses(s, c);
    }
    forall c | s == ColorText(c) ensures ParseColor(s) == Some(c) {
      ParseColorText(c);
    }
  }

  lemma NamedColorName(c: Color)
    requires !c.Rgb?
    ensures NamedColor(ColorName(c)) == Some(c)
  {
  }

  /** A string the name arms accept is one of the sixteen names. */
  lemma NamedColorSound(t: string)
    requires NamedColor(t).Some?
    ensures !NamedColor(t).value.Rgb? && t == ColorName(NamedColor(t).value)
  {
  }

  /** How an `rgb(...)` literal with the given parts is written. */
  function RgbText(p0: string, p1: string, p2: string): string {
    "rgb(" + p0 + "," + p1 + "," + p2 + ")"
  }

  /** No colour name has `g` as its second letter, so nothing starting `rgb(` is a name. */
  lemma NotNamed(t: string)
    requires |t| >= 2 && t[1] == 'g'
    ensures NamedColor(t).None?
  {
  }

  lemma RgbTextShape(p0: string, p1: string, p2: string)
    requires ',' !in p0 && ',' !in p1 && ',' !in p2
    ensures var t := RgbText(p0, p1, p2);
      && |t| >= 5 && t[..4] == "rgb(" && t[|t| - 1] == ')'
      && Split(t[4..|t| - 1], ',') == [p0, p1, p2]
  {
    var t := RgbText(p0, p1, p2);
    var inner := p0 + "," + p1 + "," + p2;
    assert t == "rgb(" + inner + ")";
    assert t[..4] == "rgb(" && t[4..|t| - 1] == inner;
    assert inner == p0 + [','] + (p1 + [','] + p2);
    SplitAt(p0, ',', p1 + [','] + p2);
    SplitAt(p1, ',', p2);
    SplitNoSeparator(p2, ',');
  }

  lemma RgbLiteralText(p0: string, p1: string, p2: string)
    requires ',' !in p0 && ',' !in p1 && ',' !in p2
    ensures RgbText(p0, p1, p2)[1] == 'g'
    ensures RgbLiteral(RgbText(p0, p1, p2)) ==
      match (ParseByte(p0), ParseByte(p1), ParseByte(p2))
      case (Some(r), Some(g), Some(b)) => Some(Rgb(r, g, b))
      case _ => None
  {
    RgbTextShape(p0, p1, p2);
  }

  /** A normalized string whose second letter is `g` goes straight to the `rgb(` arm. */
  lemma ParseUnnamed(s: string)
    requires |Normalize(s)| >= 2 && Normalize(s)[1] == 'g'
    ensures ParseColor(s) == RgbLiteral(Normalize(s))
  {
    NotNamed(Normalize(s));
  }

  /** What a normalized `rgb(p0,p1,p2)` string parses to, parts comma-free. */
  lemma ParseRgbText(s: string, p0: string, p1: string, p2: string)
    requires Normalize(s) == RgbText(p0, p1, p2)
    requires ',' !in p0 && ',' !in p1 && ',' !in p2
    ensures ParseColor(s) ==
      match (ParseByte(p0), ParseByte(p1), ParseByte(p2))
      case (Some(r), Some(g), Some(b)) => Some(Rgb(r, g, b))
      case _ => None
  {
    RgbLiteralText(p0, p1, p2);
    ParseUnnamed(s);
  }

  lemma DecimalByte(v: nat)
    requires v <= U8_MAX
    ensures ParseByte(Decimal(v)) == Some(v as u8) && ',' !in Decimal(v)
  {
    TrimUnpadded(Decimal(v));
    ParseDecimal(v, U8_MAX);
    NoCommaInDigits(Decimal(v));
  }

  lemma NoCommaInDigits(d: string)
    requires AllDigits(d)
    ensures ',' !in d
  {
  }

  lemma LowerDigits(d: string)
    requires AllDigits(d)
    ensures Lowercase(d) == d
  {
    assert forall i :: 0 <= i < |d| ==> LowerChar(d[i]) == d[i];
  }

  lemma LowercaseAppend(a: string, b: string)
    ensures Lowercase(a + b) == Lowercase(a) + Lowercase(b)
  {
  }

  /** `rgb(...)` over decimal parts is already trimmed and lower case. */
  lemma RgbTextNormal(p0: string, p1: string, p2: string)
    requires AllDigits(p0) && AllDigits(p1) && AllDigits(p2)
    ensures Normalize(RgbText(p0, p1, p2)) == RgbText(p0, p1, p2)
  {
    var s := RgbText(p0, p1, p2);
    LowerDigits(p0); LowerDigits(p1); LowerDigits(p2);
    assert Lowercase("rgb(") == "rgb(";
    assert Lowercase(",") == "," && Lowercase(")") == ")";
    LowercaseAppend("rgb(" + p0 + "," + p1 + "," + p2, ")");
    LowercaseAppend("rgb(" + p0 + "," + p1 + ",", p2);
    LowercaseAppend("rgb(" + p0 + "," + p1, ",");
    LowercaseAppend("rgb(" + p0 + ",", p1);
    LowercaseAppend("rgb(" + p0, ",");
    LowercaseAppend("rgb(", p0);
    assert Lowercase(s) == s;
    TrimUnpadded(s);
  }

  predicate LowerLetters(s: string) {
    forall i :: 0 <= i < |s| ==> 'a' <= s[i] <= 'z'
  }

  lemma NameLetters(c: Color)
    requires !c.Rgb?
    ensures |ColorName(c)| >= 3 && LowerLetters(ColorName(c))
  {
  }

  /** A word of lower-case ASCII letters is its own normal form. */
  lemma LettersNormal(s: string)
    requires LowerLetters(s)
    ensures Normalize(s) == s
  {
    assert forall i :: 0 <= i < |s| ==> LowerChar(s[i]) == s[i];
    assert Lowercase(s) == s;
    assert s == [] || (!IsWhitespace(s[0]) && !IsWhitespace(s[|s| - 1]));
    TrimUnpadded(s);
  }

  lemma NameNormal(c: Color)
    requires !c.Rgb?
    ensures Normalize(ColorName(c)) == ColorName(c)
  {
    NameLetters(c);
    LettersNormal(ColorName(c));
  }

  lemma ParseNamedText(c: Color)
    requires !c.Rgb?
    ensures ParseColor(ColorName(c)) == Some(c)
  {
    NameNormal(c);
    NamedColorName(c);
  }

  lemma ParseRgbDigits(s: string, dr: string, dg: string, db: string, r: u8, g: u8, b: u8)
    requires Normalize(s) == RgbText(dr, dg, db)
    requires AllDigits(dr) && AllDigits(dg) && AllDigits(db)
    requires ParseByte(dr) == Some(r) && ParseByte(dg) == Some(g) && ParseByte(db) == Some(b)
    ensures ParseColor(s) == Some(Rgb(r, g, b))
  {
    NoCommaInDigits(dr); NoCommaInDigits(dg); NoCommaInDigits(db);
    ParseRgbText(s, dr, dg, db);
  }

  lemma ParseRgbColorText(r: u8, g: u8, b: u8)
    ensures ParseColor(ColorText(Rgb(r, g, b))) == Some(Rgb(r, g, b))
  {
    var dr, dg, db := Decimal(r as nat), Decimal(g as nat), Decimal(b as nat);
    DecimalByte(r as nat); DecimalByte(g as nat); DecimalByte(b as nat);
    RgbTextNormal(dr, dg, db);
    ParseRgbDigits(RgbText(dr, dg, db), dr, dg, db, r, g, b);
  }

  /** Every canonical colour string parses back to its colour. */
  lemma ParseColorText(c: Color)
    ensures ParseColor(ColorText(c)) == Some(c)
  {
    if c.Rgb? {
      ParseRgbColorText(c.r, c.g, c.b);
    } else {
      ParseNamedText(c);
    }
  }

  /** Whitespace around a colour string never changes what it parses to. */
  lemma ParseColorPadded(pre: string, s: string, post: string)
    requires AllWhitespace(pre) && AllWhitespace(post)
    ensures ParseColor(pre + s + post) == ParseColor(s)
  {
    TrimPadded(pre, s, post);
  }

  /** Two strings that agree up to letter case parse to the same colour. */
  lemma ParseColorCase(s: string, s': string)
    requires Lowercase(s) == Lowercase(s')
    ensures ParseColor(s) == ParseColor(s')
  {
    LowerTrim(s);
    LowerTrim(s');
  }

  /** `t` is `rgb(` and `)` around three comma-separated parts that read as `r`, `g`, `b`. */
  predicate RgbShape(t: string, r: u8, g: u8, b: u8) {
    && |t| >= 5 && t[..4] == "rgb(" && t[|t| - 1] == ')'
    && var parts := Split(t[4..|t| - 1], ',');
    && |parts| == 3
    && ParseUnsigned(Trim(parts[0]), U8_MAX) == Some(r as nat)
    && ParseUnsigned(Trim(parts[1]), U8_MAX) == Some(g as nat)
    && ParseUnsigned(Trim(parts[2]), U8_MAX) == Some(b as nat)
  }

  lemma RgbLiteralSound(t: string, c: Color)
    requires RgbLiteral(t) == Some(c)
    ensures c.Rgb? && RgbShape(t, c.r, c.g, c.b)
  {
  }

  lemma ParseNormalizedArms(s: string)
    ensures ParseColor(s) == if NamedColor(Normalize(s)).Some? then NamedColor(Normalize(s)) else RgbLiteral(Normalize(s))
  {
  }

  /** An accepted named colour was written as its name, up to case and surrounding whitespace. */
  lemma ParseColorSoundNamed(s: string, c: Color)
    requires ParseColor(s) == Some(c) && !c.Rgb?
    ensures Normalize(s) == ColorName(c)
  {
    var t := Normalize(s);
    ParseNormalizedArms(s);
    if NamedColor(t).Some? {
      NamedColorSound(t);
    } else {
      RgbLiteralSound(t, c);
    }
  }

  /** An accepted RGB colour was written as `rgb(` three parts `)`, each trimming to its byte. */
  lemma ParseColorSoundRgb(s: string, c: Color)
    requires ParseColor(s) == Some(c) && c.Rgb?
    ensures RgbShape(Normalize(s), c.r, c.g, c.b)
  {
    var t := Normalize(s);
    ParseNormalizedArms(s);
    if NamedColor(t).Some? {
      NamedColorSound(t);
    } else {
      RgbLiteralSound(t, c);
    }
  }

  /** The three-part `rgb(...)` literal is accepted with any byte-valued parts. */
  lemma ParseColorRgb(s: string, p0: string, p1: string, p2: string)
    requires Normalize(s) == RgbText(p0, p1, p2)
    requires ',' !in p0 && ',' !in p1 && ',' !in p2
    requires ParseByte(p0).Some? && ParseByte(p1).Some? && ParseByte(p2).Some?
    ensures ParseColor(s) == Some(Rgb(ParseByte(p0).value, ParseByte(p1).value, ParseByte(p2).value))
  {
    ParseRgbText(s, p0, p1, p2);
  }

  /** A part that is not a byte (out of range, empty, negative (a `-` sign), not numeric) makes the literal fail. */
  lemma ParseColorBadPart(s: string, p0: string, p1: string, p2: string)
    requires Normalize(s) == RgbText(p0, p1, p2)
    requires ',' !in p0 && ',' !in p1 && ',' !in p2
    requires ParseByte(p0).None? || ParseByte(p1).None? || ParseByte(p2).None?
    ensures ParseColor(s) == None
  {
    ParseRgbText(s, p0, p1, p2);
  }

  /** An `rgb(...)` literal whose inner text does not have exactly three parts is refused. */
  lemma ParseColorPartCount(s: string, inner: string)
    requires Normalize(s) == "rgb(" + inner + ")"
    requires |Split(inner, ',')| != 3
    ensures ParseColor(s) == None
  {
    var t := Normalize(s);
    assert t[1] == 'g';
    NotNamed(t);
    assert t[..4] == "rgb(" && t[4..|t| - 1] == inner;
  }

  /** A string that is neither a name nor of the `rgb(` … `)` shape is refused; e.g. a space before `(`. */
  lemma ParseColorOther(s: string)
    requires NamedColor(Normalize(s)).None?
    requires var t := Normalize(s); !(|t| >= 5 && t[..4] == "rgb(" && t[|t| - 1] == ')')
    ensures ParseColor(s) == None
  {
    var t := Normalize(s);
    ParseNormalizedArms(s);
    assert RgbLiteral(t) == None;
  }

  /** The colour slots of a theme, one per field of `Theme`. */
  datatype Slot =
    | TuiLines | ActiveMenuItem | OtherMenuItems | TabsBasic | TabsHighlight
    | HomeText | HomeBox | PlaylistNumber | PlaylistName | PlaylistBox
    | AccountInfo | AccountLink | AccountAuthSuccess | AccountAuthFailure | AccountBox
    | CommandTextOdd | CommandTextEven | CommandBox
    | SearchBox | SearchNumber | SearchName | SearchUploader | SearchDuration

  datatype Theme = Theme(
    tuiLines: Color, activeMenuItem: Color, otherMenuItems: Color, tabsBasic: Color, tabsHighlight: Color,
    homeText: Color, homeBox: Color, playlistNumber: Color, playlistName: Color, playlistBox: Color,
    accountInfo: Color, accountLink: Color, accountAuthSuccess: Color, accountAuthFailure: Color, accountBox: Color,
    commandTextOdd: Color, commandTextEven: Color, commandBox: Color,
    searchBox: Color, searchNumber: Color, searchName: Color, searchUploader: Color, searchDuration: Color)

  function SlotColor(t: Theme, slot: Slot): Color {
    match slot
    case TuiLines => t.tuiLines
    case ActiveMenuItem => t.activeMenuItem
    case OtherMenuItems => t.otherMenuItems
    case TabsBasic => t.tabsBasic
    case TabsHighlight => t.tabsHighlight
    case HomeText => t.homeText
    case HomeBox => t.homeBox
    case PlaylistNumber => t.playlistNumber
    case PlaylistName => t.playlistName
    case PlaylistBox => t.playlistBox
    case AccountInfo => t.accountInfo
    case AccountLink => t.accountLink
    case AccountAuthSuccess => t.accountAuthSuccess
    case AccountAuthFailure => t.accountAuthFailure
    case AccountBox => t.accountBox
    case CommandTextOdd => t.commandTextOdd
    case CommandTextEven => t.commandTextEven
    case CommandBox => t.commandBox
    case SearchBox => t.searchBox
    case SearchNumber => t.searchNumber
    case SearchName => t.searchName
    case SearchUploader => t.searchUploader
    case SearchDuration => t.searchDuration
  }

  /** `Theme::new`. */
  function DefaultTheme(): Theme {
    Theme(
      White, White, White, White, White,
      White, White, White, White, White,
      White, White, Green, Red, White,
      Gray, White, White,
      White, White, White, White, White)
  }

  /** The default theme is white everywhere except the two authentication slots and the odd command lines. */
  lemma DefaultThemeSlots(slot: Slot)
    ensures SlotColor(DefaultTheme(), slot) ==
      if slot == AccountAuthSuccess then Green
      else if slot == AccountAuthFailure then Red
      else if slot == CommandTextOdd then Gray
      else White
  {
  }
}
