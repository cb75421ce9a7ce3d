/**
 * The application shell's theme effect: the `dark` class on the document
 * root follows the theme, and the two colour variables are set from the
 * stored hex colours when those parse (`hexToRgb`).
 */
module App {
  import opened Builtins
  import SettingsStore

  /** The value of a hex digit, either case; `None` for anything else. */
  function HexValue(c: char): (v: Option<nat>)
    ensures v.Some? ==> v.value < 16
  {
    if '0' <= c <= '9' then Some(c as int - '0' as int)
    else if 'a' <= c <= 'f' then Some(c as int - 'a' as int + 10)
    else if 'A' <= c <= 'F' then Some(c as int - 'A' as int + 10)
    else None
  }

  predicate IsHex(c: char)
  {
    HexValue(c).Some?
  }

  predicate AllHex(s: string)
  {
    forall i :: 0 <= i < |s| ==> IsHex(s[i])
  }

  /** `/^#?([a-f\d]{2})([a-f\d]{2})([a-f\d]{2})$/i`: six hex digits, optionally after one `#`. */
  predicate WellFormed(hex: string)
  {
    (|hex| == 6 && AllHex(hex)) || (|hex| == 7 && hex[0] == '#' && AllHex(hex[1..]))
  }

  /** `parseInt(pair, 16)` for two hex digits. */
  function Byte(hi: char, lo: char): (b: nat)
    requires IsHex(hi) && IsHex(lo)
    ensures b < 256
  {
    HexValue(hi).value * 16 + HexValue(lo).value
  }

  /** The three decimal values separated by single spaces. */
  function RgbText(r: nat, g: nat, b: nat): string
  {
    NatToString(r) + " " + NatToString(g) + " " + NatToString(b)
  }

  /** `hexToRgb(hex)`. */
  function HexToRgb(hex: string): (r: Option<string>)
    ensures r.Some? <==> WellFormed(hex)
  {
    var d := if |hex| == 7 && hex[0] == '#' then hex[1..] else hex;
    if |d| == 6 && AllHex(d) then
      Some(RgbText(Byte(d[0], d[1]), Byte(d[2], d[3]), Byte(d[4], d[5])))
    else None
  }

  /** A result reads back as exactly three bytes, each below 256, taken pair by pair from the digits. */
  lemma HexToRgbReadsBack(hex: string)
    requires WellFormed(hex)
    ensures var d := if |hex| == 7 then hex[1..] else hex;
            var parts := Split(HexToRgb(hex).value, ' ');
            |parts| == 3 &&
            (forall i :: 0 <= i < 3 ==> forall k :: 0 <= k < |parts[i]| ==> IsDigit(parts[i][k])) &&
            DecimalValue(parts[0]) == Byte(d[0], d[1]) && DecimalValue(parts[1]) == Byte(d[2], d[3]) &&
            DecimalValue(parts[2]) == Byte(d[4], d[5])
  {
    var d := if |hex| == 7 then hex[1..] else hex;
    var r, g, b := Byte(d[0], d[1]), Byte(d[2], d[3]), Byte(d[4], d[5]);
    var parts := [NatToString(r), NatToString(g), NatToString(b)];
    forall i | 0 <= i < |parts|
      ensures ' ' !in parts[i]
    {
      assert forall k :: 0 <= k < |parts[i]| ==> IsDigit(parts[i][k]);
    }
    SplitJoin(parts, ' ');
    assert parts[1..] == [NatToString(g), NatToString(b)];
    assert parts[1..][1..] == [NatToString(b)];
    assert Join(parts[1..][1..], " ") == NatToString(b);
    assert Join(parts[1..], " ") == NatToString(g) + " " + NatToString(b);
    assert Join(parts, " ") == NatToString(r) + " " + (NatToString(g) + " " + NatToString(b));
    assert Join(parts, " ") == RgbText(r, g, b);
    DecimalRoundTrip(r);
    DecimalRoundTrip(g);
    DecimalRoundTrip(b);
  }

  /** `#3b82f6` gives `59 130 246`, with or without the `#` and in either case. */
  lemma DefaultPrimaryExample()
    ensures HexToRgb("#3b82f6") == Some("59 130 246")
    ensures HexToRgb("3b82f6") == Some("59 130 246")
    ensures HexToRgb("#3B82F6") == Some("59 130 246")
  {
    assert "#3b82f6"[1..] == "3b82f6" && "#3B82F6"[1..] == "3B82F6";
    assert AllHex("3b82f6") by {
      forall i | 0 <= i < 6 ensures IsHex("3b82f6"[i]) { }
    }
    assert AllHex("3B82F6") by {
      forall i | 0 <= i < 6 ensures IsHex("3B82F6"[i]) { }
    }
    assert Byte('3', 'b') == 59 && Byte('8', '2') == 130 && Byte('f', '6') == 246;
    assert Byte('3', 'B') == 59 && Byte('F', '6') == 246;
    assert NatToString(59) == "59";
    assert NatToString(130) == "130";
    assert NatToString(246) == "246";
    assert RgbText(59, 130, 246) == "59 130 246";
    var lower, upper := "3b82f6", "3B82F6";
    assert lower[0] == '3' && lower[1] == 'b' && lower[2] == '8' && lower[3] == '2' && lower[4] == 'f' && lower[5] == '6';
    assert upper[0] == '3' && upper[1] == 'B' && upper[2] == '8' && upper[3] == '2' && upper[4] == 'F' && upper[5] == '6';
  }

  /** Shorthand, eight-digit values and extra characters are rejected. */
  lemma RejectedExamples()
    ensures HexToRgb("#fff") == None
    ensures HexToRgb("#3b82f6ff") == None
    ensures HexToRgb("##3b82f6") == None
    ensures HexToRgb("#3b82g6") == None
    ensures HexToRgb(" #3b82f6") == None
  {
    assert !IsHex('#') && !IsHex('g') && !IsHex(' ');
    assert !WellFormed("##3b82f6");
    assert "#3b82g6"[5] == 'g';
    assert !AllHex("#3b82g6"[1..]) by { assert "#3b82g6"[1..][4] == 'g'; }
  }

  /** The style state of the document root that the effect writes. */
  class DocumentRoot {
    var dark: bool
    var colorPrimary: string
    var colorSecondary: string

    constructor (dark0: bool, primary0: string, secondary0: string)
      ensures dark == dark0 && colorPrimary == primary0 && colorSecondary == secondary0
    {
      dark, colorPrimary, colorSecondary := dark0, primary0, secondary0;
    }

    /** The effect: set the class from the theme, and each variable only when its colour parses. */
    method ApplyTheme(theme: SettingsStore.Theme, primaryColor: string, secondaryColor: string)
      modifies this
      ensures dark <==> theme == SettingsStore.Dark
      ensures colorPrimary == HexToRgb(primaryColor).GetOr(old(colorPrimary))
      ensures colorSecondary == HexToRgb(secondaryColor).GetOr(old(colorSecondary))
      ensures !WellFormed(primaryColor) ==> colorPrimary == old(colorPrimary)
      ensures !WellFormed(secondaryColor) ==> colorSecondary == old(colorSecondary)
    {
      dark := theme == SettingsStore.Dark;
      var primaryRgb := HexToRgb(primaryColor);
      if primaryRgb.Some? {
        colorPrimary := primaryRgb.value;
      }
      var secondaryRgb := HexToRgb(secondaryColor);
      if secondaryRgb.Some? {
        colorSecondary := secondaryRgb.value;
      }
    }
  }
}
