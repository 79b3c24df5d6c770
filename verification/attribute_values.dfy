/**
 * `resolve_attribute_value_type`: an attribute value is classified as a
 * colour, a gradient, a URL or a plain string, checked in that order.
 *
 * The colour test is the regular expression `COLOR_PATTERN` under
 * `re.match`: `#` and three hex digits, `#` and two to four pairs of hex
 * digits, or `rgb`/`hsl` (optionally followed by `a`) with two or three
 * `-?\d+%?[,\s]+` arguments, optional blanks, a final `[\d.]+%?` argument and
 * a closing parenthesis. As in Python, `$` also accepts a single trailing
 * newline.
 */
module AttributeValues {
  import opened Wrappers
  import opened Text

  /** `AttributeValueType` */
  datatype AttributeValueType = Color | Gradient | Url | String

  predicate IsHexDigit(c: char) {
    '0' <= c <= '9' || 'a' <= c <= 'f' || 'A' <= c <= 'F'
  }

  /** The character classes the functional colour notation uses. */
  datatype CharClass = Digit | Separator | Blank | NumberChar

  /** `\s` (ASCII whitespace). */
  predicate IsBlank(c: char) {
    c == ' ' || c == '\t' || c == '\n' || c == '\r' || c as int == 11 || c as int == 12
  }

  predicate InClass(c: char, k: CharClass) {
    match k
    case Digit => '0' <= c <= '9'
    case Separator => c == ',' || IsBlank(c)
    case Blank => IsBlank(c)
    case NumberChar => '0' <= c <= '9' || c == '.'
  }

  /** The end of the longest run of class-`k` characters starting at `i`. */
  function RunEnd(s: string, i: nat, k: CharClass): (j: nat)
    requires i <= |s|
    ensures i <= j <= |s|
    ensures forall m :: i <= m < j ==> InClass(s[m], k)
    ensures j < |s| ==> !InClass(s[j], k)
    decreases |s| - i
  {
    if i < |s| && InClass(s[i], k) then RunEnd(s, i + 1, k) else i
  }

  /** `#` followed by 3, 4, 6 or 8 hex digits: the first two alternatives of the pattern. */
  predicate IsHexColor(s: string) {
    |s| >= 1 && s[0] == '#' && (|s| - 1) in {3, 4, 6, 8} &&
    forall i :: 1 <= i < |s| ==> IsHexDigit(s[i])
  }

  /** One `-?\d+%?[,\s]+` argument starting at `i`: where it ends, if it is there. */
  function Argument(s: string, i: nat): (r: Option<nat>)
    requires i <= |s|
    ensures r.Some? ==> i < r.value <= |s|
  {
    var j := if i < |s| && s[i] == '-' then i + 1 else i;
    var d := RunEnd(s, j, Digit);
    if d == j then None
    else
      var p := if d < |s| && s[d] == '%' then d + 1 else d;
      var e := RunEnd(s, p, Separator);
      if e == p then None else Some(e)
  }

  /** `\s*[\d.]+%?\)` running to the end of `s`. */
  predicate LastArgument(s: string, i: nat)
    requires i <= |s|
  {
    var k := RunEnd(s, i, Blank);
    var n := RunEnd(s, k, NumberChar);
    n > k &&
    var p := if n < |s| && s[n] == '%' then n + 1 else n;
    p + 1 == |s| && s[p] == ')'
  }

  /**
   * The arguments of the functional notation from `i` on, `count` having
   * been read already: two or three arguments, then the last one.
   */
  predicate Arguments(s: string, i: nat, count: nat)
    requires i <= |s|
    decreases |s| - i
  {
    match Argument(s, i)
    case Some(e) => count < 3 && Arguments(s, e, count + 1)
    case None => count >= 2 && LastArgument(s, i)
  }

  /** `(rgb|hsl)a?\(` followed by the arguments. */
  predicate IsFunctionalColor(s: string) {
    (StartsWith(s, "rgb(") && Arguments(s, 4, 0)) ||
    (StartsWith(s, "rgba(") && Arguments(s, 5, 0)) ||
    (StartsWith(s, "hsl(") && Arguments(s, 4, 0)) ||
    (StartsWith(s, "hsla(") && Arguments(s, 5, 0))
  }

  predicate InColorLanguage(s: string) {
    IsHexColor(s) || IsFunctionalColor(s)
  }

  /** `color_pattern.match(value)`: `$` matches at the end or before a final newline. */
  predicate MatchesColorPattern(s: string) {
    InColorLanguage(s) || (|s| > 0 && s[|s| - 1] == '\n' && InColorLanguage(s[..|s| - 1]))
  }

  /**
   * `resolve_attribute_value_type`: colour first, then gradient, then URL;
   * a string when none of the three tests hits.
   */
  function ResolveAttributeValueType(value: string): (r: AttributeValueType)
    ensures r == Color <==> MatchesColorPattern(value)
    ensures r == Gradient <==> !MatchesColorPattern(value) && Contains(value, "gradient(")
    ensures r == Url <==> !MatchesColorPattern(value) && !Contains(value, "gradient(") && Contains(value, "://")
    ensures r == String <==> !MatchesColorPattern(value) && !Contains(value, "gradient(") && !Contains(value, "://")
  {
    if MatchesColorPattern(value) then Color
    else if Contains(value, "gradient(") then Gradient
    else if Contains(value, "://") then Url
    else String
  }

  /** A value starting with a character other than `#`, `r` or `h` is never a colour. */
  lemma ColourStartsWithHashOrFunction(s: string)
    requires |s| > 0 && s[0] != '#' && s[0] != 'r' && s[0] != 'h'
    ensures !MatchesColorPattern(s)
  {
    NotAColourStart(s);
    if |s| > 1 {
      assert s[..|s| - 1][0] == s[0];
      NotAColourStart(s[..|s| - 1]);
    }
  }

  /** The first character alone rules out every alternative of the pattern. */
  lemma NotAColourStart(s: string)
    requires |s| > 0 && s[0] != '#' && s[0] != 'r' && s[0] != 'h'
    ensures !InColorLanguage(s)
  {
    assert !StartsWith(s, "rgb(") && !StartsWith(s, "rgba(") by {
      assert |s| < 4 || s[..4][0] == s[0];
      assert |s| < 5 || s[..5][0] == s[0];
    }
    assert !StartsWith(s, "hsl(") && !StartsWith(s, "hsla(") by {
      assert |s| < 4 || s[..4][0] == s[0];
      assert |s| < 5 || s[..5][0] == s[0];
    }
  }

  /**
   * `#` followed by hex digits is a colour exactly when there are 3, 4, 6
   * or 8 of them; in particular 5 or 7 hex digits are not a colour.
   */
  lemma HexColourLengths(digits: string)
    requires forall i :: 0 <= i < |digits| ==> IsHexDigit(digits[i])
    ensures MatchesColorPattern("#" + digits) <==> |digits| in {3, 4, 6, 8}
  {
    var s := "#" + digits;
    assert forall i :: 1 <= i < |s| ==> s[i] == digits[i - 1];
    assert !StartsWith(s, "rgb(") && !StartsWith(s, "rgba(") && !StartsWith(s, "hsl(") && !StartsWith(s, "hsla(");
    if |digits| > 0 {
      assert s[|s| - 1] == digits[|digits| - 1];
    }
  }

  /**
   * A value that is not a colour and mentions a gradient is a gradient even
   * when it also holds a URL; a value that mentions neither a gradient nor
   * `://` and starts like no colour is a plain string.
   */
  lemma GradientBeforeUrl(s: string)
    requires |s| > 0 && s[0] != '#' && s[0] != 'r' && s[0] != 'h'
    ensures Contains(s, "gradient(") ==> ResolveAttributeValueType(s) == Gradient
    ensures !Contains(s, "gradient(") && Contains(s, "://") ==> ResolveAttributeValueType(s) == Url
    ensures !Contains(s, "gradient(") && !Contains(s, "://") ==> ResolveAttributeValueType(s) == String
  {
    ColourStartsWithHashOrFunction(s);
  }

  /** The two leading arguments of `rgb(255, 0, 0)`. */
  lemma RgbLeadingArguments()
    ensures Argument("rgb(255, 0, 0)", 4) == Some(9)
    ensures Argument("rgb(255, 0, 0)", 9) == Some(12)
  {
    var s := "rgb(255, 0, 0)";
    assert RunEnd(s, 4, Digit) == 7;
    assert RunEnd(s, 7, Separator) == 9;
    assert RunEnd(s, 9, Digit) == 10;
    assert RunEnd(s, 10, Separator) == 12;
  }

  /** The last argument of `rgb(255, 0, 0)` and its closing parenthesis. */
  lemma RgbLastArgument()
    ensures Argument("rgb(255, 0, 0)", 12) == None
    ensures LastArgument("rgb(255, 0, 0)", 12)
  {
    var s := "rgb(255, 0, 0)";
    assert RunEnd(s, 12, Digit) == 13;
    assert RunEnd(s, 13, Separator) == 13;
    assert RunEnd(s, 12, Blank) == 12;
    assert RunEnd(s, 12, NumberChar) == 13;
  }

  /** `rgb(255, 0, 0)` is a colour. */
  lemma FunctionalExample()
    ensures ResolveAttributeValueType("rgb(255, 0, 0)") == Color
  {
    var s := "rgb(255, 0, 0)";
    RgbLeadingArguments();
    RgbLastArgument();
    assert StartsWith(s, "rgb(");
    assert Arguments(s, 12, 2);
    assert Arguments(s, 4, 0);
  }
}
