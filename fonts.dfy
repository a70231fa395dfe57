/**
 * Font normalisation, written twice in the source: `_get_settings` in
 * utils.py sanitises the name and coerces the size without bounding it;
 * `_apply_font_to_all_rows` in patches.py sanitises the name the same way
 * and also bounds the size to the range a spreadsheet accepts.
 */
module Fonts {
  import opened Wrappers
  import opened Text
  import opened PyValue

  const DefaultFontName: string := "Arial"
  const DefaultFontSize: int := 11
  const MaxFontSize: int := 409

  datatype Font = Font(name: string, size: int)

  /** The regex class `\w`, read as ASCII letters, digits and underscore. */
  predicate IsWordChar(c: char) {
    ('a' <= c <= 'z') || ('A' <= c <= 'Z') || ('0' <= c <= '9') || c == '_'
  }

  /** Characters kept by `re.sub(r'[^\w\s\-]', '', name)`. */
  predicate IsFontNameChar(c: char) {
    IsWordChar(c) || IsSpace(c) || c == '-'
  }

  predicate AllFontNameChars(s: string) {
    forall i :: 0 <= i < |s| ==> IsFontNameChar(s[i])
  }

  /** A name the sanitiser can produce: non-empty, unpadded, only kept characters. */
  predicate ValidFontName(n: string) {
    n != "" && Trimmed(n) && AllFontNameChars(n)
  }

  /** `re.sub(r'[^\w\s\-]', '', s)`: deletes every other character, keeping order. */
  function KeepFontChars(s: string): (r: string)
    ensures |r| <= |s| && AllFontNameChars(r)
    decreases |s|
  {
    if s == [] then []
    else
      var rest := KeepFontChars(s[1..]);
      if IsFontNameChar(s[0]) then [s[0]] + rest else rest
  }

  lemma {:induction false} KeepFontCharsAppend(a: string, b: string)
    ensures KeepFontChars(a + b) == KeepFontChars(a) + KeepFontChars(b)
    decreases |a|
  {
    if a == [] {
      assert a + b == b;
    } else {
      assert (a + b)[1..] == a[1..] + b;
      KeepFontCharsAppend(a[1..], b);
    }
  }

  /** A character outside word characters, whitespace and `-` is deleted. */
  lemma KeepFontCharsDrops(c: char)
    requires !IsFontNameChar(c)
    ensures KeepFontChars([c]) == []
  {
  }

  /** Text made only of kept characters passes through unchanged. */
  lemma {:induction false} KeepFontCharsKeeps(s: string)
    requires AllFontNameChars(s)
    ensures KeepFontChars(s) == s
    decreases |s|
  {
    if s != [] {
      KeepFontCharsKeeps(s[1..]);
      assert [s[0]] + s[1..] == s;
    }
  }

  /**
   * The name sanitisation of utils.py:96-106 and patches.py:220-231:
   * strip a non-empty name, use "Arial" if nothing is left, drop the
   * characters outside word/whitespace/hyphen, strip again, and use
   * "Arial" if that leaves nothing.
   */
  function SanitizeFontName(raw: string): (name: string)
    ensures ValidFontName(name)
    ensures name == DefaultFontName || name == Strip(KeepFontChars(raw))
  {
    var n1 := if raw != "" then Strip(raw) else raw;
    var n2 := if n1 == "" then DefaultFontName else n1;
    var n3 := Strip(KeepFontChars(n2));
    DefaultFontNameValid();
    StripKeepsChars(KeepFontChars(n2));
    StripFirstIrrelevant(raw);
    if n3 == "" then DefaultFontName else n3
  }

  lemma DefaultFontNameValid()
    ensures ValidFontName(DefaultFontName)
    ensures Strip(KeepFontChars(DefaultFontName)) == DefaultFontName
  {
    assert AllFontNameChars(DefaultFontName);
    KeepFontCharsKeeps(DefaultFontName);
    StripTrimmed(DefaultFontName);
  }

  /** Stripping removes characters only from the ends. */
  lemma StripKeepsChars(s: string)
    requires AllFontNameChars(s)
    ensures AllFontNameChars(Strip(s))
  {
    var a, c := StripDecompose(s);
    assert forall i :: 0 <= i < |Strip(s)| ==> Strip(s)[i] == s[|a| + i];
  }

  /** Stripping before the character filter does not change the stripped result. */
  lemma StripFirstIrrelevant(raw: string)
    ensures Strip(KeepFontChars(Strip(raw))) == Strip(KeepFontChars(raw))
  {
    var a, c := StripDecompose(raw);
    var m := Strip(raw);
    KeepFontCharsAppend(a + m, c);
    KeepFontCharsAppend(a, m);
    KeepFontCharsKeeps(a);
    KeepFontCharsKeeps(c);
    assert KeepFontChars(raw) == a + KeepFontChars(m) + c;
    StripPadded(a, KeepFontChars(m), c);
  }

  /** The sanitised name is the filtered, stripped raw name, or "Arial" when that is empty. */
  lemma SanitizeFontNameChar(raw: string)
    ensures SanitizeFontName(raw) ==
            if Strip(KeepFontChars(raw)) == "" then DefaultFontName else Strip(KeepFontChars(raw))
  {
    StripFirstIrrelevant(raw);
    if Strip(raw) == "" {
      KeepFontCharsKeeps(raw);
    }
  }

  /** A name that is already valid is left as it is. */
  lemma SanitizeValidName(n: string)
    requires ValidFontName(n)
    ensures SanitizeFontName(n) == n
  {
    KeepFontCharsKeeps(n);
    StripTrimmed(n);
  }

  /** Sanitising twice changes nothing. */
  lemma SanitizeFontNameIdempotent(raw: string)
    ensures SanitizeFontName(SanitizeFontName(raw)) == SanitizeFontName(raw)
  {
    SanitizeValidName(SanitizeFontName(raw));
  }

  /**
   * The size coercion of utils.py:89-93 (and patches.py:234-236):
   * `int(size) if size else 11`, with 11 when `int` raises.
   */
  function CoerceFontSize(v: Value): (n: int)
    ensures !Truthy(v) ==> n == DefaultFontSize
    ensures v.VInt? && v.i != 0 ==> n == v.i
    ensures v.VStr? && ParseInt(v.s).None? ==> n == DefaultFontSize
    ensures v.VStr? && v.s != "" && ParseInt(v.s).Some? ==> n == ParseInt(v.s).value
    ensures v == VBool(true) ==> n == 1
  {
    match v
    case VNone => DefaultFontSize
    case VStr(s) => if s == "" then DefaultFontSize else ParseInt(s).GetOr(DefaultFontSize)
    case VInt(i) => if i == 0 then DefaultFontSize else i
    case VBool(b) => if b then 1 else DefaultFontSize
  }

  /** The bound of patches.py:237-241: below 1 gives 11, above 409 gives 409. */
  function ClampFontSize(n: int): (r: int)
    ensures 1 <= r <= MaxFontSize
    ensures 1 <= n <= MaxFontSize ==> r == n
    ensures n < 1 ==> r == DefaultFontSize
    ensures n > MaxFontSize ==> r == MaxFontSize
  {
    if n < 1 then DefaultFontSize else if n > MaxFontSize then MaxFontSize else n
  }

  /** The size `_apply_font_to_all_rows` uses: coerced, then bounded. */
  function NormalizeFontSize(v: Value): (n: int)
    ensures 1 <= n <= MaxFontSize
  {
    ClampFontSize(CoerceFontSize(v))
  }

  /** The font `_apply_font_to_all_rows` writes to every row and cell. */
  function NormalizeFont(rawName: string, rawSize: Value): (f: Font)
    ensures ValidFontName(f.name) && 1 <= f.size <= MaxFontSize
  {
    Font(SanitizeFontName(rawName), NormalizeFontSize(rawSize))
  }

  /** The string form of any integer coerces back to that integer. */
  lemma CoerceFontSizeString(i: int)
    ensures CoerceFontSize(VStr(IntToString(i))) == i
  {
    ParseIntRoundTrip(i);
  }

  /** A padded size such as `" 12 "` coerces to its integer. */
  lemma CoerceFontSizePadded(a: string, i: int, c: string)
    requires AllSpace(a) && AllSpace(c)
    ensures CoerceFontSize(VStr(a + IntToString(i) + c)) == i
  {
    ParseIntPadded(a, i, c);
  }

  /** Bounding the size utils.py already coerced gives the same as bounding the raw value. */
  lemma NormalizeCoercedSize(v: Value)
    ensures NormalizeFontSize(VInt(CoerceFontSize(v))) == NormalizeFontSize(v)
  {
  }

  /*
   * Three worked examples. The inputs are parameters pinned by
   * `requires`, which keeps the verifier from unfolding the string
   * functions on literals all the way down.
   */

  lemma KeepCalibriExample(raw: string, calibri: string)
    requires raw == " Calibri! " && calibri == "Calibri"
    ensures KeepFontChars(raw) == " " + calibri + " "
  {
    assert raw == " " + calibri + ("!" + " ");
    KeepFontCharsAppend(" " + calibri, "!" + " ");
    KeepFontCharsAppend(" ", calibri);
    KeepFontCharsAppend("!", " ");
    assert AllFontNameChars(calibri);
    KeepFontCharsKeeps(calibri);
    KeepFontCharsKeeps(" ");
    assert KeepFontChars("!") == "";
  }

  lemma StripCalibriExample(calibri: string)
    requires calibri == "Calibri"
    ensures Strip(" " + calibri + " ") == calibri
  {
    StripPadded(" ", calibri, " ");
    StripTrimmed(calibri);
  }

  lemma SanitizeCalibriExample(raw: string, calibri: string)
    requires raw == " Calibri! " && calibri == "Calibri"
    ensures SanitizeFontName(raw) == calibri
  {
    KeepCalibriExample(raw, calibri);
    StripCalibriExample(calibri);
    SanitizeFontNameChar(raw);
  }

  /** `(" Calibri! ", 500)` gives Calibri at 409 points. */
  lemma NormalizeFontClampExample(raw: string, calibri: string)
    requires raw == " Calibri! " && calibri == "Calibri"
    ensures NormalizeFont(raw, VInt(500)) == Font(calibri, 409)
  {
    SanitizeCalibriExample(raw, calibri);
  }

  /** `("", 0)` gives Arial at 11 points. */
  lemma NormalizeFontDefaultExample()
    ensures NormalizeFont("", VInt(0)) == Font("Arial", 11)
  {
    DefaultFontNameValid();
  }

  lemma SanitizeTimesExample(name: string)
    requires name == "Times New Roman"
    ensures SanitizeFontName(name) == name
  {
    assert AllFontNameChars(name);
    KeepFontCharsKeeps(name);
    StripTrimmed(name);
    SanitizeFontNameChar(name);
  }

  lemma CoerceTwelveExample(twelve: string)
    requires twelve == "12"
    ensures NormalizeFontSize(VStr(twelve)) == 12
  {
    assert IntToString(12) == twelve by { assert Decimal(1) == "1"; }
    CoerceFontSizeString(12);
  }

  /** `("Times New Roman", "12")` gives Times New Roman at 12 points. */
  lemma NormalizeFontStringSizeExample(name: string, twelve: string)
    requires name == "Times New Roman" && twelve == "12"
    ensures NormalizeFont(name, VStr(twelve)) == Font(name, 12)
  {
    SanitizeTimesExample(name);
    CoerceTwelveExample(twelve);
  }
}
