/** `cfg_parseres` (cfg.c lines 289-352): the `-z` display resolution
    argument, either the number of a built-in mode or `WxH` / `WxH,D`. */
module Resolution {
  import opened Options
  import opened Text
  import opened Seqs

  /** A display mode: width, height and colour depth in bits per pixel. */
  datatype Mode = Mode(x: int, y: int, depth: int)

  /** The built-in modes, in the order of `res_x`, `res_y` and `res_d`. */
  const Builtins: seq<Mode> := [
    Mode(320, 200, 8), Mode(640, 480, 8), Mode(320, 240, 16), Mode(1024, 768, 8),
    Mode(1680, 1050, 8), Mode(800, 400, 16), Mode(1600, 1200, 32), Mode(3280, 1200, 32)]

  /** The outcome: a mode, or the message `cfg_init` prints before listing
      the built-in modes and exiting (the empty message asks for the list
      alone). */
  datatype ParsedRes = Chosen(mode: Mode) | Rejected(msg: string)

  const BadString := "Bad resolution string."
  const NumberOutOfRange := "Resolution number out of range."
  const BadDepth := "Color depth must be 8, 16, 24 or 32"
  const XTooSmall := "X resolution is too small."
  const YTooSmall := "Y resolution is too small."

  /** A mode the display code accepts. */
  predicate ValidMode(m: Mode) {
    (m.depth == 8 || m.depth == 16 || m.depth == 24 || m.depth == 32) && m.x >= 320 && m.y >= 200
  }

  /** One `%d` conversion: white space, an optional sign and at least one
      digit. Returns the value and the rest of the text, or `None` on a
      matching failure. */
  function ScanInt(s: string): Option<(int, string)> {
    ScanSigned(LStrip(s))
  }

  function ScanSigned(t: string): Option<(int, string)> {
    if t != [] && t[0] == '-' then
      match ScanDigits(t[1..])
      case None => None
      case Some((v, rest)) => Some((0 - v, rest))
    else if t != [] && t[0] == '+' then ScanDigits(t[1..])
    else ScanDigits(t)
  }

  /** The longest run of digits, which must not be empty. */
  function ScanDigits(u: string): Option<(int, string)> {
    var ds := DigitPrefix(u);
    if ds == [] then None else Some((DigitsValue(ds), u[|ds|..]))
  }

  /** What `sscanf(res, "%d%*1c%d%*1c%d", ...)` reports: how many numbers
      it stored, and those numbers (0 where none was stored). Each `%*1c`
      consumes any one character and fails only at the end of the text. A
      string with no number at all yields 0 or `EOF`, which the source
      treats alike, so both are 0 here. */
  datatype Scanned = Scanned(count: nat, x: int, y: int, d: int)

  function ScanRes(s: string): (r: Scanned)
    ensures r.count <= 3
  {
    match ScanInt(s)
    case None => Scanned(0, 0, 0, 0)
    case Some((x, r1)) =>
      if r1 == [] then Scanned(1, x, 0, 0)
      else match ScanInt(r1[1..])
        case None => Scanned(1, x, 0, 0)
        case Some((y, r2)) =>
          if r2 == [] then Scanned(2, x, y, 0)
          else match ScanInt(r2[1..])
            case None => Scanned(2, x, y, 0)
            case Some((d, _)) => Scanned(3, x, y, d)
  }

  /** `cfg_parseres`. No argument selects built-in mode 0; a lone number
      selects a built-in mode; a width and height, with an optional depth
      that defaults to 8, are checked for depth first, then width, then
      height. */
  function ParseRes(res: Option<string>): (r: ParsedRes)
    ensures res.None? ==> r == Chosen(Builtins[0])
    ensures r.Chosen? ==> ValidMode(r.mode)
    ensures r.Rejected? ==> r.msg in {BadString, NumberOutOfRange, "", BadDepth, XTooSmall, YTooSmall}
  {
    match res
    case None => Chosen(Builtins[0])
    case Some(s) =>
      var sc := ScanRes(s);
      if sc.count < 1 then Rejected(BadString)
      else if sc.count == 1 then
        if 0 <= sc.x < |Builtins| then Chosen(BuiltinIsValid(sc.x))
        else if sc.x < 0 then Rejected("")
        else Rejected(NumberOutOfRange)
      else
        var d := if sc.count == 2 then 8 else sc.d;
        if !(d == 8 || d == 16 || d == 24 || d == 32) then Rejected(BadDepth)
        else if sc.x < 320 then Rejected(XTooSmall)
        else if sc.y < 200 then Rejected(YTooSmall)
        else Chosen(Mode(sc.x, sc.y, d))
  }

  /** Built-in mode `i`, which the display code accepts. */
  function BuiltinIsValid(i: nat): (m: Mode)
    requires i < |Builtins|
    ensures m == Builtins[i] && ValidMode(m)
  {
    Builtins[i]
  }

  // ---------------------------------------------------------------------
  //  Reading numbers back
  // ---------------------------------------------------------------------

  lemma {:induction false} DigitPrefixStops(ds: string, rest: string)
    requires forall k :: 0 <= k < |ds| ==> IsDigit(ds[k])
    requires rest == [] || !IsDigit(rest[0])
    ensures DigitPrefix(ds + rest) == ds
  {
    if ds != [] {
      DigitPrefixStops(ds[1..], rest);
      assert (ds + rest)[1..] == ds[1..] + rest;
    }
  }

  lemma ScanDigitsStops(ds: string, rest: string)
    requires ds != [] && forall k :: 0 <= k < |ds| ==> IsDigit(ds[k])
    requires rest == [] || !IsDigit(rest[0])
    ensures ScanDigits(ds + rest) == Some((DigitsValue(ds), rest))
  {
    DigitPrefixStops(ds, rest);
    assert (ds + rest)[|ds|..] == rest;
  }

  /** `%d` reads a run of digits that is followed by a non-digit or by the
      end of the text. */
  lemma ScanIntDigits(ds: string, rest: string)
    requires ds != [] && forall k :: 0 <= k < |ds| ==> IsDigit(ds[k])
    requires rest == [] || !IsDigit(rest[0])
    ensures ScanInt(ds + rest) == Some((DigitsValue(ds), rest))
  {
    assert (ds + rest)[0] == ds[0];
    ScanIntAtDigit(ds + rest);
    ScanDigitsStops(ds, rest);
  }

  /** Text that starts with a digit has no white space or sign to skip. */
  lemma ScanIntAtDigit(s: string)
    requires s != [] && IsDigit(s[0])
    ensures ScanInt(s) == ScanDigits(s)
  {
    assert LStrip(s) == s;
  }

  /** `%d` reads back a decimal number that is followed by a non-digit or
      by the end of the text. */
  lemma ScanIntDecimal(n: nat, rest: string)
    requires rest == [] || !IsDigit(rest[0])
    ensures ScanInt(Decimal(n) + rest) == Some((n, rest))
  {
    ScanIntDigits(Decimal(n), rest);
    DecimalValue(n);
  }

  lemma ScanIntNegative(n: nat)
    ensures ScanInt("-" + Decimal(n)) == Some((0 - n, []))
  {
    var ds := Decimal(n);
    var s := "-" + ds;
    assert LStrip(s) == s;
    assert s[1..] == ds + [];
    ScanDigitsStops(ds, []);
    DecimalValue(n);
  }

  // ---------------------------------------------------------------------
  //  What the accepted spellings select
  // ---------------------------------------------------------------------

  /** Without a `-z` (`--resolution`) option, `disp_res` stays `NULL` and the mode is
      320x200 at 8 bits per pixel. */
  lemma DefaultMode()
    ensures ParseRes(None) == Chosen(Mode(320, 200, 8))
  {
  }

  /** A lone number selects that built-in mode when it is below 8, and is
      rejected with "Resolution number out of range." otherwise. */
  lemma BuiltinNumber(n: nat)
    ensures n < |Builtins| ==> ParseRes(Some(Decimal(n))) == Chosen(Builtins[n])
    ensures n >= |Builtins| ==> ParseRes(Some(Decimal(n))) == Rejected(NumberOutOfRange)
  {
    var ds := Decimal(n);
    ScanIntDecimal(n, []);
    assert ds + [] == ds;
    LoneNumber(ds, n);
    ParseOne(ds, n);
  }

  /** A lone negative number is rejected with an empty message, which
      asks for the mode list alone. */
  lemma NegativeNumber(n: nat)
    requires n > 0
    ensures ParseRes(Some("-" + Decimal(n))) == Rejected("")
  {
    ScanIntNegative(n);
    LoneNumber("-" + Decimal(n), 0 - n);
    ParseOne("-" + Decimal(n), 0 - n);
  }

  lemma LoneNumber(s: string, v: int)
    requires ScanInt(s) == Some((v, []))
    ensures ScanRes(s) == Scanned(1, v, 0, 0)
  {
  }

  /** A lone number: a built-in mode, the mode list alone, or out of
      range. */
  lemma ParseOne(s: string, v: int)
    requires ScanRes(s) == Scanned(1, v, 0, 0)
    ensures ParseRes(Some(s)) ==
      if 0 <= v < |Builtins| then Chosen(Builtins[v])
      else if v < 0 then Rejected("")
      else Rejected(NumberOutOfRange)
  {
  }

  lemma ScanTwo(s: string, x: int, y: int, r1: string)
    requires ScanInt(s) == Some((x, r1)) && r1 != [] && ScanInt(r1[1..]) == Some((y, []))
    ensures ScanRes(s) == Scanned(2, x, y, 0)
  {
  }

  lemma ScanThree(s: string, x: int, y: int, d: int, r1: string, r2: string)
    requires ScanInt(s) == Some((x, r1)) && r1 != [] && ScanInt(r1[1..]) == Some((y, r2))
    requires r2 != [] && ScanInt(r2[1..]) == Some((d, []))
    ensures ScanRes(s) == Scanned(3, x, y, d)
  {
  }

  /** A width and a height without a depth. */
  lemma ParseTwo(s: string, x: int, y: int)
    requires ScanRes(s) == Scanned(2, x, y, 0)
    ensures var r := ParseRes(Some(s));
      (r.Chosen? <==> ValidMode(Mode(x, y, 8))) &&
      (r.Chosen? ==> r.mode == Mode(x, y, 8)) &&
      (x < 320 ==> r == Rejected(XTooSmall)) &&
      (x >= 320 && y < 200 ==> r == Rejected(YTooSmall))
  {
  }

  /** A width, a height and a depth. */
  lemma ParseThree(s: string, x: int, y: int, d: int)
    requires ScanRes(s) == Scanned(3, x, y, d)
    ensures var r := ParseRes(Some(s));
      (r.Chosen? <==> ValidMode(Mode(x, y, d))) &&
      (r.Chosen? ==> r.mode == Mode(x, y, d)) &&
      (!(d == 8 || d == 16 || d == 24 || d == 32) ==> r == Rejected(BadDepth)) &&
      ((d == 8 || d == 16 || d == 24 || d == 32) && x < 320 ==> r == Rejected(XTooSmall)) &&
      ((d == 8 || d == 16 || d == 24 || d == 32) && x >= 320 && y < 200 ==> r == Rejected(YTooSmall))
  {
  }

  /** `W<sep>H`, for instance `640x480`: the depth defaults to 8, and the
      mode is chosen exactly when it is one the display code accepts;
      otherwise the width is reported before the height. */
  lemma WidthHeight(w: nat, h: nat, sep: char)
    requires !IsDigit(sep)
    ensures var r := ParseRes(Some(Decimal(w) + [sep] + Decimal(h)));
      (r.Chosen? <==> ValidMode(Mode(w, h, 8))) &&
      (r.Chosen? ==> r.mode == Mode(w, h, 8)) &&
      (w < 320 ==> r == Rejected(XTooSmall)) &&
      (w >= 320 && h < 200 ==> r == Rejected(YTooSmall))
  {
    var dh := Decimal(h);
    var tail := [sep] + dh;
    assert tail[0] == sep && tail[1..] == dh + [];
    ScanIntDecimal(w, tail);
    ScanIntDecimal(h, []);
    ConcatAssoc(Decimal(w), [sep], dh);
    ScanTwo(Decimal(w) + tail, w, h, tail);
    ParseTwo(Decimal(w) + tail, w, h);
  }

  predicate Digits(ds: string) {
    ds != [] && forall k :: 0 <= k < |ds| ==> IsDigit(ds[k])
  }

  /** Three runs of digits with one separator character between them. */
  lemma ScanThreeRuns(a: string, b: string, c: string, sep: char, sep': char)
    requires Digits(a) && Digits(b) && Digits(c) && !IsDigit(sep) && !IsDigit(sep')
    ensures ScanRes(a + [sep] + b + [sep'] + c) == Scanned(3, DigitsValue(a), DigitsValue(b), DigitsValue(c))
  {
    var tail := [sep'] + c;
    assert tail[0] == sep' && tail[1..] == c + [];
    var mid := [sep] + (b + tail);
    assert mid[0] == sep && mid[1..] == b + tail;
    ScanIntDigits(a, mid);
    ScanIntDigits(b, tail);
    ScanIntDigits(c, []);
    var s := a + [sep] + b + [sep'] + c;
    assert s == a + mid by {
      ConcatAssoc(a + [sep] + b, [sep'], c);
      ConcatAssoc(a + [sep], b, tail);
      ConcatAssoc(a, [sep], b + tail);
    }
    ScanThree(s, DigitsValue(a), DigitsValue(b), DigitsValue(c), mid, tail);
  }

  /** `W<sep>H<sep'>D`, for instance `640x480,16`: the depth is checked
      first, then the width, then the height, and the mode is chosen
      exactly when all three pass. */
  lemma WidthHeightDepth(w: nat, h: nat, d: nat, sep: char, sep': char)
    requires !IsDigit(sep) && !IsDigit(sep')
    ensures var r := ParseRes(Some(Decimal(w) + [sep] + Decimal(h) + [sep'] + Decimal(d)));
      (r.Chosen? <==> ValidMode(Mode(w, h, d))) &&
      (r.Chosen? ==> r.mode == Mode(w, h, d)) &&
      (!(d == 8 || d == 16 || d == 24 || d == 32) ==> r == Rejected(BadDepth)) &&
      ((d == 8 || d == 16 || d == 24 || d == 32) && w < 320 ==> r == Rejected(XTooSmall)) &&
      ((d == 8 || d == 16 || d == 24 || d == 32) && w >= 320 && h < 200 ==> r == Rejected(YTooSmall))
  {
    DecimalValue(w);
    DecimalValue(h);
    DecimalValue(d);
    ScanThreeRuns(Decimal(w), Decimal(h), Decimal(d), sep, sep');
    ParseThree(Decimal(w) + [sep] + Decimal(h) + [sep'] + Decimal(d), w, h, d);
  }

  /** A string that does not start with a number is rejected. */
  lemma NoNumberRejected(s: string)
    requires ScanInt(s).None?
    ensures ParseRes(Some(s)) == Rejected(BadString)
  {
  }
}
