/**
 * The command-line front end (`cli/CLI.java`): the coordinate validator and the decisions
 * `run` takes from the shape of its arguments. Printing is not modelled; `run` is a function
 * from the argument list to the outcome it reaches.
 */
module CLI {
  import opened Lang

  /** The suppliers `-s` accepts, after lower-casing. */
  const SUPPLIERS: seq<string> := ["dave", "eric", "jeff"]

  /** `\s` in a Java pattern: space, tab, newline, vertical tab, form feed, carriage return. */
  predicate IsSpace(c: char)
  {
    c == ' ' || c == '\t' || c == '\n' || c == '\U{B}' || c == '\U{C}' || c == '\r'
  }

  /** `\d` in a Java pattern: an ASCII digit. */
  predicate IsDigit(c: char)
  {
    '0' <= c <= '9'
  }

  predicate AllSpaces(s: string)
  {
    forall k :: 0 <= k < |s| ==> IsSpace(s[k])
  }

  predicate AllDigits(s: string)
  {
    forall k :: 0 <= k < |s| ==> IsDigit(s[k])
  }

  /**
   * The grammar of `-?\d+(\.\d+)?`: an optional minus, the whole part and an optional
   * fraction, both non-empty digit strings.
   */
  datatype Number = Number(negative: bool, whole: string, fraction: Nullable<string>)

  /**
   * The grammar of the whole validation pattern
   * `(\s*-?\d+(\.\d+)?)(\s*,\s*-?\d+(\.\d+)?)`: leading blanks, the latitude, blanks, a
   * comma, blanks, the longitude.
   */
  datatype Coordinates = Coordinates(lead: string, latitude: Number, beforeComma: string,
                                     afterComma: string, longitude: Number)

  predicate NumberWellFormed(n: Number)
  {
    |n.whole| > 0 && AllDigits(n.whole) && (n.fraction.Some? ==> |n.fraction.value| > 0 && AllDigits(n.fraction.value))
  }

  predicate WellFormed(c: Coordinates)
  {
    && AllSpaces(c.lead) && AllSpaces(c.beforeComma) && AllSpaces(c.afterComma)
    && NumberWellFormed(c.latitude) && NumberWellFormed(c.longitude)
  }

  function FractionText(fraction: Nullable<string>): string
  {
    if fraction.Some? then "." + fraction.value else ""
  }

  function RenderNumber(n: Number): string
  {
    (if n.negative then "-" else "") + (n.whole + FractionText(n.fraction))
  }

  /** The text a parse tree of the pattern spells out. */
  function Render(c: Coordinates): string
  {
    c.lead + RenderNumber(c.latitude) + c.beforeComma + "," + c.afterComma + RenderNumber(c.longitude)
  }

  /** The length of the longest all-blank prefix of `s`. */
  function LeadingSpaces(s: string): (n: nat)
    ensures n <= |s|
  {
    if s == [] || !IsSpace(s[0]) then 0 else 1 + LeadingSpaces(s[1..])
  }

  /** The blank prefix is all blanks, and is followed by no blank. */
  lemma {:induction false} LeadingSpacesSpan(s: string)
    ensures AllSpaces(s[..LeadingSpaces(s)])
    ensures LeadingSpaces(s) < |s| ==> !IsSpace(s[LeadingSpaces(s)])
  {
    if s != [] && IsSpace(s[0]) {
      LeadingSpacesSpan(s[1..]);
      var n := LeadingSpaces(s);
      assert forall k | 1 <= k < n :: s[..n][k] == s[1..][..n - 1][k - 1];
    }
  }

  /** The length of the longest all-digit prefix of `s`. */
  function LeadingDigits(s: string): (n: nat)
    ensures n <= |s|
  {
    if s == [] || !IsDigit(s[0]) then 0 else 1 + LeadingDigits(s[1..])
  }

  /** The digit prefix is all digits, and is followed by no digit. */
  lemma {:induction false} LeadingDigitsSpan(s: string)
    ensures AllDigits(s[..LeadingDigits(s)])
    ensures LeadingDigits(s) < |s| ==> !IsDigit(s[LeadingDigits(s)])
  {
    if s != [] && IsDigit(s[0]) {
      LeadingDigitsSpan(s[1..]);
      var n := LeadingDigits(s);
      assert forall k | 1 <= k < n :: s[..n][k] == s[1..][..n - 1][k - 1];
    }
  }

  /** `(\.\d+)?`: a dot and at least one digit, or nothing when no dot follows. */
  function ScanFraction(s: string): Nullable<(Nullable<string>, string)>
  {
    if |s| > 0 && s[0] == '.' then
      var f := LeadingDigits(s[1..]);
      if f == 0 then Null else Some((Some(s[1..][..f]), s[1..][f..]))
    else Some((Null, s))
  }

  /** `\d+(\.\d+)?` at the start of `s`, and what follows it. */
  function ScanUnsigned(negative: bool, s: string): Nullable<(Number, string)>
  {
    var w := LeadingDigits(s);
    if w == 0 then Null
    else
      match ScanFraction(s[w..])
      case Null => Null
      case Some((fraction, rest)) => Some((Number(negative, s[..w], fraction), rest))
  }

  /**
   * `-?\d+(\.\d+)?` at the start of `s`, as much of it as the pattern can take, and what follows.
   * A dot not followed by a digit can never be matched by what comes next in the pattern
   * (blanks, a comma or the end), so it fails the scan at once.
   */
  function ScanNumber(s: string): Nullable<(Number, string)>
  {
    if |s| > 0 && s[0] == '-' then ScanUnsigned(true, s[1..]) else ScanUnsigned(false, s)
  }

  /** `\s*,\s*-?\d+(\.\d+)?` up to the end of `s`: the blanks around the comma and the longitude. */
  function ScanLongitude(s: string): Nullable<(string, string, Number)>
  {
    var b := LeadingSpaces(s);
    if b == |s| || s[b] != ',' then Null
    else
      var r := s[b + 1..];
      var c := LeadingSpaces(r);
      match ScanNumber(r[c..])
      case Null => Null
      case Some((longitude, rest)) => if rest == [] then Some((s[..b], r[..c], longitude)) else Null
  }

  /**
   * `String.matches` with the validation pattern, as a scan: each part takes all it can, which
   * loses nothing, since no later part of the pattern can start with what an earlier one gave up.
   * Soundness: whatever it accepts is a well-formed parse tree's text, character for character.
   */
  function Scan(s: string): (r: Nullable<Coordinates>)
    ensures r.Some? ==> WellFormed(r.value) && Render(r.value) == s
  {
    var a := LeadingSpaces(s);
    match ScanNumber(s[a..])
    case Null => Null
    case Some((latitude, rest)) =>
      match ScanLongitude(rest)
      case Null => Null
      case Some((beforeComma, afterComma, longitude)) =>
        var c := Coordinates(s[..a], latitude, beforeComma, afterComma, longitude);
        LeadingSpacesSpan(s);
        RenderScanNumber(s[a..]);
        RenderScanLongitude(rest, beforeComma, afterComma, longitude);
        SplitAt(s, a);
        RenderNested(c);
        Some(c)
  }

  /**
   * `s.matches(VALIDATION_REGEX)`: the whole string is one `lat,lon` pair. The pattern's
   * language is exactly the texts of well-formed parse trees.
   */
  predicate Matches(s: string)
    ensures Matches(s) <==> exists c :: WellFormed(c) && Render(c) == s
  {
    ScanComplete(s);
    Scan(s).Some?
  }

  /** `parametersAreValid`: both coordinates are texts of the pattern's grammar. */
  predicate ParametersAreValid(pickup: string, dropoff: string)
    ensures ParametersAreValid(pickup, dropoff) <==>
              (exists c :: WellFormed(c) && Render(c) == pickup) && (exists c :: WellFormed(c) && Render(c) == dropoff)
  {
    Matches(pickup) && Matches(dropoff)
  }

  lemma {:induction false} LeadingSpacesOf(blanks: string, rest: string)
    requires AllSpaces(blanks) && (rest == [] || !IsSpace(rest[0]))
    ensures LeadingSpaces(blanks + rest) == |blanks|
  {
    if blanks != [] {
      assert (blanks + rest)[1..] == blanks[1..] + rest;
      LeadingSpacesOf(blanks[1..], rest);
    } else {
      assert blanks + rest == rest;
    }
  }

  lemma {:induction false} LeadingDigitsOf(digits: string, rest: string)
    requires AllDigits(digits) && (rest == [] || !IsDigit(rest[0]))
    ensures LeadingDigits(digits + rest) == |digits|
  {
    if digits != [] {
      assert (digits + rest)[1..] == digits[1..] + rest;
      LeadingDigitsOf(digits[1..], rest);
    } else {
      assert digits + rest == rest;
    }
  }

  /** A fraction followed by something that cannot continue it scans back to itself. */
  lemma ScanRenderFraction(fraction: Nullable<string>, rest: string)
    requires fraction.Some? ==> |fraction.value| > 0 && AllDigits(fraction.value)
    requires rest == [] || (!IsDigit(rest[0]) && rest[0] != '.')
    ensures ScanFraction(FractionText(fraction) + rest) == Some((fraction, rest))
  {
    if fraction.Some? {
      var f := fraction.value;
      var s := FractionText(fraction) + rest;
      assert s[1..] == f + rest;
      LeadingDigitsOf(f, rest);
      assert s[1..][..|f|] == f && s[1..][|f|..] == rest;
    } else {
      assert FractionText(fraction) + rest == rest;
    }
  }

  /** A well-formed number followed by something that cannot continue it scans back to itself. */
  lemma ScanRenderNumber(n: Number, rest: string)
    requires NumberWellFormed(n)
    requires rest == [] || (!IsDigit(rest[0]) && rest[0] != '.')
    ensures ScanNumber(RenderNumber(n) + rest) == Some((n, rest))
  {
    var tail := FractionText(n.fraction) + rest;
    var t := n.whole + tail;
    assert ScanUnsigned(n.negative, t) == Some((n, rest)) by {
      assert tail == [] || !IsDigit(tail[0]);
      LeadingDigitsOf(n.whole, tail);
      assert t[..|n.whole|] == n.whole && t[|n.whole|..] == tail;
      ScanRenderFraction(n.fraction, rest);
    }
    var sign := if n.negative then "-" else "";
    assert RenderNumber(n) + rest == sign + t by {
      Associative(n.whole, FractionText(n.fraction), rest);
      Associative(sign, n.whole + FractionText(n.fraction), rest);
    }
    if n.negative {
      assert (sign + t)[0] == '-' && (sign + t)[1..] == t;
    } else {
      assert sign + t == t && t[0] == n.whole[0];
    }
  }

  /** One unfolding of the longitude scanner, from its pieces. */
  lemma ScanLongitudeOf(s: string, b: nat, r: string, c: nat, longitude: Number)
    requires b < |s| && LeadingSpaces(s) == b && s[b] == ',' && s[b + 1..] == r
    requires c <= |r| && LeadingSpaces(r) == c && ScanNumber(r[c..]) == Some((longitude, []))
    ensures ScanLongitude(s) == Some((s[..b], r[..c], longitude))
  {
    var scanned := ScanNumber(r[c..]);
    assert scanned.value.1 == [];
  }

  /** Blanks and a comma in front of `r`: the longitude scanner's first cut falls at the comma. */
  lemma CommaCut(beforeComma: string, r: string)
    requires AllSpaces(beforeComma)
    ensures var s := beforeComma + "," + r;
            && LeadingSpaces(s) == |beforeComma| && |beforeComma| < |s| && s[|beforeComma|] == ','
            && s[..|beforeComma|] == beforeComma && s[|beforeComma| + 1..] == r
  {
    var s := beforeComma + "," + r;
    assert s == beforeComma + ([','] + r);
    LeadingSpacesOf(beforeComma, [','] + r);
  }

  /** Blanks in front of a well-formed number: the second cut falls at the number. */
  lemma BlanksCut(afterComma: string, longitude: Number)
    requires AllSpaces(afterComma) && NumberWellFormed(longitude)
    ensures var r := afterComma + RenderNumber(longitude);
            && LeadingSpaces(r) == |afterComma|
            && r[..|afterComma|] == afterComma && r[|afterComma|..] == RenderNumber(longitude)
  {
    var lon := RenderNumber(longitude);
    assert lon[0] == '-' || lon[0] == longitude.whole[0];
    LeadingSpacesOf(afterComma, lon);
  }

  /** The blanks, the comma and a well-formed longitude scan back to themselves. */
  lemma ScanRenderLongitude(beforeComma: string, afterComma: string, longitude: Number)
    requires AllSpaces(beforeComma) && AllSpaces(afterComma) && NumberWellFormed(longitude)
    ensures ScanLongitude(beforeComma + "," + afterComma + RenderNumber(longitude))
            == Some((beforeComma, afterComma, longitude))
  {
    var lon := RenderNumber(longitude);
    var r := afterComma + lon;
    var s := beforeComma + "," + r;
    CommaCut(beforeComma, r);
    BlanksCut(afterComma, longitude);
    ScanRenderNumber(longitude, []);
    AppendEmpty(lon);
    ScanLongitudeOf(s, |beforeComma|, r, |afterComma|, longitude);
    Associative(beforeComma + ",", afterComma, lon);
  }

  /** Completeness: every text the pattern's grammar produces is accepted, with its own parse. */
  lemma ScanRender(c: Coordinates)
    requires WellFormed(c)
    ensures Scan(Render(c)) == Some(c)
  {
    var lat := RenderNumber(c.latitude);
    var rest := c.beforeComma + "," + c.afterComma + RenderNumber(c.longitude);
    RenderNested(c);
    assert lat[0] == '-' || lat[0] == c.latitude.whole[0];
    assert (lat + rest)[0] == lat[0];
    LeadingSpacesOf(c.lead, lat + rest);
    AppendParts(c.lead, lat + rest);
    assert rest[0] == ',' || rest[0] == c.beforeComma[0];
    ScanRenderNumber(c.latitude, rest);
    ScanRenderLongitude(c.beforeComma, c.afterComma, c.longitude);
  }

  /** Whatever the fraction scanner accepts is spelled out exactly by what it returns. */
  lemma RenderScanFraction(s: string)
    requires ScanFraction(s).Some?
    ensures var (fraction, rest) := ScanFraction(s).value;
            (fraction.Some? ==> |fraction.value| > 0 && AllDigits(fraction.value))
            && FractionText(fraction) + rest == s
  {
    if |s| > 0 && s[0] == '.' {
      LeadingDigitsSpan(s[1..]);
      var f := LeadingDigits(s[1..]);
      SplitAt(s[1..], f);
      ConsTail(s);
      Associative(".", s[1..][..f], s[1..][f..]);
    }
  }

  /** Whatever the unsigned scanner accepts is a well-formed number, spelled out exactly. */
  lemma RenderScanUnsigned(negative: bool, t: string)
    requires ScanUnsigned(negative, t).Some?
    ensures var n := ScanUnsigned(negative, t).value.0;
            n.negative == negative && NumberWellFormed(n)
            && n.whole + FractionText(n.fraction) + ScanUnsigned(negative, t).value.1 == t
  {
    var w := LeadingDigits(t);
    LeadingDigitsSpan(t);
    RenderScanFraction(t[w..]);
    var (fraction, rest) := ScanFraction(t[w..]).value;
    SplitAt(t, w);
    Associative(t[..w], FractionText(fraction), rest);
  }

  /** Whatever the number scanner accepts is a well-formed number, spelled out exactly. */
  lemma RenderScanNumber(s: string)
    requires ScanNumber(s).Some?
    ensures NumberWellFormed(ScanNumber(s).value.0)
    ensures RenderNumber(ScanNumber(s).value.0) + ScanNumber(s).value.1 == s
  {
    var negative := |s| > 0 && s[0] == '-';
    var t := if negative then s[1..] else s;
    assert ScanNumber(s) == ScanUnsigned(negative, t);
    RenderScanUnsigned(negative, t);
    var (n, rest) := ScanUnsigned(negative, t).value;
    var sign := if negative then "-" else "";
    assert s == sign + t by {
      if negative { ConsTail(s); }
    }
    Associative(sign, n.whole + FractionText(n.fraction), rest);
  }

  /** Whatever the tail scanner accepts is the blanks, the comma and the longitude it returns. */
  lemma RenderScanLongitude(s: string, beforeComma: string, afterComma: string, longitude: Number)
    requires ScanLongitude(s) == Some((beforeComma, afterComma, longitude))
    ensures AllSpaces(beforeComma) && AllSpaces(afterComma) && NumberWellFormed(longitude)
    ensures beforeComma + "," + afterComma + RenderNumber(longitude) == s
  {
    var b := LeadingSpaces(s);
    var r := s[b + 1..];
    var c := LeadingSpaces(r);
    LongitudeCuts(s, beforeComma, afterComma, longitude);
    assert AllSpaces(beforeComma) by { LeadingSpacesSpan(s); }
    assert AllSpaces(afterComma) by { LeadingSpacesSpan(r); }
    assert NumberWellFormed(longitude) && RenderNumber(longitude) == r[c..] by {
      RenderScanNumber(r[c..]);
      AppendEmpty(RenderNumber(longitude));
    }
    Reassemble(s, b, c);
  }

  /** Where the tail scanner cuts its input: at the comma, and after the blanks that follow it. */
  lemma LongitudeCuts(s: string, beforeComma: string, afterComma: string, longitude: Number)
    requires ScanLongitude(s) == Some((beforeComma, afterComma, longitude))
    ensures var b := LeadingSpaces(s);
            && b < |s| && s[b] == ',' && beforeComma == s[..b]
            && var r := s[b + 1..];
               var c := LeadingSpaces(r);
               afterComma == r[..c] && ScanNumber(r[c..]) == Some((longitude, []))
  {
    var b := LeadingSpaces(s);
    assert b < |s| && s[b] == ',';
    var r := s[b + 1..];
    var c := LeadingSpaces(r);
    var scanned := ScanNumber(r[c..]);
    assert scanned.Some? && scanned.value.1 == [];
    assert ScanLongitude(s) == Some((s[..b], r[..c], scanned.value.0));
  }

  /** A text cut at a comma, and its tail cut again, is the concatenation of the pieces. */
  lemma Reassemble(s: string, b: nat, c: nat)
    requires b < |s| && s[b] == ',' && c <= |s[b + 1..]|
    ensures s[..b] + "," + s[b + 1..][..c] + s[b + 1..][c..] == s
  {
    var r := s[b + 1..];
    SplitAt(r, c);
    SplitAt(s, b);
    DropOne(s, b);
    Associative(s[..b], ",", r);
    Associative(s[..b] + ",", r[..c], r[c..]);
  }

  /** `Render` grouped from the right: the lead, then the latitude, then the tail. */
  lemma RenderNested(c: Coordinates)
    ensures Render(c) == c.lead + (RenderNumber(c.latitude) + (c.beforeComma + "," + c.afterComma + RenderNumber(c.longitude)))
  {
    var prefix := c.lead + RenderNumber(c.latitude);
    var (b, a, m) := (c.beforeComma, c.afterComma, RenderNumber(c.longitude));
    Associative(prefix, b, ",");
    Associative(prefix, b + ",", a);
    Associative(prefix, b + "," + a, m);
    Associative(c.lead, RenderNumber(c.latitude), b + "," + a + m);
  }

  /** Completeness, for any text: one produced by the grammar is accepted. */
  lemma ScanComplete(s: string)
    ensures (exists c :: WellFormed(c) && Render(c) == s) ==> Scan(s).Some?
  {
    if c :| WellFormed(c) && Render(c) == s {
      ScanRender(c);
    }
  }

  /** The coordinate pair of the usage example is accepted. */
  lemma ValidationAccepts()
    ensures Matches("51.470020,-0.454295")
  {
    var c := Coordinates("", Number(false, "51", Some("470020")), "", "", Number(true, "0", Some("454295")));
    assert Render(c) == "51.470020,-0.454295";
    ScanRender(c);
  }

  /** Blanks are allowed before each number and around the comma. */
  lemma ValidationAcceptsBlanks()
    ensures Matches(" 3 , -4.5")
  {
    var lat, lon := Number(false, "3", Null), Number(true, "4", Some("5"));
    var d := Coordinates(" ", lat, " ", " ", lon);
    assert RenderNumber(lat) == "3" && RenderNumber(lon) == "-4.5";
    assert Render(d) == " 3 , -4.5";
    ScanRender(d);
  }

  /** Every accepted text has a comma and ends in a digit. */
  lemma MatchedShape(s: string)
    requires Matches(s)
    ensures ',' in s && IsDigit(s[|s| - 1])
  {
    RenderedShape(Scan(s).value);
  }

  /** The text of a well-formed parse tree has a comma and ends in a digit. */
  lemma RenderedShape(c: Coordinates)
    requires WellFormed(c)
    ensures var s := Render(c); ',' in s && IsDigit(s[|s| - 1])
  {
    var s := Render(c);
    var head := c.lead + RenderNumber(c.latitude) + c.beforeComma;
    var lon := RenderNumber(c.longitude);
    assert s == head + "," + c.afterComma + lon;
    assert s[|head|] == ',';
    assert lon[|lon| - 1] == s[|s| - 1];
    if c.longitude.fraction.Some? {
      var f := c.longitude.fraction.value;
      assert lon[|lon| - 1] == f[|f| - 1];
    } else {
      assert lon[|lon| - 1] == c.longitude.whole[|c.longitude.whole| - 1];
    }
  }

  /** A lone number, without a comma and a second number, is refused. */
  lemma RejectsLoneNumber()
    ensures !Matches("50")
  {
    if Matches("50") {
      MatchedShape("50");
    }
  }

  /** A trailing blank is refused. */
  lemma RejectsTrailingBlank()
    ensures !Matches("1,2 ")
  {
    if Matches("1,2 ") {
      MatchedShape("1,2 ");
    }
  }

  /** A dot without digits after it is refused. */
  lemma RejectsBareDot()
    ensures !Matches("51.,0")
  {
    assert LeadingSpaces("51.,0") == 0;
    assert LeadingDigits("51.,0") == 2;
    assert LeadingDigits(",0") == 0;
    assert ScanFraction(".,0") == Null;
  }

  /** `String.toLowerCase` on the ASCII letters; every other character is kept. */
  function ToLowerCase(s: string): (r: string)
    ensures |r| == |s| && forall k :: 0 <= k < |s| ==> r[k] == LowerAscii(s[k])
  {
    if s == [] then [] else [LowerAscii(s[0])] + ToLowerCase(s[1..])
  }

  function LowerAscii(c: char): char
  {
    if 'A' <= c <= 'Z' then (c as int + 32) as char else c
  }

  /** The value of a string of decimal digits. */
  function DigitsValue(digits: string): nat
    requires AllDigits(digits)
  {
    if digits == [] then 0
    else DigitsValue(digits[..|digits| - 1]) * 10 + (digits[|digits| - 1] as int - '0' as int)
  }

  /**
   * `Integer.parseInt`: an optional sign and at least one digit, with the value in range;
   * anything else is a `NumberFormatException`, here `Null`.
   */
  function ParseInt(s: string): (r: Nullable<int32>)
    ensures r.Some? ==> |s| > 0 && (s[0] == '-' || s[0] == '+' || IsDigit(s[0])) && AllDigits(s[1..])
    ensures r.Some? ==> (r.value < 0 <==> s[0] == '-' && r.value != 0)
  {
    if s == [] then Null
    else
      var digits := if s[0] == '-' || s[0] == '+' then s[1..] else s;
      if digits == [] || !AllDigits(digits) then Null
      else
        var value := if s[0] == '-' then 0 - DigitsValue(digits) else DigitsValue(digits);
        if INT_MIN <= value <= INT_MAX then Some(value as int32) else Null
  }

  /** What `parseInt` refuses besides out-of-range values: nothing, a bare sign, a stray character. */
  lemma ParseIntRejects()
    ensures ParseInt("") == Null && ParseInt("-") == Null && ParseInt("4a") == Null && ParseInt(" 4") == Null
    ensures ParseInt("+7") == Some(7)
  {
    assert !AllDigits("4a") by { assert !IsDigit("4a"[1]); }
    assert !AllDigits(" 4") by { assert !IsDigit(" 4"[0]); }
    assert "+7"[1..] == "7";
  }

  /** The decimal digits of `n`, without leading zeros. */
  function Decimal(n: nat): (digits: string)
    ensures |digits| > 0 && AllDigits(digits)
  {
    if n < 10 then [('0' as int + n) as char]
    else Decimal(n / 10) + [('0' as int + n % 10) as char]
  }

  lemma {:induction false} DecimalValue(n: nat)
    ensures DigitsValue(Decimal(n)) == n
  {
    if n >= 10 {
      DecimalValue(n / 10);
      var digits := Decimal(n);
      assert digits[..|digits| - 1] == Decimal(n / 10);
    }
  }

  /** The decimal form of any integer: a minus for negatives, then the digits. */
  function DecimalText(n: int): string
  {
    if n < 0 then "-" + Decimal(-n) else Decimal(n)
  }

  /**
   * `parseInt` reads back every integer its decimal form spells when it fits in an int, and
   * throws `NumberFormatException` for every one that does not.
   */
  lemma ParseIntDecimalText(n: int)
    ensures ParseInt(DecimalText(n)) == if INT_MIN <= n <= INT_MAX then Some(n as int32) else Null
  {
    var s := DecimalText(n);
    if n < 0 {
      DecimalValue(-n);
      assert s[1..] == Decimal(-n);
    } else {
      DecimalValue(n);
    }
  }

  /** Which service operation `run` ends in, with the arguments it passes. */
  datatype Call =
    | PriceDescending(supplier: string, pickup: string, dropoff: string, passengersNo: Nullable<int32>)
    | CheapestSupplier(pickup: string, dropoff: string, passengersNo: Nullable<int32>)

  /** An exception `run` does not catch: it only catches `IOException`. */
  datatype Crash = IndexOutOfBounds | NumberFormat

  /** Where `run` stops. */
  datatype Outcome =
    | NoArguments
    | MissingCoordinates
    | NoSuchSupplier
    | InvalidCoordinates
    | Dispatched(call: Call)
    | Crashed(crash: Crash)

  /** `run` from `args[0].equals("-s")` on: supplier, coordinates, then the optional fifth argument. */
  function SupplierMode(args: seq<string>): (r: Outcome)
    requires |args| >= 2
    ensures r == NoSuchSupplier <==> ToLowerCase(args[1]) !in SUPPLIERS
    ensures r == Crashed(IndexOutOfBounds) <==> ToLowerCase(args[1]) in SUPPLIERS && |args| < 4
    ensures r == InvalidCoordinates <==> ToLowerCase(args[1]) in SUPPLIERS && |args| >= 4 && !ParametersAreValid(args[2], args[3])
    ensures r == Crashed(NumberFormat) <==>
              ToLowerCase(args[1]) in SUPPLIERS && |args| == 5 && ParametersAreValid(args[2], args[3]) && ParseInt(args[4]).Null?
    ensures r.Dispatched? ==>
              && r.call.PriceDescending? && r.call.supplier == ToLowerCase(args[1]) && r.call.supplier in SUPPLIERS
              && |args| >= 4 && ParametersAreValid(args[2], args[3])
              && r.call.pickup == args[2] && r.call.dropoff == args[3]
              && (r.call.passengersNo.Some? <==> |args| == 5)
              && (r.call.passengersNo.Some? ==> r.call.passengersNo == ParseInt(args[4]))
  {
    var supplier := ToLowerCase(args[1]);
    if supplier !in SUPPLIERS then NoSuchSupplier
    else if |args| < 4 then Crashed(IndexOutOfBounds)
    else if !ParametersAreValid(args[2], args[3]) then InvalidCoordinates
    else if |args| != 5 then Dispatched(PriceDescending(supplier, args[2], args[3], Null))
    else
      match ParseInt(args[4])
      case Null => Crashed(NumberFormat)
      case Some(n) => Dispatched(PriceDescending(supplier, args[2], args[3], Some(n)))
  }

  /** `run` without `-s`: coordinates, then the optional third argument. */
  function DefaultMode(args: seq<string>): (r: Outcome)
    requires |args| >= 2
    ensures r == InvalidCoordinates <==> !ParametersAreValid(args[0], args[1])
    ensures r == Crashed(NumberFormat) <==> ParametersAreValid(args[0], args[1]) && |args| == 3 && ParseInt(args[2]).Null?
    ensures r != NoArguments && r != MissingCoordinates && r != NoSuchSupplier && r != Crashed(IndexOutOfBounds)
    ensures r.Dispatched? ==>
              && r.call.CheapestSupplier? && ParametersAreValid(args[0], args[1])
              && r.call.pickup == args[0] && r.call.dropoff == args[1]
              && (r.call.passengersNo.Some? <==> |args| == 3)
              && (r.call.passengersNo.Some? ==> r.call.passengersNo == ParseInt(args[2]))
  {
    if !ParametersAreValid(args[0], args[1]) then InvalidCoordinates
    else if |args| != 3 then Dispatched(CheapestSupplier(args[0], args[1], Null))
    else
      match ParseInt(args[2])
      case Null => Crashed(NumberFormat)
      case Some(n) => Dispatched(CheapestSupplier(args[0], args[1], Some(n)))
  }

  /** `run(args)`: the decisions, in the order the code takes them. */
  function Run(args: seq<string>): (r: Outcome)
    ensures r == NoArguments <==> |args| == 0
    ensures r == MissingCoordinates <==> |args| == 1
    ensures r == NoSuchSupplier ==> |args| >= 2 && args[0] == "-s"
    ensures r == Crashed(IndexOutOfBounds) ==> 2 <= |args| < 4 && args[0] == "-s"
    ensures r.Dispatched? ==> |args| >= 2 && (r.call.PriceDescending? <==> args[0] == "-s")
  {
    if |args| == 0 then NoArguments
    else if |args| < 2 then MissingCoordinates
    else if args[0] == "-s" then SupplierMode(args)
    else DefaultMode(args)
  }

  /** No service is called with fewer than two arguments. */
  lemma RunNeedsTwoArguments(args: seq<string>)
    requires |args| < 2
    ensures Run(args) == (if |args| == 0 then NoArguments else MissingCoordinates)
  {
  }

  /** In `-s` mode the supplier is checked before anything else, even before the arguments are counted. */
  lemma SupplierCheckedFirst(args: seq<string>)
    requires |args| >= 2 && args[0] == "-s" && ToLowerCase(args[1]) !in SUPPLIERS
    ensures Run(args) == NoSuchSupplier
  {
  }

  /** A call only ever goes out with two valid coordinates, and in `-s` mode with a known supplier. */
  lemma DispatchedOnlyWhenValid(args: seq<string>)
    requires Run(args).Dispatched?
    ensures Run(args).call.PriceDescending? <==> args[0] == "-s"
    ensures Run(args).call.PriceDescending? ==>
              |args| >= 4 && Run(args).call.supplier in SUPPLIERS
              && Run(args).call.supplier == ToLowerCase(args[1])
              && ParametersAreValid(args[2], args[3])
              && Run(args).call.pickup == args[2] && Run(args).call.dropoff == args[3]
    ensures Run(args).call.CheapestSupplier? ==>
              ParametersAreValid(args[0], args[1]) && Run(args).call.pickup == args[0] && Run(args).call.dropoff == args[1]
  {
  }

  /**
   * The passenger count is read only from the fifth argument in `-s` mode and from the third
   * otherwise; every other argument count leaves it null.
   */
  lemma PassengersOnlyAtTheirPlace(args: seq<string>)
    requires Run(args).Dispatched?
    ensures Run(args).call.passengersNo.Some? <==> (if args[0] == "-s" then |args| == 5 else |args| == 3)
    ensures Run(args).call.passengersNo.Some? ==>
              Run(args).call.passengersNo == ParseInt(args[if args[0] == "-s" then 4 else 2])
  {
  }

  /** `-s` with a known supplier but fewer than four arguments runs past the end of the array. */
  lemma ShortSupplierModeCrashes(args: seq<string>)
    requires 2 <= |args| < 4 && args[0] == "-s" && ToLowerCase(args[1]) in SUPPLIERS
    ensures Run(args) == Crashed(IndexOutOfBounds)
  {
  }

  /** Invalid coordinates stop `run` before any service call. */
  lemma InvalidCoordinatesStop(args: seq<string>)
    requires |args| >= 2 && args[0] != "-s" && !ParametersAreValid(args[0], args[1])
    ensures Run(args) == InvalidCoordinates
  {
  }

  /** A second coordinate pair of the usage examples, accepted like the first. */
  lemma DropoffAccepted()
    ensures Matches("53.470020,-0.454295")
  {
    var c := Coordinates("", Number(false, "53", Some("470020")), "", "", Number(true, "0", Some("454295")));
    assert Render(c) == "53.470020,-0.454295";
    ScanRender(c);
  }

  /** Two coordinates alone ask for the cheapest supplier per car type, without a passenger count. */
  lemma RunDefaultExample()
    ensures Run(["51.470020,-0.454295", "53.470020,-0.454295"])
            == Dispatched(CheapestSupplier("51.470020,-0.454295", "53.470020,-0.454295", Null))
  {
    ValidationAccepts();
    DropoffAccepted();
  }

  /** `-s` with a supplier in any case and a passenger count asks that supplier, the count parsed. */
  lemma RunSupplierExample()
    ensures Run(["-s", "Dave", "51.470020,-0.454295", "53.470020,-0.454295", "4"])
            == Dispatched(PriceDescending("dave", "51.470020,-0.454295", "53.470020,-0.454295", Some(4)))
  {
    var args := ["-s", "Dave", "51.470020,-0.454295", "53.470020,-0.454295", "4"];
    var count: int32 := 4;
    assert ParseInt(args[4]) == Some(count) by {
      assert "4"[..0] == [] && DigitsValue("4") == 4;
    }
    assert ToLowerCase(args[1]) == "dave";
    assert ParametersAreValid(args[2], args[3]) by {
      ValidationAccepts();
      DropoffAccepted();
    }
    assert Run(args) == SupplierMode(args);
  }
}
