/** The deterministic helpers of the product card: the ticker abbreviation,
    the placeholder colour, the 30-day performance label and its colour, and
    the structure of the small evolution chart. `Math.random()` draws are a
    parameter. */
module ProductCard {
  import opened Wrappers
  import opened Sequences
  import opened Text
  import opened SvgPath

  // ---------------------------------------------------------------------
  // Ticker

  /** `generateTicker`: the first four UTF-16 code units of the name's first
      word, upper-cased. `slice(0, 4)` counts code units, so it can cut a
      surrogate pair in half. The source tests for "ETF" or "Fund" first, but
      both branches compute the same value. */
  function GenerateTicker(name: string): (ticker: seq<CodeUnit>)
    ensures |ticker| <= 4
    ensures ticker <= Utf16(ToUpper(Before(name, ' ')))
    ensures |ticker| == 4 || ticker == Utf16(ToUpper(Before(name, ' ')))
  {
    assert Split(name, " ")[0] == Before(name, ' ');
    if Includes(name, "ETF") || Includes(name, "Fund") then
      Take(Utf16(ToUpper(Split(name, " ")[0])), 4)
    else
      Take(Utf16(ToUpper(Split(name, " ")[0])), 4)
  }

  /** The ticker contains no space. */
  lemma TickerHasNoSpace(name: string)
    ensures ' ' as int !in GenerateTicker(name)
  {
    var word := ToUpper(Before(name, ' '));
    assert ' ' !in word by {
      forall k | 0 <= k < |word| ensures word[k] != ' ' {
        assert Before(name, ' ')[k] != ' ';
      }
    }
    Utf16Unit(word, ' ');
  }

  /** Nothing after the first space matters, so neither does a trailing
      "ETF" or "Fund". */
  lemma TickerOfFirstWord(word: string, rest: string)
    requires ' ' !in word
    ensures GenerateTicker(word + " " + rest) == GenerateTicker(word)
  {
    assert word + " " + rest == word + [' '] + rest;
    BeforeOfJoined(word, ' ', rest);
    assert Before(word, ' ') == word;
  }

  /** For a name in the basic multilingual plane, code units are characters:
      the ticker is the upper-cased start of the name, at most four
      characters long, and it stops at the first space. */
  lemma TickerOfBasicName(name: string)
    requires forall k :: 0 <= k < |name| ==> name[k] as int <= 0xFFFF
    ensures var ticker := GenerateTicker(name);
      && |ticker| <= |name|
      && (forall k :: 0 <= k < |ticker| ==> name[k] != ' ' && ticker[k] == UpperChar(name[k]) as int)
      && (|ticker| == 4 || |ticker| == |name| || name[|ticker|] == ' ')
  {
    var first := Before(name, ' ');
    var word := ToUpper(first);
    assert forall k :: 0 <= k < |word| ==> word[k] as int <= 0xFFFF by {
      forall k | 0 <= k < |word| ensures word[k] as int <= 0xFFFF {
        assert first[k] == name[k];
      }
    }
    Utf16OfBasic(word);
    var ticker := GenerateTicker(name);
    forall k | 0 <= k < |ticker|
      ensures name[k] != ' ' && ticker[k] == UpperChar(name[k]) as int
    {
      assert ticker[k] == Utf16(word)[k] == word[k] as int;
      assert first[k] == name[k];
    }
  }

  /** A name starting "abc" followed by U+1F600 gets a ticker that ends
      in the lone high surrogate of that character. */
  lemma TickerSplitsSurrogatePair()
    ensures GenerateTicker("abc\U{1F600}") == [0x41, 0x42, 0x43, 0xD83D]
  {
    var name := "abc\U{1F600}";
    assert Before(name, ' ') == name;
    assert ToUpper(name) == "ABC\U{1F600}";
    assert Utf16("ABC\U{1F600}") == [0x41, 0x42, 0x43, 0xD83D, 0xDE00];
  }

  // ---------------------------------------------------------------------
  // Placeholder colour

  const Palette := ["#3B82F6", "#8B5CF6", "#10B981", "#F59E0B", "#EF4444", "#6366F1"]

  /** `getImagePlaceholder`: a palette entry chosen by the UTF-16 length of
      the category label. */
  function ImagePlaceholder(category: string): (color: string)
    ensures color in Palette
    ensures exists k :: 0 <= k < |Palette| && color == Palette[k] && k == Utf16Length(category) % 6
  {
    Palette[Utf16Length(category) % |Palette|]
  }

  /** Labels of the same length get the same colour, and the colour cycles
      every six characters. */
  lemma PlaceholderByLength(a: string, b: string)
    requires Utf16Length(a) % 6 == Utf16Length(b) % 6
    ensures ImagePlaceholder(a) == ImagePlaceholder(b)
  {
  }

  /** The colour cycles: six more code units give the same colour. */
  lemma PlaceholderCycles(title: string, more: string)
    requires Utf16Length(more) == 6
    ensures ImagePlaceholder(title + more) == ImagePlaceholder(title)
  {
    Utf16LengthAppend(title, more);
    SixMore(Utf16Length(title));
  }

  lemma SixMore(n: nat)
    ensures (n + 6) % 6 == n % 6
  {
  }

  /** Characters of the basic multilingual plane count once. */
  lemma {:induction false} Utf16LengthOfBasic(s: string)
    requires forall k :: 0 <= k < |s| ==> s[k] as int <= 0xFFFF
    ensures Utf16Length(s) == |s|
  {
    if s != [] {
      Utf16LengthOfBasic(s[1..]);
    }
  }

  // ---------------------------------------------------------------------
  // Performance label

  /** A number as `toFixed(1)` writes it: a minus sign or none, and a count of
      tenths. `Fixed1(true, 0)` is the text "-0.0". */
  datatype Fixed1 = Fixed1(negative: bool, tenths: nat)

  function Abs(x: real): real
  {
    if x < 0.0 then -x else x
  }

  /** `x.toFixed(1)`: the sign of `x`, and the count of tenths nearest to its
      magnitude, the larger one on a tie. */
  function ToFixed1(x: real): (f: Fixed1)
    ensures f.negative <==> x < 0.0
    ensures f.tenths as real / 10.0 - 0.05 <= Abs(x) < f.tenths as real / 10.0 + 0.05
  {
    var n := (Abs(x) * 10.0 + 0.5).Floor;
    Fixed1(x < 0.0, n)
  }

  /** The text of a `toFixed(1)` result. */
  function Fixed1Text(f: Fixed1): (text: string)
    ensures |text| >= 3 && text[|text| - 2] == '.'
    ensures text[0] == '-' <==> f.negative
  {
    (if f.negative then "-" else "") + NatToString(f.tenths / 10) + "." + [DigitChar(f.tenths % 10)]
  }

  /** Reads back a `toFixed(1)` text. */
  function ParseFixed1(text: string): Option<Fixed1>
  {
    var negative := |text| > 0 && text[0] == '-';
    var body := if negative then text[1..] else text;
    if |body| >= 3 && body[|body| - 2] == '.' && IsDigit(body[|body| - 1])
       && forall k :: 0 <= k < |body| - 2 ==> IsDigit(body[k])
    then
      var units := ParseNat(body[..|body| - 2]);
      Some(Fixed1(negative, units * 10 + (body[|body| - 1] as int - '0' as int)))
    else None
  }

  /** The text says exactly which number it stands for. */
  lemma Fixed1TextRoundTrip(f: Fixed1)
    ensures ParseFixed1(Fixed1Text(f)) == Some(f)
  {
    var body := NatToString(f.tenths / 10) + "." + [DigitChar(f.tenths % 10)];
    BodyRoundTrip(f.tenths);
    if f.negative {
      assert Fixed1Text(f) == "-" + body;
      NegativeTextRoundTrip(body, f.tenths);
    } else {
      assert Fixed1Text(f) == body;
      assert body[0] == NatToString(f.tenths / 10)[0];
    }
  }

  lemma NegativeTextRoundTrip(body: string, tenths: nat)
    requires |body| >= 3 && body[|body| - 2] == '.' && IsDigit(body[|body| - 1])
    requires forall k :: 0 <= k < |body| - 2 ==> IsDigit(body[k])
    requires ParseNat(body[..|body| - 2]) * 10 + (body[|body| - 1] as int - '0' as int) == tenths
    ensures ParseFixed1("-" + body) == Some(Fixed1(true, tenths))
  {
    assert ("-" + body)[1..] == body;
  }

  /** Reading back the unsigned part of a `toFixed(1)` text. */
  lemma BodyRoundTrip(tenths: nat)
    ensures var body := NatToString(tenths / 10) + "." + [DigitChar(tenths % 10)];
      && |body| >= 3 && body[|body| - 2] == '.' && IsDigit(body[|body| - 1])
      && (forall k :: 0 <= k < |body| - 2 ==> IsDigit(body[k]))
      && ParseNat(body[..|body| - 2]) * 10 + (body[|body| - 1] as int - '0' as int) == tenths
  {
    var units := NatToString(tenths / 10);
    var last := DigitChar(tenths % 10);
    BodyShape(units, last);
    ParseNatToString(tenths / 10);
    TenthsSplit(tenths);
  }

  /** The layout of "<units>.<last>". */
  lemma BodyShape(units: string, last: char)
    requires |units| >= 1 && forall k :: 0 <= k < |units| ==> IsDigit(units[k])
    ensures var body := units + "." + [last];
      && |body| == |units| + 2 && body[..|body| - 2] == units
      && body[|body| - 2] == '.' && body[|body| - 1] == last
      && (forall k :: 0 <= k < |body| - 2 ==> IsDigit(body[k]))
  {
    var body := units + "." + [last];
    assert body[..|body| - 2] == units;
    forall k | 0 <= k < |body| - 2 ensures IsDigit(body[k]) {
      assert body[k] == units[k];
    }
  }

  lemma TenthsSplit(tenths: nat)
    ensures (tenths / 10) * 10 + tenths % 10 == tenths
  {
  }

  /** `parseFloat(perf) >= 0` for a `toFixed(1)` text. "-0.0" reads as
      negative zero, which compares as at least zero. */
  predicate ReadsAtLeastZero(f: Fixed1)
  {
    !f.negative || f.tenths == 0
  }

  const Green := "#38e07b"
  const Red := "#ef4444"

  /** `getPerformanceColor`: green when the text reads as at least zero,
      red otherwise. */
  function PerformanceColor(f: Fixed1): (color: string)
    ensures color == Green <==> ReadsAtLeastZero(f)
    ensures color == Red <==> !ReadsAtLeastZero(f)
  {
    if ReadsAtLeastZero(f) then Green else Red
  }

  /** The label as written: a '+' whenever the text reads as at least zero,
      then the text and '%'. */
  function PerformanceLabelAsWritten(f: Fixed1): string
  {
    (if ReadsAtLeastZero(f) then "+" else "") + Fixed1Text(f) + "%"
  }

  /** A value just below zero is written "-0.0" and labelled "+-0.0%". */
  lemma NegativeZeroLabel(x: real)
    requires -0.05 < x < 0.0
    ensures ToFixed1(x) == Fixed1(true, 0)
    ensures var shown := PerformanceLabelAsWritten(ToFixed1(x));
      |shown| >= 2 && shown[0] == '+' && shown[1] == '-'
  {
    var shown := PerformanceLabelAsWritten(ToFixed1(x));
    assert shown == "+" + Fixed1Text(Fixed1(true, 0)) + "%";
  }

  /** The label with one sign: '+' exactly when the text carries no '-'. */
  function PerformanceLabel(f: Fixed1): (shown: string)
    ensures |shown| >= 5 && shown[|shown| - 1] == '%'
    ensures shown[0] == '+' <==> !f.negative
    ensures shown[0] == '-' <==> f.negative
    ensures IsDigit(shown[1])
  {
    var text := Fixed1Text(f);
    assert !f.negative ==> IsDigit(text[0]) by {
      if !f.negative {
        assert text[0] == NatToString(f.tenths / 10)[0];
      }
    }
    assert f.negative ==> IsDigit(text[1]) by {
      if f.negative {
        assert text[1] == NatToString(f.tenths / 10)[0];
      }
    }
    (if f.negative then "" else "+") + text + "%"
  }

  /** The two labels differ only on "-0.0". */
  lemma LabelsAgreeExceptNegativeZero(f: Fixed1)
    requires f != Fixed1(true, 0)
    ensures PerformanceLabel(f) == PerformanceLabelAsWritten(f)
  {
  }

  // ---------------------------------------------------------------------
  // Evolution chart

  /** `generateChartPath`: seven points spread evenly over 184 units of
      width, each at height 2 plus 42 times a random draw. `draw(i)` is the
      i-th `Math.random()` value. */
  method GenerateChartPath(draw: nat -> real) returns (path: seq<Command>)
    ensures |path| == 7 && IsPolyline(path)
    ensures forall i :: 0 <= i < 7 ==> path[i].x == (i * 184) as real / 6.0
    ensures forall i :: 0 <= i < 7 ==> path[i].y == 2.0 + draw(i) * 42.0
    ensures path[0].x == 0.0 && path[6].x == 184.0
    ensures forall i, j :: 0 <= i < j < 7 ==> path[i].x < path[j].x
    ensures (forall i :: 0 <= i < 7 ==> 0.0 <= draw(i) < 1.0) ==>
      forall i :: 0 <= i < 7 ==> 2.0 <= path[i].y < 44.0
  {
    path := [];
    for i := 0 to 7
      invariant |path| == i && IsPolyline(path)
      invariant forall k :: 0 <= k < i ==> path[k].x == (k * 184) as real / 6.0
      invariant forall k :: 0 <= k < i ==> path[k].y == 2.0 + draw(k) * 42.0
    {
      var x := (i * 184) as real / 6.0;
      var y := 2.0 + draw(i) * 42.0;
      path := path + [if i == 0 then MoveTo(x, y) else LineTo(x, y)];
    }
  }
}
