/**
 * Text helpers of the report builder (execution/slides_report.py): number formatting,
 * ellipsis truncation, and the Slides API requests that replace a shape's text, fill a
 * box with coloured bullets, and style the top-performer box.
 *
 * Requests are values; colours and fonts are named, not given as RGB triples or family
 * names. Lengths and indices count characters, as Python's `len` does.
 */
module SlidesText {
  import opened Wrappers
  import opened Decimal
  import opened Seqs
  import opened Rounding
  import opened SlidesRegistry

  /** The palette colours the report uses (WHITE, LIGHT_GRAY, GREEN, BLUE_LIGHT, ORANGE_ACCENT). */
  datatype Color = White | LightGray | Green | BlueLight | OrangeAccent

  /** FONT_FAMILY, FONT_DISPLAY and FONT_MONO. */
  datatype Font = BodyFont | DisplayFont | MonoFont

  datatype TextRange = AllText | FixedRange(startIndex: int, endIndex: int)

  /** A text style; absent size or family means the request does not set it. */
  datatype Style = Style(color: Color, fontSize: Option<nat>, bold: bool, fontFamily: Option<Font>)

  datatype Request =
    | DeleteText(objectId: string)
    | InsertText(objectId: string, text: string, insertionIndex: nat)
    | UpdateTextStyle(objectId: string, style: Style, textRange: TextRange, fields: string)

  const AllStyleFields := "foregroundColor,fontSize,bold,fontFamily"
  const MarkerFields := "foregroundColor,bold"

  // ---------------------------------------------------------------------------
  // _fmt_number
  // ---------------------------------------------------------------------------

  /** Three decimal digits of `m < 1000`, with leading zeros. */
  function Pad3(m: nat): (r: string)
    requires m < 1000
    ensures |r| == 3 && AllDigits(r)
  {
    [DigitChar(m / 100), DigitChar(m / 10 % 10), DigitChar(m % 10)]
  }

  /** `f"{n:,}"` for a natural number: decimal digits in groups of three separated by commas. */
  function Grouped(n: nat): string
    decreases n
  {
    if n < 1000 then Digits(n) else Grouped(n / 1000) + "," + Pad3(n % 1000)
  }

  /** `_fmt_number`: "N/A" for a missing value, otherwise the integer with thousands separators. */
  function FmtNumber(n: Option<int>): string {
    match n
    case None => "N/A"
    case Some(v) => if v < 0 then "-" + Grouped(-v) else Grouped(v)
  }

  function NotComma(c: char): bool { c != ',' }

  /** The text with its commas removed. */
  function StripCommas(s: string): string {
    Filter(NotComma, s)
  }

  /** The decimal text of `n` is that of `n / 1000` followed by the last three digits. */
  lemma DigitsThousands(n: nat)
    requires n >= 1000
    ensures Digits(n) == Digits(n / 1000) + Pad3(n % 1000)
  {
    var q, m := n / 1000, n % 1000;
    assert n / 10 == 100 * q + m / 10;
    assert n / 10 / 10 == 10 * q + m / 100;
    assert n / 10 / 10 / 10 == q;
    assert n % 10 == m % 10;
    assert n / 10 % 10 == m / 10 % 10;
    assert n / 10 / 10 % 10 == m / 100;
    assert Digits(n) == Digits(n / 10) + [DigitChar(n % 10)];
    assert Digits(n / 10) == Digits(n / 10 / 10) + [DigitChar(n / 10 % 10)];
    assert Digits(n / 10 / 10) == Digits(q) + [DigitChar(n / 10 / 10 % 10)];
  }

  /** Removing the commas from the grouped text of `n` leaves the decimal text of `n`. */
  lemma {:induction false} GroupedDigits(n: nat)
    ensures StripCommas(Grouped(n)) == Digits(n)
    decreases n
  {
    if n < 1000 {
      var d := Digits(n);
      assert forall i :: 0 <= i < |d| ==> d[i] != ',' by {
        assert forall i :: 0 <= i < |d| ==> IsDigit(d[i]);
      }
      StripNoCommas(d);
    } else {
      var a, p := Grouped(n / 1000), Pad3(n % 1000);
      GroupedDigits(n / 1000);
      assert Grouped(n) == a + ([','] + p);
      FilterConcat(NotComma, a, [','] + p);
      FilterConcat(NotComma, [','], p);
      assert Filter(NotComma, [',']) == [] by {
        assert [','][1..] == [];
      }
      assert forall i :: 0 <= i < |p| ==> p[i] != ',' by {
        assert forall i :: 0 <= i < |p| ==> IsDigit(p[i]);
      }
      StripNoCommas(p);
      DigitsThousands(n);
    }
  }

  /** The text of a number below 1000 has one to three characters. */
  lemma ShortDigits(n: nat)
    requires n < 1000
    ensures |Digits(n)| <= 3
  {
    if n >= 10 {
      assert Digits(n) == Digits(n / 10) + [DigitChar(n % 10)];
      if n / 10 >= 10 {
        assert Digits(n / 10) == Digits(n / 10 / 10) + [DigitChar(n / 10 % 10)];
      }
    }
  }

  /**
   * Digits in groups of three from the right: a comma stands exactly at the positions a
   * multiple of four from the end, so every group after the first has three digits and the
   * first has one to three; every other character is a digit.
   */
  predicate CommaGrouped(r: string) {
    && |r| % 4 != 0
    && (forall i :: 0 <= i < |r| ==> (r[i] == ',' <==> (|r| - i) % 4 == 0))
    && (forall i :: 0 <= i < |r| && r[i] != ',' ==> IsDigit(r[i]))
  }

  /** The grouped text of every number is grouped in threes. */
  lemma {:induction false} GroupedShape(n: nat)
    ensures CommaGrouped(Grouped(n))
    decreases n
  {
    if n < 1000 {
      ShortDigits(n);
    } else {
      GroupedShape(n / 1000);
      GroupStep(Grouped(n / 1000), Pad3(n % 1000));
    }
  }

  /** Appending a comma and three digits to a grouped text keeps it grouped. */
  lemma GroupStep(a: string, p: string)
    requires CommaGrouped(a)
    requires |p| == 3 && AllDigits(p)
    ensures CommaGrouped(a + "," + p)
  {
    var r := a + "," + p;
    forall i | 0 <= i < |r|
      ensures (r[i] == ',' <==> (|r| - i) % 4 == 0)
      ensures r[i] != ',' ==> IsDigit(r[i])
    {
      if i < |a| {
        assert r[i] == a[i];
        Mod4Shift(|a| - i);
      } else if i > |a| {
        assert r[i] == p[i - |a| - 1];
      }
    }
    Mod4Shift(|a|);
  }

  lemma Mod4Shift(x: int)
    ensures (x + 4) % 4 == x % 4
  {
  }

  lemma {:induction false} StripNoCommas(s: string)
    requires forall i :: 0 <= i < |s| ==> s[i] != ','
    ensures StripCommas(s) == s
    decreases |s|
  {
    if s != [] {
      StripNoCommas(s[1..]);
      assert s == [s[0]] + s[1..];
    }
  }

  /** Reading the digits of a formatted count back gives the count. */
  lemma FmtNumberValue(n: nat)
    ensures FmtNumber(Some(n)) == Grouped(n)
    ensures AllDigits(StripCommas(FmtNumber(Some(n))))
    ensures Value(StripCommas(FmtNumber(Some(n)))) == n
  {
    GroupedDigits(n);
    ValueOfDigits(n);
  }

  /** Examples of the formatting: 1234 and -1000. */
  lemma FmtNumberExamples()
    ensures FmtNumber(Some(1234)) == "1,234"
    ensures FmtNumber(Some(-1000)) == "-1,000"
  {
    assert Grouped(1234) == Grouped(1) + "," + Pad3(234);
    assert Grouped(1000) == Grouped(1) + "," + Pad3(0);
  }

  // ---------------------------------------------------------------------------
  // _fmt_engagement, _fmt_outlier, _truncate
  // ---------------------------------------------------------------------------

  /** `_fmt_engagement`: two decimals and a percent sign, or "N/A". */
  function FmtEngagement(v: Option<real>): string {
    match v
    case None => "N/A"
    case Some(x) => Fixed2(x) + "%"
  }

  /** `_fmt_outlier`: two decimals and an "x", or "N/A". */
  function FmtOutlier(v: Option<real>): string {
    match v
    case None => "N/A"
    case Some(x) => Fixed2(x) + "x"
  }

  /** Python's `s[:k]`: a negative `k` counts from the end. */
  function PyPrefix(s: string, k: int): (r: string)
    ensures |r| <= |s| && r == s[..|r|]
  {
    if k >= 0 then s[..Min(k, |s|)] else s[..Max(0, |s| + k)]
  }

  /** `_truncate`: empty text stays empty, short text is kept, long text is cut and gets "...". */
  function Truncate(text: string, maxLen: int): string {
    if text == [] then ""
    else if |text| <= maxLen then text
    else PyPrefix(text, maxLen - 3) + "..."
  }

  /**
   * For a limit of at least 3: the result is empty exactly for empty text, text within the
   * limit is returned unchanged, and longer text becomes its first `maxLen - 3` characters
   * and "...", exactly `maxLen` long. The result never exceeds the limit.
   */
  lemma TruncateCorrect(text: string, maxLen: int)
    requires maxLen >= 3
    ensures Truncate(text, maxLen) == "" <==> text == ""
    ensures |text| <= maxLen ==> Truncate(text, maxLen) == text
    ensures |text| > maxLen ==>
              && |Truncate(text, maxLen)| == maxLen
              && Truncate(text, maxLen) == text[..maxLen - 3] + "..."
    ensures |Truncate(text, maxLen)| <= maxLen
  {
  }

  /** Truncating twice with the same limit is truncating once. */
  lemma TruncateIdempotent(text: string, maxLen: int)
    requires maxLen >= 3
    ensures Truncate(Truncate(text, maxLen), maxLen) == Truncate(text, maxLen)
  {
    TruncateCorrect(text, maxLen);
    TruncateCorrect(Truncate(text, maxLen), maxLen);
  }

  // ---------------------------------------------------------------------------
  // _replace_shape_text
  // ---------------------------------------------------------------------------

  /** `_replace_shape_text`: delete all text, then insert and style the new text unless it is empty. */
  function ReplaceShapeText(objectId: string, text: string, fontSize: nat, color: Color, bold: bool,
                            idMap: Option<map<string, string>>, fontFamily: Option<Font>): seq<Request>
  {
    var oid := MapId(objectId, idMap);
    [DeleteText(oid)]
    + if text != [] then
        [InsertText(oid, text, 0),
         UpdateTextStyle(oid, Style(color, Some(fontSize), bold, Some(fontFamily.GetOr(BodyFont))), AllText, AllStyleFields)]
      else []
  }

  /**
   * Every replacement starts by clearing the (mapped) shape; a non-empty text is then
   * inserted at index 0 and styled as a whole, in the given colour, size and weight, and in
   * the body font unless another is named; an empty text adds nothing more.
   */
  lemma ReplaceShapeTextShape(objectId: string, text: string, fontSize: nat, color: Color, bold: bool,
                              idMap: Option<map<string, string>>, fontFamily: Option<Font>)
    ensures var r := ReplaceShapeText(objectId, text, fontSize, color, bold, idMap, fontFamily);
            var oid := MapId(objectId, idMap);
      && |r| == (if text == [] then 1 else 3)
      && r[0] == DeleteText(oid)
      && (text != [] ==> r[1] == InsertText(oid, text, 0)
                         && r[2].UpdateTextStyle? && r[2].objectId == oid && r[2].textRange == AllText
                         && r[2].style.color == color && r[2].style.fontSize == Some(fontSize)
                         && r[2].style.bold == bold
                         && r[2].style.fontFamily == Some(if fontFamily.Some? then fontFamily.value else BodyFont))
      && (forall k :: 0 <= k < |r| ==> r[k].objectId == oid)
  {
  }

  // ---------------------------------------------------------------------------
  // _fill_colored_bullets
  // ---------------------------------------------------------------------------

  const NoDataItem := "No data available"
  const MaxBullets := 3

  /** The items that get a bullet: at most three, with a placeholder for an empty list. */
  function ShownItems(items: seq<string>): seq<string> {
    Take(if items == [] then [NoDataItem] else items, MaxBullets)
  }

  function Bullet(item: string): string { "• " + item }

  function Bullets(items: seq<string>): (r: seq<string>)
    ensures |r| == |items|
    ensures forall k :: 0 <= k < |items| ==> r[k] == Bullet(items[k])
  {
    Map(Bullet, items)
  }

  /** The text of the box: the bullets separated by a blank line. */
  function BulletText(items: seq<string>): string {
    Join("\n\n", Bullets(ShownItems(items)))
  }

  /** Where bullet `i` starts in the joined text: the earlier bullets and their separators. */
  function Offset(bullets: seq<string>, i: nat): nat
    requires i <= |bullets|
    decreases i
  {
    if i == 0 then 0 else |bullets[0]| + 2 + Offset(bullets[1..], i - 1)
  }

  function MarkerStyle(color: Color): Style {
    Style(color, None, true, None)
  }

  /** The marker request for the `•` starting at `pos`. */
  function Marker(objectId: string, color: Color, pos: int): Request {
    UpdateTextStyle(objectId, MarkerStyle(color), FixedRange(pos, pos + 1), MarkerFields)
  }

  /** The marker requests for the first `n` bullets: one per bullet that has a colour. */
  function Markers(objectId: string, bullets: seq<string>, colors: seq<Color>, n: nat): seq<Request>
    requires n <= |bullets|
  {
    if n == 0 then []
    else Markers(objectId, bullets, colors, n - 1)
         + if n - 1 < |colors| then [Marker(objectId, colors[n - 1], Offset(bullets, n - 1))] else []
  }

  /** The three requests that set the text of the box and its white base style. */
  function BulletBase(objectId: string, text: string, fontSize: nat): seq<Request> {
    [DeleteText(objectId),
     InsertText(objectId, text, 0),
     UpdateTextStyle(objectId, Style(White, Some(fontSize), false, Some(BodyFont)), AllText, AllStyleFields)]
  }

  /** All requests of `_fill_colored_bullets`. */
  function BulletRequests(objectId: string, items: seq<string>, colors: seq<Color>, fontSize: nat): seq<Request> {
    var bullets := Bullets(ShownItems(items));
    BulletBase(objectId, Join("\n\n", bullets), fontSize) + Markers(objectId, bullets, colors, |bullets|)
  }

  /** `_fill_colored_bullets`: set the text, then colour each bullet's marker, advancing `pos` past each bullet. */
  method FillColoredBullets(objectId: string, items: seq<string>, colors: seq<Color>, fontSize: nat)
    returns (reqs: seq<Request>)
    ensures reqs == BulletRequests(objectId, items, colors, fontSize)
  {
    var shown := if items == [] then [NoDataItem] else items;
    shown := Take(shown, 3);
    var bullets := Bullets(shown);
    var text := Join("\n\n", bullets);
    reqs := BulletBase(objectId, text, fontSize);
    var pos := 0;
    for i := 0 to |shown|
      invariant pos == Offset(bullets, i)
      invariant reqs == BulletBase(objectId, text, fontSize) + Markers(objectId, bullets, colors, i)
    {
      var bulletText := "• " + shown[i];
      if i < |colors| {
        reqs := reqs + [UpdateTextStyle(objectId, MarkerStyle(colors[i]), FixedRange(pos, pos + 1), MarkerFields)];
      }
      OffsetStep(bullets, i);
      pos := pos + |bulletText| + 2;
    }
  }

  lemma {:induction false} OffsetStep(bullets: seq<string>, i: nat)
    requires i < |bullets|
    ensures Offset(bullets, i + 1) == Offset(bullets, i) + |bullets[i]| + 2
    decreases i
  {
    if i > 0 {
      OffsetStep(bullets[1..], i - 1);
    }
  }

  lemma {:induction false} MarkersShape(objectId: string, bullets: seq<string>, colors: seq<Color>, n: nat)
    requires n <= |bullets|
    ensures |Markers(objectId, bullets, colors, n)| == Min(n, |colors|)
    ensures forall k :: 0 <= k < Min(n, |colors|) ==>
              Markers(objectId, bullets, colors, n)[k] == Marker(objectId, colors[k], Offset(bullets, k))
    decreases n
  {
    if n > 0 {
      MarkersShape(objectId, bullets, colors, n - 1);
    }
  }

  /** Bullet `i` of the joined text starts at `Offset(parts, i)`, followed by its characters. */
  lemma {:induction false} JoinOffset(parts: seq<string>, i: nat)
    requires i < |parts|
    ensures Offset(parts, i) + |parts[i]| <= |Join("\n\n", parts)|
    ensures Join("\n\n", parts)[Offset(parts, i)..Offset(parts, i) + |parts[i]|] == parts[i]
    decreases i
  {
    var j := Join("\n\n", parts);
    if |parts| == 1 {
      assert j == parts[0];
    } else {
      assert j == parts[0] + "\n\n" + Join("\n\n", parts[1..]);
      if i > 0 {
        JoinOffset(parts[1..], i - 1);
        var rest := Join("\n\n", parts[1..]);
        var o := Offset(parts[1..], i - 1);
        assert j[|parts[0]| + 2..] == rest;
        assert j[Offset(parts, i)..Offset(parts, i) + |parts[i]|] == rest[o..o + |parts[i]|];
      }
    }
  }

  /**
   * The box shows at most three bullets (one placeholder bullet for an empty list); after
   * the delete, the insert of the joined text and the white base style come
   * `min(bullets, colours)` marker requests, the k-th in colour k over the one-character
   * range `[pos, pos + 1)` where the k-th bullet's `•` stands.
   */
  lemma ColoredBulletsCorrect(objectId: string, items: seq<string>, colors: seq<Color>, fontSize: nat)
    ensures var shown := ShownItems(items);
            var reqs := BulletRequests(objectId, items, colors, fontSize);
            var text := BulletText(items);
            var bullets := Bullets(shown);
      && |shown| == (if items == [] then 1 else Min(3, |items|))
      && (items == [] ==> text == "• No data available")
      && (items != [] ==> shown == items[..|shown|])
      && |reqs| == 3 + Min(|shown|, |colors|)
      && reqs[0] == DeleteText(objectId) && reqs[1] == InsertText(objectId, text, 0)
      && (forall k :: 0 <= k < Min(|shown|, |colors|) ==>
            && reqs[3 + k] == Marker(objectId, colors[k], Offset(bullets, k))
            && Offset(bullets, k) < |text|
            && text[Offset(bullets, k)] == '•')
  {
    var shown := ShownItems(items);
    var bullets := Bullets(shown);
    var text := BulletText(items);
    MarkersShape(objectId, bullets, colors, |bullets|);
    forall k | 0 <= k < Min(|shown|, |colors|)
      ensures Offset(bullets, k) < |text| && text[Offset(bullets, k)] == '•'
    {
      JoinOffset(bullets, k);
      assert text[Offset(bullets, k)..Offset(bullets, k) + |bullets[k]|][0] == bullets[k][0];
    }
  }

  // ---------------------------------------------------------------------------
  // The top-performer box of the comparative slide
  // ---------------------------------------------------------------------------

  const TopNameBox := "tmpl_comp_top_name"

  /** `f"{top_performer}"`: a missing top performer prints as "None". */
  function ShownName(topPerformer: Option<string>): string {
    match topPerformer
    case None => "None"
    case Some(name) => name
  }

  /** The top-performer box: name and note on two lines, the name in display style, the note in body style. */
  function TopPerformerBox(name: string, note: string): seq<Request> {
    var fullText := name + "\n" + note;
    var nameEnd := |name|;
    [DeleteText(TopNameBox),
     InsertText(TopNameBox, fullText, 0),
     UpdateTextStyle(TopNameBox, Style(White, Some(18), true, Some(DisplayFont)), FixedRange(0, nameEnd), AllStyleFields),
     UpdateTextStyle(TopNameBox, Style(LightGray, Some(9), false, Some(BodyFont)),
                     FixedRange(nameEnd + 1, |fullText|), AllStyleFields)]
  }

  /**
   * The name range holds exactly the name and the note range exactly the note; the two
   * ranges are disjoint and together cover the inserted text except the single newline.
   */
  lemma TopPerformerRanges(name: string, note: string)
    ensures var r := TopPerformerBox(name, note);
      && r[1].InsertText? && r[2].textRange.FixedRange? && r[3].textRange.FixedRange?
      && var text := r[1].text;
         var a, b := r[2].textRange, r[3].textRange;
      && 0 == a.startIndex <= a.endIndex < b.startIndex <= b.endIndex == |text|
      && text[a.startIndex..a.endIndex] == name
      && text[b.startIndex..b.endIndex] == note
      && b.startIndex == a.endIndex + 1 && text[a.endIndex] == '\n'
  {
    var text := name + "\n" + note;
    assert text[..|name|] == name;
    assert text[|name| + 1..] == note;
  }
}
