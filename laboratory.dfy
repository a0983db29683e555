/** The e-laboratory price list, src/ts/e-laboratory.ts: price parsing, the
    search and price-range filter, the rows it renders and the count label. */
module Laboratory {
  import opened Base

  const ROW_CLASS := "hover:bg-medi-green-50 transition-colors"
  const PADDING_TOKEN := "%PADDING%"
  const SERVICE_CELL_CLASS := "px-6 " + PADDING_TOKEN + " text-gray-700"
  const PRICE_CELL_CLASS := "px-6 " + PADDING_TOKEN + " text-right font-medium text-gray-900"
  /** U+20B1 PESO SIGN, the character code 8369 placed before each price. */
  const PESO: char := '\U{20B1}'
  const EMPTY_CELL_CLASS := "px-6 py-8 text-center text-gray-500"
  const EMPTY_TEXT := "No matching services found."

  /** One service of the price list, with its price as written (for instance `1,250.00`). */
  datatype ServiceRow = ServiceRow(service: string, price: string)

  // ------------------------------------------------------------ prices

  predicate IsPriceChar(c: char) {
    IsDigit(c) || c == '.'
  }

  /** A string made only of digits and dots. */
  predicate PriceString(s: string) {
    forall i :: 0 <= i < |s| ==> IsPriceChar(s[i])
  }

  /** The price string with everything but digits and dots removed. */
  function Sanitize(s: string): (r: string)
    ensures |r| <= |s|
    ensures PriceString(r)
  {
    if s == [] then [] else (if IsPriceChar(s[0]) then [s[0]] else []) + Sanitize(s[1..])
  }

  /** The cleaned price holds exactly the digits and dots of the input. */
  lemma {:induction false} SanitizeKeepsExactlyPriceChars(s: string)
    ensures forall c :: c in Sanitize(s) <==> c in s && IsPriceChar(c)
    decreases |s|
  {
    if s != [] {
      SanitizeKeepsExactlyPriceChars(s[1..]);
      assert s == [s[0]] + s[1..];
    }
  }

  lemma {:induction false} SanitizeAppend(a: string, b: string)
    ensures Sanitize(a + b) == Sanitize(a) + Sanitize(b)
    decreases |a|
  {
    if a == [] {
      assert a + b == b;
    } else {
      assert (a + b)[0] == a[0];
      assert (a + b)[1..] == a[1..] + b;
      SanitizeAppend(a[1..], b);
    }
  }

  /** A string of digits and dots is left as it is. */
  lemma {:induction false} SanitizeKeepsPriceChars(s: string)
    requires PriceString(s)
    ensures Sanitize(s) == s
    decreases |s|
  {
    if s != [] {
      SanitizeKeepsPriceChars(s[1..]);
    }
  }

  lemma {:induction false} SanitizeWithoutDigits(s: string)
    requires forall i :: 0 <= i < |s| ==> !IsDigit(s[i])
    ensures forall i :: 0 <= i < |Sanitize(s)| ==> Sanitize(s)[i] == '.'
    decreases |s|
  {
    if s != [] {
      SanitizeWithoutDigits(s[1..]);
    }
  }

  /** The length of the run of digits `s` starts with. */
  function LeadingDigits(s: string): (k: nat)
    ensures k <= |s| && AllDigits(s[..k])
    ensures k < |s| ==> !IsDigit(s[k])
  {
    if s != [] && IsDigit(s[0]) then
      var k := 1 + LeadingDigits(s[1..]);
      assert s[..k] == [s[0]] + s[1..][..k - 1];
      k
    else 0
  }

  function Pow10(n: nat): (p: nat)
    ensures p >= 1
  {
    if n == 0 then 1 else 10 * Pow10(n - 1)
  }

  /** The number `whole.frac` denotes. */
  function DecimalValue(whole: string, frac: string): real
    requires AllDigits(whole) && AllDigits(frac)
  {
    DigitsValue(whole) as real + DigitsValue(frac) as real / Pow10(|frac|) as real
  }

  /** Number.parseFloat on a string of digits and dots: the value of its
      longest prefix of the form digits, optionally a dot and more digits,
      with at least one digit; None stands for NaN. */
  function ParseFloat(s: string): (r: Option<real>)
    requires PriceString(s)
    ensures r.Some? ==> r.value >= 0.0
  {
    var k := LeadingDigits(s);
    var whole := DigitsValue(s[..k]) as real;
    if k < |s| && s[k] == '.' then
      var fraction := s[k + 1..];
      var m := LeadingDigits(fraction);
      if k == 0 && m == 0 then None
      else Some(DecimalValue(s[..k], fraction[..m]))
    else if k == 0 then None
    else Some(whole)
  }

  /** parsePrice: the parsed digits-and-dots part of the string, 0 when nothing parses. */
  function ParsePrice(value: string): (r: real)
    ensures r >= 0.0
  {
    match ParseFloat(Sanitize(value))
    case Some(x) => x
    case None => 0.0
  }

  lemma SanitizePeso()
    ensures Sanitize([PESO]) == []
  {
    assert [PESO][1..] == [];
  }

  /** Only the digits and dots of a price matter. */
  lemma ParsePriceSeesOnlyPriceChars(value: string)
    ensures ParsePrice(value) == ParsePrice(Sanitize(value))
  {
    SanitizeKeepsPriceChars(Sanitize(value));
  }

  /** A price without a digit parses as 0. */
  lemma ParsePriceWithoutDigits(value: string)
    requires forall i :: 0 <= i < |value| ==> !IsDigit(value[i])
    ensures ParsePrice(value) == 0.0
  {
    SanitizeWithoutDigits(value);
    var s := Sanitize(value);
    assert LeadingDigits(s) == 0;
    if |s| > 0 {
      assert LeadingDigits(s[1..]) == 0;
    }
  }

  /** A whole number written in decimal parses back to itself. */
  lemma ParsePriceOfWholeNumber(n: nat)
    ensures ParsePrice(NatToString(n)) == n as real
  {
    var s := NatToString(n);
    SanitizeKeepsPriceChars(s);
    AllDigitsLead(s);
    assert s[..|s|] == s;
    NatToStringRoundTrip(n);
  }

  lemma {:induction false} AllDigitsLead(s: string)
    requires AllDigits(s)
    ensures LeadingDigits(s) == |s|
    decreases |s|
  {
    if s != [] {
      AllDigitsLead(s[1..]);
    }
  }

  /** A peso sign before the digits does not disturb the value. */
  lemma ParsePriceWithSymbols(n: nat)
    ensures ParsePrice([PESO] + NatToString(n)) == n as real
  {
    SanitizePeso();
    SanitizeAppend([PESO], NatToString(n));
    assert Sanitize([PESO] + NatToString(n)) == Sanitize(NatToString(n));
    SanitizeKeepsPriceChars(NatToString(n));
    ParsePriceOfWholeNumber(n);
  }

  /** A digit run followed by anything else: the run is counted in full. */
  lemma {:induction false} LeadingDigitsAppend(x: string, y: string)
    requires AllDigits(x)
    ensures LeadingDigits(x + y) == |x| + LeadingDigits(y)
    decreases |x|
  {
    if x == [] {
      assert x + y == y;
    } else {
      assert (x + y)[0] == x[0];
      assert (x + y)[1..] == x[1..] + y;
      LeadingDigitsAppend(x[1..], y);
    }
  }

  lemma DecimalIsPriceString(w: string, d: string)
    requires AllDigits(w) && AllDigits(d)
    ensures PriceString(w + "." + d)
  {
    var s := w + "." + d;
    forall i | 0 <= i < |s|
      ensures IsPriceChar(s[i])
    {
      if i < |w| {
        assert s[i] == w[i];
      } else if i > |w| {
        assert s[i] == d[i - |w| - 1];
      }
    }
  }

  /** parseFloat when a non-empty digit run of length `k` is followed by a
      dot and a digit run of length `m`. */
  lemma ParseFloatWithDot(s: string, k: nat, m: nat)
    requires PriceString(s) && 0 < k < |s| && LeadingDigits(s) == k && s[k] == '.'
    requires LeadingDigits(s[k + 1..]) == m
    ensures ParseFloat(s) == Some(DecimalValue(s[..k], s[k + 1..][..m]))
  {
  }

  /** parseFloat of digits, a dot and digits. */
  lemma ParseFloatDecimal(w: string, d: string)
    requires AllDigits(w) && |w| > 0 && AllDigits(d)
    ensures PriceString(w + "." + d) &&
      ParseFloat(w + "." + d) == Some(DecimalValue(w, d))
  {
    var s := w + "." + d;
    DecimalIsPriceString(w, d);
    var t := "." + d;
    assert s == w + t;
    assert t[0] == '.';
    assert LeadingDigits(t) == 0;
    LeadingDigitsAppend(w, t);
    var k := LeadingDigits(s);
    assert k == |w|;
    assert s[..k] == w;
    assert s[k] == '.';
    var fraction := s[k + 1..];
    assert fraction == d;
    AllDigitsLead(d);
    var m := LeadingDigits(fraction);
    assert m == |d|;
    assert fraction[..m] == d;
    ParseFloatWithDot(s, k, m);
  }

  /** A price with a whole part and a fractional part of any number of
      digits parses to the whole part plus the fraction's digits over the
      matching power of ten. */
  lemma ParsePriceOfDecimal(a: nat, d: string)
    requires AllDigits(d)
    ensures ParsePrice(NatToString(a) + "." + d) == a as real + DigitsValue(d) as real / Pow10(|d|) as real
  {
    var w := NatToString(a);
    DecimalIsPriceString(w, d);
    SanitizeKeepsPriceChars(w + "." + d);
    ParseFloatDecimal(w, d);
    NatToStringRoundTrip(a);
  }

  /** On a string of digits and dots, parsePrice is parseFloat. */
  lemma ParsePriceOfPriceString(s: string, x: real)
    requires PriceString(s) && ParseFloat(s) == Some(x)
    ensures ParsePrice(s) == x
  {
    SanitizeKeepsPriceChars(s);
  }

  /** One character of the input contributes itself to the result when it
      is a digit or a dot, and nothing otherwise. */
  lemma SanitizeOneChar(x: string, c: char, y: string)
    ensures Sanitize(x + [c] + y) == Sanitize(x) + (if IsPriceChar(c) then [c] else []) + Sanitize(y)
  {
    SanitizeAppend(x + [c], y);
    SanitizeAppend(x, [c]);
    assert [c][1..] == [];
  }

  lemma SanitizeDropsNonPriceChar(x: string, c: char, y: string)
    requires !IsPriceChar(c)
    ensures Sanitize(x + [c] + y) == Sanitize(x + y)
  {
    SanitizeOneChar(x, c, y);
    SanitizeAppend(x, y);
  }

  /** A character other than a digit or a dot, wherever it stands, does not
      change the price. */
  lemma ParsePriceIgnoresNonPriceChar(x: string, c: char, y: string)
    requires !IsPriceChar(c)
    ensures ParsePrice(x + [c] + y) == ParsePrice(x + y)
  {
    SanitizeDropsNonPriceChar(x, c, y);
  }

  /** A thousands separator does not change the price. */
  lemma ParsePriceIgnoresComma(x: string, y: string)
    ensures ParsePrice(x + "," + y) == ParsePrice(x + y)
  {
    ParsePriceIgnoresNonPriceChar(x, ',', y);
  }

  lemma ShiftDigit(xv: int, p: int, yv: int, c: int)
    ensures (xv * p + yv) * 10 + c == xv * (10 * p) + (yv * 10 + c)
  {
  }

  /** Digits written after other digits shift them by a power of ten. */
  lemma {:induction false} DigitsValueAppend(x: string, y: string)
    requires AllDigits(x) && AllDigits(y)
    ensures AllDigits(x + y)
    ensures DigitsValue(x + y) == DigitsValue(x) * Pow10(|y|) + DigitsValue(y)
    decreases |y|
  {
    assert AllDigits(x + y) by {
      forall i | 0 <= i < |x + y|
        ensures IsDigit((x + y)[i])
      {
        if i >= |x| { assert (x + y)[i] == y[i - |x|]; }
      }
    }
    if y == [] {
      assert x + y == x;
    } else {
      var y' := y[..|y| - 1];
      var c := y[|y| - 1] as int - '0' as int;
      assert (x + y)[..|x + y| - 1] == x + y';
      assert (x + y)[|x + y| - 1] == y[|y| - 1];
      assert AllDigits(y');
      DigitsValueAppend(x, y');
      var xv, p, yv := DigitsValue(x), Pow10(|y'|), DigitsValue(y');
      assert DigitsValue(x + y) == DigitsValue(x + y') * 10 + c;
      assert DigitsValue(y) == yv * 10 + c;
      assert Pow10(|y|) == 10 * p;
      ShiftDigit(xv, p, yv, c);
    }
  }

  /** The listed price form: a whole part with a thousands separator, then
      cents, as in `1,250.00`. The separator is skipped, so the price is the
      decimal number whose whole part is the two digit groups read as one. */
  lemma ParsePriceWithThousands(w: string, b: string, d: string)
    requires AllDigits(w) && |w| > 0 && AllDigits(b) && AllDigits(d)
    ensures AllDigits(w + b)
    ensures DigitsValue(w + b) == DigitsValue(w) * Pow10(|b|) + DigitsValue(b)
    ensures ParsePrice(w + "," + b + "." + d) == DecimalValue(w + b, d)
  {
    var listed := w + "," + b + "." + d;
    var wb := w + b;
    var plain := wb + "." + d;
    assert listed == w + "," + (b + "." + d);
    assert plain == w + (b + "." + d);
    ParsePriceIgnoresComma(w, b + "." + d);
    DigitsValueAppend(w, b);
    ParseFloatDecimal(wb, d);
    ParsePriceOfPriceString(plain, DecimalValue(wb, d));
  }

  // ------------------------------------------------------------ the filter

  /** The price-range bucket test: the three buckets are inclusive at both
      ends, and any other range value accepts every price. */
  function InRange(price: real, range: string): bool {
    if range == "0-999" then price <= 999.0
    else if range == "1000-2999" then 1000.0 <= price <= 2999.0
    else if range == "3000+" then price >= 3000.0
    else true
  }

  /** Every whole-peso price lies in exactly one of the three buckets. */
  lemma WholePriceInOneBucket(n: nat)
    ensures InRange(n as real, "0-999") || InRange(n as real, "1000-2999") || InRange(n as real, "3000+")
    ensures !(InRange(n as real, "0-999") && InRange(n as real, "1000-2999"))
    ensures !(InRange(n as real, "1000-2999") && InRange(n as real, "3000+"))
    ensures !(InRange(n as real, "0-999") && InRange(n as real, "3000+"))
  {
  }

  /** Prices strictly between two buckets' bounds, such as 999.50, are in none. */
  lemma FractionalPriceBetweenBuckets()
    ensures !InRange(999.5, "0-999") && !InRange(999.5, "1000-2999") && !InRange(999.5, "3000+")
    ensures !InRange(2999.5, "1000-2999") && !InRange(2999.5, "3000+")
  {
  }

  /** A service as the filter sees it: the row, its position in the source
      list, its lower-cased name and its parsed price. */
  datatype PricedRow = PricedRow(row: ServiceRow, index: nat, serviceLower: string, priceValue: real)

  /** The rows the price list filters: each source row with its position,
      its lower-cased service name and its parsed price. */
  function PricedRows(rows: seq<ServiceRow>): seq<PricedRow> {
    seq(|rows|, i requires 0 <= i < |rows| => PricedRow(rows[i], i, ToLower(rows[i].service), ParsePrice(rows[i].price)))
  }

  /** The query the search box yields: trimmed and lower-cased. */
  function SearchQuery(searchValue: string): string {
    ToLower(Trim(searchValue))
  }

  /** The range the select yields; an empty value counts as `all`. */
  function RangeValue(selectValue: string): string {
    if selectValue == "" then "all" else selectValue
  }

  /** Search inputs that differ only in the case of ASCII letters filter alike. */
  lemma SearchIgnoresCase(a: string, b: string)
    requires |a| == |b| && forall i :: 0 <= i < |a| ==> LowerChar(a[i]) == LowerChar(b[i])
    ensures SearchQuery(a) == SearchQuery(b)
  {
    assert ToLower(a) == ToLower(b);
    TrimLowerCommute(a);
    TrimLowerCommute(b);
  }

  predicate Keeps(item: PricedRow, query: string, range: string) {
    (query == "" || Contains(item.serviceLower, query)) && InRange(item.priceValue, range)
  }

  /** The rows the filter keeps, in their source order. */
  function Filtered(items: seq<PricedRow>, query: string, range: string): seq<PricedRow> {
    if items == [] then []
    else (if Keeps(items[0], query, range) then [items[0]] else []) + Filtered(items[1..], query, range)
  }

  /** A row is shown exactly when it is in the list and passes both tests. */
  lemma {:induction false} FilteredMembers(items: seq<PricedRow>, query: string, range: string)
    ensures |Filtered(items, query, range)| <= |items|
    ensures forall x :: x in Filtered(items, query, range) <==> x in items && Keeps(x, query, range)
    decreases |items|
  {
    if items != [] {
      FilteredMembers(items[1..], query, range);
      assert items == [items[0]] + items[1..];
    }
  }

  /** Filtering keeps the rows in order: strictly increasing positions stay so. */
  lemma {:induction false} FilteredKeepsOrder(items: seq<PricedRow>, query: string, range: string)
    requires forall j, k :: 0 <= j < k < |items| ==> items[j].index < items[k].index
    ensures var out := Filtered(items, query, range);
      forall j, k :: 0 <= j < k < |out| ==> out[j].index < out[k].index
    decreases |items|
  {
    if items != [] {
      var rest := Filtered(items[1..], query, range);
      FilteredKeepsOrder(items[1..], query, range);
      FilteredMembers(items[1..], query, range);
      forall x | x in rest
        ensures items[0].index < x.index
      {
        var k :| 0 <= k < |items[1..]| && items[1..][k] == x;
        assert items[k + 1] == x;
      }
    }
  }

  /** The shown rows are an ordered subsequence of the source list: each is
      the source row at its recorded position, and the positions increase.
      So the sort by position the page applies leaves them as they are. */
  lemma FilteredIsOrderedSubsequence(rows: seq<ServiceRow>, query: string, range: string)
    ensures var items := PricedRows(rows);
      var out := Filtered(items, query, range);
      && (forall j :: 0 <= j < |out| ==> out[j].index < |rows| && items[out[j].index] == out[j])
      && (forall j, k :: 0 <= j < k < |out| ==> out[j].index < out[k].index)
  {
    var items := PricedRows(rows);
    FilteredKeepsOrder(items, query, range);
    FilteredMembers(items, query, range);
    var out := Filtered(items, query, range);
    forall j | 0 <= j < |out|
      ensures out[j].index < |rows| && items[out[j].index] == out[j]
    {
      assert out[j] in items;
      var i :| 0 <= i < |items| && items[i] == out[j];
    }
  }

  /** Every shown row matches the query (case-insensitively, by its
      lower-cased name) and lies in the chosen range; every such row is shown. */
  lemma ShownRowsMatch(rows: seq<ServiceRow>, searchValue: string, selectValue: string, x: PricedRow)
    ensures var query := SearchQuery(searchValue);
      var range := RangeValue(selectValue);
      x in Filtered(PricedRows(rows), query, range) <==>
        x in PricedRows(rows) &&
        (query == "" || Contains(ToLower(x.row.service), query)) &&
        InRange(ParsePrice(x.row.price), range)
  {
    var items := PricedRows(rows);
    FilteredMembers(items, SearchQuery(searchValue), RangeValue(selectValue));
    if x in items {
      var i :| 0 <= i < |items| && items[i] == x;
    }
  }

  /** An empty query with a range that is not a bucket shows the whole list. */
  lemma {:induction false} FilteredEverything(items: seq<PricedRow>, range: string)
    requires range != "0-999" && range != "1000-2999" && range != "3000+"
    ensures Filtered(items, "", range) == items
    decreases |items|
  {
    if items != [] {
      FilteredEverything(items[1..], range);
    }
  }

  // ------------------------------------------------------------ rendering

  datatype Padding = Py3 | Py4

  function PaddingClass(p: Padding): string {
    match p
    case Py3 => "py-3"
    case Py4 => "py-4"
  }

  /** A table cell's class, text and column span. */
  datatype Cell = Cell(className: string, text: string, colSpan: nat)
  datatype TableRow = TableRow(className: string, cells: seq<Cell>)

  /** String.prototype.replace with a string pattern: the first occurrence is replaced. */
  function ReplaceFirst(s: string, pat: string, rep: string): string
    decreases |s|
  {
    if StartsWith(s, pat) then rep + s[|pat|..]
    else if s == [] then []
    else [s[0]] + ReplaceFirst(s[1..], pat, rep)
  }

  /** When the pattern's first character does not occur before it, the
      pattern is replaced where it stands. */
  lemma {:induction false} ReplaceFirstAt(a: string, pat: string, b: string, rep: string)
    requires |pat| > 0 && forall i :: 0 <= i < |a| ==> a[i] != pat[0]
    ensures ReplaceFirst(a + pat + b, pat, rep) == a + rep + b
    decreases |a|
  {
    var s := a + pat + b;
    if a == [] {
      assert s == pat + b && s[..|pat|] == pat && s[|pat|..] == b;
    } else {
      assert s[0] == a[0] != pat[0];
      assert s[1..] == a[1..] + pat + b;
      ReplaceFirstAt(a[1..], pat, b, rep);
    }
  }

  function CellClass(template: string, p: Padding): string {
    ReplaceFirst(template, PADDING_TOKEN, PaddingClass(p))
  }

  /** The padding class takes the place of the placeholder in both cell templates. */
  lemma CellClassesFilled(p: Padding)
    ensures CellClass(SERVICE_CELL_CLASS, p) == "px-6 " + PaddingClass(p) + " text-gray-700"
    ensures CellClass(PRICE_CELL_CLASS, p) == "px-6 " + PaddingClass(p) + " text-right font-medium text-gray-900"
  {
    ReplaceFirstAt("px-6 ", PADDING_TOKEN, " text-gray-700", PaddingClass(p));
    ReplaceFirstAt("px-6 ", PADDING_TOKEN, " text-right font-medium text-gray-900", PaddingClass(p));
  }

  /** createTableRow. */
  function CreateTableRow(item: ServiceRow, p: Padding): TableRow {
    TableRow(ROW_CLASS, [
      Cell(CellClass(SERVICE_CELL_CLASS, p), item.service, 1),
      Cell(CellClass(PRICE_CELL_CLASS, p), [PESO] + item.price, 1)
    ])
  }

  /** A rendered row shows the service name and the peso-prefixed price, the
      shown price reads as the same number as the row's price, and both cells
      carry the requested padding. */
  lemma TableRowShowsItem(item: ServiceRow, p: Padding)
    ensures var r := CreateTableRow(item, p);
      && |r.cells| == 2 && r.className == ROW_CLASS
      && r.cells[0].text == item.service
      && r.cells[1].text == [PESO] + item.price
      && ParsePrice(r.cells[1].text) == ParsePrice(item.price)
      && r.cells[0].className == "px-6 " + PaddingClass(p) + " text-gray-700"
      && r.cells[1].className == "px-6 " + PaddingClass(p) + " text-right font-medium text-gray-900"
  {
    CellClassesFilled(p);
    SanitizePeso();
    SanitizeAppend([PESO], item.price);
    assert Sanitize([PESO] + item.price) == Sanitize(item.price);
  }

  function RowsFor(items: seq<ServiceRow>, p: Padding): seq<TableRow> {
    seq(|items|, i requires 0 <= i < |items| => CreateTableRow(items[i], p))
  }

  /** renderRows: one row per item, in order, appended to a fragment. */
  method BuildRows(items: seq<ServiceRow>, p: Padding) returns (fragment: seq<TableRow>)
    ensures fragment == RowsFor(items, p)
  {
    fragment := [];
    var i := 0;
    while i < |items|
      invariant 0 <= i <= |items|
      invariant fragment == RowsFor(items[..i], p)
    {
      fragment := fragment + [CreateTableRow(items[i], p)];
      i := i + 1;
    }
    assert items[..i] == items;
  }

  /** The single placeholder row shown when nothing matches. */
  const EMPTY_ROW := TableRow("", [Cell(EMPTY_CELL_CLASS, EMPTY_TEXT, 2)])

  function RowsOf(shown: seq<PricedRow>): seq<ServiceRow> {
    seq(|shown|, i requires 0 <= i < |shown| => shown[i].row)
  }

  /** The table body after a filter pass. */
  function BodyFor(shown: seq<PricedRow>): seq<TableRow> {
    if shown == [] then [EMPTY_ROW] else RowsFor(RowsOf(shown), Py3)
  }

  /** An empty result renders exactly the placeholder; otherwise one row per
      shown service, in order, each naming that service. */
  lemma BodyShowsResult(shown: seq<PricedRow>)
    ensures shown == [] ==> BodyFor(shown) == [EMPTY_ROW]
    ensures shown != [] ==> |BodyFor(shown)| == |shown|
    ensures shown != [] ==> forall i :: 0 <= i < |shown| ==>
      BodyFor(shown)[i].cells[0].text == shown[i].row.service &&
      ParsePrice(BodyFor(shown)[i].cells[1].text) == ParsePrice(shown[i].row.price)
  {
    if shown != [] {
      forall i | 0 <= i < |shown|
        ensures ParsePrice(BodyFor(shown)[i].cells[1].text) == ParsePrice(shown[i].row.price)
      {
        TableRowShowsItem(shown[i].row, Py3);
      }
    }
  }

  /** The count label under the table. */
  function CountLabel(query: string, range: string, shown: nat, total: nat): string {
    if query == "" && range == "all" then "Showing all " + NatToString(total) + " services"
    else "Showing " + NatToString(shown) + " of " + NatToString(total) + " services"
  }

  /** The label never counts more shown rows than there are, and it says
      `all` only when every row is indeed shown. */
  lemma CountLabelIsAccurate(rows: seq<ServiceRow>, query: string, range: string)
    ensures |Filtered(PricedRows(rows), query, range)| <= |rows|
    ensures query == "" && range == "all" ==> Filtered(PricedRows(rows), query, range) == PricedRows(rows)
  {
    FilteredMembers(PricedRows(rows), query, range);
    if query == "" && range == "all" {
      FilteredEverything(PricedRows(rows), range);
    }
  }

  /** The price list of setupPricelistFilters: the priced rows, whether the
      count label exists, the table body and the label's text. */
  class PriceList {
    const items: seq<PricedRow>
    const hasLabel: bool
    var body: seq<TableRow>
    var countText: string

    /** Set-up, which ends with a first filter pass over the initial inputs. */
    constructor (rows: seq<ServiceRow>, hasLabel: bool, countText: string, searchValue: string, selectValue: string)
      ensures items == PricedRows(rows) && this.hasLabel == hasLabel
      ensures Shows(searchValue, selectValue, countText)
    {
      items := PricedRows(rows);
      this.hasLabel := hasLabel;
      this.countText := countText;
      body := [];
      new;
      ApplyFilters(searchValue, selectValue);
    }

    /** The body and label after a filter pass over the given inputs, the
        label keeping `text0` when there is no label element. */
    ghost predicate Shows(searchValue: string, selectValue: string, text0: string)
      reads this
    {
      var query := SearchQuery(searchValue);
      var range := RangeValue(selectValue);
      var shown := Filtered(items, query, range);
      && body == BodyFor(shown)
      && countText == (if hasLabel then CountLabel(query, range, |shown|, |items|) else text0)
    }

    /** applyFilters, run on every input and change event. */
    method ApplyFilters(searchValue: string, selectValue: string)
      modifies this`body, this`countText
      ensures Shows(searchValue, selectValue, old(countText))
    {
      var query := SearchQuery(searchValue);
      var range := RangeValue(selectValue);
      var filtered := Filtered(items, query, range);
      if |filtered| == 0 {
        body := [EMPTY_ROW];
      } else {
        // the sort by index is the identity here: see FilteredIsOrderedSubsequence
        var ordered := filtered;
        body := BuildRows(RowsOf(ordered), Py3);
      }
      if hasLabel {
        countText := CountLabel(query, range, |filtered|, |items|);
      }
    }
  }

  /** setupHomeServicesTable: the home-services rows with the larger padding. */
  method RenderHomeServices(rows: seq<ServiceRow>) returns (body: seq<TableRow>)
    ensures |body| == |rows|
    ensures forall i :: 0 <= i < |rows| ==> body[i] == CreateTableRow(rows[i], Py4)
  {
    body := BuildRows(rows, Py4);
  }
}
