/** The product catalog (`product_df`) as the data manager reads it:
    first-match lookup by id and the price extractor. */
module Catalog {
  import opened Common
  import opened Lists

  /** A catalog row: column name to cell. */
  type Product = Fields

  const PriceColumn: string := "priceAndDiscount"

  /** `row['id'] == product_id`: the cell must hold that very string (an id
      column read as numbers never equals a string id). */
  predicate HasId(p: Product, id: string) {
    "id" in p && p["id"] == Text(id)
  }

  function IdIs(id: string): Product -> bool {
    p => HasId(p, id)
  }

  /** The position of the first row whose id is `id`, if any. */
  function FirstMatch(catalog: seq<Product>, id: string): (r: Option<nat>)
    ensures r.Some? ==> r.value < |catalog| && HasId(catalog[r.value], id)
    ensures r.Some? ==> forall i :: 0 <= i < r.value ==> !HasId(catalog[i], id)
    ensures r.None? <==> forall i :: 0 <= i < |catalog| ==> !HasId(catalog[i], id)
  {
    FirstWhere(catalog, IdIs(id))
  }

  /** `DataManager.get_product_info`: the first row with the id, or None. */
  function ProductInfo(catalog: seq<Product>, id: string): (r: Option<Product>)
    ensures r.None? <==> forall i :: 0 <= i < |catalog| ==> !HasId(catalog[i], id)
    ensures r.Some? ==> HasId(r.value, id)
    ensures r.Some? ==> exists k :: 0 <= k < |catalog| && catalog[k] == r.value &&
                                    forall i :: 0 <= i < k ==> !HasId(catalog[i], id)
  {
    match FirstMatch(catalog, id)
    case None => None
    case Some(k) => Some(catalog[k])
  }

  /** The row-by-row search with early exit in `get_similar_products`. */
  method FindProductIndex(catalog: seq<Product>, id: string) returns (index: Option<nat>)
    ensures index == FirstMatch(catalog, id)
  {
    index := None;
    var i := 0;
    while i < |catalog|
      invariant 0 <= i <= |catalog|
      invariant forall j :: 0 <= j < i ==> !HasId(catalog[j], id)
    {
      if HasId(catalog[i], id) {
        index := Some(i);
        break;
      }
      i := i + 1;
    }
  }

  // ---------------------------------------------------------------------
  // Prices

  /** `s.replace(pat, '')`: removes the occurrences of `pat` found scanning
      left to right, without rescanning what the removal joins together. */
  function RemoveAll(s: string, pat: string): string
    requires |pat| > 0
    decreases |s|
  {
    if |s| < |pat| then s
    else if s[..|pat|] == pat then RemoveAll(s[|pat|..], pat)
    else [s[0]] + RemoveAll(s[1..], pat)
  }

  /** The text `float()` is given: the currency code and thousands
      separators removed. */
  function StripPrice(s: string): string {
    RemoveAll(RemoveAll(s, "Ugx"), ",")
  }

  predicate IsSpace(c: char) {
    c == ' ' || c == '\t' || c == '\n' || c == '\r' || c as int == 11 || c as int == 12
  }

  /** `s` without its leading white space: a suffix of `s` that starts with
      no white space, after a prefix that is all white space. */
  function TrimStart(s: string): (r: string)
    ensures |r| <= |s| && r == s[|s| - |r|..]
    ensures r == [] || !IsSpace(r[0])
    ensures forall i :: 0 <= i < |s| - |r| ==> IsSpace(s[i])
  {
    if s != [] && IsSpace(s[0]) then TrimStart(s[1..]) else s
  }

  /** `s` without its trailing white space: a prefix of `s` that ends with
      no white space, before a suffix that is all white space. */
  function TrimEnd(s: string): (r: string)
    ensures |r| <= |s| && r == s[..|r|]
    ensures r == [] || !IsSpace(r[|r| - 1])
    ensures forall i :: |r| <= i < |s| ==> IsSpace(s[i])
  {
    if s != [] && IsSpace(s[|s| - 1]) then TrimEnd(s[..|s| - 1]) else s
  }

  /** The number of leading decimal digits of `s`. */
  function DigitRun(s: string): (n: nat)
    ensures n <= |s| && AllDigits(s[..n])
    ensures n < |s| ==> !IsDigit(s[n])
  {
    if s != [] && IsDigit(s[0]) then
      var n := 1 + DigitRun(s[1..]);
      assert s[..n] == [s[0]] + s[1..][..n - 1];
      n
    else 0
  }

  /** `digits [ '.' digits ]` with at least one digit in all. */
  function ParseUnsigned(s: string): Option<real> {
    var n := DigitRun(s);
    var whole := DigitsValue(s[..n]) as real;
    if n == |s| then
      (if n > 0 then Some(whole) else None)
    else if s[n] != '.' then None
    else
      var frac := s[n + 1..];
      if !AllDigits(frac) || (n == 0 && frac == []) then None
      else Some(whole + DigitsValue(frac) as real / Pow10(|frac|) as real)
  }

  /** Python's `float(text)` over the decimal grammar: surrounding white
      space, an optional sign, then `ParseUnsigned`; None where Python raises
      ValueError. */
  function ParseFloat(text: string): Option<real> {
    var t := TrimEnd(TrimStart(text));
    if t != [] && (t[0] == '-' || t[0] == '+') then
      match ParseUnsigned(t[1..])
      case None => None
      case Some(x) => Some(if t[0] == '-' then -x else x)
    else ParseUnsigned(t)
  }

  /** `DataManager.extract_price`: never raises; every failure is 0.0. */
  function ExtractPrice(p: Product): (price: real)
    ensures PriceColumn !in p ==> price == 0.0
    ensures PriceColumn in p && !p[PriceColumn].Text? ==> price == 0.0
    ensures PriceColumn in p && p[PriceColumn].Text? && ParseFloat(StripPrice(p[PriceColumn].s)).None? ==> price == 0.0
  {
    // A missing column reads as '0', which parses to 0.0.
    if PriceColumn !in p then 0.0
    else match p[PriceColumn]
      case Text(s) => ParseFloat(StripPrice(s)).GetOr(0.0)
      case _ => 0.0
  }

  // ---------------------------------------------------------------------
  // Prices as the catalog writes them: "Ugx 1,250,000"

  /** `n` with a comma between each group of three digits. */
  function GroupThousands(n: nat): string {
    if n < 1000 then NatToDigits(n) else GroupThousands(n / 1000) + "," + Pad(n % 1000, 3)
  }

  predicate DigitsOrCommas(s: string) {
    forall i :: 0 <= i < |s| ==> IsDigit(s[i]) || s[i] == ','
  }

  lemma {:induction false} RemoveCharConcat(a: string, b: string, c: char)
    ensures RemoveAll(a + b, [c]) == RemoveAll(a, [c]) + RemoveAll(b, [c])
  {
    if a == [] {
      assert a + b == b;
    } else {
      assert (a + b)[1..] == a[1..] + b;
      assert (a + b)[..1] == a[..1];
      RemoveCharConcat(a[1..], b, c);
    }
  }

  lemma {:induction false} RemoveCharAbsent(s: string, c: char)
    requires c !in s
    ensures RemoveAll(s, [c]) == s
  {
    if s != [] {
      assert s[..1] == [s[0]];
      RemoveCharAbsent(s[1..], c);
    }
  }

  /** After `replace(',', '')` no comma is left. */
  lemma {:induction false} RemoveCharGone(s: string, c: char)
    ensures c !in RemoveAll(s, [c])
  {
    if s != [] {
      assert s[..1] == [s[0]];
      RemoveCharGone(s[1..], c);
    }
  }

  /** The text handed to `float()` never contains a thousands separator. */
  lemma StripPriceNoCommas(s: string)
    ensures ',' !in StripPrice(s)
  {
    RemoveCharGone(RemoveAll(s, "Ugx"), ',');
  }

  lemma {:induction false} RemoveAbsentHead(s: string, pat: string)
    requires |pat| > 0 && pat[0] !in s
    ensures RemoveAll(s, pat) == s
    decreases |s|
  {
    if |s| >= |pat| {
      assert s[..|pat|][0] == s[0];
      RemoveAbsentHead(s[1..], pat);
    }
  }

  lemma {:induction false} RemoveCommasLeavesDigits(s: string)
    requires DigitsOrCommas(s)
    ensures AllDigits(RemoveAll(s, ","))
  {
    if s != [] {
      assert s[..1] == [s[0]];
      RemoveCommasLeavesDigits(s[1..]);
    }
  }

  lemma {:induction false} GroupThousandsChars(n: nat)
    ensures GroupThousands(n) != [] && DigitsOrCommas(GroupThousands(n))
  {
    var g := GroupThousands(n);
    if n >= 1000 {
      var hi, lo := GroupThousands(n / 1000), Pad(n % 1000, 3);
      GroupThousandsChars(n / 1000);
      assert g == hi + "," + lo;
      forall i | 0 <= i < |g| ensures IsDigit(g[i]) || g[i] == ',' {
        if i < |hi| { assert g[i] == hi[i]; } else if i > |hi| { assert g[i] == lo[i - |hi| - 1]; }
      }
    }
  }

  /** Removing the commas from `hi + "," + lo`, where `lo` has none, joins
      what is left of `hi` to `lo`. */
  lemma CommaJoin(hi: string, lo: string)
    requires ',' !in lo
    ensures RemoveAll(hi + "," + lo, ",") == RemoveAll(hi, ",") + lo
  {
    assert hi + "," + lo == hi + ("," + lo);
    RemoveCharConcat(hi, "," + lo, ',');
    assert ("," + lo)[..1] == ",";
    assert ("," + lo)[1..] == lo;
    RemoveCharAbsent(lo, ',');
  }

  lemma SplitThousands(n: nat)
    ensures (n / 1000) * 1000 + n % 1000 == n
  {
  }

  /** Removing the commas from one more group of three digits reads back the
      number. */
  lemma GroupStep(hi: string, lo: string, n: nat)
    requires n >= 1000 && hi == GroupThousands(n / 1000) && lo == Pad(n % 1000, 3)
    requires AllDigits(RemoveAll(hi, ",")) && DigitsValue(RemoveAll(hi, ",")) == n / 1000
    ensures RemoveAll(hi + "," + lo, ",") == RemoveAll(hi, ",") + lo
    ensures DigitsValue(RemoveAll(hi + "," + lo, ",")) == n
  {
    assert ',' !in lo by {
      forall i | 0 <= i < |lo| ensures lo[i] != ',' {
        assert IsDigit(lo[i]);
      }
    }
    CommaJoin(hi, lo);
    DigitsValueConcat(RemoveAll(hi, ","), lo);
    PadValue(n % 1000, 3);
    assert Pow10(3) == 1000;
    SplitThousands(n);
  }

  /** Removing the commas from a grouped number leaves its decimal digits. */
  lemma {:induction false} GroupThousandsValue(n: nat)
    ensures GroupThousands(n) != [] && DigitsOrCommas(GroupThousands(n))
    ensures AllDigits(RemoveAll(GroupThousands(n), ",")) && RemoveAll(GroupThousands(n), ",") != []
    ensures DigitsValue(RemoveAll(GroupThousands(n), ",")) == n
  {
    var g := GroupThousands(n);
    GroupThousandsChars(n);
    RemoveCommasLeavesDigits(g);
    if n < 1000 {
      RemoveCharAbsent(g, ',');
      DigitsRoundTrip(n);
    } else {
      GroupThousandsValue(n / 1000);
      GroupStep(GroupThousands(n / 1000), Pad(n % 1000, 3), n);
    }
  }

  /** A space followed by a run of digits parses to the digits' decimal
      value. */
  lemma {:induction false} DigitsParse(d: string)
    requires AllDigits(d) && d != []
    ensures ParseFloat(" " + d) == Some(DigitsValue(d) as real)
  {
    TrimDigits(d);
    assert DigitRun(d) == |d|;
    assert d[..|d|] == d;
  }

  /** Trimming leaves a run of digits after one space as the digits. */
  lemma TrimDigits(d: string)
    requires AllDigits(d) && d != []
    ensures TrimEnd(TrimStart(" " + d)) == d
  {
    var t := " " + d;
    assert t[0] == ' ' && t[1..] == d;
    assert IsDigit(d[0]) && IsDigit(d[|d| - 1]);
    assert TrimStart(d) == d;
    assert TrimStart(t) == d;
    assert TrimEnd(d) == d;
  }

  /** Stripping "Ugx" and the commas from "Ugx " followed by digits and
      commas leaves a space and the digits. */
  lemma StripFormatted(g: string)
    requires DigitsOrCommas(g)
    ensures StripPrice("Ugx " + g) == " " + RemoveAll(g, ",")
  {
    var s := "Ugx " + g;
    assert s[..3] == "Ugx";
    assert s[3..] == " " + g;
    assert RemoveAll(s, "Ugx") == RemoveAll(" " + g, "Ugx");
    assert 'U' !in " " + g by {
      forall i | 0 <= i < |" " + g| ensures (" " + g)[i] != 'U' {
        if i > 0 { assert (" " + g)[i] == g[i - 1]; }
      }
    }
    RemoveAbsentHead(" " + g, "Ugx");
    RemoveCharConcat(" ", g, ',');
    assert RemoveAll(" ", ",") == " ";
  }

  /** A price written as the catalog writes it, "Ugx" and a space before a
      number grouped by commas, extracts to that number. */
  lemma FormattedPriceRoundTrip(n: nat)
    ensures ExtractPrice(map[PriceColumn := Text("Ugx " + GroupThousands(n))]) == n as real
  {
    var g := GroupThousands(n);
    GroupThousandsValue(n);
    StripFormatted(g);
    DigitsParse(RemoveAll(g, ","));
  }
}
