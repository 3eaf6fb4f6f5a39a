/**
 * The signal classifier: where the latest price sits relative to the volatility bands,
 * the momentum (RSI) annotation, and the key under which an alert is deduplicated.
 */
module Signal {
  import opened Wrappers
  import Settings

  /** Alert categories, named after the tags the bot writes into its keys. */
  datatype Category = SellCritical | SellNormal | BuyCritical | BuyNormal

  /** The tag of a category inside an alert key. */
  function Tag(c: Category): (r: string)
    ensures |r| == 10 || |r| == 11
  {
    match c
    case SellCritical => "VENDA_CRIT"
    case SellNormal => "VENDA_NORM"
    case BuyCritical => "COMPRA_CRIT"
    case BuyNormal => "COMPRA_NORM"
  }

  /** Sell tags are `VENDA_` plus four letters, buy tags `COMPRA_` plus four, and exactly the critical ones end in `CRIT`. */
  lemma TagSpelling(c: Category)
    ensures c == SellCritical || c == SellNormal ==> |Tag(c)| == 10 && Tag(c)[..6] == "VENDA_"
    ensures c == BuyCritical || c == BuyNormal ==> |Tag(c)| == 11 && Tag(c)[..7] == "COMPRA_"
    ensures (c == SellCritical || c == BuyCritical) <==> Tag(c)[|Tag(c)| - 4..] == "CRIT"
  {
  }

  /** The order in which categories are tried; the first one whose threshold holds wins. */
  const Precedence: seq<Category> := [SellCritical, SellNormal, BuyCritical, BuyNormal]

  /** The critical sell level, 2% above the upper band: above the band for a positive band. */
  function CriticalUpper(upper: real): (r: real)
    ensures upper > 0.0 ==> r > upper
    ensures upper == 0.0 ==> r == 0.0
    ensures upper < 0.0 ==> r < upper
  {
    upper * (1.0 + Settings.ExtraFraction)
  }

  /** The critical buy level, 2% below the lower band: between zero and the band for a positive band. */
  function CriticalLower(lower: real): (r: real)
    ensures lower > 0.0 ==> 0.0 < r < lower
    ensures lower == 0.0 ==> r == 0.0
    ensures lower < 0.0 ==> lower < r < 0.0
  {
    lower * (1.0 - Settings.ExtraFraction)
  }

  /** The threshold test of one category, taken on its own. */
  predicate Triggers(c: Category, price: real, upper: real, lower: real)
  {
    match c
    case SellCritical => price >= CriticalUpper(upper)
    case SellNormal => price >= upper
    case BuyCritical => price <= CriticalLower(lower)
    case BuyNormal => price <= lower
  }

  /** Reference definition: the first category of `order` whose threshold holds. */
  function FirstTriggered(order: seq<Category>, price: real, upper: real, lower: real): Option<Category>
  {
    if order == [] then None
    else if Triggers(order[0], price, upper, lower) then Some(order[0])
    else FirstTriggered(order[1..], price, upper, lower)
  }

  /** The if/elif chain over the latest price, the bands and their critical levels. */
  function Classify(price: real, upper: real, lower: real): (r: Option<Category>)
    ensures r.Some? ==> Triggers(r.value, price, upper, lower)
    ensures r.None? ==> forall c :: !Triggers(c, price, upper, lower)
  {
    var criticalUpper := CriticalUpper(upper);
    var criticalLower := CriticalLower(lower);
    if price >= criticalUpper then Some(SellCritical)
    else if price >= upper then Some(SellNormal)
    else if price <= criticalLower then Some(BuyCritical)
    else if price <= lower then Some(BuyNormal)
    else None
  }

  /** The chain is exactly "first match in precedence order": at most one category, never a later one. */
  lemma ClassifyIsFirstInPrecedence(price: real, upper: real, lower: real)
    ensures Classify(price, upper, lower) == FirstTriggered(Precedence, price, upper, lower)
  {
    var p0, p1, p2, p3 := Precedence, [SellNormal, BuyCritical, BuyNormal], [BuyCritical, BuyNormal], [BuyNormal];
    assert p0[1..] == p1 && p1[1..] == p2 && p2[1..] == p3 && p3[1..] == [];
    assert FirstTriggered(p3, price, upper, lower) == if price <= lower then Some(BuyNormal) else None;
    assert FirstTriggered(p2, price, upper, lower)
        == if price <= CriticalLower(lower) then Some(BuyCritical) else FirstTriggered(p3, price, upper, lower);
    assert FirstTriggered(p1, price, upper, lower)
        == if price >= upper then Some(SellNormal) else FirstTriggered(p2, price, upper, lower);
  }

  /** A price at or beyond the critical upper level is a critical sell, never a plain sell. */
  lemma CriticalSellWins(price: real, upper: real, lower: real)
    requires price >= CriticalUpper(upper)
    ensures Classify(price, upper, lower) == Some(SellCritical)
    ensures Triggers(SellNormal, price, upper, lower) || upper < 0.0
  {
  }

  /**
   * With non-negative bands, each category is the band region it names:
   * an alert fires exactly when the price is at or outside a band.
   */
  lemma ClassifyRegions(price: real, upper: real, lower: real)
    requires 0.0 <= lower && 0.0 <= upper
    ensures Classify(price, upper, lower).Some? <==> price >= upper || price <= lower
    ensures Classify(price, upper, lower) == Some(SellCritical) <==> price >= CriticalUpper(upper)
    ensures Classify(price, upper, lower) == Some(SellNormal) <==> upper <= price < CriticalUpper(upper)
    ensures Classify(price, upper, lower) == Some(BuyCritical) <==> price < upper && price <= CriticalLower(lower)
    ensures Classify(price, upper, lower) == Some(BuyNormal)
            <==> price < upper && CriticalLower(lower) < price <= lower
  {
  }

  /** Flat bands (zero deviation, price equal to the mean): the non-strict `>=` fires a plain sell. */
  lemma FlatBandsFireSell(price: real)
    requires price > 0.0
    ensures Classify(price, price, price) == Some(SellNormal)
  {
  }

  /** Upper band 100, critical level 102, price 103: a critical sell. */
  lemma CriticalSellExample(lower: real)
    ensures Classify(103.0, 100.0, lower) == Some(SellCritical)
  {
  }

  /** The oscillator value at the latest point; `Undefined` is the NaN of 0/0 when there were no moves at all. */
  datatype Oscillator = Reading(value: real) | Undefined

  /** The annotation appended to an alert message. */
  datatype RsiNote = Overbought | Oversold | NoNote

  function NoteFor(rsi: Oscillator): (r: RsiNote)
    ensures r == Overbought <==> rsi.Reading? && rsi.value > 70.0
    ensures r == Oversold <==> rsi.Reading? && rsi.value < 30.0
    ensures r == NoNote <==> rsi.Undefined? || 30.0 <= rsi.value <= 70.0
  {
    match rsi
    case Undefined => NoNote
    case Reading(v) =>
      if v > 70.0 then Overbought
      else if v < 30.0 then Oversold
      else NoNote
  }

  /** The deduplication key of an alert: ticker, underscore, category tag. */
  function AlertKey(ticker: string, c: Category): (k: string)
    ensures |k| == |ticker| + 1 + |Tag(c)|
    ensures k[..|ticker|] == ticker && k[|ticker|] == '_' && k[|ticker| + 1..] == Tag(c)
  {
    ticker + "_" + Tag(c)
  }

  /** A key ending in a tag shares the tag's last letter and tenth letter from the end. */
  lemma TagEndOfKey(k: string, start: nat, g: string)
    requires start <= |k| && k[start..] == g && |g| >= 10
    ensures k[|k| - 1] == g[|g| - 1] && k[|k| - 10] == g[|g| - 10]
  {
    assert k[|k| - 1] == k[start..][|g| - 1];
    assert k[|k| - 10] == k[start..][|g| - 10];
  }

  /** The last letter and the tenth letter from the end tell the four tags apart. */
  lemma TagEndDetermines(c1: Category, c2: Category)
    requires Tag(c1)[|Tag(c1)| - 1] == Tag(c2)[|Tag(c2)| - 1]
    requires Tag(c1)[|Tag(c1)| - 10] == Tag(c2)[|Tag(c2)| - 10]
    ensures c1 == c2
  {
  }

  /** Different (ticker, category) pairs never share a key, so their cooldowns are independent. */
  lemma AlertKeyInjective(t1: string, c1: Category, t2: string, c2: Category)
    requires AlertKey(t1, c1) == AlertKey(t2, c2)
    ensures t1 == t2 && c1 == c2
  {
    var k := AlertKey(t1, c1);
    TagEndOfKey(k, |t1| + 1, Tag(c1));
    TagEndOfKey(k, |t2| + 1, Tag(c2));
    TagEndDetermines(c1, c2);
    assert t1 == k[..|t1|] == t2;
  }

  /** Every alert key ends in a letter of its tag (`T` or `M`). */
  lemma AlertKeyLastChar(ticker: string, c: Category)
    ensures var k := AlertKey(ticker, c); k[|k| - 1] == 'T' || k[|k| - 1] == 'M'
  {
  }
}
