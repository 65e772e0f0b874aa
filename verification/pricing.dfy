/** The pricing page's price arithmetic. */
module Pricing {
  import opened Wrappers
  import LanguageContext

  datatype Billing = Monthly | Yearly

  /** The four tier cards, in page order. */
  datatype Tier = StarterTier | ProfessionalTier | BusinessTier | CorporateTier

  /** The card id, also the translation key under `pricing.tiers`: a single non-empty path segment. */
  function TierId(t: Tier): (r: string)
    ensures r != [] && '.' !in r
  {
    match t
    case StarterTier => "starter"
    case ProfessionalTier => "professional"
    case BusinessTier => "business"
    case CorporateTier => "corporate"
  }

  /** Distinct cards look up distinct translation keys. */
  lemma TierIdInjective(t1: Tier, t2: Tier)
    ensures TierId(t1) == TierId(t2) <==> t1 == t2
  {
  }

  /** A tier card's `t(`pricing.tiers.${id}`)` returns the tier's whole sub-table whenever the
      current language's table holds one under that id. */
  lemma TierCardReadsItsTable(tables: LanguageContext.Translations, lang: LanguageContext.Lang, t: Tier,
                              tier: map<string, LanguageContext.Node>)
    requires LanguageContext.Resolve(LanguageContext.Table(tables, lang), ["pricing", "tiers", TierId(t)])
             == Some(LanguageContext.Branch(tier))
    ensures LanguageContext.T(tables, lang, "pricing.tiers." + TierId(t)) == LanguageContext.Branch(tier)
  {
    LanguageContext.TierCardLookup(tables, lang, TierId(t), tier);
  }

  /** Base monthly prices in dollars. */
  function BasePrice(t: Tier): (r: nat)
    ensures t == StarterTier ==> r == 12
    ensures t == ProfessionalTier ==> r == 35
    ensures t == BusinessTier ==> r == 89
    ensures t == CorporateTier ==> r == 249
  {
    match t
    case StarterTier => 12
    case ProfessionalTier => 35
    case BusinessTier => 89
    case CorporateTier => 249
  }

  /** The effective monthly price shown on a card. Yearly billing shows `Math.round(base * 10 / 12)`,
      the integer nearest to ten twelfths of the base with halves rounded up; for an integer base
      this is `(10 * base + 6) div 12` (Dafny's division floors for a positive divisor). */
  function GetPrice(billing: Billing, base: int): (r: int)
    ensures billing == Monthly ==> r == base
    ensures billing == Yearly ==> 12 * r - 6 <= 10 * base < 12 * r + 6
  {
    if billing == Monthly then base else (10 * base + 6) / 12
  }

  /** The yearly total under a card: ten monthly payments, so two of twelve months are free. */
  function YearlyBilledTotal(base: int): (r: int)
    ensures r + 2 * base == 12 * GetPrice(Monthly, base)
  {
    base * 10
  }

  /** For a non-negative base the yearly effective price never exceeds the monthly one. */
  lemma YearlyNeverExceedsMonthly(base: int)
    requires base >= 0
    ensures GetPrice(Yearly, base) <= GetPrice(Monthly, base)
  {
  }

  /** Twelve effective yearly prices are within six dollars of the billed yearly total. */
  lemma YearlyPriceMatchesTotal(base: int)
    ensures -6 <= 12 * GetPrice(Yearly, base) - YearlyBilledTotal(base) <= 6
  {
  }

  /** The four cards under yearly billing show 10, 29, 74 and 208; 249 gives 207.5, rounded up. */
  lemma YearlyTable()
    ensures GetPrice(Yearly, BasePrice(StarterTier)) == 10
    ensures GetPrice(Yearly, BasePrice(ProfessionalTier)) == 29
    ensures GetPrice(Yearly, BasePrice(BusinessTier)) == 74
    ensures GetPrice(Yearly, BasePrice(CorporateTier)) == 208
    ensures 2 * (10 * BasePrice(CorporateTier)) == 12 * 415
  {
  }
}
