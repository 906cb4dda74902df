/** Vocabulary of the alert engine, and the inputs its rules look at. */
module AlertTypes {
  import opened Wrappers

  datatype AlertType =
    | SalesRevenueDrop
    | SalesOrdersDrop
    | SkuRevenueDrop
    | SkuNegativeContribution
    | StockLowCoverage
    | StockOosRisk
    | StockCriticalSkuLowStock
    | AdSpendWithoutResult
    | AdWeakCampaignEfficiency
    | AdBudgetOnLowStockSku
    | PriceBelowMinConstraint
    | PriceAboveMaxConstraint
    | MarginRiskAtCurrentPrice
    | MissingPricingConstraintsForKeySku

  datatype AlertGroup = Sales | Stock | Advertising | PriceEconomics

  datatype EntityType = Account | Sku | Product | Campaign

  datatype Severity = SeverityMedium | SeverityHigh | SeverityCritical

  datatype Urgency = UrgencyMedium | UrgencyHigh | UrgencyImmediate

  datatype AlertStatus = Open | Resolved | Dismissed

  /** The figures a rule records with its alert. */
  datatype Evidence =
    | SalesEvidence(currentRevenue: real, previousRevenue: real, currentOrders: int, previousOrders: int)
    | StockEvidence(daysOfCover: real, currentStock: int)
    | AdEvidence(campaignId: int, spend: real, orders: int, revenue: real)
    | PriceEvidence(currentPrice: real, minPrice: Option<real>, maxPrice: Option<real>, impliedCost: Option<real>)

  datatype RuleResult = RuleResult(
    alertType: AlertType,
    group: AlertGroup,
    entityType: EntityType,
    entityId: Option<string>,
    entitySku: Option<int>,
    entityOfferId: Option<string>,
    severity: Severity,
    urgency: Urgency,
    evidence: Evidence,
    fingerprint: string)

  datatype AccountDailyMetric = AccountDailyMetric(revenue: real, orders: int)

  datatype SkuDailyMetric = SkuDailyMetric(
    productId: int, sku: Option<int>, offerId: Option<string>, currentStock: int, daysOfCover: Option<real>,
    revenue: real, orders: int)

  datatype CampaignSummary = CampaignSummary(campaignId: int, spend: real, orders: int, revenue: real)

  datatype CampaignSkuLink = CampaignSkuLink(campaignId: int, productId: int, isActive: bool)

  datatype ProductRow = ProductRow(productId: int, sku: Option<int>, offerId: Option<string>,
                                   referencePrice: Option<real>)

  datatype EffectiveConstraint = EffectiveConstraint(
    productId: int, minPrice: Option<real>, maxPrice: Option<real>, impliedCost: Option<real>,
    sku: Option<int>, offerId: Option<string>)

  datatype PricingContext = PricingContext(
    productId: int, sku: Option<int>, offerId: Option<string>, referencePrice: Option<real>,
    minPrice: Option<real>, maxPrice: Option<real>, impliedCost: Option<real>,
    revenue: real, orders: int, hasConstraint: bool)

  function TypeName(t: AlertType): string {
    match t
    case SalesRevenueDrop => "sales_revenue_drop"
    case SalesOrdersDrop => "sales_orders_drop"
    case SkuRevenueDrop => "sku_revenue_drop"
    case SkuNegativeContribution => "sku_negative_contribution"
    case StockLowCoverage => "stock_low_coverage"
    case StockOosRisk => "stock_oos_risk"
    case StockCriticalSkuLowStock => "stock_critical_sku_low_stock"
    case AdSpendWithoutResult => "ad_spend_without_result"
    case AdWeakCampaignEfficiency => "ad_weak_campaign_efficiency"
    case AdBudgetOnLowStockSku => "ad_budget_on_low_stock_sku"
    case PriceBelowMinConstraint => "price_below_min_constraint"
    case PriceAboveMaxConstraint => "price_above_max_constraint"
    case MarginRiskAtCurrentPrice => "margin_risk_at_current_price"
    case MissingPricingConstraintsForKeySku => "missing_pricing_constraints_for_key_sku"
  }

  function EntityTypeName(t: EntityType): string {
    match t
    case Account => "account"
    case Sku => "sku"
    case Product => "product"
    case Campaign => "campaign"
  }
}
