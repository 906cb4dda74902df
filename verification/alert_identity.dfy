/** The identity of an alert: the text hashed into its fingerprint. The hash is taken to be injective,
    so the text itself stands for the fingerprint. */
module AlertIdentity {
  import opened Wrappers
  import opened Text
  import opened AlertTypes

  /** An optional text counts only when something is left after trimming. */
  function Visible(s: Option<string>): Option<string> {
    if s.Some? && TrimSpace(s.value) != "" then Some(TrimSpace(s.value)) else None
  }

  function IdPart(id: Option<string>): seq<string> {
    if Visible(id).Some? then ["id:" + Visible(id).value] else []
  }

  function SkuPart(sku: Option<int>): seq<string> {
    if sku.Some? then ["sku:" + Decimal(sku.value)] else []
  }

  function OfferPart(offer: Option<string>): seq<string> {
    if Visible(offer).Some? then ["offer:" + Visible(offer).value] else []
  }

  function IdentityParts(t: EntityType, id: Option<string>, sku: Option<int>, offer: Option<string>): seq<string> {
    var parts := [EntityTypeName(t)] + IdPart(id) + SkuPart(sku) + OfferPart(offer);
    if |parts| == 1 then parts + ["global"] else parts
  }

  function EntityIdentity(t: EntityType, id: Option<string>, sku: Option<int>, offer: Option<string>): string {
    Join(IdentityParts(t, id, sku, offer), "|")
  }

  method BuildEntityIdentity(t: EntityType, id: Option<string>, sku: Option<int>, offer: Option<string>)
      returns (identity: string)
    ensures identity == EntityIdentity(t, id, sku, offer)
  {
    var parts := [EntityTypeName(t)];
    if id.Some? && TrimSpace(id.value) != "" {
      parts := parts + ["id:" + TrimSpace(id.value)];
    }
    assert parts == [EntityTypeName(t)] + IdPart(id);
    if sku.Some? {
      parts := parts + ["sku:" + Decimal(sku.value)];
    }
    assert parts == [EntityTypeName(t)] + IdPart(id) + SkuPart(sku);
    if offer.Some? && TrimSpace(offer.value) != "" {
      parts := parts + ["offer:" + TrimSpace(offer.value)];
    }
    assert parts == [EntityTypeName(t)] + IdPart(id) + SkuPart(sku) + OfferPart(offer);
    if |parts| == 1 {
      parts := parts + ["global"];
    }
    identity := Join(parts, "|");
  }

  function FingerprintKey(seller: int, t: AlertType, e: EntityType, identity: string): string {
    Decimal(seller) + "|" + TrimSpace(TypeName(t)) + "|" + TrimSpace(EntityTypeName(e)) + "|" + TrimSpace(identity)
  }

  /** The fingerprint under which a rule result is stored. */
  function FingerprintOf(seller: int, r: RuleResult): string {
    var explicit := TrimSpace(r.fingerprint);
    if explicit != "" then explicit
    else FingerprintKey(seller, r.alertType, r.entityType,
                        EntityIdentity(r.entityType, r.entityId, r.entitySku, r.entityOfferId))
  }

  // ---------------------------------------------------------------- injectivity

  predicate BarFree(s: string) {
    '|' !in s
  }

  /** Text up to the first separator. */
  predicate StopsAtBar(s: string) {
    s == "" || s[0] == '|'
  }

  function FieldLength(s: string): nat {
    if StopsAtBar(s) then 0 else 1 + FieldLength(s[1..])
  }

  lemma {:induction false} FieldEndsAtBar(a: string, x: string)
    requires BarFree(a) && StopsAtBar(x)
    ensures FieldLength(a + x) == |a|
  {
    if a == "" {
      assert a + x == x;
    } else {
      assert (a + x)[1..] == a[1..] + x;
      FieldEndsAtBar(a[1..], x);
    }
  }

  lemma FirstField(a: string, x: string, b: string, y: string)
    requires BarFree(a) && BarFree(b) && StopsAtBar(x) && StopsAtBar(y)
    requires a + x == b + y
    ensures a == b && x == y
  {
    FieldEndsAtBar(a, x);
    FieldEndsAtBar(b, y);
    assert a == (a + x)[..|a|] && b == (b + y)[..|b|];
    assert x == (a + x)[|a|..] && y == (b + y)[|b|..];
  }

  lemma DecimalBarFree(n: int)
    ensures BarFree(Decimal(n)) && Decimal(n) != ""
  {
    DecimalCharacters(n);
  }

  /** Length, first letter and seventh letter tell the alert type names apart. */
  function NameCode(t: AlertType): int {
    match t
    case SalesRevenueDrop => 18
    case SalesOrdersDrop => 17
    case SkuRevenueDrop => 16
    case SkuNegativeContribution => 25
    case StockLowCoverage => 118
    case StockOosRisk => 14
    case StockCriticalSkuLowStock => 28
    case AdSpendWithoutResult => 23
    case AdWeakCampaignEfficiency => 27
    case AdBudgetOnLowStockSku => 26
    case PriceBelowMinConstraint => 126
    case PriceAboveMaxConstraint => 226
    case MarginRiskAtCurrentPrice => 128
    case MissingPricingConstraintsForKeySku => 39
  }

  function TextCode(s: string): int
    requires |s| > 6
  {
    if |s| == 18 && s[1] == 't' then 118
    else if |s| == 28 && s[0] == 'm' then 128
    else if |s| == 26 && s[0] == 'p' then (if s[6] == 'b' then 126 else 226)
    else |s|
  }

  lemma NameCodeRead(t: AlertType)
    ensures |TypeName(t)| > 6 && TextCode(TypeName(t)) == NameCode(t)
  {
  }

  lemma TypeNamesDiffer(s: AlertType, t: AlertType)
    requires TypeName(s) == TypeName(t)
    ensures s == t
  {
    NameCodeRead(s);
    NameCodeRead(t);
    hide TypeName, TextCode;
  }

  lemma EntityTypeNamesDiffer(s: EntityType, t: EntityType)
    requires EntityTypeName(s) == EntityTypeName(t)
    ensures s == t
  {
    var a, b := EntityTypeName(s), EntityTypeName(t);
    assert |a| == |b| && a[0] == b[0];
  }

  /** What the built-in rules emit: no explicit fingerprint, and either no entity details at all or a
      decimal entity id. */
  ghost predicate Emitted(r: RuleResult) {
    && r.fingerprint == ""
    && (if r.entityId.None? then r.entitySku.None? && r.entityOfferId.None?
        else exists n: int :: r.entityId.value == Decimal(n))
  }

  /** An optional part, with the separator that introduces it. */
  function Barred(part: seq<string>): string {
    if part == [] then "" else "|" + part[0]
  }

  function SkuText(sku: Option<int>): string {
    Barred(SkuPart(sku))
  }

  function OfferText(offer: Option<string>): string {
    Barred(OfferPart(offer))
  }

  function TailText(r: RuleResult): string {
    SkuText(r.entitySku) + OfferText(r.entityOfferId)
  }

  function SubjectText(r: RuleResult): string {
    if r.entityId.None? then "global" else "id:" + r.entityId.value + TailText(r)
  }

  /** The identity of an emitted result, written out. */
  function IdentityText(r: RuleResult): string {
    EntityTypeName(r.entityType) + "|" + SubjectText(r)
  }

  lemma DecimalTrimmed(n: int)
    ensures TrimSpace(Decimal(n)) == Decimal(n) != ""
  {
    DecimalCharacters(n);
    TrimOfTrimmed(Decimal(n));
  }

  lemma JoinTwo(a: string, b: string)
    ensures Join([a, b], "|") == a + "|" + b
  {
    assert [a, b][1..] == [b];
  }

  lemma JoinMore(a: string, rest: seq<string>)
    requires rest != []
    ensures Join([a] + rest, "|") == a + "|" + Join(rest, "|")
  {
    assert ([a] + rest)[1..] == rest;
  }

  lemma IdentityWritten(r: RuleResult)
    requires Emitted(r)
    ensures EntityIdentity(r.entityType, r.entityId, r.entitySku, r.entityOfferId) == IdentityText(r)
  {
    var e, name := r, EntityTypeName(r.entityType);
    if r.entityId.None? {
      assert IdentityParts(r.entityType, r.entityId, r.entitySku, r.entityOfferId) == [name, "global"];
      JoinTwo(name, "global");
    } else {
      var n: int :| r.entityId.value == Decimal(n);
      DecimalTrimmed(n);
      var id := "id:" + r.entityId.value;
      var tail := SkuPart(r.entitySku) + OfferPart(r.entityOfferId);
      assert IdentityParts(r.entityType, r.entityId, r.entitySku, r.entityOfferId) == [name] + ([id] + tail);
      JoinMore(name, [id] + tail);
      TailWritten(id, r.entitySku, r.entityOfferId);
      assert name + "|" + (id + (SkuText(r.entitySku) + OfferText(r.entityOfferId))) == IdentityText(r);
    }
  }

  lemma TailWritten(id: string, sku: Option<int>, offer: Option<string>)
    ensures Join([id] + (SkuPart(sku) + OfferPart(offer)), "|") == id + (SkuText(sku) + OfferText(offer))
  {
    JoinParts(id, SkuPart(sku), OfferPart(offer));
  }

  lemma JoinParts(id: string, a: seq<string>, b: seq<string>)
    requires |a| <= 1 && |b| <= 1
    ensures Join([id] + (a + b), "|") == id + (Barred(a) + Barred(b))
  {
    var bar := "|";
    if a == [] && b == [] {
      assert [id] + (a + b) == [id];
    } else if a == [] {
      assert a + b == [b[0]];
      JoinMore(id, a + b);
      Shuffle(id, bar, "", "", b[0]);
    } else if b == [] {
      assert a + b == [a[0]];
      JoinMore(id, a + b);
      Shuffle(id, "", "", bar, a[0]);
    } else {
      assert a + b == [a[0], b[0]];
      JoinMore(id, a + b);
      JoinTwo(a[0], b[0]);
      Shuffle(id, bar, a[0], bar, b[0]);
    }
  }

  lemma Shuffle(id: string, x: string, a: string, y: string, b: string)
    ensures id + x + (a + y + b) == id + ((x + a) + (y + b))
    ensures a == "" && y == "" ==> id + x + b == id + ("" + (x + b))
    ensures x == "" && a == "" ==> id + y + b == id + ((y + b) + "")
  {
  }

  predicate EndsVisible(s: string) {
    s != "" && !IsSpace(s[|s| - 1])
  }

  lemma EndsVisibleConcat(a: string, b: string)
    requires EndsVisible(b) || (b == "" && EndsVisible(a))
    ensures EndsVisible(a + b)
  {
    assert b == "" ==> a + b == a;
  }

  lemma TrimmedConcat(a: string, b: string)
    requires a != "" && !IsSpace(a[0]) && EndsVisible(b)
    ensures TrimSpace(a + b) == a + b
  {
    EndsVisibleConcat(a, b);
    TrimOfTrimmed(a + b);
  }

  lemma TailEndsVisible(id: string, sku: Option<int>, offer: Option<string>)
    requires EndsVisible(id)
    ensures EndsVisible(id + (SkuText(sku) + OfferText(offer)))
  {
    if sku.Some? {
      DecimalCharacters(sku.value);
      EndsVisibleConcat("sku:", Decimal(sku.value));
      EndsVisibleConcat("|", "sku:" + Decimal(sku.value));
    }
    if Visible(offer).Some? {
      TrimSpaceTrimmed(offer.value);
      EndsVisibleConcat("offer:", Visible(offer).value);
      EndsVisibleConcat("|", "offer:" + Visible(offer).value);
    }
    if SkuText(sku) + OfferText(offer) != "" {
      EndsVisibleConcat(SkuText(sku), OfferText(offer));
    }
    EndsVisibleConcat(id, SkuText(sku) + OfferText(offer));
  }

  lemma IdentityTextTrimmed(r: RuleResult)
    requires Emitted(r)
    ensures TrimSpace(IdentityText(r)) == IdentityText(r)
  {
    var head := EntityTypeName(r.entityType) + "|";
    assert head[0] == EntityTypeName(r.entityType)[0];
    SubjectEndsVisible(r);
    TrimmedConcat(head, SubjectText(r));
  }

  lemma SubjectEndsVisible(r: RuleResult)
    requires Emitted(r)
    ensures EndsVisible(SubjectText(r))
  {
    if r.entityId.Some? {
      var n: int :| r.entityId.value == Decimal(n);
      DecimalCharacters(n);
      EndsVisibleConcat("id:", r.entityId.value);
      TailEndsVisible("id:" + r.entityId.value, r.entitySku, r.entityOfferId);
    }
  }

  /** A known prefix can be read off, and taken off. */
  lemma Prefixed(prefix: string, rest: string, all: string)
    requires all == prefix + rest
    ensures all[|prefix|..] == rest
    ensures forall i | 0 <= i < |prefix| :: all[i] == prefix[i]
  {
  }

  lemma Regroup(a: string, b: string, c: string)
    ensures a + b + c == a + (b + c)
  {
  }

  lemma TailHead(sku: Option<int>, offer: Option<string>)
    ensures var x := SkuText(sku) + OfferText(offer);
      && StopsAtBar(x)
      && (sku.Some? ==> |x| > 5 && x[1] == 's' && x[5..] == Decimal(sku.value) + OfferText(offer))
      && (sku.None? && x != "" ==> |x| > 1 && x[1] == 'o')
      && (sku.None? ==> x == OfferText(offer))
  {
    if sku.Some? {
      DecimalCharacters(sku.value);
      Regroup("|", "sku:", Decimal(sku.value));
      Regroup("|" + "sku:", Decimal(sku.value), OfferText(offer));
      Prefixed("|" + "sku:", Decimal(sku.value) + OfferText(offer), SkuText(sku) + OfferText(offer));
    } else {
      OfferHead(offer);
      assert SkuText(sku) + OfferText(offer) == OfferText(offer);
    }
  }

  lemma OfferHead(offer: Option<string>)
    ensures StopsAtBar(OfferText(offer))
    ensures OfferText(offer) != "" ==> |OfferText(offer)| > 1 && OfferText(offer)[1] == 'o'
  {
    if Visible(offer).Some? {
      Regroup("|", "offer:", Visible(offer).value);
      Prefixed("|" + "offer:", Visible(offer).value, OfferText(offer));
    }
  }

  lemma SameTail(s1: Option<int>, o1: Option<string>, s2: Option<int>, o2: Option<string>)
    requires SkuText(s1) + OfferText(o1) == SkuText(s2) + OfferText(o2)
    ensures s1 == s2 && Visible(o1) == Visible(o2)
  {
    TailHead(s1, o1);
    TailHead(s2, o2);
    TailHead(None, o1);
    TailHead(None, o2);
    if s1.Some? {
      SameSku(s1.value, o1, s2.value, o2);
    }
    SameOffer(o1, o2);
  }

  lemma SameSku(s1: int, o1: Option<string>, s2: int, o2: Option<string>)
    requires Decimal(s1) + OfferText(o1) == Decimal(s2) + OfferText(o2)
    ensures s1 == s2 && OfferText(o1) == OfferText(o2)
  {
    DecimalBarFree(s1);
    DecimalBarFree(s2);
    FirstField(Decimal(s1), OfferText(o1), Decimal(s2), OfferText(o2));
    DecimalInjective(s1, s2);
  }

  lemma SameOffer(o1: Option<string>, o2: Option<string>)
    requires OfferText(o1) == OfferText(o2)
    ensures Visible(o1) == Visible(o2)
  {
    OfferRead(o1);
    OfferRead(o2);
  }

  lemma OfferRead(offer: Option<string>)
    ensures Visible(offer).None? ==> OfferText(offer) == ""
    ensures Visible(offer).Some? ==> |OfferText(offer)| >= 7 && OfferText(offer)[7..] == Visible(offer).value
  {
    if Visible(offer).Some? {
      Regroup("|", "offer:", Visible(offer).value);
      Prefixed("|" + "offer:", Visible(offer).value, OfferText(offer));
    }
  }

  /** The tuple that identifies what an alert is about. */
  ghost predicate SameSubject(s1: int, r1: RuleResult, s2: int, r2: RuleResult) {
    && s1 == s2
    && r1.alertType == r2.alertType
    && r1.entityType == r2.entityType
    && r1.entityId == r2.entityId
    && r1.entitySku == r2.entitySku
    && Visible(r1.entityOfferId) == Visible(r2.entityOfferId)
  }

  lemma SubjectHead(r: RuleResult)
    ensures r.entityId.None? ==> SubjectText(r)[0] == 'g'
    ensures r.entityId.Some? ==>
      |SubjectText(r)| >= 3 && SubjectText(r)[0] == 'i' && SubjectText(r)[3..] == r.entityId.value + TailText(r)
  {
    if r.entityId.Some? {
      Regroup("id:", r.entityId.value, TailText(r));
      Prefixed("id:", r.entityId.value + TailText(r), SubjectText(r));
    }
  }

  lemma SameSubjectText(r1: RuleResult, r2: RuleResult)
    requires Emitted(r1) && Emitted(r2) && SubjectText(r1) == SubjectText(r2)
    ensures r1.entityId == r2.entityId && r1.entitySku == r2.entitySku
    ensures Visible(r1.entityOfferId) == Visible(r2.entityOfferId)
  {
    SubjectHead(r1);
    SubjectHead(r2);
    if r1.entityId.Some? {
      var n1: int :| r1.entityId.value == Decimal(n1);
      var n2: int :| r2.entityId.value == Decimal(n2);
      DecimalBarFree(n1);
      DecimalBarFree(n2);
      TailHead(r1.entitySku, r1.entityOfferId);
      TailHead(r2.entitySku, r2.entityOfferId);
      FirstField(Decimal(n1), TailText(r1), Decimal(n2), TailText(r2));
      SameTail(r1.entitySku, r1.entityOfferId, r2.entitySku, r2.entityOfferId);
    }
  }

  lemma SameIdentity(r1: RuleResult, r2: RuleResult)
    requires Emitted(r1) && Emitted(r2) && r1.entityType == r2.entityType
    requires IdentityText(r1) == IdentityText(r2)
    ensures r1.entityId == r2.entityId && r1.entitySku == r2.entitySku
    ensures Visible(r1.entityOfferId) == Visible(r2.entityOfferId)
  {
    var n := |EntityTypeName(r1.entityType)| + 1;
    assert IdentityText(r1)[n..] == SubjectText(r1) && IdentityText(r2)[n..] == SubjectText(r2);
    SameSubjectText(r1, r2);
  }

  predicate WordChar(c: char) {
    'a' <= c <= 'z' || c == '_'
  }

  predicate IsWord(s: string) {
    s != "" && forall i | 0 <= i < |s| :: WordChar(s[i])
  }

  lemma WordsAreTrimmed(s: string)
    requires IsWord(s)
    ensures TrimSpace(s) == s && BarFree(s)
  {
    TrimOfTrimmed(s);
  }

  lemma TypeNamesAreWords(t: AlertType)
    ensures IsWord(TypeName(t))
  {
    match t
    case SalesRevenueDrop => assert IsWord("sales_revenue_drop");
    case SalesOrdersDrop => assert IsWord("sales_orders_drop");
    case SkuRevenueDrop => assert IsWord("sku_revenue_drop");
    case StockLowCoverage => assert IsWord("stock_low_coverage");
    case StockOosRisk => assert IsWord("stock_oos_risk");
    case AdSpendWithoutResult => assert IsWord("ad_spend_without_result");
    case _ => LongTypeNamesAreWords(t);
  }

  lemma LongTypeNamesAreWords(t: AlertType)
    requires t.SkuNegativeContribution? || t.StockCriticalSkuLowStock? || t.AdWeakCampaignEfficiency?
      || t.AdBudgetOnLowStockSku?
      || t.PriceBelowMinConstraint? || t.PriceAboveMaxConstraint? || t.MarginRiskAtCurrentPrice?
      || t.MissingPricingConstraintsForKeySku?
    ensures IsWord(TypeName(t))
  {
    match t
    case SkuNegativeContribution => assert IsWord("sku_negative_contribution");
    case StockCriticalSkuLowStock => assert IsWord("stock_critical_sku_low_stock");
    case AdWeakCampaignEfficiency => assert IsWord("ad_weak_campaign_efficiency");
    case AdBudgetOnLowStockSku => assert IsWord("ad_budget_on_low_stock_sku");
    case _ => PricingTypeNamesAreWords(t);
  }

  lemma PricingTypeNamesAreWords(t: AlertType)
    requires t.PriceBelowMinConstraint? || t.PriceAboveMaxConstraint? || t.MarginRiskAtCurrentPrice?
      || t.MissingPricingConstraintsForKeySku?
    ensures IsWord(TypeName(t))
  {
    match t
    case PriceBelowMinConstraint => assert IsWord("price_below_min_constraint");
    case PriceAboveMaxConstraint => assert IsWord("price_above_max_constraint");
    case MarginRiskAtCurrentPrice => assert IsWord("margin_risk_at_current_price");
    case MissingPricingConstraintsForKeySku => assert IsWord("missing_pricing_constraints_for_key_sku");
  }

  lemma NamesAreTrimmed(t: AlertType, e: EntityType)
    ensures TrimSpace(TypeName(t)) == TypeName(t) && BarFree(TypeName(t))
    ensures TrimSpace(EntityTypeName(e)) == EntityTypeName(e) && BarFree(EntityTypeName(e))
  {
    TypeNamesAreWords(t);
    WordsAreTrimmed(TypeName(t));
    assert IsWord(EntityTypeName(e));
    WordsAreTrimmed(EntityTypeName(e));
  }

  /** The text behind the fingerprint of an emitted result. */
  lemma FingerprintWritten(seller: int, r: RuleResult)
    requires Emitted(r)
    ensures FingerprintOf(seller, r)
         == Decimal(seller) + ("|" + (TypeName(r.alertType) +
                             ("|" + (EntityTypeName(r.entityType) + ("|" + IdentityText(r))))))
  {
    IdentityWritten(r);
    IdentityTextTrimmed(r);
    NamesAreTrimmed(r.alertType, r.entityType);
    Reassociate(Decimal(seller), TypeName(r.alertType), EntityTypeName(r.entityType), IdentityText(r));
  }

  lemma Reassociate(a: string, t: string, e: string, i: string)
    ensures a + "|" + t + "|" + e + "|" + i == a + ("|" + (t + ("|" + (e + ("|" + i)))))
  {
  }

  lemma SameSubjectSameIdentity(r1: RuleResult, r2: RuleResult)
    requires r1.entityType == r2.entityType && r1.entityId == r2.entityId && r1.entitySku == r2.entitySku
    requires Visible(r1.entityOfferId) == Visible(r2.entityOfferId)
    ensures IdentityText(r1) == IdentityText(r2)
  {
  }

  /** Two emitted results share a fingerprint exactly when they are about the same subject: whatever an
      offer id contains, separators included, it cannot imitate another alert. */
  lemma FingerprintInjective(s1: int, r1: RuleResult, s2: int, r2: RuleResult)
    requires Emitted(r1) && Emitted(r2)
    ensures FingerprintOf(s1, r1) == FingerprintOf(s2, r2) <==> SameSubject(s1, r1, s2, r2)
  {
    FingerprintWritten(s1, r1);
    FingerprintWritten(s2, r2);
    if FingerprintOf(s1, r1) == FingerprintOf(s2, r2) {
      NamesAreTrimmed(r1.alertType, r1.entityType);
      NamesAreTrimmed(r2.alertType, r2.entityType);
      SameFields(Decimal(s1), TypeName(r1.alertType), EntityTypeName(r1.entityType), IdentityText(r1),
                 Decimal(s2), TypeName(r2.alertType), EntityTypeName(r2.entityType), IdentityText(r2), s1, s2);
      DecimalInjective(s1, s2);
      TypeNamesDiffer(r1.alertType, r2.alertType);
      EntityTypeNamesDiffer(r1.entityType, r2.entityType);
      SameIdentity(r1, r2);
    }
    if SameSubject(s1, r1, s2, r2) {
      SameSubjectSameIdentity(r1, r2);
    }
  }

  lemma SameFields(d1: string, t1: string, e1: string, i1: string, d2: string, t2: string, e2: string, i2: string,
                   s1: int, s2: int)
    requires d1 == Decimal(s1) && d2 == Decimal(s2) && BarFree(t1) && BarFree(t2) && BarFree(e1) && BarFree(e2)
    requires d1 + ("|" + (t1 + ("|" + (e1 + ("|" + i1))))) == d2 + ("|" + (t2 + ("|" + (e2 + ("|" + i2)))))
    ensures d1 == d2 && t1 == t2 && e1 == e2 && i1 == i2
  {
    DecimalBarFree(s1);
    DecimalBarFree(s2);
    var b1, b2 := e1 + ("|" + i1), e2 + ("|" + i2);
    var a1, a2 := t1 + ("|" + b1), t2 + ("|" + b2);
    FirstField(d1, "|" + a1, d2, "|" + a2);
    assert a1 == ("|" + a1)[1..] && a2 == ("|" + a2)[1..];
    FirstField(t1, "|" + b1, t2, "|" + b2);
    assert b1 == ("|" + b1)[1..] && b2 == ("|" + b2)[1..];
    FirstField(e1, "|" + i1, e2, "|" + i2);
    assert i1 == ("|" + i1)[1..] && i2 == ("|" + i2)[1..];
  }

  /** The restriction to decimal ids matters: a free-text entity id can imitate an id with a SKU. */
  lemma FreeTextIdsCollide()
    ensures exists e: EntityType, id1, sku1, id2, sku2 ::
      (id1, sku1) != (id2, sku2) && EntityIdentity(e, id1, sku1, None) == EntityIdentity(e, id2, sku2, None)
  {
    var id1, id2 := Some("1|sku:5"), Some("1");
    var sku1, sku2: Option<int> := None, Some(5);
    TrimOfTrimmed("1|sku:5");
    TrimOfTrimmed("1");
    assert Decimal(5) == "5";
    var part, idPart, skuPart := "id:" + "1|sku:5", "id:" + "1", "sku:" + "5";
    assert IdPart(id1) == [part] && IdPart(id2) == [idPart] && SkuPart(sku2) == [skuPart];
    assert IdentityParts(Sku, id1, sku1, None) == ["sku", part];
    assert IdentityParts(Sku, id2, sku2, None) == ["sku"] + [idPart, skuPart];
    JoinTwo("sku", part);
    JoinMore("sku", [idPart, skuPart]);
    JoinTwo(idPart, skuPart);
    assert part == idPart + "|" + skuPart;
    assert EntityIdentity(Sku, id1, sku1, None) == EntityIdentity(Sku, id2, sku2, None);
  }
}
