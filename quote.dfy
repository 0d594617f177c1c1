/**
 * The quote calculator: a static table of VAT-exclusive base prices in VND, the
 * cost breakdown recomputed after every change of the selection, the discount
 * code parser, add-on toggling and the three-instalment payment split.
 * Money is an exact real; rounding happens only when a figure is displayed.
 */
module Quote {
  import opened Wrappers
  import opened JsText
  import opened JsNumber

  /** `PRICES_BASE`: base prices without VAT. */
  const PricesBase: map<string, nat> := map[
    "package_basic" := 7500000, "package_multiple_interface" := 10500000, "package_full" := 13500000,
    "addon_doctor_lookup" := 2000000, "addon_rating_system" := 3500000, "addon_bmi_calculator" := 2500000,
    "addon_advanced_api" := 5000000, "addon_project_portfolio" := 4000000, "addon_estimation_tool" := 6000000,
    "addon_booking_spa" := 4500000, "addon_gallery_before_after" := 3000000,
    "addon_ecommerce" := 8000000, "addon_inventory_management" := 5000000,
    "hosting_5gb" := 4872000, "hosting_7gb" := 6000000, "hosting_10gb" := 7200000,
    "hosting_20gb_ca_nhan" := 12000000, "hosting_16gb" := 10560000,
    "hosting_25gb" := 14400000, "hosting_30gb" := 16080000, "hosting_40gb_dn" := 20080000,
    "hosting_50gb_dn" := 24000000, "hosting_70gb_dn" := 32040000,
    "hosting_100gb_sieu_dn" := 43200000, "hosting_200gb_sieu_dn" := 72000000,
    "domain_com" := 339000, "domain_vn" := 759259, "domain_com_vn" := 639815
  ]

  /** `VAT_RATE`: 8 %, charged on hosting and domain only. */
  const VatRate: real := 0.08

  /** `PRICES_BASE[key] || 0`: an id missing from the table costs nothing. */
  function Price(key: string): (p: nat)
    ensures p == 0 <==> key !in PricesBase
    ensures key in PricesBase ==> p == PricesBase[key]
  {
    if key in PricesBase then PricesBase[key] else 0
  }

  /** A nullable selection is truthy when it holds a non-empty id. */
  predicate IsSelected(selection: Option<string>) {
    selection.Some? && selection.value != ""
  }

  /** `selected ? PRICES_BASE[selected] || 0 : 0`. */
  function SelectedPrice(selection: Option<string>): (r: nat)
    ensures r > 0 ==> IsSelected(selection) && selection.value in PricesBase && r == PricesBase[selection.value]
  {
    if IsSelected(selection) then Price(selection.value) else 0
  }

  /** Nothing selected, or an id the table does not know, contributes nothing. */
  lemma SelectedPriceZero(selection: Option<string>)
    ensures SelectedPrice(selection) == 0 <==> !selection.Some? || selection.value !in PricesBase
  {
    assert "" !in PricesBase;
  }

  /** `list.reduce((acc, a) => acc + price(a), 0)`, folded from the left. */
  function SumOf(list: seq<string>, price: string -> nat): (r: nat)
    ensures forall i :: 0 <= i < |list| ==> price(list[i]) <= r
    ensures r == 0 <==> forall i :: 0 <= i < |list| ==> price(list[i]) == 0
  {
    if list == [] then 0 else SumOf(list[..|list| - 1], price) + price(list[|list| - 1])
  }

  /** The sum over a concatenation is the sum of the two sums. */
  lemma {:induction false} SumOfAppend(a: seq<string>, b: seq<string>, price: string -> nat)
    ensures SumOf(a + b, price) == SumOf(a, price) + SumOf(b, price)
    decreases |b|
  {
    if b == [] {
      assert a + b == a;
    } else {
      assert (a + b)[..|a + b| - 1] == a + b[..|b| - 1];
      SumOfAppend(a, b[..|b| - 1], price);
    }
  }

  lemma SumOfSingleton(x: string, price: string -> nat)
    ensures SumOf([x], price) == price(x)
  {
    assert [x][..0] == [];
  }

  /** The add-on cost: `selectedAddons.reduce((acc, a) => acc + (PRICES_BASE[a] || 0), 0)`. */
  function AddonsBase(addons: seq<string>): (r: nat)
    ensures r == 0 <==> forall i :: 0 <= i < |addons| ==> addons[i] !in PricesBase
  {
    SumOf(addons, Price)
  }

  /** The number of times `id` occurs in `s`. */
  function Count(s: seq<string>, id: string): nat {
    if s == [] then 0 else (if s[0] == id then 1 else 0) + Count(s[1..], id)
  }

  /** `prev.filter(a => a !== id)`. */
  function Without(s: seq<string>, id: string): (r: seq<string>)
    ensures id !in r
    ensures forall x :: x in r <==> x in s && x != id
    ensures |r| == |s| - Count(s, id)
  {
    if s == [] then []
    else if s[0] == id then Without(s[1..], id)
    else [s[0]] + Without(s[1..], id)
  }

  /** Filtering distributes over concatenation, so the remaining ids keep their order. */
  lemma {:induction false} WithoutAppend(a: seq<string>, b: seq<string>, id: string)
    ensures Without(a + b, id) == Without(a, id) + Without(b, id)
  {
    if a == [] {
      assert a + b == b;
    } else {
      assert (a + b)[1..] == a[1..] + b;
      WithoutAppend(a[1..], b, id);
    }
  }

  /** A list that does not hold `id` is left unchanged by removing `id`. */
  lemma {:induction false} WithoutAbsent(s: seq<string>, id: string)
    requires id !in s
    ensures Without(s, id) == s
  {
    if s != [] {
      WithoutAbsent(s[1..], id);
    }
  }

  /** The add-on list after the checkbox for `id` changes to `checked`. */
  function Toggled(addons: seq<string>, id: string, checked: bool): (r: seq<string>)
    ensures id in r <==> checked
    ensures forall x :: x != id ==> (x in r <==> x in addons)
    ensures checked ==> |r| == |addons| + 1 && r[..|addons|] == addons && r[|addons|] == id
    ensures !checked ==> |r| == |addons| - Count(addons, id)
  {
    if checked then addons + [id] else Without(addons, id)
  }

  /** Checking and then unchecking an add-on that was not selected gives back the list. */
  lemma ToggleRoundTrip(addons: seq<string>, id: string)
    requires id !in addons
    ensures Toggled(Toggled(addons, id, true), id, false) == addons
  {
    WithoutAppend(addons, [id], id);
    WithoutAbsent(addons, id);
  }

  /** Checking an add-on adds its price; unchecking it removes its price once per occurrence. */
  lemma ToggledCost(addons: seq<string>, id: string)
    ensures AddonsBase(Toggled(addons, id, true)) == AddonsBase(addons) + Price(id)
    ensures AddonsBase(Toggled(addons, id, false)) + Count(addons, id) * Price(id) == AddonsBase(addons)
  {
    SumOfAppend(addons, [id], Price);
    SumOfSingleton(id, Price);
    WithoutSum(addons, id, Price);
  }

  /** Removing every `id` takes its price off the sum once per occurrence. */
  lemma {:induction false} WithoutSum(s: seq<string>, id: string, price: string -> nat)
    ensures SumOf(Without(s, id), price) + Count(s, id) * price(id) == SumOf(s, price)
  {
    if s != [] {
      var rest, k, p := s[1..], Count(s[1..], id), price(id);
      var w := Without(rest, id);
      WithoutSum(rest, id, price);
      assert s == [s[0]] + rest;
      SumOfCons(s[0], rest, price);
      if s[0] == id {
        assert Without(s, id) == w && Count(s, id) == 1 + k;
        OneMore(k, p);
      } else {
        assert Without(s, id) == [s[0]] + w && Count(s, id) == k;
        SumOfCons(s[0], w, price);
      }
    }
  }

  lemma SumOfCons(x: string, rest: seq<string>, price: string -> nat)
    ensures SumOf([x] + rest, price) == price(x) + SumOf(rest, price)
  {
    SumOfAppend([x], rest, price);
    SumOfSingleton(x, price);
  }

  lemma OneMore(k: nat, p: nat)
    ensures (1 + k) * p == p + k * p
  {
  }

  datatype DiscountType = NoDiscount | Percent | Fixed

  /** The status line under the discount box, as a tag carrying the figure it shows. */
  datatype DiscountMessage =
    | Blank                          // no code applied yet
    | EnterCode                      // 'Vui lòng nhập mã.'
    | PercentApplied(percent: real)  // 'Áp dụng giảm {percent}%.'
    | FixedApplied(amount: real)     // 'Áp dụng giảm {amount formatted}.'
    | InvalidPercent                 // 'Mã % không hợp lệ.'
    | InvalidCash                    // 'Mã tiền mặt không hợp lệ.'
    | InvalidCode                    // 'Mã không hợp lệ.'

  datatype DiscountInfo = DiscountInfo(kind: DiscountType, amount: real, message: DiscountMessage)

  const InitialDiscount: DiscountInfo := DiscountInfo(NoDiscount, 0.0, Blank)

  /** `discountCode.trim().toUpperCase()`. */
  function NormalizeCode(raw: string): (r: string)
    ensures |r| <= |raw|
    ensures forall i :: 0 <= i < |r| ==> !('a' <= r[i] <= 'z')
    ensures r == [] || (!IsWhiteSpace(r[0]) && !IsWhiteSpace(r[|r| - 1]))
    ensures r == [] <==> forall i :: 0 <= i < |raw| ==> IsWhiteSpace(raw[i])
  {
    AsciiUpperChars(Trim(raw));
    AsciiUpper(Trim(raw))
  }

  /** The numeric part of a code: `code.substring(2, code.length - 2)`. */
  function CodeBody(code: string): string {
    Substring(code, 2, |code| - 2)
  }

  predicate IsPercentCode(code: string) { StartsWith(code, "FI") && EndsWith(code, "PT") }

  predicate IsCashCode(code: string) { StartsWith(code, "FI") && EndsWith(code, "TR") }

  /** `parseFloat(amountString.replace('TR', '.')) * 1000000`: millions of VND, `TR` as the decimal point. */
  function CashValue(body: string): Option<real> {
    match ParseFloat(ReplaceFirst(body, "TR", "."))
    case None => None
    case Some(v) => Some(v * 1000000.0)
  }

  /** `applyDiscount`: what a submitted discount code is worth. */
  function ParseDiscount(raw: string): (d: DiscountInfo)
    ensures d.amount >= 0.0
    ensures d.kind == NoDiscount <==> d.amount == 0.0
    ensures d.kind == Percent <==> d.message == PercentApplied(d.amount)
    ensures d.kind == Fixed <==> d.message == FixedApplied(d.amount)
  {
    var code := NormalizeCode(raw);
    if code == "" then DiscountInfo(NoDiscount, 0.0, EnterCode)
    else if IsPercentCode(code) then
      var p := ParseFloat(CodeBody(code));
      if p.Some? && p.value > 0.0 then DiscountInfo(Percent, p.value, PercentApplied(p.value))
      else DiscountInfo(NoDiscount, 0.0, InvalidPercent)
    else if IsCashCode(code) then
      var v := CashValue(CodeBody(code));
      if v.Some? && v.value > 0.0 then DiscountInfo(Fixed, v.value, FixedApplied(v.value))
      else DiscountInfo(NoDiscount, 0.0, InvalidCash)
    else DiscountInfo(NoDiscount, 0.0, InvalidCode)
  }

  /** The branches of the parser: an empty code, the two code shapes and the fallback. */
  lemma ParseDiscountCases(raw: string)
    ensures var code, d := NormalizeCode(raw), ParseDiscount(raw);
      && (code == "" <==> d.message == EnterCode)
      && (code != "" && IsPercentCode(code) ==>
            var p := ParseFloat(CodeBody(code));
            (d.kind == Percent <==> p.Some? && p.value > 0.0)
            && (d.kind == Percent ==> d.amount == p.value)
            && (d.kind != Percent ==> d.message == InvalidPercent))
      && (code != "" && !IsPercentCode(code) && IsCashCode(code) ==>
            var v := CashValue(CodeBody(code));
            (d.kind == Fixed <==> v.Some? && v.value > 0.0)
            && (d.kind == Fixed ==> d.amount == v.value)
            && (d.kind != Fixed ==> d.message == InvalidCash))
      && (code != "" && !IsPercentCode(code) && !IsCashCode(code) <==> d.message == InvalidCode)
  {
  }

  /** A discount is only ever granted for a code of at least four characters starting with `FI`. */
  lemma DiscountNeedsShape(raw: string)
    ensures ParseDiscount(raw).kind != NoDiscount ==>
      |NormalizeCode(raw)| >= 4 && StartsWith(NormalizeCode(raw), "FI")
  {
    var code := NormalizeCode(raw);
    if IsPercentCode(code) || IsCashCode(code) {
      CodeShapeLength(code);
    }
  }

  /** Both code shapes need at least four characters, so the body is `code[2..|code| - 2]`. */
  lemma CodeShapeLength(code: string)
    requires IsPercentCode(code) || IsCashCode(code)
    ensures |code| >= 4 && CodeBody(code) == code[2..|code| - 2]
  {
    if |code| < 4 {
      ShortCodeHasNoShape(code);
      assert false;
    }
  }

  /** A code of fewer than four characters cannot both start with `FI` and end with `PT` or `TR`. */
  lemma ShortCodeHasNoShape(code: string)
    requires |code| < 4
    ensures !IsPercentCode(code) && !IsCashCode(code)
  {
    if StartsWith(code, "FI") {
      assert code[0] == 'F' && code[1] == 'I' by { assert code[..2][0] == code[0] && code[..2][1] == code[1]; }
      var k := |code| - 2;
      assert k == 0 || k == 1;
      assert code[k..][0] == code[k];
      assert code[k] == 'F' || code[k] == 'I';
    }
  }

  /** A cash code is worth a positive number of millions exactly when its body reads as a positive number. */
  lemma CashValuePositive(body: string)
    ensures var v := CashValue(body); var p := ParseFloat(ReplaceFirst(body, "TR", "."));
      (v.Some? && v.value > 0.0) <==> (p.Some? && p.value > 0.0)
  {
  }

  datatype Costs = Costs(packageCost: real, addonCost: real, hostingCost: real, domainCost: real,
                         discountAmount: real, vatAmount: real, totalCost: real)

  /** The `costs` state before the first recomputation. */
  const ZeroCosts: Costs := Costs(0.0, 0.0, 0.0, 0.0, 0.0, 0.0, 0.0)

  /** `Math.min`. */
  function Min(a: real, b: real): real {
    if a <= b then a else b
  }

  /**
   * The discount on the design part (package and add-ons): `design * amount / 100`
   * for a percentage, `amount` for cash, nothing otherwise, then clamped to `design`.
   */
  function DiscountAmount(d: DiscountInfo, design: real): (r: real)
    ensures r <= design
    ensures d.amount >= 0.0 && design >= 0.0 ==> r >= 0.0
  {
    var raw := match d.kind
      case Percent => design * (d.amount / 100.0)
      case Fixed => d.amount
      case NoDiscount => 0.0;
    Min(raw, design)
  }

  /** What each kind of discount takes off a non-negative design cost. */
  lemma DiscountByKind(d: DiscountInfo, design: real)
    requires design >= 0.0 && d.amount >= 0.0
    ensures d.kind == NoDiscount ==> DiscountAmount(d, design) == 0.0
    ensures d.kind == Percent && d.amount <= 100.0 ==> DiscountAmount(d, design) == design * d.amount / 100.0
    ensures d.kind == Percent && d.amount >= 100.0 ==> DiscountAmount(d, design) == design
    ensures d.kind == Fixed ==> DiscountAmount(d, design) == if d.amount <= design then d.amount else design
  {
    if d.kind == Percent {
      var raw := design * (d.amount / 100.0);
      assert DiscountAmount(d, design) == Min(raw, design);
      assert raw * 100.0 == design * d.amount;
      if d.amount <= 100.0 {
        MulNonNegative(100.0 - d.amount, design);
        assert design * d.amount <= design * 100.0;
        assert raw * 100.0 <= design * 100.0;
      } else {
        MulNonNegative(d.amount - 100.0, design);
        assert design * d.amount >= design * 100.0;
        assert raw * 100.0 >= design * 100.0;
      }
    }
  }

  lemma MulNonNegative(a: real, b: real)
    requires a >= 0.0 && b >= 0.0
    ensures a * b >= 0.0
  {
  }

  /** An amount with the 8 % VAT added: `base * (1 + VAT_RATE)`. */
  function WithVat(base: nat): real {
    base as real * (1.0 + VatRate)
  }

  /** The cost effect: the full breakdown of a selection and a discount. */
  function Aggregate(pkg: Option<string>, addons: seq<string>, hosting: Option<string>,
                     domain: Option<string>, d: DiscountInfo): (c: Costs)
    ensures c.discountAmount <= c.packageCost + c.addonCost
    ensures d.amount >= 0.0 ==> 0.0 <= c.discountAmount
    ensures c.hostingCost + c.domainCost
         == (SelectedPrice(hosting) + SelectedPrice(domain)) as real + c.vatAmount
    ensures c.totalCost == c.packageCost + c.addonCost - c.discountAmount + c.hostingCost + c.domainCost
    ensures d.amount >= 0.0 ==> c.totalCost >= c.hostingCost + c.domainCost >= 0.0
  {
    var packageBase := SelectedPrice(pkg);
    var addonsBase := AddonsBase(addons);
    var hostingBase := SelectedPrice(hosting);
    var domainBase := SelectedPrice(domain);
    var design := (packageBase + addonsBase) as real;
    var discount := DiscountAmount(d, design);
    var hostingWithVat := WithVat(hostingBase);
    var domainWithVat := WithVat(domainBase);
    var vat := (hostingBase + domainBase) as real * VatRate;
    Costs(packageBase as real, addonsBase as real, hostingWithVat, domainWithVat, discount, vat,
          design - discount + hostingWithVat + domainWithVat)
  }

  /** Where each line of the breakdown comes from: design lines from the table, VAT only on infrastructure. */
  lemma AggregateLines(pkg: Option<string>, addons: seq<string>, hosting: Option<string>,
                       domain: Option<string>, d: DiscountInfo)
    ensures var c := Aggregate(pkg, addons, hosting, domain, d);
      && c.packageCost == SelectedPrice(pkg) as real
      && c.addonCost == AddonsBase(addons) as real
      && c.hostingCost == SelectedPrice(hosting) as real * 1.08
      && c.domainCost == SelectedPrice(domain) as real * 1.08
      && c.vatAmount == (SelectedPrice(hosting) + SelectedPrice(domain)) as real * 0.08
      && c.discountAmount == DiscountAmount(d, c.packageCost + c.addonCost)
  {
  }

  /** Package, add-ons and discount never change the infrastructure lines or the VAT. */
  lemma VatIndependentOfDesign(pkg: Option<string>, addons: seq<string>, pkg': Option<string>,
                               addons': seq<string>, hosting: Option<string>, domain: Option<string>,
                               d: DiscountInfo, d': DiscountInfo)
    ensures var c, c' := Aggregate(pkg, addons, hosting, domain, d), Aggregate(pkg', addons', hosting, domain, d');
      c.hostingCost == c'.hostingCost && c.domainCost == c'.domainCost && c.vatAmount == c'.vatAmount
  {
  }

  /** The outcome of `finalizeQuote`: the error modal, or the three payments. */
  datatype FinalizeOutcome =
    | PackageRequired   // 'Vui lòng hoàn tất': a design package must be chosen
    | Instalments(total: real, discount: real, signing: real, infrastructure: real, handover: real)

  /** `finalizeQuote`: half the discounted design cost at signing and at handover, infrastructure in between. */
  function QuoteOutcome(pkg: Option<string>, c: Costs): (o: FinalizeOutcome)
    ensures o.PackageRequired? <==> !IsSelected(pkg)
    ensures o.Instalments? ==> o.signing == o.handover && o.total == c.totalCost
  {
    if !IsSelected(pkg) then PackageRequired
    else
      var designCostHalf := (c.packageCost + c.addonCost - c.discountAmount) / 2.0;
      var totalInfra := c.hostingCost + c.domainCost;
      Instalments(c.totalCost, c.discountAmount, designCostHalf, totalInfra, designCostHalf)
  }

  /** For a computed breakdown with a package, the three payments are non-negative and add up to the total. */
  lemma InstalmentsSumToTotal(pkg: Option<string>, addons: seq<string>, hosting: Option<string>,
                              domain: Option<string>, d: DiscountInfo)
    requires IsSelected(pkg) && d.amount >= 0.0
    ensures var c := Aggregate(pkg, addons, hosting, domain, d); var o := QuoteOutcome(pkg, c);
      && o.Instalments?
      && o.signing + o.infrastructure + o.handover == c.totalCost
      && o.signing >= 0.0 && o.infrastructure == c.hostingCost + c.domainCost >= 0.0
      && o.signing == (c.packageCost + c.addonCost - c.discountAmount) / 2.0
  {
  }

  /** With no package chosen the package line is zero and finalising is refused. */
  lemma NoPackageRefused(pkg: Option<string>, addons: seq<string>, hosting: Option<string>,
                         domain: Option<string>, d: DiscountInfo)
    requires !IsSelected(pkg)
    ensures var c := Aggregate(pkg, addons, hosting, domain, d);
      c.packageCost == 0.0 && QuoteOutcome(pkg, c) == PackageRequired
  {
  }

  /**
   * The component state: the selection, the discount and the breakdown. Every
   * handler ends by recomputing `costs`, as the effect in the page does.
   */
  class QuoteForm {
    var selectedPackage: Option<string>
    var selectedIndustry: string
    var selectedAddons: seq<string>
    var selectedHosting: Option<string>
    var selectedDomain: Option<string>
    var discountCode: string
    var discountInfo: DiscountInfo
    var costs: Costs

    /** The cost effect has caught up: `costs` is the breakdown of the current selection. */
    ghost predicate Valid()
      reads this
    {
      && discountInfo.amount >= 0.0
      && costs == Aggregate(selectedPackage, selectedAddons, selectedHosting, selectedDomain, discountInfo)
    }

    constructor ()
      ensures Valid()
      ensures selectedPackage == None && selectedIndustry == "yte" && selectedAddons == []
      ensures selectedHosting == None && selectedDomain == None && discountCode == ""
      ensures discountInfo == InitialDiscount && costs == ZeroCosts
    {
      selectedPackage := None;
      selectedIndustry := "yte";
      selectedAddons := [];
      selectedHosting := None;
      selectedDomain := None;
      discountCode := "";
      discountInfo := InitialDiscount;
      costs := ZeroCosts;
      assert AddonsBase([]) == 0;
    }

    /** The effect body: replace `costs` by the breakdown of the current state. */
    method Recompute()
      requires discountInfo.amount >= 0.0
      modifies this`costs
      ensures Valid()
    {
      costs := Aggregate(selectedPackage, selectedAddons, selectedHosting, selectedDomain, discountInfo);
    }

    method SelectPackage(id: string)
      requires Valid()
      modifies this
      ensures Valid() && selectedPackage == Some(id)
      ensures selectedIndustry == old(selectedIndustry) && selectedAddons == old(selectedAddons)
      ensures selectedHosting == old(selectedHosting) && selectedDomain == old(selectedDomain)
      ensures discountCode == old(discountCode) && discountInfo == old(discountInfo)
    {
      selectedPackage := Some(id);
      Recompute();
    }

    method SelectHosting(id: Option<string>)
      requires Valid()
      modifies this
      ensures Valid() && selectedHosting == id
      ensures selectedPackage == old(selectedPackage) && selectedIndustry == old(selectedIndustry)
      ensures selectedAddons == old(selectedAddons) && selectedDomain == old(selectedDomain)
      ensures discountCode == old(discountCode) && discountInfo == old(discountInfo)
    {
      selectedHosting := id;
      Recompute();
    }

    method SelectDomain(id: Option<string>)
      requires Valid()
      modifies this
      ensures Valid() && selectedDomain == id
      ensures selectedPackage == old(selectedPackage) && selectedIndustry == old(selectedIndustry)
      ensures selectedAddons == old(selectedAddons) && selectedHosting == old(selectedHosting)
      ensures discountCode == old(discountCode) && discountInfo == old(discountInfo)
    {
      selectedDomain := id;
      Recompute();
    }

    /** Typing in the discount box changes only the code; nothing is applied yet. */
    method SetDiscountCode(code: string)
      requires Valid()
      modifies this`discountCode
      ensures Valid() && discountCode == code
    {
      discountCode := code;
    }

    /** `handleIndustryChange`: a new industry empties the add-on list. */
    method ChangeIndustry(industry: string)
      requires Valid()
      modifies this
      ensures Valid() && selectedIndustry == industry && selectedAddons == []
      ensures costs.addonCost == 0.0
      ensures selectedPackage == old(selectedPackage) && selectedHosting == old(selectedHosting)
      ensures selectedDomain == old(selectedDomain)
      ensures discountCode == old(discountCode) && discountInfo == old(discountInfo)
    {
      selectedIndustry := industry;
      selectedAddons := [];
      Recompute();
    }

    /** `handleAddonToggle`: checking appends the id, unchecking drops every occurrence of it. */
    method ToggleAddon(id: string, checked: bool)
      requires Valid()
      modifies this
      ensures Valid() && selectedAddons == Toggled(old(selectedAddons), id, checked)
      ensures checked ==> costs.addonCost == old(costs.addonCost) + Price(id) as real
      ensures selectedPackage == old(selectedPackage) && selectedIndustry == old(selectedIndustry)
      ensures selectedHosting == old(selectedHosting) && selectedDomain == old(selectedDomain)
      ensures discountCode == old(discountCode) && discountInfo == old(discountInfo)
    {
      ToggledCost(selectedAddons, id);
      SetAddons(Toggled(selectedAddons, id, checked));
    }

    /** Store a new add-on list and recompute the breakdown with it. */
    method SetAddons(addons: seq<string>)
      requires discountInfo.amount >= 0.0
      modifies this`selectedAddons, this`costs
      ensures Valid() && selectedAddons == addons
    {
      selectedAddons := addons;
      Recompute();
    }

    /** `applyDiscount`: parse the code in the box and recompute with the result. */
    method ApplyDiscount()
      requires Valid()
      modifies this`discountInfo, this`costs
      ensures Valid() && discountInfo == ParseDiscount(discountCode)
    {
      var info := ParseDiscount(discountCode);
      SetDiscount(info);
    }

    /** Store an accepted or refused discount and recompute the breakdown with it. */
    method SetDiscount(info: DiscountInfo)
      requires info.amount >= 0.0
      modifies this`discountInfo, this`costs
      ensures Valid() && discountInfo == info
    {
      discountInfo := info;
      Recompute();
    }

    /** `finalizeQuote`, without the modal: the refusal or the payment schedule of the current breakdown. */
    method FinalizeQuote() returns (o: FinalizeOutcome)
      requires Valid()
      ensures o == QuoteOutcome(selectedPackage, costs)
      ensures o.Instalments? ==> o.signing + o.infrastructure + o.handover == costs.totalCost
    {
      if !IsSelected(selectedPackage) {
        return PackageRequired;
      }
      InstalmentsSumToTotal(selectedPackage, selectedAddons, selectedHosting, selectedDomain, discountInfo);
      var designCostHalf := (costs.packageCost + costs.addonCost - costs.discountAmount) / 2.0;
      var totalInfra := costs.hostingCost + costs.domainCost;
      o := Instalments(costs.totalCost, costs.discountAmount, designCostHalf, totalInfra, designCostHalf);
    }
  }
}
