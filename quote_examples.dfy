/** The worked examples of the quote calculator, checked against the model. */
module QuoteExamples {
  import opened Wrappers
  import opened JsText
  import opened JsNumber
  import opened Quote

  /** A code already trimmed and upper-case normalises to itself. */
  lemma NormalizedAlready(code: string)
    requires code != [] && !IsWhiteSpace(code[0]) && !IsWhiteSpace(code[|code| - 1])
    requires forall i :: 0 <= i < |code| ==> !('a' <= code[i] <= 'z')
    ensures NormalizeCode(code) == code
  {
    TrimUnchanged(code);
    AsciiUpperUnchanged(code);
  }

  lemma PercentCodeValue(raw: string, p: real)
    requires IsPercentCode(NormalizeCode(raw)) && p > 0.0
    requires ParseFloat(CodeBody(NormalizeCode(raw))) == Some(p)
    ensures ParseDiscount(raw) == DiscountInfo(Percent, p, PercentApplied(p))
  {
    assert NormalizeCode(raw) != [];
  }

  lemma CashCodeValue(raw: string, v: real)
    requires !IsPercentCode(NormalizeCode(raw)) && IsCashCode(NormalizeCode(raw)) && v > 0.0
    requires CashValue(CodeBody(NormalizeCode(raw))) == Some(v)
    ensures ParseDiscount(raw) == DiscountInfo(Fixed, v, FixedApplied(v))
  {
    assert NormalizeCode(raw) != [];
  }

  lemma TwentyParses()
    ensures ParseFloat("20") == Some(20.0)
  {
    assert "20" + "" == "20";
    ParseDigits("20", "");
    assert DigitsValue("20") == 20 by { assert "20"[..1] == "2"; assert "2"[..0] == ""; }
  }

  lemma PercentCodeShape()
    ensures IsPercentCode("FI20PT") && CodeBody("FI20PT") == "20"
  {
    assert "FI20PT"[..2] == "FI" && "FI20PT"[4..] == "PT";
    CodeShapeLength("FI20PT");
  }

  /** `FI20PT` is a 20 % discount. */
  lemma PercentCodeExample(raw: string)
    requires raw == "FI20PT"
    ensures ParseDiscount(raw) == DiscountInfo(Percent, 20.0, PercentApplied(20.0))
  {
    NormalizedAlready(raw);
    PercentCodeShape();
    TwentyParses();
    PercentCodeValue(raw, 20.0);
  }

  /** `FI<n>PT`, for a positive whole number `n` written in decimal, is an `n` % discount. */
  lemma WholePercentCode(raw: string, n: nat)
    requires n > 0 && raw == "FI" + DecimalString(n) + "PT"
    ensures ParseDiscount(raw) == DiscountInfo(Percent, n as real, PercentApplied(n as real))
  {
    var digits := DecimalString(n);
    assert NormalizeCode(raw) == raw by {
      forall i | 0 <= i < |raw| ensures !('a' <= raw[i] <= 'z') {
        if 2 <= i < |raw| - 2 {
          assert raw[i] == digits[i - 2];
        }
      }
      NormalizedAlready(raw);
    }
    assert IsPercentCode(raw) by {
      assert raw[..2] == "FI" && raw[|raw| - 2..] == "PT";
    }
    assert CodeBody(raw) == digits by {
      CodeShapeLength(raw);
      assert raw[2..|raw| - 2] == digits;
    }
    ParseDecimalString(n);
    PercentCodeValue(raw, n as real);
  }

  lemma MantissaOnePointFive(whole: string, fraction: string)
    requires whole == "1" && fraction == "5"
    ensures AllDigits(whole) && AllDigits(fraction) && MantissaValue(whole, fraction) == 1.5
  {
    assert DigitsValue(whole) == 1 by { assert whole[..0] == ""; }
    assert DigitsValue(fraction) == 5 by { assert fraction[..0] == ""; }
    assert Pow10(|fraction|) == 10;
  }

  lemma OnePointFiveParses(s: string, whole: string, fraction: string)
    requires s == "1.5" && whole == "1" && fraction == "5"
    ensures ParseFloat(s) == Some(1.5)
  {
    assert s == whole + "." + fraction;
    MantissaOnePointFive(whole, fraction);
    ParseDecimal(whole, fraction);
  }

  lemma CashBodyReplaced(body: string)
    requires body == "1TR5"
    ensures ReplaceFirst(body, "TR", ".") == "1.5"
  {
    assert IndexOf(body, "TR") == 1 by {
      assert !OccursAt(body, "TR", 0) by { assert body[0..2][0] == '1'; }
      assert OccursAt(body, "TR", 1) by { assert body[1..3] == "TR"; }
    }
    assert body[..1] == "1" && body[3..] == "5";
  }

  lemma CashValueOf(body: string, replaced: string, v: real)
    requires ReplaceFirst(body, "TR", ".") == replaced && ParseFloat(replaced) == Some(v)
    ensures CashValue(body) == Some(v * 1000000.0)
  {
  }

  lemma CashCodeShape(code: string)
    requires code == "FI1TR5TR"
    ensures !IsPercentCode(code) && IsCashCode(code) && CodeBody(code) == "1TR5"
  {
    assert code[|code| - 2..] == "TR";
    assert code[..2] == "FI";
    CodeShapeLength(code);
  }

  /** `FI1TR5TR` is a cash discount of 1.5 million: the inner `TR` is the decimal point. */
  lemma CashCodeExample(raw: string)
    requires raw == "FI1TR5TR"
    ensures ParseDiscount(raw) == DiscountInfo(Fixed, 1500000.0, FixedApplied(1500000.0))
  {
    NormalizedAlready(raw);
    var code := NormalizeCode(raw);
    CashCodeShape(code);
    var body := CodeBody(code);
    CashBodyReplaced(body);
    var replaced := ReplaceFirst(body, "TR", ".");
    OnePointFiveParses(replaced, "1", "5");
    CashValueOf(body, replaced, 1.5);
    CashCodeValue(raw, 1500000.0);
  }

  /** An empty code asks for a code. */
  lemma EmptyCodeExample()
    ensures ParseDiscount("") == DiscountInfo(NoDiscount, 0.0, EnterCode)
  {
    assert Trim("") == "";
  }

  /** A code of neither shape is rejected as invalid. */
  lemma RandomCodeExample(raw: string)
    requires raw == "RANDOM"
    ensures ParseDiscount(raw) == DiscountInfo(NoDiscount, 0.0, InvalidCode)
  {
    NormalizedAlready(raw);
    assert !StartsWith(raw, "FI") by { assert raw[..2][0] == 'R'; }
  }

  /** `FIPT` has the percent shape but an empty body, which does not parse. */
  lemma EmptyBodyExample(raw: string)
    requires raw == "FIPT"
    ensures ParseDiscount(raw) == DiscountInfo(NoDiscount, 0.0, InvalidPercent)
  {
    NormalizedAlready(raw);
    assert IsPercentCode(raw) by { assert raw[..2] == "FI" && raw[2..] == "PT"; }
    CodeShapeLength(raw);
    assert CodeBody(raw) == raw[2..2] == "";
    assert ParseFloat("") == None;
  }

  /**
   * The reference quote: basic package, the doctor-lookup add-on, 5 GB hosting,
   * a .com domain and a 10 % code.
   */
  lemma ReferenceQuote(pkg: string, addon: string, hosting: string, domain: string, code: string)
    requires pkg == "package_basic" && addon == "addon_doctor_lookup"
    requires hosting == "hosting_5gb" && domain == "domain_com"
    requires code == "FI10PT"
    ensures var d := ParseDiscount(code);
      var c := Aggregate(Some(pkg), [addon], Some(hosting), Some(domain), d);
      && c.packageCost + c.addonCost == 9500000.0
      && c.discountAmount == 950000.0
      && c.hostingCost == 5261760.0 && c.domainCost == 366120.0
      && c.totalCost == 14177880.0
      && QuoteOutcome(Some(pkg), c) == Instalments(14177880.0, 950000.0, 4275000.0, 5627880.0, 4275000.0)
  {
    TenPercentCode(code);
    ReferencePrices(pkg, addon, hosting, domain);
  }

  /** `FI10PT` is a 10 % discount. */
  lemma TenPercentCode(code: string)
    requires code == "FI10PT"
    ensures ParseDiscount(code) == DiscountInfo(Percent, 10.0, PercentApplied(10.0))
  {
    assert DecimalString(10) == "10";
    assert code == "FI" + DecimalString(10) + "PT";
    WholePercentCode(code, 10);
  }

  /** `FI9999999PT` is a 9999999 % discount. */
  lemma HugePercentCode(code: string)
    requires code == "FI9999999PT"
    ensures ParseDiscount(code) == DiscountInfo(Percent, 9999999.0, PercentApplied(9999999.0))
  {
    assert DecimalString(9999999) == "9999999";
    assert code == "FI" + DecimalString(9999999) + "PT";
    WholePercentCode(code, 9999999);
  }

  /** The list prices of the reference selection. */
  lemma ReferencePrices(pkg: string, addon: string, hosting: string, domain: string)
    requires pkg == "package_basic" && addon == "addon_doctor_lookup"
    requires hosting == "hosting_5gb" && domain == "domain_com"
    ensures SelectedPrice(Some(pkg)) == 7500000 && AddonsBase([addon]) == 2000000
    ensures SelectedPrice(Some(hosting)) == 4872000 && SelectedPrice(Some(domain)) == 339000
  {
    assert Price(pkg) == 7500000;
    assert Price(hosting) == 4872000;
    assert Price(domain) == 339000;
    SumOfSingleton(addon, Price);
    assert Price(addon) == 2000000;
  }

  /** A percentage above 100 takes off exactly the design cost and no more. */
  lemma OversizedPercentClamps(pkg: Option<string>, addons: seq<string>, hosting: Option<string>, domain: Option<string>, code: string)
    requires code == "FI9999999PT"
    ensures var d := ParseDiscount(code);
      var c := Aggregate(pkg, addons, hosting, domain, d);
      c.discountAmount == c.packageCost + c.addonCost
      && c.totalCost == c.hostingCost + c.domainCost
  {
    HugePercentCode(code);
    var d := ParseDiscount(code);
    var design := (SelectedPrice(pkg) + AddonsBase(addons)) as real;
    DiscountByKind(d, design);
  }
}
