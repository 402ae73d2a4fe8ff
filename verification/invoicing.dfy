/** Invoice numbering and totals. Both the invoice endpoint and the
    project-completion path number a new invoice `INV-` followed by the
    tenant's invoice count plus 1001, zero-padded to four digits. */
module Invoicing {

  import opened Records
  import Query

  predicate IsDigit(c: char) { '0' <= c <= '9' }

  function DigitChar(d: nat): (c: char)
    requires d < 10
    ensures IsDigit(c) && c as int - '0' as int == d
  {
    ('0' as int + d) as char
  }

  /** The decimal digits of `n`, without leading zeros (`str(n)`). */
  function Decimal(n: nat): (s: string)
    ensures |s| >= 1
    ensures forall k :: 0 <= k < |s| ==> IsDigit(s[k])
    ensures |s| == 1 <==> n < 10
    ensures n > 0 ==> s[0] != '0'
    ensures |s| > 1 ==> s[0] != '0'
  {
    if n < 10 then [DigitChar(n)] else Decimal(n / 10) + [DigitChar(n % 10)]
  }

  function DigitValue(c: char): (d: nat)
    requires IsDigit(c)
    ensures d < 10
  {
    c as int - '0' as int
  }

  /** The number a string of decimal digits denotes. */
  function ParseDecimal(s: string): nat
    requires forall k :: 0 <= k < |s| ==> IsDigit(s[k])
  {
    if s == [] then 0
    else ParseDecimal(s[..|s| - 1]) * 10 + DigitValue(s[|s| - 1])
  }

  /** Printing a number in decimal loses nothing: parsing gives it back. */
  lemma {:induction false} DecimalRoundTrip(n: nat)
    ensures ParseDecimal(Decimal(n)) == n
  {
    if n >= 10 {
      var s := Decimal(n);
      assert s[..|s| - 1] == Decimal(n / 10);
      DecimalRoundTrip(n / 10);
    }
  }

  /** Different numbers print differently. */
  lemma DecimalInjective(m: nat, n: nat)
    requires Decimal(m) == Decimal(n)
    ensures m == n
  {
    DecimalRoundTrip(m);
    DecimalRoundTrip(n);
  }

  /** A number of at least 1000 has at least four digits. */
  lemma DecimalHasFourDigits(n: nat)
    requires n >= 1000
    ensures |Decimal(n)| >= 4
  {
    var m := n / 10;
    var p := m / 10;
    assert m >= 100 && p >= 10;
    assert |Decimal(n)| == |Decimal(m)| + 1;
    assert |Decimal(m)| == |Decimal(p)| + 1;
    assert |Decimal(p)| == |Decimal(p / 10)| + 1;
  }

  /** `format(n, "04d")` applied to digits `s`: left-padded with zeros to `width`. */
  function ZeroPad(s: string, width: nat): (r: string)
    ensures |r| == if |s| >= width then |s| else width
    ensures r[|r| - |s|..] == s
    ensures forall k :: 0 <= k < |r| - |s| ==> r[k] == '0'
  {
    if |s| >= width then s else seq(width - |s|, _ => '0') + s
  }

  const NumberPrefix: string := "INV-"

  /** The number of the invoice created when the tenant already has `count` invoices. */
  function InvoiceNumber(count: nat): (r: string)
    ensures r == NumberPrefix + Decimal(count + 1001)
  {
    DecimalHasFourDigits(count + 1001);
    NumberPrefix + ZeroPad(Decimal(count + 1001), 4)
  }

  /** Equal strings with a common prefix have equal suffixes. */
  lemma PrefixCancel(p: string, a: string, b: string)
    requires p + a == p + b
    ensures a == b
  {
    assert a == (p + a)[|p|..];
    assert b == (p + b)[|p|..];
  }

  /** Different counts give different invoice numbers. */
  lemma InvoiceNumberInjective(a: nat, b: nat)
    requires InvoiceNumber(a) == InvoiceNumber(b)
    ensures a == b
  {
    PrefixCancel(NumberPrefix, Decimal(a + 1001), Decimal(b + 1001));
    DecimalInjective(a + 1001, b + 1001);
  }

  /** Example: a tenant's first invoice is INV-1001. */
  lemma FirstInvoiceNumber()
    ensures InvoiceNumber(0) == "INV-1001"
  {
    assert Decimal(1) == "1";
    assert Decimal(10) == "10";
    assert Decimal(100) == "100";
    assert Decimal(1001) == "1001";
  }

  /** `{"tenant_company": tenant}`. */
  function OfTenant(tenant: string): Invoice -> bool { (i: Invoice) => i.tenant == tenant }

  /** `count_documents({"tenant_company": tenant})`. */
  function TenantCount(invoices: seq<Invoice>, tenant: string): nat {
    Query.Count(invoices, OfTenant(tenant))
  }

  /** The invoice at position `i` is numbered after the number of invoices of its
      tenant that precede it. */
  ghost predicate NumberedAt(invoices: seq<Invoice>, i: nat)
    requires i < |invoices|
  {
    invoices[i].number == InvoiceNumber(TenantCount(invoices[..i], invoices[i].tenant))
  }

  /** The invariant both creation paths keep: every invoice is numbered after the
      number of invoices of its tenant that were created before it. */
  ghost predicate Numbered(invoices: seq<Invoice>) {
    forall i {:trigger NumberedAt(invoices, i)} :: 0 <= i < |invoices| ==> NumberedAt(invoices, i)
  }

  /** Appending an invoice numbered after its tenant's current count keeps the invariant. */
  lemma NumberedAppend(invoices: seq<Invoice>, x: Invoice)
    requires Numbered(invoices)
    requires x.number == InvoiceNumber(TenantCount(invoices, x.tenant))
    ensures Numbered(invoices + [x])
  {
    var s := invoices + [x];
    forall i | 0 <= i < |s|
      ensures NumberedAt(s, i)
    {
      if i < |invoices| {
        assert NumberedAt(invoices, i);
        assert s[..i] == invoices[..i];
        assert s[i] == invoices[i];
      } else {
        assert s[..i] == invoices;
      }
    }
  }

  /** An invoice is counted among its tenant's invoices by every later position. */
  lemma CountedBefore(invoices: seq<Invoice>, i: nat, j: nat)
    requires i < j <= |invoices|
    ensures TenantCount(invoices[..i], invoices[i].tenant) < TenantCount(invoices[..j], invoices[i].tenant)
  {
    var between := invoices[i..j];
    assert invoices[..j] == invoices[..i] + between;
    Query.CountConcat(invoices[..i], between, OfTenant(invoices[i].tenant));
    assert OfTenant(invoices[i].tenant)(between[0]);
  }

  /** Under the invariant, no two invoices of one tenant share a number. */
  lemma NumbersDistinct(invoices: seq<Invoice>, i: nat, j: nat)
    requires Numbered(invoices)
    requires i < j < |invoices|
    requires invoices[i].tenant == invoices[j].tenant
    ensures invoices[i].number != invoices[j].number
  {
    assert NumberedAt(invoices, i) && NumberedAt(invoices, j);
    CountedBefore(invoices, i, j);
    var c := invoices[i].tenant;
    if invoices[i].number == invoices[j].number {
      InvoiceNumberInjective(TenantCount(invoices[..i], c), TenantCount(invoices[..j], c));
    }
  }

  /** `sum(item.quantity * item.rate for item in items)`. */
  function Total(items: seq<Item>): int {
    if items == [] then 0 else items[0].quantity * items[0].rate + Total(items[1..])
  }

  /** The total of a concatenation of item lists is the sum of their totals. */
  lemma {:induction false} TotalAppend(a: seq<Item>, b: seq<Item>)
    ensures Total(a + b) == Total(a) + Total(b)
  {
    if a == [] {
      assert a + b == b;
    } else {
      assert (a + b)[1..] == a[1..] + b;
      TotalAppend(a[1..], b);
    }
  }
}
