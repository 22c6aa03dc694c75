/** The seller's page (src/pages/SellerDashboard.tsx): the guard that sends a visitor without
    a seller session to the seller login, the sale log that a QR scan prepends to, the
    invoice numbers it makes up, and the figures the page shows over the log. */
module SellerDashboard {
  import opened Wrappers
  import opened Seqs
  import opened Text
  import opened SellerAuthContext

  datatype SaleType = Qr | Online | InStore

  datatype PaymentMethod = Cash | Card

  datatype Sale = Sale(
    id: string, productName: string, price: real, commission: real, date: string,
    saleType: SaleType, paymentMethod: PaymentMethod, invoiceNumber: Option<string>)

  const MockSales: seq<Sale> := [
    Sale("1", "Ser Vitamina C Premium", 189.0, 18.9, "2024-01-15 14:30", Qr, Card, Some("INV-2024-001")),
    Sale("2", "Omega 3 Supreme", 149.0, 14.9, "2024-01-15 11:20", InStore, Cash, Some("INV-2024-002")),
    Sale("3", "Voucher Terapie IV Longevitate", 450.0, 45.0, "2024-01-14 16:45", Online, Card, Some("INV-2024-003"))
  ]

  // ------------------------------------------------------------------ guard

  /** What the page does on render. */
  datatype View = RedirectTo(path: string) | SellerPage

  /** `if (!seller) { navigate('/seller-login'); return null; }`. */
  function Gate(seller: Option<Seller>): (v: View)
    ensures v.RedirectTo? <==> seller.None?
    ensures v.RedirectTo? ==> v.path == "/seller-login"
  {
    if seller.None? then RedirectTo("/seller-login") else SellerPage
  }

  // ------------------------------------------------------------------ type labels

  /** The string a sale type is stored as. */
  function TypeCode(t: SaleType): string
  {
    match t
    case Qr => "qr"
    case Online => "online"
    case InStore => "in-store"
  }

  /** `getTypeLabel(type)`. */
  function TypeLabel(code: string): (shown: string)
    ensures code !in {"qr", "online", "in-store"} ==> shown == code
  {
    if code == "qr" then "QR Code"
    else if code == "online" then "Online"
    else if code == "in-store" then "În clinică"
    else code
  }

  /** `getTypeVariant(type)`. */
  function TypeVariant(code: string): (variant: string)
    ensures code !in {"online", "in-store"} ==> variant == "default"
  {
    if code == "qr" then "default"
    else if code == "online" then "secondary"
    else if code == "in-store" then "outline"
    else "default"
  }

  /** The three sale types get three different labels and three different badge variants,
      and no label is the code of another type. */
  lemma TypeLabelsDistinguishTypes(a: SaleType, b: SaleType)
    ensures TypeLabel(TypeCode(a)) == TypeLabel(TypeCode(b)) <==> a == b
    ensures TypeVariant(TypeCode(a)) == TypeVariant(TypeCode(b)) <==> a == b
    ensures TypeLabel(TypeCode(a)) !in {"qr", "online", "in-store"}
  {
  }

  /** The labels and badge variants of the three known type codes. */
  lemma KnownTypeMappings()
    ensures TypeLabel("qr") == "QR Code" && TypeVariant("qr") == "default"
    ensures TypeLabel("online") == "Online" && TypeVariant("online") == "secondary"
    ensures TypeLabel("in-store") == "În clinică" && TypeVariant("in-store") == "outline"
  {
  }

  // ------------------------------------------------------------------ invoice numbers

  /** `INV-2024-${String(n).padStart(3, '0')}`. */
  function InvoiceNumber(n: nat): string
  {
    "INV-2024-" + PadStart(NatToString(n), 3, '0')
  }

  const InvoicePrefix: string := "INV-2024-"

  /** The shape of an invoice number: the prefix and then at least one decimal digit. */
  predicate WellFormedInvoice(s: string)
  {
    |s| > |InvoicePrefix| && s[..|InvoicePrefix|] == InvoicePrefix
    && forall i :: |InvoicePrefix| <= i < |s| ==> IsDigit(s[i])
  }

  /** The number an invoice number carries. */
  function InvoiceValue(s: string): nat
    requires WellFormedInvoice(s)
  {
    ParseNat(s[|InvoicePrefix|..])
  }

  /** An invoice number is well formed, has at least three digits and reads back as the
      number it was made from; so different numbers give different invoice numbers. */
  lemma InvoiceNumberRoundTrip(n: nat)
    ensures WellFormedInvoice(InvoiceNumber(n))
    ensures |InvoiceNumber(n)| >= |InvoicePrefix| + 3
    ensures InvoiceValue(InvoiceNumber(n)) == n
  {
    var digits := NatToString(n);
    var padded := PadStart(digits, 3, '0');
    var k := |padded| - |digits|;
    assert padded == Repeat('0', k) + digits;
    ParseNatLeadingZeros(k, digits);
    ParseNatToString(n);
    assert InvoiceNumber(n)[|InvoicePrefix|..] == padded;
  }

  /** A one-digit number is padded with two zeros. */
  lemma InvoiceNumberOneDigit(n: nat)
    requires n < 10
    ensures InvoiceNumber(n) == "INV-2024-00" + [DigitChar(n)]
  {
    assert NatToString(n) == [DigitChar(n)];
    assert Repeat('0', 1) == "0";
    assert Repeat('0', 2) == "00";
  }

  lemma InvoiceNumberInjective(a: nat, b: nat)
    ensures InvoiceNumber(a) == InvoiceNumber(b) <==> a == b
  {
    InvoiceNumberRoundTrip(a);
    InvoiceNumberRoundTrip(b);
  }

  // ------------------------------------------------------------------ figures over the log

  function CountOfType(sales: seq<Sale>, t: SaleType): nat
  {
    Count(sales, (s: Sale) => s.saleType == t)
  }

  function CountOfPayment(sales: seq<Sale>, m: PaymentMethod): nat
  {
    Count(sales, (s: Sale) => s.paymentMethod == m)
  }

  /** Every sale has exactly one type and one payment method, so the three type counts and
      the two payment counts of the statistics tab each add up to the number of sales. */
  lemma {:induction false} CountsAddUp(sales: seq<Sale>)
    ensures CountOfType(sales, Qr) + CountOfType(sales, Online) + CountOfType(sales, InStore) == |sales|
    ensures CountOfPayment(sales, Card) + CountOfPayment(sales, Cash) == |sales|
  {
    if sales != [] {
      CountsAddUp(sales[1..]);
    }
  }

  /** The "Comision Astăzi" card: `sales.reduce((sum, sale) => sum + sale.commission, 0)`. */
  function CommissionToday(sales: seq<Sale>): real
  {
    SumReal(sales, (s: Sale) => s.commission)
  }

  // ------------------------------------------------------------------ the sale log

  /** The product a QR scan reports. */
  datatype ScannedProduct = ScannedProduct(name: string, price: real)

  /** The sale `handleProductFound` records for a product, when the log already holds
      `logLength` sales; `id` and `date` stand for `Date.now().toString()` and the formatted
      current date. */
  function QrSale(product: ScannedProduct, seller: Seller, logLength: nat, id: string, date: string): (s: Sale)
    ensures s.productName == product.name && s.price == product.price
    ensures s.commission * 100.0 == product.price * seller.commission as real
    ensures s.saleType == Qr && s.paymentMethod == Card
    ensures s.invoiceNumber.Some? && WellFormedInvoice(s.invoiceNumber.value)
      && InvoiceValue(s.invoiceNumber.value) == logLength + 4
  {
    InvoiceNumberRoundTrip(logLength + 4);
    Sale(id, product.name, product.price, product.price * (seller.commission as real / 100.0), date,
      Qr, Card, Some(InvoiceNumber(logLength + 4)))
  }

  /** Every invoice number in the log is well formed and carries a number below
      `|sales| + 4`, and no two sales share one. */
  predicate InvoicesValid(sales: seq<Sale>)
  {
    (forall i :: 0 <= i < |sales| && sales[i].invoiceNumber.Some?
      ==> WellFormedInvoice(sales[i].invoiceNumber.value) && InvoiceValue(sales[i].invoiceNumber.value) < |sales| + 4)
    && forall i, j :: (0 <= i < j < |sales| && sales[i].invoiceNumber.Some? && sales[j].invoiceNumber.Some?
      ==> sales[i].invoiceNumber.value != sales[j].invoiceNumber.value)
  }

  /** A log whose sales carry the invoice numbers 1, 2, ... in order satisfies the invoice
      invariant. */
  lemma NumberedInvoicesValid(sales: seq<Sale>)
    requires forall i :: 0 <= i < |sales| ==> sales[i].invoiceNumber == Some(InvoiceNumber(i + 1))
    ensures InvoicesValid(sales)
  {
    forall i | 0 <= i < |sales|
      ensures WellFormedInvoice(sales[i].invoiceNumber.value) && InvoiceValue(sales[i].invoiceNumber.value) < |sales| + 4
    {
      assert sales[i].invoiceNumber.value == InvoiceNumber(i + 1);
      InvoiceNumberRoundTrip(i + 1);
    }
    forall i, j | 0 <= i < j < |sales|
      ensures sales[i].invoiceNumber.value != sales[j].invoiceNumber.value
    {
      assert sales[i].invoiceNumber.value == InvoiceNumber(i + 1);
      assert sales[j].invoiceNumber.value == InvoiceNumber(j + 1);
      InvoiceNumberInjective(i + 1, j + 1);
    }
  }

  /** The initial log satisfies the invoice invariant. */
  lemma MockSalesValid()
    ensures InvoicesValid(MockSales)
  {
    MockInvoiceNumbers();
    NumberedInvoicesValid(MockSales);
  }

  /** Prepending a sale whose well-formed invoice number is the log length plus four keeps
      the invariant, and that number differs from every earlier one. */
  lemma PrependKeepsInvoicesValid(sales: seq<Sale>, sale: Sale)
    requires InvoicesValid(sales)
    requires sale.invoiceNumber.Some? && WellFormedInvoice(sale.invoiceNumber.value)
    requires InvoiceValue(sale.invoiceNumber.value) == |sales| + 4
    ensures InvoicesValid([sale] + sales)
    ensures forall i :: (0 <= i < |sales| && sales[i].invoiceNumber.Some?
      ==> sales[i].invoiceNumber != sale.invoiceNumber)
  {
    var after := [sale] + sales;
    forall i | 0 <= i < |sales| && sales[i].invoiceNumber.Some?
      ensures sales[i].invoiceNumber != sale.invoiceNumber
    {
      assert InvoiceValue(sales[i].invoiceNumber.value) < |sales| + 4;
    }
    forall i | 1 <= i < |after|
      ensures after[i] == sales[i - 1]
    {
    }
  }

  /** The page's sale log for a signed-in seller. */
  class SellerDashboardPage {
    var sales: seq<Sale>
    const seller: Seller

    predicate Valid()
      reads this
    {
      InvoicesValid(sales)
    }

    constructor (seller: Seller)
      ensures this.seller == seller && sales == MockSales && Valid()
    {
      this.seller := seller;
      sales := MockSales;
      new;
      MockSalesValid();
    }

    /** `handleProductFound(product)`: prepend one QR sale; the earlier sales follow
        unchanged. Its invoice number is new, and the commission card grows by exactly its
        commission. */
    method HandleProductFound(product: ScannedProduct, id: string, date: string)
      requires Valid()
      modifies this`sales
      ensures sales == [QrSale(product, seller, |old(sales)|, id, date)] + old(sales)
      ensures Valid()
      ensures forall i :: (0 <= i < |old(sales)| && old(sales)[i].invoiceNumber.Some?
        ==> old(sales)[i].invoiceNumber != sales[0].invoiceNumber)
      ensures CommissionToday(sales) == CommissionToday(old(sales)) + sales[0].commission
    {
      var sale := QrSale(product, seller, |sales|, id, date);
      PrependKeepsInvoicesValid(sales, sale);
      sales := [sale] + sales;
    }
  }

  /** The first scan on a fresh page gets invoice number INV-2024-007: the log starts with
      three sales numbered 001 to 003 and the new number is the log length plus four. */
  lemma FirstScanInvoiceNumber(product: ScannedProduct, seller: Seller, id: string, date: string)
    ensures QrSale(product, seller, |MockSales|, id, date).invoiceNumber == Some("INV-2024-007")
  {
    InvoiceNumberOneDigit(7);
    assert DigitChar(7) == '7';
    assert "INV-2024-00" + ['7'] == "INV-2024-007";
  }

  /** The page's initial sales carry the invoice numbers 1, 2 and 3. */
  lemma MockInvoiceNumbers()
    ensures forall i :: 0 <= i < |MockSales| ==> MockSales[i].invoiceNumber == Some(InvoiceNumber(i + 1))
  {
    InvoiceNumberOneDigit(1);
    InvoiceNumberOneDigit(2);
    InvoiceNumberOneDigit(3);
    assert DigitChar(1) == '1' && DigitChar(2) == '2' && DigitChar(3) == '3';
    assert "INV-2024-00" + ['1'] == "INV-2024-001";
    assert "INV-2024-00" + ['2'] == "INV-2024-002";
    assert "INV-2024-00" + ['3'] == "INV-2024-003";
  }
}
