/** The seller's invoice form (src/components/webshop/InvoiceGenerator.tsx): a list of line
    items whose totals follow quantity × price, the derived subtotal / 19% TVA / total /
    seller commission, and the Romanian number-to-words helper used on the preview. */
module InvoiceGenerator {
  import opened Seqs
  import opened Text

  // ------------------------------------------------------------------ number to words

  const Ones: seq<string> := ["", "unu", "doi", "trei", "patru", "cinci", "șase", "șapte", "opt", "nouă"]
  const Tens: seq<string> := ["", "", "douăzeci", "treizeci", "patruzeci", "cincizeci", "șaizeci", "șaptezeci", "optzeci", "nouăzeci"]
  const Hundreds: seq<string> := ["", "una sută", "două sute", "trei sute", "patru sute", "cinci sute", "șase sute", "șapte sute", "opt sute", "nouă sute"]
  const Teens: seq<string> := ["zece", "unsprezece", "doisprezece", "treisprezece", "paisprezece", "cincisprezece", "șaisprezece", "șaptesprezece", "optsprezece", "nouăsprezece"]

  /** No character of `s` is a decimal digit. */
  predicate NoDigits(s: string)
  {
    forall i :: 0 <= i < |s| ==> !IsDigit(s[i])
  }

  lemma OnesHaveNoDigits()
    ensures |Ones| == 10 && forall k :: 0 <= k < 10 ==> NoDigits(Ones[k]) && (k >= 1 ==> Ones[k] != [])
  {
  }

  lemma TensHaveNoDigits()
    ensures |Tens| == 10 && forall k :: 0 <= k < 10 ==> NoDigits(Tens[k]) && (k >= 2 ==> Tens[k] != [])
  {
  }

  lemma HundredsHaveNoDigits()
    ensures |Hundreds| == 10 && forall k :: 0 <= k < 10 ==> NoDigits(Hundreds[k]) && (k >= 1 ==> Hundreds[k] != [])
  {
  }

  lemma TeensHaveNoDigits()
    ensures |Teens| == 10 && forall k :: 0 <= k < 10 ==> NoDigits(Teens[k]) && Teens[k] != []
  {
  }

  /** The four word tables are ten entries each, hold no digit, and are non-empty wherever
      `numberToWords` reads them. */
  lemma WordTablesHaveNoDigits()
    ensures |Ones| == 10 && |Tens| == 10 && |Hundreds| == 10 && |Teens| == 10
    ensures forall k :: 0 <= k < 10 ==> NoDigits(Ones[k]) && NoDigits(Tens[k]) && NoDigits(Hundreds[k]) && NoDigits(Teens[k])
    ensures forall k :: 1 <= k < 10 ==> Ones[k] != [] && Hundreds[k] != []
    ensures forall k :: 2 <= k < 10 ==> Tens[k] != []
    ensures forall k :: 0 <= k < 10 ==> Teens[k] != []
  {
    OnesHaveNoDigits();
    TensHaveNoDigits();
    HundredsHaveNoDigits();
    TeensHaveNoDigits();
  }

  /** `numberToWords(num)` for a whole number: Romanian words below 1000, the decimal digits
      from 1000 on. */
  function NumberToWords(n: nat): (r: string)
  {
    if n == 0 then "zero"
    else if n < 10 then Ones[n]
    else if n < 20 then Teens[n - 10]
    else if n < 100 then Tens[n / 10] + (if n % 10 > 0 then " și " + Ones[n % 10] else "")
    else if n < 1000 then Hundreds[n / 100] + (if n % 100 > 0 then " " + NumberToWords(n % 100) else "")
    else NatToString(n)
  }

  /** 0 reads "zero", 1..9 the unit word, 10..19 the teen word. */
  lemma NumberToWordsBelowTwenty(n: nat)
    requires n < 20
    ensures n == 0 ==> NumberToWords(n) == "zero"
    ensures 1 <= n < 10 ==> NumberToWords(n) == Ones[n]
    ensures 10 <= n ==> NumberToWords(n) == Teens[n - 10]
  {
  }

  /** 20..99 read as the tens word, followed by " și " and the unit word exactly when the
      last digit is not 0. */
  lemma NumberToWordsTens(n: nat)
    requires 20 <= n < 100
    ensures NumberToWords(n)[..|Tens[n / 10]|] == Tens[n / 10]
    ensures n % 10 > 0 <==> |NumberToWords(n)| > |Tens[n / 10]|
    ensures n % 10 > 0 ==> NumberToWords(n)[|Tens[n / 10]|..] == " și " + Ones[n % 10]
  {
  }

  /** 100..999 read as the hundreds word, followed by a space and the words of the last two
      digits exactly when they are not 00; those words are read without further recursion. */
  lemma NumberToWordsHundreds(n: nat)
    requires 100 <= n < 1000
    ensures NumberToWords(n)[..|Hundreds[n / 100]|] == Hundreds[n / 100]
    ensures n % 100 > 0 <==> |NumberToWords(n)| > |Hundreds[n / 100]|
    ensures n % 100 > 0 ==> NumberToWords(n)[|Hundreds[n / 100]|..] == " " + NumberToWords(n % 100) && n % 100 < 100
  {
  }

  /** Joining two texts without digits gives a text without digits. */
  lemma NoDigitsConcat(a: string, b: string)
    requires NoDigits(a) && NoDigits(b)
    ensures NoDigits(a + b)
  {
    forall i | 0 <= i < |a + b|
      ensures !IsDigit((a + b)[i])
    {
      if i < |a| {
        assert (a + b)[i] == a[i];
      } else {
        assert (a + b)[i] == b[i - |a|];
      }
    }
  }

  /** Below 1000 the result is words: never empty and without a digit. */
  lemma {:induction false} NumberToWordsBelowThousand(n: nat)
    requires n < 1000
    ensures NumberToWords(n) != [] && NoDigits(NumberToWords(n))
  {
    WordTablesHaveNoDigits();
    if n >= 100 {
      if n % 100 > 0 {
        NumberToWordsBelowThousand(n % 100);
        NoDigitsConcat(" ", NumberToWords(n % 100));
        NoDigitsConcat(Hundreds[n / 100], " " + NumberToWords(n % 100));
      }
    } else if n >= 20 {
      if n % 10 > 0 {
        NoDigitsConcat(" și ", Ones[n % 10]);
        NoDigitsConcat(Tens[n / 10], " și " + Ones[n % 10]);
      }
    }
  }

  /** Below 1000 the result is words (never empty, no digit); from 1000 on it is the number's
      own decimal digits, which read back as the number. */
  lemma NumberToWordsRegimes(n: nat)
    ensures NumberToWords(n) != []
    ensures n < 1000 <==> NoDigits(NumberToWords(n))
    ensures n >= 1000 ==> (forall i :: 0 <= i < |NumberToWords(n)| ==> IsDigit(NumberToWords(n)[i]))
    ensures n >= 1000 ==> ParseNat(NumberToWords(n)) == n
  {
    if n >= 1000 {
      ParseNatToString(n);
      assert IsDigit(NumberToWords(n)[0]);
    } else {
      NumberToWordsBelowThousand(n);
    }
  }

  // ------------------------------------------------------------------ line items and amounts

  datatype InvoiceItem = InvoiceItem(name: string, quantity: int, price: real, total: real)

  datatype PaymentMethod = Cash | Card

  /** The item fields the form edits: the product input (a string), the quantity input
      (`parseInt(...) || 0`) and the price input (`parseFloat(...) || 0`). */
  datatype ItemEdit = SetName(name: string) | SetQuantity(quantity: int) | SetPrice(price: real)

  /** Every item's total is its quantity times its price. */
  predicate TotalsConsistent(items: seq<InvoiceItem>)
  {
    forall i :: 0 <= i < |items| ==> items[i].total == items[i].quantity as real * items[i].price
  }

  /** `updateItem(index, field, value)` on one item: set the field, and recompute the total
      when the field is the quantity or the price. */
  function Edited(item: InvoiceItem, edit: ItemEdit): (r: InvoiceItem)
    ensures edit.SetName? ==> r == item.(name := edit.name)
    ensures !edit.SetName? ==> r.name == item.name && r.total == r.quantity as real * r.price
    ensures edit.SetQuantity? ==> r.quantity == edit.quantity && r.price == item.price
    ensures edit.SetPrice? ==> r.price == edit.price && r.quantity == item.quantity
  {
    var updated := match edit
      case SetName(v) => item.(name := v)
      case SetQuantity(v) => item.(quantity := v)
      case SetPrice(v) => item.(price := v);
    if edit.SetName? then updated else updated.(total := updated.quantity as real * updated.price)
  }

  /** `subtotal = items.reduce((sum, item) => sum + item.total, 0)`. */
  function Subtotal(items: seq<InvoiceItem>): real
  {
    SumReal(items, (item: InvoiceItem) => item.total)
  }

  /** `tva = subtotal * 0.19`, with 0.19 taken as the exact rate 19/100. */
  function Tva(items: seq<InvoiceItem>): real
  {
    Subtotal(items) * (19.0 / 100.0)
  }

  /** `total = subtotal + tva`. */
  function Total(items: seq<InvoiceItem>): real
  {
    Subtotal(items) + Tva(items)
  }

  /** `commission = total * (seller.commission / 100)`. */
  function Commission(items: seq<InvoiceItem>, rate: real): real
  {
    Total(items) * (rate / 100.0)
  }

  /** The total is 119% of the subtotal, and the commission is taken on that VAT-inclusive
      total: it exceeds the rate applied to the subtotal by the rate applied to the TVA. */
  lemma AmountsRelation(items: seq<InvoiceItem>, rate: real)
    ensures Total(items) == Subtotal(items) * (119.0 / 100.0)
    ensures Commission(items, rate) == Subtotal(items) * (119.0 / 100.0) * (rate / 100.0)
    ensures Commission(items, rate) == Subtotal(items) * (rate / 100.0) + Tva(items) * (rate / 100.0)
  {
  }

  /** When the totals are consistent, the subtotal is Σ quantity × price. */
  lemma {:induction false} SubtotalIsSumOfProducts(items: seq<InvoiceItem>)
    requires TotalsConsistent(items)
    ensures Subtotal(items) == SumReal(items, (item: InvoiceItem) => item.quantity as real * item.price)
  {
    if items != [] {
      SubtotalIsSumOfProducts(items[1..]);
    }
  }

  /** `items.some(item => !item.name)`. */
  function SomeNameEmpty(items: seq<InvoiceItem>): (b: bool)
    ensures b <==> exists i :: 0 <= i < |items| && items[i].name == ""
  {
    if items == [] then false
    else if items[0].name == "" then true
    else
      var b := SomeNameEmpty(items[1..]);
      assert (exists i :: 1 <= i < |items| && items[i].name == "") <==> b by {
        if b {
          var i :| 0 <= i < |items[1..]| && items[1..][i].name == "";
          assert items[i + 1].name == "";
        }
      }
      b
  }

  /** The "Generează Factura" button is enabled: `!(!customerName || items.some(item => !item.name))`. */
  function GenerateEnabled(customerName: string, items: seq<InvoiceItem>): (enabled: bool)
    ensures enabled <==> customerName != "" && forall i :: 0 <= i < |items| ==> items[i].name != ""
  {
    !(customerName == "" || SomeNameEmpty(items))
  }

  // ------------------------------------------------------------------ form state

  /** The invoice dialog's state. */
  class InvoiceForm {
    var customerName: string
    var customerEmail: string
    var customerPhone: string
    var paymentMethod: PaymentMethod
    var items: seq<InvoiceItem>
    var showPreview: bool
    /** `seller.commission`, the seller's percentage. */
    const sellerCommission: real

    /** The list is never empty and every total follows quantity × price. */
    predicate Valid()
      reads this
    {
      |items| >= 1 && TotalsConsistent(items)
    }

    constructor (sellerCommission: real)
      ensures this.sellerCommission == sellerCommission
      ensures items == [InvoiceItem("Ser Vitamina C Premium", 1, 189.0, 189.0)]
      ensures customerName == "" && customerEmail == "" && customerPhone == ""
      ensures paymentMethod == Card && !showPreview
      ensures Valid()
    {
      this.sellerCommission := sellerCommission;
      customerName, customerEmail, customerPhone := "", "", "";
      paymentMethod := Card;
      items := [InvoiceItem("Ser Vitamina C Premium", 1, 189.0, 189.0)];
      showPreview := false;
    }

    /** `addItem`: append an empty item (quantity 1, price 0, total 0). */
    method AddItem()
      modifies this`items
      ensures items == old(items) + [InvoiceItem("", 1, 0.0, 0.0)]
      ensures old(Valid()) ==> Valid()
    {
      items := items + [InvoiceItem("", 1, 0.0, 0.0)];
    }

    /** `updateItem(index, field, value)`: copy the list, replace the item at `index` with the
        field set, then, for quantity or price, overwrite that copy's total with
        quantity × price. */
    method UpdateItem(index: nat, edit: ItemEdit)
      requires index < |items|
      modifies this`items
      ensures |items| == |old(items)|
      ensures items[index] == Edited(old(items)[index], edit)
      ensures forall j :: 0 <= j < |items| && j != index ==> items[j] == old(items)[j]
      ensures old(Valid()) ==> Valid()
    {
      var newItems := items;
      var item := items[index];
      newItems := newItems[index := match edit
        case SetName(v) => item.(name := v)
        case SetQuantity(v) => item.(quantity := v)
        case SetPrice(v) => item.(price := v)];
      if edit.SetQuantity? || edit.SetPrice? {
        newItems := newItems[index := newItems[index].(total := newItems[index].quantity as real * newItems[index].price)];
      }
      items := newItems;
    }

    /** `removeItem(index)`: `items.filter((_, i) => i !== index)`. */
    method RemoveItem(index: nat)
      requires index < |items|
      modifies this`items
      ensures items == old(items)[..index] + old(items)[index + 1..]
      ensures TotalsConsistent(old(items)) ==> TotalsConsistent(items)
    {
      items := items[..index] + items[index + 1..];
      assert forall j :: 0 <= j < |items| ==> items[j] == old(items)[if j < index then j else j + 1];
    }

    /** The remove button: `disabled={items.length === 1}`. */
    predicate RemoveEnabled()
      reads this
    {
      |items| != 1
    }

    /** A click on the remove button of item `index`: nothing when it is disabled. */
    method ClickRemove(index: nat)
      requires index < |items|
      modifies this`items
      ensures old(RemoveEnabled()) ==> items == old(items)[..index] + old(items)[index + 1..]
      ensures !old(RemoveEnabled()) ==> items == old(items)
      ensures old(Valid()) ==> Valid()
    {
      if RemoveEnabled() {
        RemoveItem(index);
      }
    }

    /** The amounts the form shows. */
    function Amounts(): (r: (real, real, real, real))
      reads this
      ensures r.0 == Subtotal(items)
      ensures r.1 == r.0 * (19.0 / 100.0) && r.2 == r.0 + r.1
      ensures r.2 == r.0 * (119.0 / 100.0)
      ensures r.3 == r.2 * (sellerCommission / 100.0)
    {
      AmountsRelation(items, sellerCommission);
      (Subtotal(items), Tva(items), Total(items), Commission(items, sellerCommission))
    }

    /** `generateInvoice`, reachable only through the enabled button. */
    method GenerateInvoice()
      requires GenerateEnabled(customerName, items)
      modifies this`showPreview
      ensures showPreview
    {
      showPreview := true;
    }
  }
}
