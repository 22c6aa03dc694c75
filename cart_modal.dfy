/** The shopping cart of the webshop (src/components/webshop/CartModal.tsx): a list of
    product entries, each picked up at one clinic. The cart state itself lives in the
    webshop page and is replaced through `setCart`; here it is the `items` field of `Cart`.

    The modal's own operations are keyed by product id alone, while adding to the cart
    (Webshop.AddToCart) is keyed by the pair (id, clinic): changing or removing one line
    therefore affects every line of that product, in every clinic. */
module CartModal {
  import opened Seqs
  import opened Clinics

  datatype CartItem = CartItem(
    id: int,
    name: string,
    price: real,
    category: string,
    image: string,
    quantity: int,
    clinic: string)

  // ------------------------------------------------------------------ specification

  /** `cart.filter(item => item.id !== id)`. */
  function WithoutProduct(cart: seq<CartItem>, id: int): (r: seq<CartItem>)
    ensures forall x :: x in r <==> x in cart && x.id != id
    ensures |r| <= |cart|
  {
    Filter(cart, (item: CartItem) => item.id != id)
  }

  /** `cart.map(item => item.id === id ? { ...item, quantity } : item)`. */
  function WithQuantity(cart: seq<CartItem>, id: int, quantity: int): (r: seq<CartItem>)
    ensures |r| == |cart|
    ensures forall i :: 0 <= i < |cart| && cart[i].id != id ==> r[i] == cart[i]
    ensures forall i :: 0 <= i < |cart| && cart[i].id == id ==> r[i] == cart[i].(quantity := quantity)
  {
    if cart == [] then []
    else [if cart[0].id == id then cart[0].(quantity := quantity) else cart[0]] + WithQuantity(cart[1..], id, quantity)
  }

  /** The amount of one line: price × quantity. */
  function LineTotal(item: CartItem): real
  {
    item.price * item.quantity as real
  }

  /** `getTotalPrice`: `cart.reduce((total, item) => total + item.price * item.quantity, 0)`. */
  function TotalPrice(cart: seq<CartItem>): real
  {
    SumReal(cart, LineTotal)
  }

  /** The number of units in the cart. */
  function TotalQuantity(cart: seq<CartItem>): int
  {
    SumInt(cart, (item: CartItem) => item.quantity)
  }

  /** Every line holds at least one unit. */
  predicate QuantitiesPositive(cart: seq<CartItem>)
  {
    forall i :: 0 <= i < |cart| ==> cart[i].quantity >= 1
  }

  /** No two lines share both product id and clinic. */
  predicate UniqueLines(cart: seq<CartItem>)
  {
    forall i, j :: 0 <= i < j < |cart| ==> cart[i].id != cart[j].id || cart[i].clinic != cart[j].clinic
  }

  /** The lines picked up at clinic `c`. */
  function AtClinic(c: string): CartItem -> bool
  {
    (item: CartItem) => item.clinic == c
  }

  /** `groupedByClinic`: the `reduce` that appends each line, in cart order, to the group of
      its clinic, creating the group on first use. */
  function GroupedByClinic(cart: seq<CartItem>): (groups: map<string, seq<CartItem>>)
    decreases |cart|
  {
    if cart == [] then map[]
    else
      var groups := GroupedByClinic(cart[..|cart| - 1]);
      var item := cart[|cart| - 1];
      groups[item.clinic := (if item.clinic in groups then groups[item.clinic] else []) + [item]]
  }

  // ------------------------------------------------------------------ properties

  /** Removing a product keeps the remaining lines in their original order: removal
      distributes over concatenation. */
  lemma WithoutProductAppend(a: seq<CartItem>, b: seq<CartItem>, id: int)
    ensures WithoutProduct(a + b, id) == WithoutProduct(a, id) + WithoutProduct(b, id)
  {
    FilterAppend(a, b, (item: CartItem) => item.id != id);
  }

  /** Removing a product that has no line changes nothing. */
  lemma WithoutAbsentProduct(cart: seq<CartItem>, id: int)
    requires forall i :: 0 <= i < |cart| ==> cart[i].id != id
    ensures WithoutProduct(cart, id) == cart
  {
    FilterAll(cart, (item: CartItem) => item.id != id);
  }

  /** The cart total is additive over concatenation; the empty cart totals 0. */
  lemma TotalPriceAppend(a: seq<CartItem>, b: seq<CartItem>)
    ensures TotalPrice(a + b) == TotalPrice(a) + TotalPrice(b)
    ensures TotalPrice([]) == 0.0
  {
    SumRealAppend(a, b, LineTotal);
  }

  /** With non-negative prices and quantities the total is never negative. */
  lemma TotalPriceNonNegative(cart: seq<CartItem>)
    requires forall i :: 0 <= i < |cart| ==> cart[i].price >= 0.0 && cart[i].quantity >= 0
    ensures TotalPrice(cart) >= 0.0
  {
    forall i | 0 <= i < |cart| ensures LineTotal(cart[i]) >= 0.0 {
      assert cart[i].price >= 0.0 && cart[i].quantity as real >= 0.0;
    }
    SumRealNonNegative(cart, LineTotal);
  }

  /** A filter keeps the lines distinct. */
  lemma {:induction false} FilterKeepsUniqueLines(cart: seq<CartItem>, keep: CartItem -> bool)
    requires UniqueLines(cart)
    ensures UniqueLines(Filter(cart, keep))
  {
    if cart != [] {
      var rest := Filter(cart[1..], keep);
      FilterKeepsUniqueLines(cart[1..], keep);
      assert forall x :: x in rest ==> x.id != cart[0].id || x.clinic != cart[0].clinic by {
        forall x | x in rest ensures x.id != cart[0].id || x.clinic != cart[0].clinic {
          var k :| 0 <= k < |cart[1..]| && cart[1..][k] == x;
          assert cart[k + 1] == x;
        }
      }
      var r := Filter(cart, keep);
      if keep(cart[0]) {
        assert r == [cart[0]] + rest;
        forall i, j | 0 <= i < j < |r| ensures r[i].id != r[j].id || r[i].clinic != r[j].clinic {
          if i == 0 {
            assert r[j] == rest[j - 1] && r[j] in rest;
          } else {
            assert r[i] == rest[i - 1] && r[j] == rest[j - 1];
          }
        }
      } else {
        assert r == rest;
      }
    }
  }

  /** Removing a product and changing a quantity both keep the (id, clinic) lines distinct. */
  lemma UpdatesKeepUniqueLines(cart: seq<CartItem>, id: int, quantity: int)
    requires UniqueLines(cart)
    ensures UniqueLines(WithoutProduct(cart, id))
    ensures UniqueLines(WithQuantity(cart, id, quantity))
  {
    FilterKeepsUniqueLines(cart, (item: CartItem) => item.id != id);
  }

  /** The "−" and "+" buttons of line `index` (quantity − 1 / quantity + 1) keep every
      remaining quantity at least 1: reaching 0 removes the product instead. */
  lemma StepButtonsKeepQuantitiesPositive(cart: seq<CartItem>, index: nat, delta: int)
    requires QuantitiesPositive(cart) && index < |cart| && (delta == -1 || delta == 1)
    ensures cart[index].quantity + delta == 0 ==> QuantitiesPositive(WithoutProduct(cart, cart[index].id))
    ensures cart[index].quantity + delta != 0
      ==> QuantitiesPositive(WithQuantity(cart, cart[index].id, cart[index].quantity + delta))
  {
    var q := cart[index].quantity + delta;
    if q == 0 {
      var r := WithoutProduct(cart, cart[index].id);
      forall i | 0 <= i < |r| ensures r[i].quantity >= 1 {
        assert r[i] in r;
        var k :| 0 <= k < |cart| && cart[k] == r[i];
      }
    }
  }

  /** The keying mismatch: when a product has lines in two clinics, pressing "−" or "+"
      on one of them changes the other line too (or removes it). */
  lemma StepButtonReachesOtherClinic(cart: seq<CartItem>, index: nat, other: nat, delta: int)
    requires index < |cart| && other < |cart| && (delta == -1 || delta == 1)
    requires cart[other].id == cart[index].id && cart[other].clinic != cart[index].clinic
    ensures var q := cart[index].quantity + delta;
      if q == 0 then cart[other] !in WithoutProduct(cart, cart[index].id)
      else WithQuantity(cart, cart[index].id, q)[other] == cart[other].(quantity := q)
  {
  }

  /** `groupedByClinic` has a group exactly for each clinic that has a line. */
  lemma {:induction false} GroupedByClinicKeys(cart: seq<CartItem>)
    ensures forall c :: c in GroupedByClinic(cart) <==> exists i :: 0 <= i < |cart| && cart[i].clinic == c
    decreases |cart|
  {
    if cart != [] {
      var p := cart[..|cart| - 1];
      GroupedByClinicKeys(p);
      var before, after := GroupedByClinic(p), GroupedByClinic(cart);
      forall c ensures c in after <==> exists i :: 0 <= i < |cart| && cart[i].clinic == c {
        if c in before {
          var i :| 0 <= i < |p| && p[i].clinic == c;
          assert cart[i] == p[i];
        }
        if exists i :: 0 <= i < |cart| && cart[i].clinic == c {
          var i :| 0 <= i < |cart| && cart[i].clinic == c;
          if i < |p| { assert p[i] == cart[i]; }
        }
      }
    }
  }

  /** The group of clinic `c` is the cart's lines at `c`, in cart order. */
  lemma {:induction false} GroupedByClinicGroups(cart: seq<CartItem>)
    ensures forall c :: c in GroupedByClinic(cart) ==> GroupedByClinic(cart)[c] == Filter(cart, AtClinic(c))
    decreases |cart|
  {
    if cart != [] {
      var p, x := cart[..|cart| - 1], cart[|cart| - 1];
      assert cart == p + [x];
      GroupedByClinicGroups(p);
      GroupedByClinicKeys(p);
      forall c | c in GroupedByClinic(cart) ensures GroupedByClinic(cart)[c] == Filter(cart, AtClinic(c)) {
        GroupAfterAppend(p, x, c);
      }
    }
  }

  /** One step of `GroupedByClinicGroups`: appending line `x` extends the group of `x`'s
      clinic by `x` and leaves the others alone. */
  lemma GroupAfterAppend(p: seq<CartItem>, x: CartItem, c: string)
    requires c in GroupedByClinic(p) ==> GroupedByClinic(p)[c] == Filter(p, AtClinic(c))
    requires c !in GroupedByClinic(p) ==> forall i :: 0 <= i < |p| ==> p[i].clinic != c
    requires c in GroupedByClinic(p + [x])
    ensures GroupedByClinic(p + [x])[c] == Filter(p + [x], AtClinic(c))
  {
    assert (p + [x])[..|p|] == p;
    FilterAppend(p, [x], AtClinic(c));
    assert Filter([x], AtClinic(c)) == (if x.clinic == c then [x] else []) + Filter([x][1..], AtClinic(c));
    if c !in GroupedByClinic(p) {
      FilterNone(p, AtClinic(c));
    }
  }

  /** `groupedByClinic` partitions the cart: there is a group exactly for each clinic that
      has a line, and the group of clinic `c` is the cart's lines at `c`, in cart order. */
  lemma GroupedByClinicPartition(cart: seq<CartItem>)
    ensures forall c :: c in GroupedByClinic(cart) <==> exists i :: 0 <= i < |cart| && cart[i].clinic == c
    ensures forall c :: c in GroupedByClinic(cart) ==> GroupedByClinic(cart)[c] == Filter(cart, AtClinic(c))
  {
    GroupedByClinicKeys(cart);
    GroupedByClinicGroups(cart);
  }

  /** Every line lands in exactly the group of its own clinic. */
  lemma LineInOwnGroup(cart: seq<CartItem>, i: nat)
    requires i < |cart|
    ensures cart[i].clinic in GroupedByClinic(cart)
    ensures cart[i] in GroupedByClinic(cart)[cart[i].clinic]
    ensures forall c :: c in GroupedByClinic(cart) && cart[i] in GroupedByClinic(cart)[c] ==> c == cart[i].clinic
  {
    GroupedByClinicPartition(cart);
  }

  // ------------------------------------------------------------------ state

  /** The cart state shared by the webshop page and the modal. */
  class Cart {
    var items: seq<CartItem>

    /** `useState<any[]>([])`. */
    constructor ()
      ensures items == []
    {
      items := [];
    }

    /** `removeFromCart(id)`: drops every line of that product, in every clinic. */
    method RemoveFromCart(id: int)
      modifies this
      ensures items == WithoutProduct(old(items), id)
    {
      items := WithoutProduct(items, id);
    }

    /** `updateQuantity(id, newQuantity)`: 0 removes the product; any other value is set on
        every line of that product, in every clinic, leaving the order alone. */
    method UpdateQuantity(id: int, newQuantity: int)
      modifies this
      ensures newQuantity == 0 ==> items == WithoutProduct(old(items), id)
      ensures newQuantity != 0 ==> items == WithQuantity(old(items), id, newQuantity)
    {
      if newQuantity == 0 {
        RemoveFromCart(id);
        return;
      }
      items := WithQuantity(items, id, newQuantity);
    }

    /** The "−" button of line `index`. */
    method Decrease(index: nat)
      requires index < |items|
      modifies this
      ensures old(items)[index].quantity - 1 == 0 ==> items == WithoutProduct(old(items), old(items)[index].id)
      ensures old(items)[index].quantity - 1 != 0
        ==> items == WithQuantity(old(items), old(items)[index].id, old(items)[index].quantity - 1)
      ensures QuantitiesPositive(old(items)) ==> QuantitiesPositive(items)
    {
      ghost var before := items;
      var line := items[index];
      UpdateQuantity(line.id, line.quantity - 1);
      if QuantitiesPositive(before) { StepButtonsKeepQuantitiesPositive(before, index, -1); }
    }

    /** The "+" button of line `index`. */
    method Increase(index: nat)
      requires index < |items|
      modifies this
      ensures old(items)[index].quantity + 1 == 0 ==> items == WithoutProduct(old(items), old(items)[index].id)
      ensures old(items)[index].quantity + 1 != 0
        ==> items == WithQuantity(old(items), old(items)[index].id, old(items)[index].quantity + 1)
      ensures QuantitiesPositive(old(items)) ==> QuantitiesPositive(items)
    {
      ghost var before := items;
      var line := items[index];
      UpdateQuantity(line.id, line.quantity + 1);
      if QuantitiesPositive(before) { StepButtonsKeepQuantitiesPositive(before, index, 1); }
    }

    /** `handleCheckout`: announces the total and empties the cart. */
    method HandleCheckout() returns (announcedTotal: real)
      modifies this
      ensures announcedTotal == TotalPrice(old(items))
      ensures items == []
    {
      announcedTotal := TotalPrice(items);
      items := [];
    }

    /** The "Golește coșul" button: `setCart([])`. */
    method Clear()
      modifies this
      ensures items == []
    {
      items := [];
    }
  }
}
