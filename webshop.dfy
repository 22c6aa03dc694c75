/** The webshop page (src/pages/Webshop.tsx): a fixed catalogue in three categories,
    per-clinic stock, a search over the active category, and `addToCart`, which keys the
    cart by the pair (product id, selected clinic). */
module Webshop {
  import opened Wrappers
  import opened Seqs
  import opened Text
  import opened CartModal

  datatype Product = Product(
    id: int,
    name: string,
    price: real,
    originalPrice: Option<real>,
    category: string,
    image: string,
    stock: map<string, int>,
    description: string)

  /** A catalogue: category keys with their product lists, in declaration order. */
  type Catalogue = seq<(string, seq<Product>)>

  function FullStock(cluj: int, iasi: int, galati: int, bucuresti: int): map<string, int>
  {
    map["cluj" := cluj, "iasi" := iasi, "galati" := galati, "bucuresti" := bucuresti]
  }

  const DermatoCosmetice: seq<Product> := [
    Product(1, "Ser Vitamina C Premium", 189.0, Some(220.0), "Îngrijire facială", "vitamin-c-serum.jpg",
      FullStock(12, 8, 5, 15), "Ser concentrat cu vitamina C stabilizată pentru luminozitate și anti-aging"),
    Product(2, "Cremă Regenerantă Nocturnă", 245.0, None, "Îngrijire facială", "night-cream.jpg",
      FullStock(7, 12, 9, 20), "Cremă avansată cu retinol și peptide pentru regenerare nocturnă"),
    Product(3, "Protecție Solară SPF 50+", 95.0, None, "Protecție solară", "sunscreen.jpg",
      FullStock(25, 18, 15, 30), "Protecție UV avansată cu antioxidanți și acid hialuronic")
  ]

  const Suplimente: seq<Product> := [
    Product(4, "NAD+ Longevity Complex", 320.0, None, "Longevitate", "nad-supplement.jpg",
      FullStock(15, 10, 8, 25), "Complex avansat NAD+ pentru longevitate și energie celulară"),
    Product(5, "Omega-3 Premium", 145.0, None, "Cardiovascular", "omega3.jpg",
      FullStock(20, 15, 12, 18), "Omega-3 purificat cu EPA și DHA de înaltă concentrație"),
    Product(6, "Probiotice Avansate", 185.0, None, "Digestiv", "probiotics.jpg",
      FullStock(18, 22, 14, 28), "Complex probiotic cu 15 tulpini pentru sănătatea intestinală")
  ]

  const Vouchere: seq<Product> := [
    Product(7, "Voucher Evaluare Longevitate", 500.0, None, "Servicii", "longevity-voucher.jpg",
      FullStock(999, 999, 999, 999), "Voucher cadou pentru evaluare completă longevitate"),
    Product(8, "Pachet Terapie IV Premium", 1200.0, Some(1400.0), "Servicii", "iv-therapy-voucher.jpg",
      FullStock(999, 999, 999, 999), "Voucher pentru 3 ședințe de terapie IV personalizată")
  ]

  /** The `products` object of the page. */
  const Products: Catalogue := [
    ("dermato-cosmetice", DermatoCosmetice), ("suplimente", Suplimente), ("vouchere", Vouchere)
  ]

  // ------------------------------------------------------------------ catalogue queries

  /** `products[category]`: the list under that key, or nothing for an unknown key. */
  function CategoryProducts(catalogue: Catalogue, category: string): (r: Option<seq<Product>>)
    ensures r.None? <==> forall i :: 0 <= i < |catalogue| ==> catalogue[i].0 != category
    ensures r.Some? ==> exists i :: 0 <= i < |catalogue| && catalogue[i] == (category, r.value)
  {
    if catalogue == [] then None
    else if catalogue[0].0 == category then Some(catalogue[0].1)
    else CategoryProducts(catalogue[1..], category)
  }

  /** `getAllProducts`: `Object.values(products).flat()`. */
  function AllProducts(catalogue: Catalogue): (r: seq<Product>)
    ensures forall p :: p in r <==> exists i :: 0 <= i < |catalogue| && p in catalogue[i].1
  {
    if catalogue == [] then []
    else
      var rest := AllProducts(catalogue[1..]);
      assert forall p :: p in rest <==> exists i :: 1 <= i < |catalogue| && p in catalogue[i].1 by {
        forall p ensures p in rest <==> exists i :: 1 <= i < |catalogue| && p in catalogue[i].1 {
          if p in rest {
            var k :| 0 <= k < |catalogue[1..]| && p in catalogue[1..][k].1;
            assert p in catalogue[k + 1].1;
          }
          if exists i :: 1 <= i < |catalogue| && p in catalogue[i].1 {
            var k :| 1 <= k < |catalogue| && p in catalogue[k].1;
            assert catalogue[1..][k - 1] == catalogue[k];
          }
        }
      }
      catalogue[0].1 + rest
  }

  /** The page's catalogue flattens to the three category lists, in declaration order. */
  lemma AllProductsOfPage()
    ensures AllProducts(Products) == DermatoCosmetice + Suplimente + Vouchere
    ensures |AllProducts(Products)| == 8
  {
    var tail2: Catalogue := [("vouchere", Vouchere)];
    var tail1: Catalogue := [("suplimente", Suplimente)] + tail2;
    assert Products == [("dermato-cosmetice", DermatoCosmetice)] + tail1;
    assert tail2[1..] == [];
    assert AllProducts(tail2) == Vouchere;
    assert tail1[1..] == tail2;
    assert AllProducts(tail1) == Suplimente + Vouchere;
    assert Products[1..] == tail1;
  }

  /** `getStockForClinic`: `product.stock[selectedClinic] || 0`. */
  function StockForClinic(product: Product, clinic: string): (n: int)
    ensures clinic !in product.stock ==> n == 0
    ensures clinic in product.stock ==> n == product.stock[clinic]
  {
    if clinic in product.stock then product.stock[clinic] else 0
  }

  /** The add button's `disabled`: `getStockForClinic(product) === 0`. */
  predicate AddDisabled(product: Product, clinic: string)
  {
    StockForClinic(product, clinic) == 0
  }

  /** The product has stock at each of the four webshop clinics. */
  predicate StockedEverywhere(p: Product)
  {
    StockForClinic(p, "cluj") != 0 && StockForClinic(p, "iasi") != 0
    && StockForClinic(p, "galati") != 0 && StockForClinic(p, "bucuresti") != 0
  }

  lemma CategoriesStocked()
    ensures forall i :: 0 <= i < |DermatoCosmetice| ==> StockedEverywhere(DermatoCosmetice[i])
    ensures forall i :: 0 <= i < |Suplimente| ==> StockedEverywhere(Suplimente[i])
    ensures forall i :: 0 <= i < |Vouchere| ==> StockedEverywhere(Vouchere[i])
  {
    assert StockedEverywhere(DermatoCosmetice[0]) && StockedEverywhere(DermatoCosmetice[1]) && StockedEverywhere(DermatoCosmetice[2]);
    assert StockedEverywhere(Suplimente[0]) && StockedEverywhere(Suplimente[1]) && StockedEverywhere(Suplimente[2]);
    assert StockedEverywhere(Vouchere[0]) && StockedEverywhere(Vouchere[1]);
  }

  /** Every product of the page has stock at every webshop clinic, so no add button of the
      page is ever disabled. */
  lemma PageAddButtonsEnabled(p: Product, clinic: string)
    requires p in AllProducts(Products)
    requires clinic in {"cluj", "iasi", "galati", "bucuresti"}
    ensures !AddDisabled(p, clinic)
  {
    AllProductsOfPage();
    CategoriesStocked();
    assert p in DermatoCosmetice || p in Suplimente || p in Vouchere;
    assert StockedEverywhere(p);
  }

  /** The search criterion: name or description contains the term, case-insensitively. */
  predicate MatchesSearch(p: Product, term: string)
  {
    Contains(ToLower(p.name), ToLower(term)) || Contains(ToLower(p.description), ToLower(term))
  }

  /** `filteredProducts`: the active category's products that match the term, or `[]` for
      an unknown category. */
  function FilteredProducts(catalogue: Catalogue, category: string, term: string): (r: seq<Product>)
    ensures CategoryProducts(catalogue, category).None? ==> r == []
    ensures CategoryProducts(catalogue, category).Some? ==>
      forall p :: p in r <==> p in CategoryProducts(catalogue, category).value && MatchesSearch(p, term)
  {
    match CategoryProducts(catalogue, category)
    case None => []
    case Some(ps) => Filter(ps, (p: Product) => MatchesSearch(p, term))
  }

  /** An empty search term keeps the whole active category, in order. */
  lemma EmptySearchKeepsCategory(catalogue: Catalogue, category: string)
    requires CategoryProducts(catalogue, category).Some?
    ensures FilteredProducts(catalogue, category, "") == CategoryProducts(catalogue, category).value
  {
    var ps := CategoryProducts(catalogue, category).value;
    forall i | 0 <= i < |ps| ensures MatchesSearch(ps[i], "") {
      assert OccursAt(ToLower(ps[i].name), ToLower(""), 0);
    }
    FilterAll(ps, (p: Product) => MatchesSearch(p, ""));
  }

  /** The search keeps the category's order: searching a category made of two parts gives
      the matches of the first part followed by those of the second. */
  lemma SearchKeepsOrder(a: seq<Product>, b: seq<Product>, category: string, term: string)
    ensures FilteredProducts([(category, a + b)], category, term)
      == FilteredProducts([(category, a)], category, term) + FilteredProducts([(category, b)], category, term)
  {
    FilterAppend(a, b, (p: Product) => MatchesSearch(p, term));
  }

  // ------------------------------------------------------------------ adding to the cart

  /** The line for (id, clinic). */
  function IsLine(id: int, clinic: string): CartItem -> bool
  {
    (item: CartItem) => item.id == id && item.clinic == clinic
  }

  /** `cart.find(item => item.id === product.id && item.clinic === selectedClinic)` succeeds. */
  predicate HasLine(cart: seq<CartItem>, id: int, clinic: string)
  {
    exists i :: 0 <= i < |cart| && cart[i].id == id && cart[i].clinic == clinic
  }

  /** The `map` that adds one unit to the line(s) of (id, clinic). */
  function IncrementLine(cart: seq<CartItem>, id: int, clinic: string): (r: seq<CartItem>)
    ensures |r| == |cart|
    ensures forall i :: 0 <= i < |cart| && !IsLine(id, clinic)(cart[i]) ==> r[i] == cart[i]
    ensures forall i :: 0 <= i < |cart| && IsLine(id, clinic)(cart[i]) ==> r[i] == cart[i].(quantity := cart[i].quantity + 1)
  {
    if cart == [] then []
    else
      [if IsLine(id, clinic)(cart[0]) then cart[0].(quantity := cart[0].quantity + 1) else cart[0]]
      + IncrementLine(cart[1..], id, clinic)
  }

  /** `{ ...product, quantity: 1, clinic: selectedClinic }`, seen through the cart's fields. */
  function NewLine(product: Product, clinic: string): CartItem
  {
    CartItem(product.id, product.name, product.price, product.category, product.image, 1, clinic)
  }

  /** `addToCart(product)` at the selected clinic. */
  function AddedToCart(cart: seq<CartItem>, product: Product, clinic: string): seq<CartItem>
  {
    if HasLine(cart, product.id, clinic) then IncrementLine(cart, product.id, clinic)
    else cart + [NewLine(product, clinic)]
  }

  /** Adding a product that already has a line at the clinic adds one unit to that line;
      the cart keeps its length and every other line. */
  lemma AddExistingIncrements(cart: seq<CartItem>, product: Product, clinic: string, k: nat)
    requires k < |cart| && cart[k].id == product.id && cart[k].clinic == clinic
    ensures |AddedToCart(cart, product, clinic)| == |cart|
    ensures AddedToCart(cart, product, clinic)[k] == cart[k].(quantity := cart[k].quantity + 1)
    ensures forall i :: 0 <= i < |cart| && (cart[i].id != product.id || cart[i].clinic != clinic) ==>
      AddedToCart(cart, product, clinic)[i] == cart[i]
  {
  }

  /** Adding a product with no line at the clinic appends one line with quantity 1. */
  lemma AddNewAppends(cart: seq<CartItem>, product: Product, clinic: string)
    requires forall i :: 0 <= i < |cart| ==> cart[i].id != product.id || cart[i].clinic != clinic
    ensures AddedToCart(cart, product, clinic) == cart + [NewLine(product, clinic)]
    ensures NewLine(product, clinic).quantity == 1 && NewLine(product, clinic).clinic == clinic
  {
  }

  /** Adding keeps the (id, clinic) lines distinct and every quantity at least 1. */
  lemma AddKeepsInvariants(cart: seq<CartItem>, product: Product, clinic: string)
    requires UniqueLines(cart) && QuantitiesPositive(cart)
    ensures UniqueLines(AddedToCart(cart, product, clinic))
    ensures QuantitiesPositive(AddedToCart(cart, product, clinic))
  {
    var r := AddedToCart(cart, product, clinic);
    if !HasLine(cart, product.id, clinic) {
      forall i, j | 0 <= i < j < |r| ensures r[i].id != r[j].id || r[i].clinic != r[j].clinic {
        if j < |cart| {
          assert r[i] == cart[i] && r[j] == cart[j];
        } else {
          assert r[i] == cart[i] && r[j] == NewLine(product, clinic);
        }
      }
    }
  }

  /** Incrementing raises the unit count by the number of matching lines. */
  lemma {:induction false} IncrementLineQuantity(cart: seq<CartItem>, id: int, clinic: string)
    ensures TotalQuantity(IncrementLine(cart, id, clinic)) == TotalQuantity(cart) + Count(cart, IsLine(id, clinic))
  {
    if cart != [] {
      IncrementLineQuantity(cart[1..], id, clinic);
      var r := IncrementLine(cart, id, clinic);
      assert r[1..] == IncrementLine(cart[1..], id, clinic);
    }
  }

  /** With distinct lines, exactly one line matches a pair that is present. */
  lemma {:induction false} UniqueLineCount(cart: seq<CartItem>, id: int, clinic: string)
    requires UniqueLines(cart) && HasLine(cart, id, clinic)
    ensures Count(cart, IsLine(id, clinic)) == 1
  {
    var t := cart[1..];
    if IsLine(id, clinic)(cart[0]) {
      forall i | 0 <= i < |t| ensures !IsLine(id, clinic)(t[i]) {
        assert t[i] == cart[i + 1];
      }
      FilterNone(t, IsLine(id, clinic));
    } else {
      var k :| 0 <= k < |cart| && cart[k].id == id && cart[k].clinic == clinic;
      assert t[k - 1] == cart[k];
      assert UniqueLines(t) by {
        forall i, j | 0 <= i < j < |t| ensures t[i].id != t[j].id || t[i].clinic != t[j].clinic {
          assert t[i] == cart[i + 1] && t[j] == cart[j + 1];
        }
      }
      UniqueLineCount(t, id, clinic);
    }
  }

  /** On a cart with distinct lines, `addToCart` raises the number of units by exactly 1. */
  lemma AddRaisesQuantityByOne(cart: seq<CartItem>, product: Product, clinic: string)
    requires UniqueLines(cart)
    ensures TotalQuantity(AddedToCart(cart, product, clinic)) == TotalQuantity(cart) + 1
  {
    if HasLine(cart, product.id, clinic) {
      IncrementLineQuantity(cart, product.id, clinic);
      UniqueLineCount(cart, product.id, clinic);
    } else {
      SumIntAppend(cart, [NewLine(product, clinic)], (item: CartItem) => item.quantity);
    }
  }

  // ------------------------------------------------------------------ page state

  /** The page's state: the selected pickup clinic, the active tab, the search box and the cart. */
  class WebshopPage {
    var selectedClinic: string
    var activeCategory: string
    var searchTerm: string
    const cart: Cart

    constructor ()
      ensures selectedClinic == "bucuresti" && activeCategory == "dermato-cosmetice" && searchTerm == ""
      ensures fresh(cart) && cart.items == []
    {
      selectedClinic := "bucuresti";
      activeCategory := "dermato-cosmetice";
      searchTerm := "";
      cart := new Cart();
    }

    /** `addToCart(product)`: one more unit of the (product, selected clinic) line, or a new
        line at the end. Used by the add buttons and by the QR scanner's callback. */
    method AddToCart(product: Product)
      modifies cart
      ensures cart.items == AddedToCart(old(cart.items), product, selectedClinic)
      ensures UniqueLines(old(cart.items)) ==> TotalQuantity(cart.items) == TotalQuantity(old(cart.items)) + 1
      ensures UniqueLines(old(cart.items)) && QuantitiesPositive(old(cart.items)) ==>
        UniqueLines(cart.items) && QuantitiesPositive(cart.items)
    {
      if UniqueLines(cart.items) {
        AddRaisesQuantityByOne(cart.items, product, selectedClinic);
        if QuantitiesPositive(cart.items) { AddKeepsInvariants(cart.items, product, selectedClinic); }
      }
      var existing := HasLine(cart.items, product.id, selectedClinic);
      if existing {
        cart.items := IncrementLine(cart.items, product.id, selectedClinic);
      } else {
        cart.items := cart.items + [NewLine(product, selectedClinic)];
      }
    }

    /** The products the page lists. */
    function Listed(): (r: seq<Product>)
      reads this
      ensures forall p :: p in r ==> p in AllProducts(Products)
    {
      var r := FilteredProducts(Products, activeCategory, searchTerm);
      assert forall p :: p in r ==> p in AllProducts(Products) by {
        forall p | p in r ensures p in AllProducts(Products) {
          var i :| 0 <= i < |Products| && Products[i] == (activeCategory, CategoryProducts(Products, activeCategory).value);
        }
      }
      r
    }
  }
}
