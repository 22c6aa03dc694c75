/** The stock and sales report page (src/pages/InventoryManagement.tsx): the threshold
    classification of a stock level, the row status taken from the worst clinic stock, the
    clinic filter, the sales and commission totals and the per-product rotation figure. */
module InventoryManagement {
  import opened Seqs

  // ------------------------------------------------------------------ stock status

  datatype StockStatus = Out | Critical | Low | Ok

  /** How alarming a status is: out > critical > low > ok. */
  function Severity(s: StockStatus): nat
  {
    match s
    case Out => 3
    case Critical => 2
    case Low => 1
    case Ok => 0
  }

  /** The badge variant a status is shown with. */
  datatype BadgeVariant = Destructive | Secondary | Default

  function Color(s: StockStatus): BadgeVariant
  {
    match s
    case Out => Destructive
    case Critical => Destructive
    case Low => Secondary
    case Ok => Default
  }

  function Label(s: StockStatus): string
  {
    match s
    case Out => "Epuizat"
    case Critical => "Critic"
    case Low => "Scăzut"
    case Ok => "OK"
  }

  /** `getStockStatus(current, min)`: the branches are tried in order; `min * 0.5` is exact
      here, so "critical" is `current <= min / 2` over the reals. */
  function GetStockStatus(current: int, min: int): (s: StockStatus)
    ensures s == Out <==> current == 0
    ensures s == Critical <==> current != 0 && current as real <= min as real / 2.0
    ensures s == Low <==> current != 0 && min as real / 2.0 < current as real && current <= min
    ensures s == Ok <==> current != 0 && min as real / 2.0 < current as real && min < current
  {
    if current == 0 then Out
    else if current as real <= min as real * 0.5 then Critical
    else if current <= min then Low
    else Ok
  }

  /** With a non-negative threshold, a status is "ok" exactly above the threshold and
      "critical" exactly at or below half of it (for a positive stock). */
  lemma StatusThresholds(current: int, min: int)
    requires 0 <= min && 0 < current
    ensures GetStockStatus(current, min) == Ok <==> min < current
    ensures GetStockStatus(current, min) == Critical <==> 2 * current <= min
  {
  }

  /** For a fixed non-negative threshold, more stock never gives a more severe status. */
  lemma StatusMonotone(a: int, b: int, min: int)
    requires 0 <= min && 0 <= a <= b
    ensures Severity(GetStockStatus(b, min)) <= Severity(GetStockStatus(a, min))
  {
  }

  // ------------------------------------------------------------------ inventory rows

  /** One number per clinic, in the key order of the source's object literals. */
  datatype PerClinic = PerClinic(cluj: int, iasi: int, galati: int, bucuresti: int)

  /** `Object.values(counts)`. */
  function Values(c: PerClinic): seq<int>
  {
    [c.cluj, c.iasi, c.galati, c.bucuresti]
  }

  /** `counts[key] !== undefined` for a clinic id used as a key. */
  predicate HasKey(c: PerClinic, key: string)
  {
    key == "cluj" || key == "iasi" || key == "galati" || key == "bucuresti"
  }

  /** `counts[key]` for one of the four keys. */
  function ValueAt(c: PerClinic, key: string): int
    requires HasKey(c, key)
  {
    if key == "cluj" then c.cluj else if key == "iasi" then c.iasi
    else if key == "galati" then c.galati else c.bucuresti
  }

  datatype InventoryItem = InventoryItem(
    id: int, name: string, category: string, price: real,
    stock: PerClinic, minStock: int, sales7days: PerClinic, supplier: string)

  const InventoryData: seq<InventoryItem> := [
    InventoryItem(1, "Ser Vitamina C Premium", "Dermato-Cosmetice", 189.0,
      PerClinic(12, 8, 5, 15), 10, PerClinic(3, 2, 1, 8), "DermaLux SRL"),
    InventoryItem(2, "NAD+ Longevity Complex", "Suplimente", 320.0,
      PerClinic(15, 10, 8, 25), 15, PerClinic(5, 3, 2, 12), "Longevity Labs"),
    InventoryItem(3, "Cremă Regenerantă Nocturnă", "Dermato-Cosmetice", 245.0,
      PerClinic(7, 12, 9, 20), 8, PerClinic(2, 4, 1, 6), "DermaLux SRL"),
    InventoryItem(4, "Probiotice Avansate", "Suplimente", 185.0,
      PerClinic(18, 22, 14, 28), 20, PerClinic(7, 8, 4, 15), "BioSupp International")
  ]

  /** `Math.min(...xs)` over a non-empty list. */
  function MinOf(xs: seq<int>): (m: int)
    requires xs != []
    ensures m in xs
    ensures forall i :: 0 <= i < |xs| ==> m <= xs[i]
  {
    if |xs| == 1 then xs[0]
    else
      var rest := MinOf(xs[1..]);
      assert forall i :: 1 <= i < |xs| ==> xs[i] == xs[1..][i - 1];
      if xs[0] <= rest then xs[0] else rest
  }

  /** `worstStock = Math.min(...Object.values(item.stock))`. */
  function WorstStock(item: InventoryItem): (w: int)
    ensures w in Values(item.stock)
    ensures w <= item.stock.cluj && w <= item.stock.iasi && w <= item.stock.galati && w <= item.stock.bucuresti
  {
    var vs := Values(item.stock);
    var m := MinOf(vs);
    assert m <= vs[0] && m <= vs[1] && m <= vs[2] && m <= vs[3];
    m
  }

  /** The status shown in a row's last column. */
  function RowStatus(item: InventoryItem): StockStatus
  {
    GetStockStatus(WorstStock(item), item.minStock)
  }

  /** The per-clinic badge of a row, by clinic key. */
  function ClinicBadge(item: InventoryItem, key: string): BadgeVariant
    requires HasKey(item.stock, key)
  {
    Color(GetStockStatus(ValueAt(item.stock, key), item.minStock))
  }

  /** With non-negative stocks and threshold, the row status is at least as severe as the
      status behind each of the four per-clinic badges. */
  lemma RowStatusIsWorst(item: InventoryItem, key: string)
    requires HasKey(item.stock, key) && 0 <= item.minStock
    requires forall i :: 0 <= i < 4 ==> Values(item.stock)[i] >= 0
    ensures Severity(GetStockStatus(ValueAt(item.stock, key), item.minStock)) <= Severity(RowStatus(item))
  {
    var w := WorstStock(item);
    assert w >= 0 by {
      assert w in Values(item.stock);
    }
    StatusMonotone(w, ValueAt(item.stock, key), item.minStock);
  }

  /** The row statuses of the page's data: only the first product is critical (its Galați
      stock 5 is half its minimum 10); the other three are low. */
  lemma DataRowStatuses()
    ensures RowStatus(InventoryData[0]) == Critical
    ensures RowStatus(InventoryData[1]) == Low
    ensures RowStatus(InventoryData[2]) == Low
    ensures RowStatus(InventoryData[3]) == Low
  {
    var d := InventoryData;
    WorstStockIs(d[0], 5);
    WorstStockIs(d[1], 8);
    WorstStockIs(d[2], 7);
    WorstStockIs(d[3], 14);
  }

  /** The worst stock of a row is the one clinic stock no other one undercuts. */
  lemma WorstStockIs(item: InventoryItem, m: int)
    requires m in Values(item.stock)
    requires m <= item.stock.cluj && m <= item.stock.iasi && m <= item.stock.galati && m <= item.stock.bucuresti
    ensures WorstStock(item) == m
  {
    var w, vs := WorstStock(item), Values(item.stock);
    assert w == vs[0] || w == vs[1] || w == vs[2] || w == vs[3];
    assert m == vs[0] || m == vs[1] || m == vs[2] || m == vs[3];
  }

  // ------------------------------------------------------------------ clinic filter

  /** `filteredInventory`: all items for "all", otherwise those with a stock entry for the
      selected clinic. */
  function FilteredInventory(inventory: seq<InventoryItem>, selectedClinic: string): (r: seq<InventoryItem>)
    ensures selectedClinic == "all" ==> r == inventory
    ensures selectedClinic != "all" ==> forall x :: x in r <==> x in inventory && HasKey(x.stock, selectedClinic)
  {
    if selectedClinic == "all" then inventory
    else Filter(inventory, (item: InventoryItem) => HasKey(item.stock, selectedClinic))
  }

  /** Every item has a stock entry for each of the four clinics, so selecting one of them
      keeps the whole list; any other selection but "all" keeps nothing. */
  lemma FilterKeepsEverythingForAClinic(inventory: seq<InventoryItem>, selectedClinic: string)
    ensures selectedClinic in ["cluj", "iasi", "galati", "bucuresti"] ==> FilteredInventory(inventory, selectedClinic) == inventory
    ensures selectedClinic !in ["all", "cluj", "iasi", "galati", "bucuresti"] ==> FilteredInventory(inventory, selectedClinic) == []
  {
    var keep := (item: InventoryItem) => HasKey(item.stock, selectedClinic);
    if selectedClinic in ["cluj", "iasi", "galati", "bucuresti"] {
      FilterAll(inventory, keep);
    } else if selectedClinic != "all" {
      FilterNone(inventory, keep);
    }
  }

  // ------------------------------------------------------------------ sales and rotation

  datatype SalesRow = SalesRow(clinic: string, employee: string, sales: int, commission: int)

  const SalesData: seq<SalesRow> := [
    SalesRow("bucuresti", "Popescu Maria", 23, 456),
    SalesRow("cluj", "Ionescu Andrei", 18, 378),
    SalesRow("iasi", "Stanciu Ioana", 15, 312),
    SalesRow("galati", "Marinescu Alex", 12, 267)
  ]

  /** `getTotalSales`. */
  function TotalSales(rows: seq<SalesRow>): int
  {
    SumInt(rows, (row: SalesRow) => row.sales)
  }

  /** `getTotalCommission`. */
  function TotalCommission(rows: seq<SalesRow>): int
  {
    SumInt(rows, (row: SalesRow) => row.commission)
  }

  /** `salesData.find(s => s.clinic === id)?.sales || 0`. */
  function ClinicSales(rows: seq<SalesRow>, clinicId: string): (n: int)
    ensures (forall i :: 0 <= i < |rows| ==> rows[i].clinic != clinicId) ==> n == 0
    ensures (exists i :: 0 <= i < |rows| && rows[i].clinic == clinicId)
      ==> exists i :: (0 <= i < |rows| && rows[i].clinic == clinicId && n == rows[i].sales
        && forall j :: 0 <= j < i ==> rows[j].clinic != clinicId)
  {
    if rows == [] then 0
    else if rows[0].clinic == clinicId then rows[0].sales
    else
      var n := ClinicSales(rows[1..], clinicId);
      assert forall i :: 1 <= i < |rows| ==> rows[i] == rows[1..][i - 1];
      assert (exists i :: 0 <= i < |rows| && rows[i].clinic == clinicId)
        ==> exists i :: 0 <= i < |rows[1..]| && rows[1..][i].clinic == clinicId by {
        if exists i :: 0 <= i < |rows| && rows[i].clinic == clinicId {
          var i :| 0 <= i < |rows| && rows[i].clinic == clinicId;
          assert rows[1..][i - 1].clinic == clinicId;
        }
      }
      n
  }

  /** Sums over a concatenation split, so appending a row adds exactly its figures. */
  lemma TotalsAppend(a: seq<SalesRow>, b: seq<SalesRow>)
    ensures TotalSales(a + b) == TotalSales(a) + TotalSales(b)
    ensures TotalCommission(a + b) == TotalCommission(a) + TotalCommission(b)
  {
    SumIntAppend(a, b, (row: SalesRow) => row.sales);
    SumIntAppend(a, b, (row: SalesRow) => row.commission);
  }

  /** The page's figures: 68 sales and 1413 lei of commission, and the four clinic bars of the
      analytics tab add up to the total, so their percentages add up to 100. */
  lemma DataTotals()
    ensures TotalSales(SalesData) == 68
    ensures TotalCommission(SalesData) == 1413
    ensures ClinicSales(SalesData, "cluj") + ClinicSales(SalesData, "iasi")
      + ClinicSales(SalesData, "galati") + ClinicSales(SalesData, "bucuresti") == TotalSales(SalesData)
  {
  }

  /** `Object.values(item.sales7days).reduce((a, b) => a + b, 0)`. */
  function Rotation(item: InventoryItem): int
  {
    SumInt(Values(item.sales7days), AsItself)
  }

  /** The reduce callback of the rotation figure: each value counts as itself. */
  const AsItself: int -> int := (x: int) => x

  /** The rotation figure is the sum of the four clinics' weekly sales, so with non-negative
      sales it is at least each clinic's figure. */
  lemma RotationIsClinicSum(item: InventoryItem)
    ensures Rotation(item) == item.sales7days.cluj + item.sales7days.iasi + item.sales7days.galati + item.sales7days.bucuresti
    ensures (forall i :: 0 <= i < 4 ==> Values(item.sales7days)[i] >= 0)
      ==> forall i :: 0 <= i < 4 ==> Values(item.sales7days)[i] <= Rotation(item)
  {
    var c := item.sales7days;
    var vs := Values(c);
    assert vs[1..][1..][1..][1..] == [];
    assert SumInt(vs[1..][1..][1..], AsItself) == c.bucuresti;
    assert SumInt(vs[1..][1..], AsItself) == c.galati + c.bucuresti;
    assert SumInt(vs[1..], AsItself) == c.iasi + c.galati + c.bucuresti;
  }
}
