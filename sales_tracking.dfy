/** The QR-code sales report (src/components/webshop/SalesTracking.tsx): the clinic filter
    over the sale records, the two totals and the count it shows, and the top seller, whose
    per-employee accumulator keeps the employees in order of first appearance. */
module SalesTracking {
  import opened Wrappers
  import opened Seqs

  /** A sale record; its timestamp is only displayed and is not part of the model. */
  datatype SaleRecord = SaleRecord(
    id: string, employeeName: string, clinicId: string, productName: string,
    productPrice: real, commission: real, qrCodeId: string)

  const MockSales: seq<SaleRecord> := [
    SaleRecord("1", "Dr. Maria Popescu", "bucuresti", "NAD+ Longevity Complex", 320.0, 16.0, "QR_MP_001"),
    SaleRecord("2", "As. Ana Ionescu", "cluj", "Ser Vitamina C Premium", 189.0, 9.45, "QR_AI_002"),
    SaleRecord("3", "Dr. Radu Georgescu", "iasi", "Voucher Evaluare Longevitate", 500.0, 15.0, "QR_RG_003")
  ]

  // ------------------------------------------------------------------ filter and totals

  /** The filter callback: reject a sale of another clinic unless the selection is "all". */
  function Shown(selectedClinic: string): SaleRecord -> bool
  {
    (sale: SaleRecord) => !(selectedClinic != "all" && sale.clinicId != selectedClinic)
  }

  /** `filteredSales`. The selected period is read by nothing, so it is not a parameter. */
  function FilteredSales(sales: seq<SaleRecord>, selectedClinic: string): (r: seq<SaleRecord>)
    ensures selectedClinic == "all" ==> r == sales
    ensures forall x :: x in r <==> x in sales && (selectedClinic == "all" || x.clinicId == selectedClinic)
  {
    if selectedClinic == "all" then FilterAll(sales, Shown(selectedClinic)); Filter(sales, Shown(selectedClinic))
    else Filter(sales, Shown(selectedClinic))
  }

  /** Filtering keeps the original order: the view of a concatenation is the concatenation
      of the views. */
  lemma FilteredSalesAppend(a: seq<SaleRecord>, b: seq<SaleRecord>, selectedClinic: string)
    ensures FilteredSales(a + b, selectedClinic) == FilteredSales(a, selectedClinic) + FilteredSales(b, selectedClinic)
  {
    FilterAppend(a, b, Shown(selectedClinic));
  }

  /** `getTotalSales`. */
  function TotalSales(shown: seq<SaleRecord>): real
  {
    SumReal(shown, (sale: SaleRecord) => sale.productPrice)
  }

  /** `getTotalCommission`. */
  function TotalCommission(shown: seq<SaleRecord>): real
  {
    SumReal(shown, (sale: SaleRecord) => sale.commission)
  }

  /** The price of a sale when it is shown under the selection, 0 otherwise. */
  function ShownPrice(selectedClinic: string): SaleRecord -> real
  {
    (sale: SaleRecord) => if Shown(selectedClinic)(sale) then sale.productPrice else 0.0
  }

  /** The total-sales card is the sum over all sales of the prices of those shown under the
      selection. */
  lemma {:induction false} TotalSalesIsMaskedSum(sales: seq<SaleRecord>, selectedClinic: string)
    ensures TotalSales(FilteredSales(sales, selectedClinic)) == SumReal(sales, ShownPrice(selectedClinic))
  {
    if sales != [] {
      var head, tail := sales[..1], sales[1..];
      assert sales == head + tail;
      FilteredSalesAppend(head, tail, selectedClinic);
      SumRealAppend(FilteredSales(head, selectedClinic), FilteredSales(tail, selectedClinic), (sale: SaleRecord) => sale.productPrice);
      TotalSalesIsMaskedSum(tail, selectedClinic);
      assert FilteredSales(head, selectedClinic) == if Shown(selectedClinic)(sales[0]) then [sales[0]] else [];
    }
  }

  // ------------------------------------------------------------------ top seller

  /** An entry of the accumulator object: an employee and the running sum of their prices. */
  type Entry = (string, real)

  predicate DistinctNames(entries: seq<Entry>)
  {
    forall i, j :: 0 <= i < j < |entries| ==> entries[i].0 != entries[j].0
  }

  /** The object has `name` as a key. */
  predicate HasEntry(entries: seq<Entry>, name: string)
  {
    exists i :: 0 <= i < |entries| && entries[i].0 == name
  }

  /** Some shown sale was made by `name`. */
  predicate SoldBy(shown: seq<SaleRecord>, name: string)
  {
    exists j :: 0 <= j < |shown| && shown[j].employeeName == name
  }

  /** `acc[name] = (acc[name] || 0) + amount` on an object whose own keys are kept in
      insertion order: add to the existing entry, or append a new one at the end. */
  function Upsert(entries: seq<Entry>, name: string, amount: real): (r: seq<Entry>)
    requires DistinctNames(entries)
    ensures DistinctNames(r)
    ensures HasEntry(entries, name) ==> |r| == |entries|
    ensures HasEntry(entries, name) ==> forall i :: 0 <= i < |r| ==> (r[i].0 == entries[i].0
      && r[i].1 == entries[i].1 + (if entries[i].0 == name then amount else 0.0))
    ensures !HasEntry(entries, name) ==> r == entries + [(name, amount)]
  {
    if entries == [] then [(name, amount)]
    else if entries[0].0 == name then [(name, entries[0].1 + amount)] + entries[1..]
    else
      var rest := Upsert(entries[1..], name, amount);
      HasEntryAfterHead(entries, name);
      [entries[0]] + rest
  }

  /** A name other than the first entry's is a key exactly when it is one of the rest. */
  lemma HasEntryAfterHead(entries: seq<Entry>, name: string)
    requires entries != [] && entries[0].0 != name
    ensures HasEntry(entries, name) <==> HasEntry(entries[1..], name)
    ensures forall i :: 1 <= i < |entries| ==> entries[i] == entries[1..][i - 1]
  {
    if HasEntry(entries, name) {
      var i :| 0 <= i < |entries| && entries[i].0 == name;
      assert entries[1..][i - 1].0 == name;
    }
    if HasEntry(entries[1..], name) {
      var i :| 0 <= i < |entries| - 1 && entries[1..][i].0 == name;
      assert entries[i + 1].0 == name;
    }
  }

  /** `salesByEmployee`: the reduce over the shown sales, as the ordered list of entries of
      the resulting object. */
  function SalesByEmployee(shown: seq<SaleRecord>): (r: seq<Entry>)
    ensures DistinctNames(r)
    ensures shown != [] ==> r != []
  {
    if shown == [] then []
    else
      var last := shown[|shown| - 1];
      Upsert(SalesByEmployee(shown[..|shown| - 1]), last.employeeName, last.productPrice)
  }

  /** The reference the accumulator is checked against: an employee's summed prices. */
  function EmployeeSum(shown: seq<SaleRecord>, name: string): real
  {
    SumReal(shown, (sale: SaleRecord) => if sale.employeeName == name then sale.productPrice else 0.0)
  }

  lemma EmployeeSumSnoc(shown: seq<SaleRecord>, sale: SaleRecord, name: string)
    ensures EmployeeSum(shown + [sale], name)
      == EmployeeSum(shown, name) + (if sale.employeeName == name then sale.productPrice else 0.0)
  {
    SumRealAppend(shown, [sale], (s: SaleRecord) => if s.employeeName == name then s.productPrice else 0.0);
  }

  /** An employee without a shown sale sums to 0. */
  lemma {:induction false} EmployeeSumUnsold(shown: seq<SaleRecord>, name: string)
    requires !SoldBy(shown, name)
    ensures EmployeeSum(shown, name) == 0.0
  {
    if shown != [] {
      EmployeeSumUnsold(shown[1..], name);
    }
  }

  /** The accumulator has an entry for exactly the employees of the shown sales. */
  lemma {:induction false} SalesByEmployeeNames(shown: seq<SaleRecord>, name: string)
    ensures HasEntry(SalesByEmployee(shown), name) <==> SoldBy(shown, name)
  {
    if shown != [] {
      var prefix, last := shown[..|shown| - 1], shown[|shown| - 1];
      SalesByEmployeeNames(prefix, name);
      UpsertKeys(SalesByEmployee(prefix), last.employeeName, last.productPrice, name);
      SoldBySnoc(prefix, last, name);
      assert shown == prefix + [last];
    }
  }

  /** After an upsert the keys are the old ones plus the upserted name. */
  lemma UpsertKeys(entries: seq<Entry>, key: string, amount: real, name: string)
    requires DistinctNames(entries)
    ensures HasEntry(Upsert(entries, key, amount), name) <==> HasEntry(entries, name) || name == key
  {
    var r := Upsert(entries, key, amount);
    if HasEntry(entries, key) {
      SameKeys(r, entries, name);
    } else {
      HasEntrySnoc(entries, (key, amount), name);
    }
  }

  /** Two lists with the same names in the same places have the same keys. */
  lemma SameKeys(a: seq<Entry>, b: seq<Entry>, name: string)
    requires |a| == |b| && forall i :: 0 <= i < |a| ==> a[i].0 == b[i].0
    ensures HasEntry(a, name) <==> HasEntry(b, name)
  {
    if HasEntry(a, name) {
      var i :| 0 <= i < |a| && a[i].0 == name;
      assert b[i].0 == name;
    }
    if HasEntry(b, name) {
      var i :| 0 <= i < |b| && b[i].0 == name;
      assert a[i].0 == name;
    }
  }

  /** An appended entry adds its name to the keys. */
  lemma HasEntrySnoc(entries: seq<Entry>, e: Entry, name: string)
    ensures HasEntry(entries + [e], name) <==> HasEntry(entries, name) || e.0 == name
  {
    var all := entries + [e];
    if HasEntry(entries, name) {
      var i :| 0 <= i < |entries| && entries[i].0 == name;
      assert all[i].0 == name;
    }
    assert all[|entries|] == e;
    if HasEntry(all, name) {
      var i :| 0 <= i < |all| && all[i].0 == name;
      if i < |entries| { assert entries[i].0 == name; }
    }
  }

  /** A sale appended to the shown ones adds its employee to the sellers. */
  lemma SoldBySnoc(shown: seq<SaleRecord>, sale: SaleRecord, name: string)
    ensures SoldBy(shown + [sale], name) <==> SoldBy(shown, name) || sale.employeeName == name
  {
    var all := shown + [sale];
    if SoldBy(shown, name) {
      var j :| 0 <= j < |shown| && shown[j].employeeName == name;
      assert all[j] == shown[j];
    }
    assert all[|shown|] == sale;
    if SoldBy(all, name) {
      var j :| 0 <= j < |all| && all[j].employeeName == name;
      if j < |shown| { assert shown[j] == all[j]; }
    }
  }

  /** Each entry of the accumulator holds its employee's summed prices. */
  lemma {:induction false} SalesByEmployeeSums(shown: seq<SaleRecord>)
    ensures forall i :: (0 <= i < |SalesByEmployee(shown)|
      ==> SalesByEmployee(shown)[i].1 == EmployeeSum(shown, SalesByEmployee(shown)[i].0))
  {
    if shown != [] {
      var prefix, last := shown[..|shown| - 1], shown[|shown| - 1];
      assert shown == prefix + [last];
      SalesByEmployeeSums(prefix);
      var before := SalesByEmployee(prefix);
      var after := SalesByEmployee(shown);
      assert after == Upsert(before, last.employeeName, last.productPrice);
      forall i | 0 <= i < |after|
        ensures after[i].1 == EmployeeSum(shown, after[i].0)
      {
        EmployeeSumSnoc(prefix, last, after[i].0);
        if HasEntry(before, last.employeeName) {
          assert after[i].0 == before[i].0;
        } else if i < |before| {
          assert after[i] == before[i];
        } else {
          assert after[i] == (last.employeeName, last.productPrice);
          SalesByEmployeeNames(prefix, last.employeeName);
          EmployeeSumUnsold(prefix, last.employeeName);
        }
      }
    }
  }

  /** `.sort(([,a], [,b]) => b - a)[0]` on a non-empty list: the sort is stable, so its first
      element is the first entry with the largest sum. */
  function FirstMaxIndex(entries: seq<Entry>): (k: nat)
    requires entries != []
    ensures k < |entries|
    ensures forall i :: 0 <= i < |entries| ==> entries[i].1 <= entries[k].1
    ensures forall i :: 0 <= i < k ==> entries[i].1 < entries[k].1
  {
    if |entries| == 1 then 0
    else
      var k := FirstMaxIndex(entries[..|entries| - 1]);
      assert forall i :: 0 <= i < |entries| - 1 ==> entries[i] == entries[..|entries| - 1][i];
      if entries[|entries| - 1].1 > entries[k].1 then |entries| - 1 else k
  }

  /** `topEntry`: the first element of the sorted entries, absent when there are none. */
  function TopEntry(shown: seq<SaleRecord>): (r: Option<Entry>)
    ensures r.None? <==> shown == []
  {
    var entries := SalesByEmployee(shown);
    if entries == [] then None
    else
      Some(entries[FirstMaxIndex(entries)])
  }

  /** `getTopSeller`. */
  function TopSeller(shown: seq<SaleRecord>): (name: string)
    ensures shown == [] ==> name == "N/A"
  {
    match TopEntry(shown)
    case None => "N/A"
    case Some(entry) => entry.0
  }

  /** With sales shown, the top seller is one of their employees and no employee has sold
      more; without, it is "N/A". */
  lemma TopSellerIsBest(shown: seq<SaleRecord>)
    ensures shown == [] <==> TopEntry(shown).None?
    ensures shown != [] ==> SoldBy(shown, TopSeller(shown))
    ensures shown != [] ==> forall j :: (0 <= j < |shown|
      ==> EmployeeSum(shown, shown[j].employeeName) <= EmployeeSum(shown, TopSeller(shown)))
  {
    if shown != [] {
      SalesByEmployeeSums(shown);
      var entries := SalesByEmployee(shown);
      var k := FirstMaxIndex(entries);
      assert TopSeller(shown) == entries[k].0;
      assert HasEntry(entries, entries[k].0);
      SalesByEmployeeNames(shown, entries[k].0);
      forall j | 0 <= j < |shown|
        ensures EmployeeSum(shown, shown[j].employeeName) <= EmployeeSum(shown, TopSeller(shown))
      {
        SalesByEmployeeNames(shown, shown[j].employeeName);
        var i :| 0 <= i < |entries| && entries[i].0 == shown[j].employeeName;
      }
    }
  }

  /** The report over the page's own records, for every clinic: all three sales, 1009 lei,
      40.45 lei of commission, and Dr. Radu Georgescu's voucher makes him the top seller. */
  lemma MockSalesReport()
    ensures FilteredSales(MockSales, "all") == MockSales
    ensures TotalSales(MockSales) == 1009.0 && TotalCommission(MockSales) == 40.45
    ensures TopSeller(MockSales) == "Dr. Radu Georgescu"
  {
    MockSalesEntries();
    var entries := SalesByEmployee(MockSales);
    var k := FirstMaxIndex(entries);
    assert entries[k].1 >= entries[2].1 == 500.0;
    assert k == 2;
  }

  /** The accumulator over the page's records: one entry per employee, in order. */
  lemma MockSalesEntries()
    ensures SalesByEmployee(MockSales)
      == [("Dr. Maria Popescu", 320.0), ("As. Ana Ionescu", 189.0), ("Dr. Radu Georgescu", 500.0)]
  {
    var m := MockSales;
    assert m[0].employeeName == "Dr. Maria Popescu" && m[0].productPrice == 320.0;
    assert m[1].employeeName == "As. Ana Ionescu" && m[1].productPrice == 189.0;
    assert m[2].employeeName == "Dr. Radu Georgescu" && m[2].productPrice == 500.0;
    var e1: seq<Entry> := [("Dr. Maria Popescu", 320.0)];
    var e2: seq<Entry> := e1 + [("As. Ana Ionescu", 189.0)];
    SalesByEmployeeSnoc([], m[0]);
    assert [] + [m[0]] == [m[0]];
    assert SalesByEmployee([m[0]]) == e1;
    SalesByEmployeeSnoc([m[0]], m[1]);
    assert [m[0]] + [m[1]] == [m[0], m[1]];
    assert !HasEntry(e1, "As. Ana Ionescu") by {
      assert e1[0].0 != "As. Ana Ionescu";
    }
    assert SalesByEmployee([m[0], m[1]]) == e2;
    SalesByEmployeeSnoc([m[0], m[1]], m[2]);
    assert [m[0], m[1]] + [m[2]] == m;
    assert !HasEntry(e2, "Dr. Radu Georgescu") by {
      assert e2[0].0 != "Dr. Radu Georgescu" && e2[1].0 != "Dr. Radu Georgescu";
    }
  }

  /** The accumulator after one more sale is the upsert of that sale into the accumulator
      before it. */
  lemma SalesByEmployeeSnoc(shown: seq<SaleRecord>, sale: SaleRecord)
    ensures SalesByEmployee(shown + [sale]) == Upsert(SalesByEmployee(shown), sale.employeeName, sale.productPrice)
  {
    assert (shown + [sale])[..|shown|] == shown;
  }
}
