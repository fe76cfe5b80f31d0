/**
 * `composables/useExpenditureData.ts`: the per-province record is seeded from the wage table
 * with zero expenditure, then every already-parsed CSV row that names a known province
 * overwrites that province's three expenditure figures. The drop-down list is the provinces
 * with a positive per-capita figure, ordered by name.
 */
module ExpenditureData {
  import opened Wrappers
  import opened Numbers
  import opened Ascii
  import opened Decimal
  import opened Types
  import opened Constants
  import opened UmpTable

  // ----- cells -----

  /**
   * A CSV cell as the parser hands it over with dynamic typing on: a number, a boolean (for the
   * words `true` and `false`), a string, or nothing: `null` for an empty field, or a column
   * absent from the row.
   */
  datatype Cell = Num(n: real) | Bool(b: bool) | Text(s: string) | Missing

  /**
   * One CSV row: the `Provinsi` column and the three `Rata-rata Pengeluaran per Kapita Sebulan
   * di Perkotaan dan Perdesaan` columns, `Makanan` (food), `Bukan Makanan` (non-food) and
   * `Jumlah` (total).
   */
  datatype Row = Row(provinsi: Option<string>, food: Cell, nonFood: Cell, total: Cell)

  /**
   * The value of one expenditure cell: a number is taken as it is; otherwise the cell, or `0`
   * when it is falsy (missing, empty or `false`), is turned into its string, keeps only its
   * digits and periods, and is read by `parseFloat`.
   */
  function ParseCell(c: Cell): (r: Amount)
    ensures c.Num? ==> r == Finite(c.n)
    ensures c == Missing || c == Text("") || c == Bool(false) ==> r == Finite(0.0)
    ensures c == Bool(true) ==> r == NaN
    ensures c.Text? && c.s != "" ==>
      var residue := Retain(c.s, DecimalChar);
      && (r.NaN? <==> !(residue != [] && (IsDigit(residue[0]) || (|residue| > 1 && residue[0] == '.' && IsDigit(residue[1])))))
      && (r.Finite? ==> r.value >= 0.0)
  {
    match c
    case Num(n) => Finite(n)
    case Missing => FalsyValue(); ParseFloatResidue(Retain("0", DecimalChar))
    case Bool(b) => FalsyValue(); TrueValue(); ParseFloatResidue(Retain(if b then "true" else "0", DecimalChar))
    case Text(s) => if s == "" then FalsyValue(); ParseFloatResidue(Retain("0", DecimalChar)) else ParseFloatResidue(Retain(s, DecimalChar))
  }

  /** A falsy cell becomes `0`, which is read as zero. */
  lemma FalsyValue()
    ensures ParseFloatResidue(Retain("0", DecimalChar)) == Finite(0.0)
  {
    RetainAll("0", DecimalChar);
    ParseFloatOfDigits("0");
  }

  /** `String(true)` has no digit and no period, so it is read as NaN. */
  lemma TrueValue()
    ensures Retain("true", DecimalChar) == [] && ParseFloatResidue(Retain("true", DecimalChar)) == NaN
  {
    TrueRetain();
  }

  lemma TrueRetain()
    ensures Retain("true", DecimalChar) == []
  {
    assert !DecimalChar('t') && !DecimalChar('r') && !DecimalChar('u') && !DecimalChar('e');
    assert "true"[1..] == "rue" && "rue"[1..] == "ue" && "ue"[1..] == "e" && "e"[1..] == [];
  }

  /**
   * A text cell whose digits and periods are `w . f rest` (`rest` empty or starting at the next
   * period) is read as `w` plus `f` over its power of ten; `".5"` and `"0.5"` both read 0.5.
   */
  lemma CellValue(s: string, w: string, f: string, rest: string)
    requires Retain(s, DecimalChar) == w + ['.'] + f + rest
    requires AllDigits(w) && AllDigits(f) && (w != [] || f != [])
    requires rest == [] || rest[0] == '.'
    ensures ParseCell(Text(s)) == Finite(DigitsValue(w) as real + FractionValue(f))
  {
    var r := w + ['.'] + f + rest;
    forall i | 0 <= i < |rest|
      ensures DecimalChar(rest[i])
    {
      assert rest[i] == r[|w| + 1 + |f| + i];
    }
    ResidueValue(w, f, rest);
  }

  /** A text cell whose digits and periods are a run of digits `w` alone is read as `w`. */
  lemma CellWhole(s: string, w: string)
    requires Retain(s, DecimalChar) == w
    requires AllDigits(w) && w != []
    ensures ParseCell(Text(s)) == Finite(DigitsValue(w) as real)
  {
    ParseFloatOfDigits(w);
  }

  /** A cell with no whole part, `".5"`, is read as one half. */
  lemma HalfWithoutWhole()
    ensures ParseCell(Text(".5")) == Finite(0.5)
  {
    HalfResidue();
    HalfFraction();
    CellValue(".5", "", "5", "");
  }

  lemma HalfResidue()
    ensures Retain(".5", DecimalChar) == "" + ['.'] + "5" + ""
  {
    assert forall k :: 0 <= k < |".5"| ==> DecimalChar(".5"[k]);
    RetainAll(".5", DecimalChar);
  }

  lemma HalfFraction()
    ensures FractionValue("5") == 0.5
  {
    assert DigitsValue("5") == 5 && Pow10(1) == 10;
  }

  /** A cell spelling a count in plain digits is read as that count. */
  lemma CellOfDigits(n: nat)
    ensures ParseCell(Text(ToDigits(n))) == Finite(n as real)
  {
    RetainAll(ToDigits(n), DecimalChar);
    ParseFloatRoundTrip(n);
  }

  /** A minus sign is filtered out with the other non-digits, so the sign of a cell is lost. */
  lemma MinusSignDropped(s: string)
    requires s != ""
    ensures ParseCell(Text("-" + s)) == ParseCell(Text(s))
  {
    RetainAppend("-", s, DecimalChar);
    DashRetain();
    assert Retain("-" + s, DecimalChar) == Retain(s, DecimalChar);
  }

  lemma DashRetain()
    ensures Retain("-", DecimalChar) == []
  {
    assert !DecimalChar('-');
    assert "-"[1..] == [];
  }

  /** A lone dash has no digit left after filtering and reads as NaN. */
  lemma DashIsNaN()
    ensures ParseCell(Text("-")) == NaN
  {
    DashRetain();
  }

  /**
   * A Rupiah amount with thousands separators keeps both periods, and `parseFloat` stops at the
   * second one: `"Rp 1.234.567"` reads as 1.234.
   */
  lemma RupiahWithSeparators()
    ensures ParseCell(Text("Rp 1.234.567")) == Finite(1.234)
  {
    RupiahResidue();
    RupiahParse();
  }

  lemma RupiahResidue()
    ensures Retain("Rp 1.234.567", DecimalChar) == "1.234.567"
  {
    assert "Rp 1.234.567" == "Rp " + "1.234.567";
    RetainAppend("Rp ", "1.234.567", DecimalChar);
    CurrencyPrefixRetain();
    SeparatedDigitsRetain();
  }

  lemma CurrencyPrefixRetain()
    ensures Retain("Rp ", DecimalChar) == []
  {
    assert !DecimalChar('R') && !DecimalChar('p') && !DecimalChar(' ');
    assert "Rp "[1..] == "p " && "p "[1..] == " " && " "[1..] == [];
  }

  lemma SeparatedDigitsRetain()
    ensures Retain("1.234.567", DecimalChar) == "1.234.567"
  {
    var s := "1.234.567";
    assert forall k :: 0 <= k < |s| ==> DecimalChar(s[k]);
    RetainAll(s, DecimalChar);
  }

  lemma RupiahParse()
    ensures ParseFloatResidue("1.234.567") == Finite(1.234)
  {
    RupiahSplit();
    RupiahThousandths();
    assert ".567"[0] == '.' && forall i :: 0 <= i < |".567"| ==> DecimalChar(".567"[i]);
    ResidueValue("1", "234", ".567");
    assert DigitsValue("1") == 1;
  }

  /** The residue is the digit `1`, a separator, the group `234`, and the rest `.567`. */
  lemma RupiahSplit()
    ensures "1" + ['.'] + "234" + ".567" == "1.234.567"
  {
  }

  /** That group is read as the fraction 0.234. */
  lemma RupiahThousandths()
    ensures FractionValue("234") == 0.234
  {
    assert DigitsValue("234") == 234 && Pow10(3) == 1000;
  }

  // ----- seeding -----

  /** The record a wage-table entry starts with: its name and UMP, and zero expenditure. */
  function Seed(item: UmpDataItem): (p: ProvinceData)
    ensures p.name == item.name && p.ump == item.ump
    ensures p.expenditurePerCapita == p.expenditureFood == p.expenditureNonFood == Finite(0.0)
  {
    ProvinceData(item.name, Finite(0.0), Finite(0.0), Finite(0.0), item.ump)
  }

  /** The seeded record: one entry per id of the table, the last item with an id winning. */
  function SeedMap(items: seq<UmpDataItem>): (m: map<string, ProvinceData>)
    ensures m.Keys == IdSet(items)
  {
    var index := IndexById(items);
    map id | id in index :: Seed(index[id])
  }

  lemma SeedMapSnoc(items: seq<UmpDataItem>, x: UmpDataItem)
    ensures SeedMap(items + [x]) == SeedMap(items)[x.id := Seed(x)]
  {
    assert (items + [x])[..|items + [x]| - 1] == items;
  }

  /** Seeding one more entry of a table adds that entry's record. */
  lemma SeedMapStep(items: seq<UmpDataItem>, i: int)
    requires 0 <= i < |items|
    ensures SeedMap(items[..i + 1]) == SeedMap(items[..i])[items[i].id := Seed(items[i])]
  {
    assert items[..i + 1] == items[..i] + [items[i]];
    SeedMapSnoc(items[..i], items[i]);
  }

  /** For the shipped table: exactly the 38 ids, each with its own name and UMP and no expenditure. */
  lemma SeedMapOfTable()
    ensures SeedMap(UmpData).Keys == UmpMap.Keys
    ensures forall i :: 0 <= i < |UmpData| ==>
      UmpData[i].id in SeedMap(UmpData) &&
      SeedMap(UmpData)[UmpData[i].id] == ProvinceData(UmpData[i].name, Finite(0.0), Finite(0.0), Finite(0.0), UmpData[i].ump)
  {
    UmpMapIsTable();
  }

  // ----- rows -----

  const NationalRow := "Indonesia"

  /**
   * The id a row updates when names are resolved by `resolve`: none when its trimmed
   * `Provinsi` is missing, empty or the national total row, when the name resolves to no
   * entry, or when the entry's id is not a key of the record.
   */
  function RowTarget(resolve: string -> Option<UmpDataItem>, keys: set<string>, row: Row): (r: Option<string>)
    ensures r.Some? ==> r.value in keys
    ensures r.Some? <==>
      && row.provinsi.Some?
      && Trim(row.provinsi.value) != ""
      && Trim(row.provinsi.value) != NationalRow
      && resolve(Trim(row.provinsi.value)).Some?
      && resolve(Trim(row.provinsi.value)).value.id in keys
    ensures r.Some? ==> r == Some(resolve(Trim(row.provinsi.value)).value.id)
  {
    match row.provinsi
    case None => None
    case Some(p) =>
      var name := Trim(p);
      if name == "" || name == NationalRow then None
      else match resolve(name)
        case None => None
        case Some(item) => if item.id in keys then Some(item.id) else None
  }

  /** A record with the three figures of `row` in place of its own; name and UMP are kept. */
  function WithFigures(p: ProvinceData, row: Row): (q: ProvinceData)
    ensures q.name == p.name && q.ump == p.ump
    ensures q.expenditurePerCapita == ParseCell(row.total)
    ensures q.expenditureFood == ParseCell(row.food)
    ensures q.expenditureNonFood == ParseCell(row.nonFood)
  {
    p.(expenditurePerCapita := ParseCell(row.total),
       expenditureFood := ParseCell(row.food),
       expenditureNonFood := ParseCell(row.nonFood))
  }

  /** One pass of the row loop: the targeted record takes the row's figures, nothing else changes. */
  function ApplyRow(resolve: string -> Option<UmpDataItem>, m: map<string, ProvinceData>, row: Row): (r: map<string, ProvinceData>)
    ensures r.Keys == m.Keys
    ensures forall k :: k in m ==> r[k].name == m[k].name && r[k].ump == m[k].ump
    ensures RowTarget(resolve, m.Keys, row).None? ==> r == m
    ensures RowTarget(resolve, m.Keys, row).Some? ==>
      var id := RowTarget(resolve, m.Keys, row).value;
      && (forall k :: k in m && k != id ==> r[k] == m[k])
      && r[id] == WithFigures(m[id], row)
  {
    var target := RowTarget(resolve, m.Keys, row);
    if target.None? then m else m[target.value := WithFigures(m[target.value], row)]
  }

  /** The rows applied in order, later rows on top of earlier ones. */
  function ApplyRows(resolve: string -> Option<UmpDataItem>, m: map<string, ProvinceData>, rows: seq<Row>)
    : (r: map<string, ProvinceData>)
    ensures r.Keys == m.Keys
    ensures forall k :: k in m ==> r[k].name == m[k].name && r[k].ump == m[k].ump
  {
    if rows == [] then m else ApplyRow(resolve, ApplyRows(resolve, m, rows[..|rows| - 1]), rows[|rows| - 1])
  }

  /** Applying one more row is applying it to the result of the rows before it. */
  lemma ApplyRowsStep(resolve: string -> Option<UmpDataItem>, m: map<string, ProvinceData>, rows: seq<Row>, i: int)
    requires 0 <= i < |rows|
    ensures ApplyRows(resolve, m, rows[..i + 1]) == ApplyRow(resolve, ApplyRows(resolve, m, rows[..i]), rows[i])
  {
    assert rows[..i + 1][..i] == rows[..i];
  }

  /** A province no row targets keeps its record. */
  lemma {:induction false} Untargeted(resolve: string -> Option<UmpDataItem>, m: map<string, ProvinceData>, rows: seq<Row>, id: string)
    requires id in m
    requires forall k :: 0 <= k < |rows| ==> RowTarget(resolve, m.Keys, rows[k]) != Some(id)
    ensures ApplyRows(resolve, m, rows)[id] == m[id]
  {
    if rows != [] {
      var init := rows[..|rows| - 1];
      assert forall k :: 0 <= k < |init| ==> init[k] == rows[k];
      Untargeted(resolve, m, init, id);
    }
  }

  /** Of several rows naming one province, the last one decides its figures. */
  lemma {:induction false} LastRowWins(resolve: string -> Option<UmpDataItem>, m: map<string, ProvinceData>, rows: seq<Row>, j: int, id: string)
    requires 0 <= j < |rows| && RowTarget(resolve, m.Keys, rows[j]) == Some(id)
    requires forall k :: j < k < |rows| ==> RowTarget(resolve, m.Keys, rows[k]) != Some(id)
    ensures id in ApplyRows(resolve, m, rows)
    ensures ApplyRows(resolve, m, rows)[id] == WithFigures(m[id], rows[j])
  {
    var init := rows[..|rows| - 1];
    var before := ApplyRows(resolve, m, init);
    if j < |rows| - 1 {
      assert forall k :: j < k < |init| ==> init[k] == rows[k];
      LastRowWins(resolve, m, init, j, id);
      assert RowTarget(resolve, before.Keys, rows[|rows| - 1]) != Some(id);
    } else {
      assert before[id].name == m[id].name && before[id].ump == m[id].ump;
    }
  }

  /** A `"DKI Jakarta"` row with numeric cells fills the seeded Jakarta record with its figures. */
  lemma DkiJakartaRow()
    ensures var m := ApplyRow(GetUmpByProvinceName, SeedMap(UmpData), DkiRow);
      "dki-jakarta" in m && m["dki-jakarta"] == DkiFilled
  {
    DkiTarget();
    DkiSeeded();
    DkiRowBy(GetUmpByProvinceName, SeedMap(UmpData));
  }

  const DkiRow := Row(Some("DKI Jakarta"), Num(1000000.0), Num(1500000.0), Num(2500000.0))

  /** The Jakarta record before any row: its name and UMP, and zero expenditure. */
  const DkiSeed := ProvinceData("DKI Jakarta", Finite(0.0), Finite(0.0), Finite(0.0), 5067381.0)

  /** The Jakarta record after `DkiRow`: total 2,500,000, food 1,000,000, non-food 1,500,000. */
  const DkiFilled := ProvinceData("DKI Jakarta", Finite(2500000.0), Finite(1000000.0), Finite(1500000.0), 5067381.0)

  /** Whatever the resolver, a row targeting the seeded Jakarta record fills in its figures. */
  lemma DkiRowBy(resolve: string -> Option<UmpDataItem>, m: map<string, ProvinceData>)
    requires RowTarget(resolve, m.Keys, DkiRow) == Some("dki-jakarta")
    requires "dki-jakarta" in m && m["dki-jakarta"] == DkiSeed
    ensures "dki-jakarta" in ApplyRow(resolve, m, DkiRow) && ApplyRow(resolve, m, DkiRow)["dki-jakarta"] == DkiFilled
  {
  }

  lemma DkiTarget()
    ensures RowTarget(GetUmpByProvinceName, SeedMap(UmpData).Keys, DkiRow) == Some("dki-jakarta")
  {
    DkiResolves();
    DkiSeeded();
    DkiTargetBy(GetUmpByProvinceName, SeedMap(UmpData).Keys);
  }

  /** With any resolver that sends `"DKI Jakarta"` to the Jakarta entry, the row targets its id. */
  lemma DkiTargetBy(resolve: string -> Option<UmpDataItem>, keys: set<string>)
    requires resolve("DKI Jakarta") == Some(UmpDataItem("dki-jakarta", "DKI Jakarta", ["DKI JAKARTA", "JAKARTA"], 5067381.0, 2024))
    requires "dki-jakarta" in keys
    ensures RowTarget(resolve, keys, DkiRow) == Some("dki-jakarta")
  {
    DkiTrim();
  }

  lemma DkiTrim()
    ensures Trim("DKI Jakarta") == "DKI Jakarta"
  {
    var s := "DKI Jakarta";
    assert !IsSpace(s[0]) && !IsSpace(s[|s| - 1]);
    assert TrimStart(s) == s;
  }

  lemma DkiEntry()
    ensures UmpData[10] == UmpDataItem("dki-jakarta", "DKI Jakarta", ["DKI JAKARTA", "JAKARTA"], 5067381.0, 2024)
  {
  }

  lemma DkiResolves()
    ensures GetUmpByProvinceName("DKI Jakarta") == Some(UmpDataItem("dki-jakarta", "DKI Jakarta", ["DKI JAKARTA", "JAKARTA"], 5067381.0, 2024))
  {
    ResolvesOwnName(10);
    DkiEntry();
  }

  lemma DkiSeeded()
    ensures "dki-jakarta" in SeedMap(UmpData)
    ensures SeedMap(UmpData)["dki-jakarta"] == DkiSeed
  {
    SeedMapOfTable();
    DkiEntry();
  }

  // ----- the drop-down list -----

  /** Lexicographic order on character codes, standing in for `localeCompare(…, 'id')`. */
  predicate NameLe(a: string, b: string) {
    a == [] || (b != [] && (a[0] < b[0] || (a[0] == b[0] && NameLe(a[1..], b[1..]))))
  }

  lemma {:induction false} NameLeTotal(a: string, b: string)
    ensures NameLe(a, b) || NameLe(b, a)
  {
    if a != [] && b != [] && a[0] == b[0] {
      NameLeTotal(a[1..], b[1..]);
    }
  }

  lemma {:induction false} NameLeTransitive(a: string, b: string, c: string)
    requires NameLe(a, b) && NameLe(b, c)
    ensures NameLe(a, c)
  {
    if a != [] && a[0] == b[0] && b[0] == c[0] {
      NameLeTransitive(a[1..], b[1..], c[1..]);
    }
  }

  ghost predicate SortedByName(s: seq<ProvinceOption>) {
    forall i, j :: 0 <= i < j < |s| ==> NameLe(s[i].name, s[j].name)
  }

  /** The drop-down entry for one record. */
  function OptionOf(id: string, data: ProvinceData): ProvinceOption
    requires data.expenditurePerCapita.Finite?
  {
    ProvinceOption(id, data.name, data.expenditurePerCapita.value, data.ump)
  }

  /** The `filter` and `map` steps: the entries with a positive per-capita figure, as options. */
  function Eligible(entries: seq<(string, ProvinceData)>): (r: seq<ProvinceOption>)
    ensures forall o :: o in r <==> exists i :: 0 <= i < |entries| && Positive(entries[i].1.expenditurePerCapita)
                                                && o == OptionOf(entries[i].0, entries[i].1)
  {
    if entries == [] then []
    else
      var rest := Eligible(entries[1..]);
      assert forall i :: 0 < i < |entries| ==> entries[i] == entries[1..][i - 1];
      if Positive(entries[0].1.expenditurePerCapita) then [OptionOf(entries[0].0, entries[0].1)] + rest
      else rest
  }

  /** Puts `x` in front of the first element whose name it does not exceed. */
  function Insert(x: ProvinceOption, s: seq<ProvinceOption>): (r: seq<ProvinceOption>)
    ensures multiset(r) == multiset(s) + multiset{x}
  {
    if s == [] then [x]
    else if NameLe(x.name, s[0].name) then [x] + s
    else
      assert s == [s[0]] + s[1..];
      [s[0]] + Insert(x, s[1..])
  }

  lemma {:induction false} InsertSorted(x: ProvinceOption, s: seq<ProvinceOption>)
    requires SortedByName(s)
    ensures SortedByName(Insert(x, s))
  {
    if s != [] {
      var r := Insert(x, s);
      if NameLe(x.name, s[0].name) {
        forall j | 0 < j < |r| ensures NameLe(x.name, r[j].name) {
          if j > 1 { NameLeTransitive(x.name, s[0].name, r[j].name); }
        }
      } else {
        NameLeTotal(x.name, s[0].name);
        InsertSorted(x, s[1..]);
        InsertAbove(s[0].name, x, s[1..]);
        assert r == [s[0]] + Insert(x, s[1..]);
      }
    }
  }

  /** A name no greater than `x`'s and than every name of `s` stays below every name after inserting `x`. */
  lemma InsertAbove(low: string, x: ProvinceOption, s: seq<ProvinceOption>)
    requires NameLe(low, x.name)
    requires forall j :: 0 <= j < |s| ==> NameLe(low, s[j].name)
    ensures forall j :: 0 <= j < |Insert(x, s)| ==> NameLe(low, Insert(x, s)[j].name)
  {
    var t := Insert(x, s);
    forall j | 0 <= j < |t| ensures NameLe(low, t[j].name) {
      assert t[j] in multiset(s) + multiset{x};
      if t[j] in multiset(s) {
        var k :| 0 <= k < |s| && s[k] == t[j];
      }
    }
  }

  /** Insertion sort by name, earlier entries staying ahead of later ones with the same name. */
  function SortByName(s: seq<ProvinceOption>): (r: seq<ProvinceOption>)
    ensures multiset(r) == multiset(s)
    ensures SortedByName(r)
  {
    if s == [] then []
    else
      assert s == [s[0]] + s[1..];
      InsertSorted(s[0], SortByName(s[1..]));
      Insert(s[0], SortByName(s[1..]))
  }

  /**
   * `getProvinceList` over `Object.entries(provinceData)`: the options of the entries with a
   * positive per-capita figure, ordered by name.
   */
  function GetProvinceList(entries: seq<(string, ProvinceData)>): (r: seq<ProvinceOption>)
    ensures SortedByName(r)
    ensures multiset(r) == multiset(Eligible(entries))
    ensures forall o :: o in r <==> exists i :: 0 <= i < |entries| && Positive(entries[i].1.expenditurePerCapita)
                                                && o == OptionOf(entries[i].0, entries[i].1)
  {
    var e := Eligible(entries);
    var r := SortByName(e);
    assert forall o :: o in r <==> o in multiset(r);
    assert forall o :: o in e <==> o in multiset(e);
    r
  }

  /** `entries` lists every key of `m` exactly once, each with its record. */
  ghost predicate EntriesOf(entries: seq<(string, ProvinceData)>, m: map<string, ProvinceData>) {
    && (forall i :: 0 <= i < |entries| ==> entries[i].0 in m && m[entries[i].0] == entries[i].1)
    && (forall k :: k in m ==> exists i :: 0 <= i < |entries| && entries[i].0 == k)
  }

  /** A province is offered exactly when its per-capita figure is positive. */
  lemma ProvinceListOfRecord(entries: seq<(string, ProvinceData)>, m: map<string, ProvinceData>, id: string)
    requires EntriesOf(entries, m) && id in m
    ensures Positive(m[id].expenditurePerCapita) <==>
      exists o :: o in GetProvinceList(entries) && o.id == id
    ensures Positive(m[id].expenditurePerCapita) ==> OptionOf(id, m[id]) in GetProvinceList(entries)
  {
    var i :| 0 <= i < |entries| && entries[i].0 == id;
    if exists o :: o in GetProvinceList(entries) && o.id == id {
      var o :| o in GetProvinceList(entries) && o.id == id;
      var k :| 0 <= k < |entries| && Positive(entries[k].1.expenditurePerCapita) && o == OptionOf(entries[k].0, entries[k].1);
      assert entries[k].0 == id;
    }
    if Positive(m[id].expenditurePerCapita) {
      assert OptionOf(entries[i].0, entries[i].1) in GetProvinceList(entries);
    }
  }

  // ----- the composable's state -----

  /** The composable's `provinceData` reference; loading flags and error text are not modelled. */
  class ExpenditureStore {
    var provinceData: map<string, ProvinceData>

    constructor()
      ensures provinceData == map[]
    {
      provinceData := map[];
    }

    /** `initializeProvinceData`: one zero-expenditure record per table entry. */
    method InitializeProvinceData() returns (data: map<string, ProvinceData>)
      modifies this
      ensures data == SeedMap(UmpData)
      ensures provinceData == data
    {
      data := map[];
      for i := 0 to |UmpData|
        invariant data == SeedMap(UmpData[..i])
      {
        SeedMapStep(UmpData, i);
        data := data[UmpData[i].id := Seed(UmpData[i])];
      }
      assert UmpData[..|UmpData|] == UmpData;
      provinceData := data;
    }

    /**
     * The row loop of `loadExpenditureData`, on rows already fetched and parsed: seed, then
     * apply every row in order.
     */
    method LoadExpenditureData(rows: seq<Row>) returns (updated: map<string, ProvinceData>)
      modifies this
      ensures updated == ApplyRows(GetUmpByProvinceName, SeedMap(UmpData), rows)
      ensures provinceData == updated
    {
      var seeded := InitializeProvinceData();
      updated := seeded;
      for i := 0 to |rows|
        invariant updated == ApplyRows(GetUmpByProvinceName, seeded, rows[..i])
      {
        ApplyRowsStep(GetUmpByProvinceName, seeded, rows, i);
        updated := ApplyRow(GetUmpByProvinceName, updated, rows[i]);
      }
      assert rows[..|rows|] == rows;
      provinceData := updated;
    }
  }
}
