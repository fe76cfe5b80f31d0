/**
 * utils/constants.ts: the table of the 38 provinces with their regional minimum wage (UMP),
 * the index of that table by id, and the resolver that maps a free-text province name to a
 * table entry in three tiers (exact name, exact alias, containment).
 */
module Constants {
  import opened Wrappers
  import opened Ascii
  import opened Seqs
  import opened Types

  /** `UMP_DATA`: the 38 provinces in table order. */
  const UmpData: seq<UmpDataItem> := [
      UmpDataItem("aceh", "Aceh", ["ACEH", "NAD", "NANGGROE ACEH DARUSSALAM"], 3413666.0, 2024),
      UmpDataItem("sumatera-utara", "Sumatera Utara", ["SUMATERA UTARA", "SUMUT"], 2809915.0, 2024),
      UmpDataItem("sumatera-barat", "Sumatera Barat", ["SUMATERA BARAT", "SUMBAR"], 2742476.0, 2024),
      UmpDataItem("riau", "Riau", ["RIAU"], 3191662.0, 2024),
      UmpDataItem("jambi", "Jambi", ["JAMBI"], 2943000.0, 2024),
      UmpDataItem("sumatera-selatan", "Sumatera Selatan", ["SUMATERA SELATAN", "SUMSEL"], 3456874.0, 2024),
      UmpDataItem("bengkulu", "Bengkulu", ["BENGKULU"], 2507079.0, 2024),
      UmpDataItem("lampung", "Lampung", ["LAMPUNG"], 2633284.0, 2024),
      UmpDataItem("bangka-belitung", "Kepulauan Bangka Belitung", ["KEPULAUAN BANGKA BELITUNG", "BABEL", "BANGKA BELITUNG"], 3498479.0, 2024),
      UmpDataItem("kepulauan-riau", "Kepulauan Riau", ["KEPULAUAN RIAU", "KEPRI"], 3402492.0, 2024),
      UmpDataItem("dki-jakarta", "DKI Jakarta", ["DKI JAKARTA", "JAKARTA"], 5067381.0, 2024),
      UmpDataItem("jawa-barat", "Jawa Barat", ["JAWA BARAT", "JABAR"], 2057495.0, 2024),
      UmpDataItem("jawa-tengah", "Jawa Tengah", ["JAWA TENGAH", "JATENG"], 2035807.0, 2024),
      UmpDataItem("di-yogyakarta", "DI Yogyakarta", ["DI YOGYAKARTA", "DIY", "YOGYAKARTA", "D.I. YOGYAKARTA"], 2125898.0, 2024),
      UmpDataItem("jawa-timur", "Jawa Timur", ["JAWA TIMUR", "JATIM"], 2040244.0, 2024),
      UmpDataItem("banten", "Banten", ["BANTEN"], 2727514.0, 2024),
      UmpDataItem("bali", "Bali", ["BALI"], 2971250.0, 2024),
      UmpDataItem("nusa-tenggara-barat", "Nusa Tenggara Barat", ["NUSA TENGGARA BARAT", "NTB"], 2444067.0, 2024),
      UmpDataItem("nusa-tenggara-timur", "Nusa Tenggara Timur", ["NUSA TENGGARA TIMUR", "NTT"], 2123994.0, 2024),
      UmpDataItem("kalimantan-barat", "Kalimantan Barat", ["KALIMANTAN BARAT", "KALBAR"], 2702616.0, 2024),
      UmpDataItem("kalimantan-tengah", "Kalimantan Tengah", ["KALIMANTAN TENGAH", "KALTENG"], 3181013.0, 2024),
      UmpDataItem("kalimantan-selatan", "Kalimantan Selatan", ["KALIMANTAN SELATAN", "KALSEL"], 3268612.0, 2024),
      UmpDataItem("kalimantan-timur", "Kalimantan Timur", ["KALIMANTAN TIMUR", "KALTIM"], 3360449.0, 2024),
      UmpDataItem("kalimantan-utara", "Kalimantan Utara", ["KALIMANTAN UTARA", "KALTARA"], 3466653.0, 2024),
      UmpDataItem("sulawesi-utara", "Sulawesi Utara", ["SULAWESI UTARA", "SULUT"], 3485000.0, 2024),
      UmpDataItem("sulawesi-tengah", "Sulawesi Tengah", ["SULAWESI TENGAH", "SULTENG"], 2599546.0, 2024),
      UmpDataItem("sulawesi-selatan", "Sulawesi Selatan", ["SULAWESI SELATAN", "SULSEL"], 3385145.0, 2024),
      UmpDataItem("sulawesi-tenggara", "Sulawesi Tenggara", ["SULAWESI TENGGARA", "SULTRA"], 2758984.0, 2024),
      UmpDataItem("gorontalo", "Gorontalo", ["GORONTALO"], 2989350.0, 2024),
      UmpDataItem("sulawesi-barat", "Sulawesi Barat", ["SULAWESI BARAT", "SULBAR"], 2879135.0, 2024),
      UmpDataItem("maluku", "Maluku", ["MALUKU"], 2812827.0, 2024),
      UmpDataItem("maluku-utara", "Maluku Utara", ["MALUKU UTARA", "MALUT"], 2976720.0, 2024),
      UmpDataItem("papua-barat", "Papua Barat", ["PAPUA BARAT"], 3282000.0, 2024),
      UmpDataItem("papua", "Papua", ["PAPUA"], 3864696.0, 2024),
      UmpDataItem("papua-tengah", "Papua Tengah", ["PAPUA TENGAH"], 3516700.0, 2024),
      UmpDataItem("papua-pegunungan", "Papua Pegunungan", ["PAPUA PEGUNUNGAN"], 3501874.0, 2024),
      UmpDataItem("papua-selatan", "Papua Selatan", ["PAPUA SELATAN"], 3300000.0, 2024),
      UmpDataItem("papua-barat-daya", "Papua Barat Daya", ["PAPUA BARAT DAYA"], 3282000.0, 2024)
    ]

  /** The ids of a sequence of items, as a set. */
  ghost function IdSet(items: seq<UmpDataItem>): set<string> {
    set i | 0 <= i < |items| :: items[i].id
  }

  lemma IdSetSnoc(items: seq<UmpDataItem>)
    requires items != []
    ensures IdSet(items) == IdSet(items[..|items| - 1]) + {items[|items| - 1].id}
  {
    var init := items[..|items| - 1];
    forall id | id in IdSet(items) ensures id in IdSet(init) + {items[|items| - 1].id} {
      var i :| 0 <= i < |items| && items[i].id == id;
      if i < |items| - 1 { assert init[i].id == id; }
    }
    forall id | id in IdSet(init) ensures id in IdSet(items) {
      var i :| 0 <= i < |init| && init[i].id == id;
      assert items[i].id == id;
    }
  }

  /** No item after position `i` carries the id of `items[i]`. */
  ghost predicate LastWithItsId(items: seq<UmpDataItem>, i: int)
    requires 0 <= i < |items|
  {
    forall j :: i < j < |items| ==> items[j].id != items[i].id
  }

  /**
   * The `reduce` that builds `UMP_MAP`: every item is filed under its id, and an item later in
   * the sequence replaces an earlier one with the same id (see `IndexByIdLastWins`).
   */
  function IndexById(items: seq<UmpDataItem>): (m: map<string, UmpDataItem>)
    ensures m.Keys == IdSet(items)
  {
    if items == [] then map[]
    else
      var init, last := items[..|items| - 1], items[|items| - 1];
      IdSetSnoc(items);
      IndexById(init)[last.id := last]
  }

  /** An item that no later item shares its id with is the one its id is filed under. */
  lemma {:induction false} IndexByIdLastWins(items: seq<UmpDataItem>, i: int)
    requires 0 <= i < |items| && LastWithItsId(items, i)
    ensures items[i].id in IndexById(items) && IndexById(items)[items[i].id] == items[i]
  {
    var init := items[..|items| - 1];
    if i < |init| {
      assert LastWithItsId(init, i) by {
        forall j | i < j < |init| ensures init[j].id != init[i].id { assert init[j] == items[j]; }
      }
      IndexByIdLastWins(init, i);
      assert items[|items| - 1].id != items[i].id;
    }
  }

  /** `UMP_MAP`. */
  const UmpMap: map<string, UmpDataItem> := IndexById(UmpData)

  /** `normalizeForMatching`: upper-case, trim, collapse whitespace runs to one space, drop periods. */
  function NormalizeForMatching(name: string): (r: string)
    ensures |r| <= |name|
    ensures forall i :: 0 <= i < |r| ==> !IsLower(r[i]) && r[i] != '.' && (IsSpace(r[i]) ==> r[i] == ' ')
  {
    var upper := ToUpper(name);
    var trimmed := Trim(upper);
    var collapsed := ReplaceSpaceRuns(trimmed, ' ');
    NormalFormChars(upper, trimmed, collapsed);
    Retain(collapsed, NotPeriod)
  }

  /** The characters matching never drops or merges: neither whitespace nor the period. */
  predicate Significant(c: char) { !IsSpace(c) && c != '.' }

  predicate NotBlank(c: char) { c != ' ' }

  /**
   * Apart from its single spaces, the normalised name is exactly the upper-cased name with its
   * whitespace and periods taken out: no other character is lost, added or reordered.
   */
  lemma NormalizeKeepsSignificant(name: string)
    ensures Retain(NormalizeForMatching(name), NotBlank) == Retain(ToUpper(name), Significant)
  {
    var upper := ToUpper(name);
    var trimmed := Trim(upper);
    var collapsed := ReplaceSpaceRuns(trimmed, ' ');
    var r := NormalizeForMatching(name);
    RetainAgree(r, NotBlank, Significant);
    RetainRetain(collapsed, NotPeriod, Significant, Significant);
    assert DropsSpace(Significant);
    RetainSpaceRuns(trimmed, ' ', Significant);
    RetainTrim(upper, Significant);
  }

  /**
   * Two words around a run of whitespace are normalised on their own and joined by one space:
   * `"Jawa \t Barat"` and `"JAWA BARAT"` normalise alike.
   */
  lemma NormalizeJoin(a: string, w: string, b: string)
    requires a != [] && !IsSpace(a[0]) && !IsSpace(a[|a| - 1])
    requires w != [] && forall k :: 0 <= k < |w| ==> IsSpace(w[k])
    requires b != [] && !IsSpace(b[0]) && !IsSpace(b[|b| - 1])
    ensures NormalizeForMatching(a + w + b) == NormalizeForMatching(a) + " " + NormalizeForMatching(b)
  {
    NormalizeParts(a, w, b);
    JoinEnds(a, w, b);
    CollapsedJoin(ToUpper(a), ToUpper(w), ToUpper(b));
  }

  /** Each of the three normal forms, as the collapse of the upper-cased parts. */
  lemma NormalizeParts(a: string, w: string, b: string)
    requires a != [] && !IsSpace(a[0]) && !IsSpace(a[|a| - 1])
    requires forall k :: 0 <= k < |w| ==> IsSpace(w[k])
    requires b != [] && !IsSpace(b[0]) && !IsSpace(b[|b| - 1])
    ensures NormalizeForMatching(a) == Retain(ReplaceSpaceRuns(ToUpper(a), ' '), NotPeriod)
    ensures NormalizeForMatching(b) == Retain(ReplaceSpaceRuns(ToUpper(b), ' '), NotPeriod)
    ensures NormalizeForMatching(a + w + b) ==
      Retain(ReplaceSpaceRuns(ToUpper(a) + ToUpper(w) + ToUpper(b), ' '), NotPeriod)
  {
    var ua, uw, ub := ToUpper(a), ToUpper(w), ToUpper(b);
    UpperSpace(a[|a| - 1]);
    UpperSpace(b[0]);
    assert ua[|ua| - 1] == UpperChar(a[|a| - 1]) && ub[0] == UpperChar(b[0]);
    TrimmedUnchanged(ua);
    TrimmedUnchanged(ub);
    NormalizeStages(a, ua, ua, ReplaceSpaceRuns(ua, ' '));
    NormalizeStages(b, ub, ub, ReplaceSpaceRuns(ub, ' '));
    UpperJoin(a, w, b);
    NormalizeStages(a + w + b, ToUpper(a + w + b), ua + uw + ub, ReplaceSpaceRuns(ua + uw + ub, ' '));
  }

  /** Upper-cased, the run is still all whitespace and the words still end in non-spaces. */
  lemma JoinEnds(a: string, w: string, b: string)
    requires a != [] && !IsSpace(a[|a| - 1])
    requires w != [] && forall k :: 0 <= k < |w| ==> IsSpace(w[k])
    requires b != [] && !IsSpace(b[0])
    ensures !IsSpace(ToUpper(a)[|a| - 1]) && !IsSpace(ToUpper(b)[0])
    ensures ToUpper(w) != [] && forall k :: 0 <= k < |ToUpper(w)| ==> IsSpace(ToUpper(w)[k])
  {
    UpperSpace(a[|a| - 1]);
    UpperSpace(b[0]);
    forall k | 0 <= k < |w| ensures IsSpace(ToUpper(w)[k]) {
      UpperSpace(w[k]);
    }
  }

  /** Collapsing and dropping periods around one whitespace run leaves one space there. */
  lemma CollapsedJoin(a: string, w: string, b: string)
    requires a == [] || !IsSpace(a[|a| - 1])
    requires w != [] && forall k :: 0 <= k < |w| ==> IsSpace(w[k])
    requires b == [] || !IsSpace(b[0])
    ensures Retain(ReplaceSpaceRuns(a + w + b, ' '), NotPeriod) ==
      Retain(ReplaceSpaceRuns(a, ' '), NotPeriod) + " " + Retain(ReplaceSpaceRuns(b, ' '), NotPeriod)
  {
    SpaceRunJoin(a, w, b, ' ');
    RetainAround(ReplaceSpaceRuns(a, ' '), ' ', ReplaceSpaceRuns(b, ' '), NotPeriod);
  }

  /** Upper-casing two words and what lies between them, then trimming the whole. */
  lemma UpperJoin(a: string, w: string, b: string)
    requires a != [] && !IsSpace(a[0])
    requires b != [] && !IsSpace(b[|b| - 1])
    ensures Trim(ToUpper(a + w + b)) == ToUpper(a) + ToUpper(w) + ToUpper(b)
  {
    UpperAppend(a, w);
    UpperAppend(a + w, b);
    var u := ToUpper(a) + ToUpper(w) + ToUpper(b);
    UpperSpace(a[0]);
    UpperSpace(b[|b| - 1]);
    assert u[0] == UpperChar(a[0]) && u[|u| - 1] == UpperChar(b[|b| - 1]);
    TrimmedUnchanged(u);
  }

  /** The characters left after dropping periods: no lower-case letter, no period, only plain spaces. */
  lemma NormalFormChars(upper: string, trimmed: string, collapsed: string)
    requires forall i :: 0 <= i < |upper| ==> !IsLower(upper[i])
    requires trimmed == Trim(upper) && collapsed == ReplaceSpaceRuns(trimmed, ' ')
    ensures forall i :: 0 <= i < |Retain(collapsed, NotPeriod)| ==>
      var c := Retain(collapsed, NotPeriod)[i]; !IsLower(c) && c != '.' && (IsSpace(c) ==> c == ' ')
  {
    CollapsedChars(upper, trimmed, collapsed);
    RetainFrom(collapsed, NotPeriod);
    var r := Retain(collapsed, NotPeriod);
    assert forall i :: 0 <= i < |r| ==> r[i] in collapsed;
  }

  /** Trimming and collapsing an upper-cased string leave no lower-case letter and only plain spaces. */
  lemma CollapsedChars(upper: string, trimmed: string, collapsed: string)
    requires forall i :: 0 <= i < |upper| ==> !IsLower(upper[i])
    requires trimmed == Trim(upper) && collapsed == ReplaceSpaceRuns(trimmed, ' ')
    ensures forall c :: c in collapsed ==> !IsLower(c) && (IsSpace(c) ==> c == ' ')
  {
    assert forall c :: c in trimmed ==> c in upper;
  }

  /** Tier 1: the normalised input equals the entry's normalised name. */
  predicate NameMatches(item: UmpDataItem, normalized: string) {
    NormalizeForMatching(item.name) == normalized
  }

  /** Tier 2: the normalised input equals one of the entry's normalised aliases (`aliases.some`). */
  predicate AliasMatches(item: UmpDataItem, normalized: string) {
    exists k :: 0 <= k < |item.aliases| && NormalizeForMatching(item.aliases[k]) == normalized
  }

  /** Tier 3: either of the normalised input and the normalised name contains the other. */
  predicate PartialMatches(item: UmpDataItem, normalized: string) {
    var itemNameNorm := NormalizeForMatching(item.name);
    Contains(normalized, itemNameNorm) || Contains(itemNameNorm, normalized)
  }

  /** The best tier at which an entry matches: 1, 2 or 3, or 0 when it matches at none. */
  function TierOf(item: UmpDataItem, normalized: string): nat {
    if NameMatches(item, normalized) then 1
    else if AliasMatches(item, normalized) then 2
    else if PartialMatches(item, normalized) then 3
    else 0
  }

  /** Entry `i` of `table` is at least as good a match as entry `j`: a better tier, or the same tier and not later. */
  ghost predicate NoWorseThan(table: seq<UmpDataItem>, normalized: string, i: int, j: int)
    requires 0 <= i < |table| && 0 <= j < |table|
  {
    var ti, tj := TierOf(table[i], normalized), TierOf(table[j], normalized);
    ti < tj || (ti == tj && i <= j)
  }

  /**
   * `r` is the match the resolver should pick for `normalized`: an entry that matches at some
   * tier, with no entry matching at a better tier and none earlier at the same tier; no match
   * only when no entry matches at any tier.
   */
  ghost predicate BestMatch(table: seq<UmpDataItem>, normalized: string, r: Option<nat>) {
    && (r.Some? ==> r.value < |table| && TierOf(table[r.value], normalized) > 0)
    && (r.Some? ==> forall j :: 0 <= j < |table| && TierOf(table[j], normalized) > 0 ==>
          NoWorseThan(table, normalized, r.value, j))
    && (r.None? <==> forall j :: 0 <= j < |table| ==> TierOf(table[j], normalized) == 0)
  }

  /**
   * The three `find` calls of `getUmpByProvinceName`, tried in order on an already normalised
   * input: the entry with the best tier and, among those, the first in table order.
   */
  function MatchIndex(table: seq<UmpDataItem>, normalized: string): (r: Option<nat>)
    ensures BestMatch(table, normalized, r)
  {
    var isName := item => NameMatches(item, normalized);
    var byName := Find(table, isName);
    NameStep(table, normalized, isName, byName);
    if byName.Some? then
      BestOfTier(table, normalized, byName, 1);
      byName
    else MatchBelowName(table, normalized)
  }

  /** The alias and containment `find` calls, reached when no name matches. */
  function MatchBelowName(table: seq<UmpDataItem>, normalized: string): (r: Option<nat>)
    requires forall j :: 0 <= j < |table| ==> TierOf(table[j], normalized) != 1
    ensures BestMatch(table, normalized, r)
  {
    var isAlias := item => AliasMatches(item, normalized);
    var byAlias := Find(table, isAlias);
    AliasStep(table, normalized, isAlias, byAlias);
    if byAlias.Some? then
      BestOfTier(table, normalized, byAlias, 2);
      byAlias
    else
      var isPartial := item => PartialMatches(item, normalized);
      var byPartial := Find(table, isPartial);
      PartialStep(table, normalized, isPartial, byPartial);
      if byPartial.Some? then
        BestOfTier(table, normalized, byPartial, 3);
        byPartial
      else
        NoMatch(table, normalized);
        None
  }

  /** The first entry of tier `t`, when no entry has a better tier, is the best match. */
  lemma BestOfTier(table: seq<UmpDataItem>, normalized: string, r: Option<nat>, t: nat)
    requires 1 <= t <= 3
    requires forall j :: 0 <= j < |table| ==> !(0 < TierOf(table[j], normalized) < t)
    requires r.Some? && r.value < |table| && TierOf(table[r.value], normalized) == t
    requires forall j :: 0 <= j < r.value ==> TierOf(table[j], normalized) != t
    ensures BestMatch(table, normalized, r)
  {
  }

  /** With no entry of any tier, there is no match. */
  lemma NoMatch(table: seq<UmpDataItem>, normalized: string)
    requires forall j :: 0 <= j < |table| ==> TierOf(table[j], normalized) !in {1, 2, 3}
    ensures BestMatch(table, normalized, None)
  {
  }

  /** How `TierOf` reads the three matching predicates. */
  lemma TierFacts(item: UmpDataItem, normalized: string)
    ensures TierOf(item, normalized) == 1 <==> NameMatches(item, normalized)
    ensures TierOf(item, normalized) != 1 ==> (TierOf(item, normalized) == 2 <==> AliasMatches(item, normalized))
    ensures TierOf(item, normalized) !in {1, 2} ==> (TierOf(item, normalized) == 3 <==> PartialMatches(item, normalized))
    ensures TierOf(item, normalized) in {0, 1, 2, 3}
  {
  }

  /** The name `find`: its hit is the first entry of tier 1; it misses when no entry has tier 1. */
  lemma NameStep(table: seq<UmpDataItem>, normalized: string, p: UmpDataItem -> bool, r: Option<nat>)
    requires r == Find(table, p)
    requires forall item :: p(item) == NameMatches(item, normalized)
    ensures r.Some? ==> r.value < |table| && TierOf(table[r.value], normalized) == 1
    ensures r.Some? ==> forall j :: 0 <= j < r.value ==> TierOf(table[j], normalized) != 1
    ensures r.None? <==> forall j :: 0 <= j < |table| ==> TierOf(table[j], normalized) != 1
  {
    forall j | 0 <= j < |table| ensures p(table[j]) <==> TierOf(table[j], normalized) == 1 {
      TierFacts(table[j], normalized);
    }
  }

  /**
   * The alias `find`, when no entry has tier 1: its hit is the first entry of tier 2; it misses
   * when no entry has tier 2.
   */
  lemma AliasStep(table: seq<UmpDataItem>, normalized: string, p: UmpDataItem -> bool, r: Option<nat>)
    requires r == Find(table, p)
    requires forall item :: p(item) == AliasMatches(item, normalized)
    requires forall j :: 0 <= j < |table| ==> TierOf(table[j], normalized) != 1
    ensures r.Some? ==> r.value < |table| && TierOf(table[r.value], normalized) == 2
    ensures r.Some? ==> forall j :: 0 <= j < r.value ==> TierOf(table[j], normalized) != 2
    ensures r.None? <==> forall j :: 0 <= j < |table| ==> TierOf(table[j], normalized) != 2
  {
    forall j | 0 <= j < |table| ensures p(table[j]) <==> TierOf(table[j], normalized) == 2 {
      TierFacts(table[j], normalized);
    }
  }

  /**
   * The containment `find`, when no entry has tier 1 or 2: its hit is the first entry of tier 3;
   * it misses when no entry has tier 3.
   */
  lemma PartialStep(table: seq<UmpDataItem>, normalized: string, p: UmpDataItem -> bool, r: Option<nat>)
    requires r == Find(table, p)
    requires forall item :: p(item) == PartialMatches(item, normalized)
    requires forall j :: 0 <= j < |table| ==> TierOf(table[j], normalized) !in {1, 2}
    ensures r.Some? ==> r.value < |table| && TierOf(table[r.value], normalized) == 3
    ensures r.Some? ==> forall j :: 0 <= j < r.value ==> TierOf(table[j], normalized) != 3
    ensures r.None? <==> forall j :: 0 <= j < |table| ==> TierOf(table[j], normalized) !in {1, 2, 3}
  {
    forall j | 0 <= j < |table| ensures p(table[j]) <==> TierOf(table[j], normalized) == 3 {
      TierFacts(table[j], normalized);
    }
  }

  /** No entry of `table` matches `normalized` on any tier. */
  predicate Unmatched(table: seq<UmpDataItem>, normalized: string) {
    forall i :: 0 <= i < |table| ==> TierOf(table[i], normalized) == 0
  }

  /** The resolver of `getUmpByProvinceName` over any table: the entry `name` resolves to, if any. */
  function ResolveIn(table: seq<UmpDataItem>, name: string): (r: Option<UmpDataItem>)
    ensures r.Some? ==> r.value in table
    ensures r.None? <==> Unmatched(table, NormalizeForMatching(name))
  {
    var normalized := NormalizeForMatching(name);
    var found := MatchIndex(table, normalized);
    if found.Some? then Some(table[found.value]) else None
  }

  /** `getUmpByProvinceName`: the entry of `UMP_DATA` a free-text province name resolves to, if any. */
  function GetUmpByProvinceName(name: string): (r: Option<UmpDataItem>)
    ensures r.Some? ==> r.value in UmpData
    ensures r.None? <==> Unmatched(UmpData, NormalizeForMatching(name))
  {
    var table := UmpData;
    ResolveIn(table, name)
  }

  /** Normalising a string that is already tidy only upper-cases it and drops its periods. */
  lemma NormalizeTidy(s: string)
    requires Tidy(s)
    ensures NormalizeForMatching(s) == Retain(ToUpper(s), NotPeriod)
  {
    TidyUpper(s);
    TidyTrim(ToUpper(s));
    SingleSpacesUnchanged(ToUpper(s));
  }

  /** `NormalizeForMatching` is the composition of its four stages. */
  lemma NormalizeStages(s: string, upper: string, trimmed: string, collapsed: string)
    requires ToUpper(s) == upper && Trim(upper) == trimmed && ReplaceSpaceRuns(trimmed, ' ') == collapsed
    ensures NormalizeForMatching(s) == Retain(collapsed, NotPeriod)
  {
  }

  /** A tidy string without periods normalises to its upper-case form `t`. */
  lemma NormalizesToUpper(s: string, t: string)
    requires Tidy(s)
    requires forall k :: 0 <= k < |s| ==> s[k] != '.'
    requires |s| == |t| && forall k :: 0 <= k < |s| ==> UpperChar(s[k]) == t[k]
    ensures NormalizeForMatching(s) == t
  {
    assert NormalizeForMatching(s) == Retain(ToUpper(s), NotPeriod) by { NormalizeTidy(s); }
    UpperOfEach(s, t);
    assert Retain(t, NotPeriod) == t by {
      forall k | 0 <= k < |t| ensures NotPeriod(t[k]) {
        assert s[k] != '.' && UpperChar(s[k]) == t[k];
      }
      RetainAll(t, NotPeriod);
    }
  }

  /**
   * Character `k` of `s` survives normalisation unchanged apart from case: it is no period, its
   * only whitespace is a plain space with no space before it, and `t[k]` is its upper-case form.
   */
  predicate CharKept(s: string, t: string, k: int)
    requires 0 <= k < |s| == |t|
  {
    && s[k] != '.'
    && (IsSpace(s[k]) ==> s[k] == ' ')
    && (k > 0 ==> !(s[k - 1] == ' ' && s[k] == ' '))
    && UpperChar(s[k]) == t[k]
  }

  /** A string that keeps every character, with no space at either end, normalises to `t`. */
  lemma NormalizesByChars(s: string, t: string)
    requires |s| == |t|
    requires s == [] || (s[0] != ' ' && s[|s| - 1] != ' ')
    requires forall k :: 0 <= k < |s| ==> CharKept(s, t, k)
    ensures NormalizeForMatching(s) == t
  {
    forall k | 0 <= k < |s|
      ensures s[k] != '.' && (IsSpace(s[k]) ==> s[k] == ' ') && UpperChar(s[k]) == t[k]
    {
      assert CharKept(s, t, k);
    }
    forall k | 0 < k < |s| ensures !(s[k - 1] == ' ' && s[k] == ' ') {
      assert CharKept(s, t, k);
    }
    NormalizesToUpper(s, t);
  }

  /** Empty and whitespace-only inputs normalise to the empty string. */
  lemma BlankNormalizesToEmpty(s: string)
    requires forall k :: 0 <= k < |s| ==> IsSpace(s[k])
    ensures NormalizeForMatching(s) == ""
  {
    var upper := ToUpper(s);
    assert forall k :: 0 <= k < |upper| ==> IsSpace(upper[k]);
    assert TrimStart(upper) == [];
  }

  /** Tiers 1 and 2 are the exact matches, by name or by alias. */
  lemma ExactTiers(item: UmpDataItem, normalized: string)
    ensures TierOf(item, normalized) in {1, 2} <==> NameMatches(item, normalized) || AliasMatches(item, normalized)
  {
  }

  /**
   * An input that matches exactly one entry by name or by alias resolves to that entry,
   * whatever the containment tier would have picked.
   */
  lemma MatchSoleExact(table: seq<UmpDataItem>, i: int, normalized: string)
    requires 0 <= i < |table| && TierOf(table[i], normalized) in {1, 2}
    requires forall j :: 0 <= j < |table| && j != i ==> TierOf(table[j], normalized) !in {1, 2}
    ensures MatchIndex(table, normalized) == Some(i)
  {
    var r := MatchIndex(table, normalized);
    assert NoWorseThan(table, normalized, r.value, i);
  }

  /**
   * When no name and no alias normalises to the empty string, the empty input matches every
   * entry by containment and so resolves to the first one.
   */
  lemma MatchEmpty(table: seq<UmpDataItem>)
    requires table != []
    requires forall j :: 0 <= j < |table| ==> !NameMatches(table[j], "") && !AliasMatches(table[j], "")
    ensures MatchIndex(table, "") == Some(0)
  {
    assert PartialMatches(table[0], "") by {
      assert Contains(NormalizeForMatching(table[0].name), "");
    }
    TierFacts(table[0], "");
    var r := MatchIndex(table, "");
    assert r.Some?;
    var k := r.value;
    assert NoWorseThan(table, "", k, 0);
    TierFacts(table[k], "");
  }

  /**
   * When nothing matches by name or alias, the first entry that matches by containment wins:
   * the entry at `i` does, and none before it matches at all.
   */
  lemma MatchFirstPartial(table: seq<UmpDataItem>, i: int, normalized: string)
    requires 0 <= i < |table| && TierOf(table[i], normalized) == 3
    requires forall j :: 0 <= j < |table| ==> TierOf(table[j], normalized) !in {1, 2}
    requires forall j :: 0 <= j < i ==> TierOf(table[j], normalized) == 0
    ensures MatchIndex(table, normalized) == Some(i)
  {
    var r := MatchIndex(table, normalized);
    assert r.Some? by { assert TierOf(table[i], normalized) != 0; }
    var k := r.value;
    assert NoWorseThan(table, normalized, k, i);
    TierFacts(table[k], normalized);
    assert k <= i;
  }

  /**
   * Normalising is not idempotent: periods are dropped after whitespace is collapsed, so
   * `"A . B"` normalises to `"A  B"` with two spaces, which a second pass collapses to `"A B"`.
   */
  lemma NormalizeNotIdempotent()
    ensures NormalizeForMatching("A . B") == "A  B"
    ensures NormalizeForMatching(NormalizeForMatching("A . B")) == "A B"
  {
    SpacedPeriodNormalizes();
    DoubleSpaceNormalizes();
  }

  lemma SpacedPeriodNormalizes()
    ensures NormalizeForMatching("A . B") == "A  B"
  {
    SpacedPeriodShape();
    NormalizeTidy("A . B");
    SpacedPeriodRetain();
  }

  lemma SpacedPeriodShape()
    ensures Tidy("A . B") && ToUpper("A . B") == "A . B"
  {
    var s := "A . B";
    assert forall k :: 0 <= k < |s| ==> UpperChar(s[k]) == s[k];
  }

  lemma SpacedPeriodRetain()
    ensures Retain("A . B", NotPeriod) == "A  B"
  {
    assert "A . B" == "A " + ("." + " B");
    assert "A  B" == "A " + " B";
    RetainDropsOnePeriod("A ", " B");
  }

  /** Filtering drops the one period between two period-free strings. */
  lemma RetainDropsOnePeriod(a: string, b: string)
    requires forall k :: 0 <= k < |a| ==> NotPeriod(a[k])
    requires forall k :: 0 <= k < |b| ==> NotPeriod(b[k])
    ensures Retain(a + ("." + b), NotPeriod) == a + b
  {
    RetainAppend(a, "." + b, NotPeriod);
    RetainAll(a, NotPeriod);
    RetainAll(b, NotPeriod);
    var rest := "." + b;
    assert rest[0] == '.' && rest[1..] == b;
    assert Retain(rest, NotPeriod) == Retain(b, NotPeriod);
  }

  lemma DoubleSpaceNormalizes()
    ensures NormalizeForMatching("A  B") == "A B"
  {
    DoubleSpaceStages();
    NormalizeStages("A  B", "A  B", "A  B", "A B");
  }

  lemma DoubleSpaceStages()
    ensures ToUpper("A  B") == "A  B" && Trim("A  B") == "A  B"
    ensures ReplaceSpaceRuns("A  B", ' ') == "A B" && Retain("A B", NotPeriod) == "A B"
  {
    DoubleSpaceUpper();
    DoubleSpaceTrim();
    DoubleSpaceCollapses();
    SingleSpaceRetained();
  }

  lemma SingleSpaceRetained()
    ensures Retain("A B", NotPeriod) == "A B"
  {
    RetainAll("A B", NotPeriod);
  }

  lemma DoubleSpaceUpper()
    ensures ToUpper("A  B") == "A  B"
  {
    var s := "A  B";
    assert forall k :: 0 <= k < |s| ==> UpperChar(s[k]) == s[k];
  }

  lemma DoubleSpaceTrim()
    ensures Trim("A  B") == "A  B"
  {
    var s := "A  B";
    assert s[0] == 'A' && s[|s| - 1] == 'B';
    TrimmedUnchanged(s);
  }

  lemma DoubleSpaceCollapses()
    ensures ReplaceSpaceRuns("A  B", ' ') == "A B"
  {
    DoubleSpaceBetween('A', 'B');
  }

  /** Two spaces between two other characters collapse to one. */
  lemma DoubleSpaceBetween(a: char, b: char)
    requires !IsSpace(a) && !IsSpace(b)
    ensures ReplaceSpaceRuns([a, ' ', ' ', b], ' ') == [a, ' ', b]
  {
    var s, t, u := [a, ' ', ' ', b], [' ', ' ', b], [b];
    assert s[1..] == t && t[1..] == [' '] + u && u[1..] == [];
    CollapseKeep(s, ' ');
    CollapseRun(t, ' ');
    TwoSpacesTrimmed(t, u);
    CollapseKeep(u, ' ');
    assert ReplaceSpaceRuns(u[1..], ' ') == [];
  }

  lemma TwoSpacesTrimmed(t: string, u: string)
    requires t != [] && t[0] == ' ' && t[1..] == [' '] + u
    requires u != [] && !IsSpace(u[0])
    ensures TrimStart(t) == u
  {
    assert TrimStart(t) == TrimStart(t[1..]);
    assert ([' '] + u)[1..] == u;
  }

  /** A character that is not whitespace is copied by `ReplaceSpaceRuns`. */
  lemma CollapseKeep(s: string, sep: char)
    requires s != [] && !IsSpace(s[0])
    ensures ReplaceSpaceRuns(s, sep) == [s[0]] + ReplaceSpaceRuns(s[1..], sep)
  {
  }

  /** A run of whitespace becomes one separator. */
  lemma CollapseRun(s: string, sep: char)
    requires s != [] && IsSpace(s[0])
    ensures ReplaceSpaceRuns(s, sep) == [sep] + ReplaceSpaceRuns(TrimStart(s), sep)
  {
  }
}
