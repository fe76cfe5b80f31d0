/**
 * `composables/useGeoJson.ts`: province names and ids for the map's features. Each feature's
 * properties gain a `normalizedName`, taken from the first non-empty of four name properties
 * and trimmed, and a `normalizedId`, the slug of that name; features are then looked up by id.
 */
module GeoJson {
  import opened Wrappers
  import opened Ascii
  import opened Seqs

  /**
   * A feature's properties: the four spellings of the name property the data sets use, the two
   * properties normalisation adds, and every other property (`kode`, `id`, …) by key.
   */
  datatype Properties = Properties(
    propinsiTitle: Option<string>,   // `Propinsi`
    propinsiUpper: Option<string>,   // `PROVINSI`
    propinsiLower: Option<string>,   // `provinsi`
    name: Option<string>,
    normalizedName: Option<string>,
    normalizedId: Option<string>,
    others: map<string, string>)

  datatype Geometry = Geometry(kind: string, coordinates: seq<seq<seq<real>>>)

  datatype Feature = Feature(properties: Properties, geometry: Geometry)

  /** A JavaScript string is truthy when it is present and not empty. */
  predicate Truthy(s: Option<string>) {
    s.Some? && s.value != ""
  }

  /** `a || b` on optional strings. */
  function Or(a: Option<string>, b: Option<string>): (r: Option<string>)
    ensures Truthy(a) ==> r == a
    ensures !Truthy(a) ==> r == b
  {
    if Truthy(a) then a else b
  }

  /**
   * `getProvinceName`: the first truthy name property in the order `Propinsi`, `PROVINSI`,
   * `provinsi`, `name`, or `''`, trimmed.
   */
  function GetProvinceName(p: Properties): (r: string)
    ensures r == [] || (!IsSpace(r[0]) && !IsSpace(r[|r| - 1]))
    ensures Truthy(p.propinsiTitle) ==> r == Trim(p.propinsiTitle.value)
    ensures !Truthy(p.propinsiTitle) && Truthy(p.propinsiUpper) ==> r == Trim(p.propinsiUpper.value)
    ensures !Truthy(p.propinsiTitle) && !Truthy(p.propinsiUpper) && Truthy(p.propinsiLower) ==>
      r == Trim(p.propinsiLower.value)
    ensures !Truthy(p.propinsiTitle) && !Truthy(p.propinsiUpper) && !Truthy(p.propinsiLower) ==>
      r == (if Truthy(p.name) then Trim(p.name.value) else "")
  {
    Trim(Or(Or(Or(Or(p.propinsiTitle, p.propinsiUpper), p.propinsiLower), p.name), Some("")).value)
  }

  /** A `Propinsi` of blanks is truthy, so it wins over a proper `PROVINSI` and yields `''`. */
  lemma BlankPropinsiWins(p: Properties)
    requires p.propinsiTitle == Some(" ") && p.propinsiUpper == Some("ACEH")
    ensures GetProvinceName(p) == ""
  {
  }

  /** The characters a slug keeps: lower-case letters, digits and the hyphen. */
  predicate SlugChar(c: char) {
    IsLower(c) || IsDigit(c) || c == '-'
  }

  /**
   * `generateProvinceId`: lower-case, turn every whitespace run into one hyphen, then drop every
   * character that is not a lower-case letter, a digit or a hyphen.
   */
  function GenerateProvinceId(name: string): (r: string)
    ensures |r| <= |name|
    ensures forall i :: 0 <= i < |r| ==> SlugChar(r[i])
  {
    Retain(ReplaceSpaceRuns(ToLower(name), '-'), SlugChar)
  }

  predicate LowerOrDigit(c: char) { IsLower(c) || IsDigit(c) }

  predicate NotHyphen(c: char) { c != '-' }

  /**
   * Without its hyphens, a slug is exactly the lower-case letters and digits of the lower-cased
   * name, in order: nothing else survives and none of them is lost.
   */
  lemma SlugKeepsLettersDigits(name: string)
    ensures Retain(GenerateProvinceId(name), NotHyphen) == Retain(ToLower(name), LowerOrDigit)
  {
    var lower := ToLower(name);
    var hyphened := ReplaceSpaceRuns(lower, '-');
    RetainAgree(GenerateProvinceId(name), NotHyphen, LowerOrDigit);
    RetainRetain(hyphened, SlugChar, LowerOrDigit, LowerOrDigit);
    assert DropsSpace(LowerOrDigit);
    RetainSpaceRuns(lower, '-', LowerOrDigit);
  }

  /**
   * A maximal whitespace run between two parts of a name becomes exactly one hyphen, and each
   * part is slugged on its own.
   */
  lemma SlugJoin(a: string, w: string, b: string)
    requires a == [] || !IsSpace(a[|a| - 1])
    requires w != [] && forall k :: 0 <= k < |w| ==> IsSpace(w[k])
    requires b == [] || !IsSpace(b[0])
    ensures GenerateProvinceId(a + w + b) == GenerateProvinceId(a) + "-" + GenerateProvinceId(b)
  {
    var la, lw, lb := ToLower(a), ToLower(w), ToLower(b);
    LowerAppend(a, w);
    LowerAppend(a + w, b);
    assert ToLower(a + w + b) == la + lw + lb;
    assert forall k :: 0 <= k < |lw| ==> IsSpace(lw[k]);
    assert la == [] || !IsSpace(la[|la| - 1]);
    SpaceRunJoin(la, lw, lb, '-');
    RetainAround(ReplaceSpaceRuns(la, '-'), '-', ReplaceSpaceRuns(lb, '-'), SlugChar);
  }

  /** Lower-casing leaves a string without upper-case letters unchanged. */
  lemma {:induction false} LowerUnchanged(s: string)
    requires forall i :: 0 <= i < |s| ==> !IsUpper(s[i])
    ensures ToLower(s) == s
  {
    if s != [] {
      LowerUnchanged(s[1..]);
    }
  }

  /** Collapsing whitespace runs leaves a string without whitespace unchanged. */
  lemma {:induction false} NoSpaceUnchanged(s: string, sep: char)
    requires forall i :: 0 <= i < |s| ==> !IsSpace(s[i])
    ensures ReplaceSpaceRuns(s, sep) == s
    decreases |s|
  {
    if s != [] {
      NoSpaceUnchanged(s[1..], sep);
    }
  }

  /** A slug is its own slug. */
  lemma SlugIdempotent(name: string)
    ensures GenerateProvinceId(GenerateProvinceId(name)) == GenerateProvinceId(name)
  {
    var s := GenerateProvinceId(name);
    LowerUnchanged(s);
    NoSpaceUnchanged(s, '-');
    RetainAll(s, SlugChar);
  }

  /** Lower-casing character by character. */
  lemma LowerTo(s: string, t: string)
    requires |s| == |t| && forall i :: 0 <= i < |s| ==> LowerChar(s[i]) == t[i]
    ensures ToLower(s) == t
  {
  }

  /** The three stages of the slug, taken one at a time. */
  lemma SlugStages(name: string, lower: string, hyphened: string, slug: string)
    requires ToLower(name) == lower
    requires ReplaceSpaceRuns(lower, '-') == hyphened
    requires Retain(hyphened, SlugChar) == slug
    ensures GenerateProvinceId(name) == slug
  {
  }

  /** Two words joined by one space are joined by one hyphen. */
  lemma TwoWords(a: string, b: string)
    requires forall i :: 0 <= i < |a| ==> !IsSpace(a[i])
    requires forall i :: 0 <= i < |b| ==> !IsSpace(b[i])
    requires b != []
    ensures ReplaceSpaceRuns(a + " " + b, '-') == a + "-" + b
  {
    SingleSpaceWords(a, b);
    NoSpaceUnchanged(a, '-');
    NoSpaceUnchanged(b, '-');
  }

  /** `"DKI JAKARTA"` becomes `"dki-jakarta"`. */
  lemma SlugOfDkiJakarta()
    ensures GenerateProvinceId("DKI JAKARTA") == "dki-jakarta"
  {
    DkiLower();
    DkiHyphen();
    DkiRetain();
    SlugStages("DKI JAKARTA", "dki jakarta", "dki-jakarta", "dki-jakarta");
  }

  lemma DkiLower()
    ensures ToLower("DKI JAKARTA") == "dki jakarta"
  {
    LowerTo("DKI JAKARTA", "dki jakarta");
  }

  lemma DkiHyphen()
    ensures ReplaceSpaceRuns("dki jakarta", '-') == "dki-jakarta"
  {
    DkiWords();
    TwoWords("dki", "jakarta");
  }

  lemma DkiWords()
    ensures "dki jakarta" == "dki" + " " + "jakarta"
    ensures "dki" + "-" + "jakarta" == "dki-jakarta"
  {
  }

  lemma DkiRetain()
    ensures Retain("dki-jakarta", SlugChar) == "dki-jakarta"
  {
    SlugOfSlug("dki-jakarta");
  }

  /** A string of slug characters passes the final filter untouched. */
  lemma SlugOfSlug(s: string)
    requires forall i :: 0 <= i < |s| ==> SlugChar(s[i])
    ensures Retain(s, SlugChar) == s
  {
    RetainAll(s, SlugChar);
  }

  /** Periods are dropped: `"D.I. Yogyakarta"` becomes `"di-yogyakarta"`. */
  lemma SlugOfYogyakarta()
    ensures GenerateProvinceId("D.I. Yogyakarta") == "di-yogyakarta"
  {
    YogyakartaLower();
    YogyakartaHyphen();
    YogyakartaRetain();
    SlugStages("D.I. Yogyakarta", "d.i. yogyakarta", "d.i.-yogyakarta", "di-yogyakarta");
  }

  lemma YogyakartaLower()
    ensures ToLower("D.I. Yogyakarta") == "d.i. yogyakarta"
  {
    LowerTo("D.I. Yogyakarta", "d.i. yogyakarta");
  }

  lemma YogyakartaHyphen()
    ensures ReplaceSpaceRuns("d.i. yogyakarta", '-') == "d.i.-yogyakarta"
  {
    YogyakartaWords();
    TwoWords("d.i.", "yogyakarta");
  }

  lemma YogyakartaWords()
    ensures "d.i. yogyakarta" == "d.i." + " " + "yogyakarta"
    ensures "d.i." + "-" + "yogyakarta" == "d.i.-yogyakarta"
  {
  }

  lemma YogyakartaRetain()
    ensures Retain("d.i.-yogyakarta", SlugChar) == "di-yogyakarta"
  {
    YogyakartaSplit();
    DropInitialPeriods('d', 'i', "-yogyakarta", SlugChar);
  }

  lemma YogyakartaSplit()
    ensures "d.i.-yogyakarta" == ['d', '.', 'i', '.'] + "-yogyakarta"
    ensures "di-yogyakarta" == ['d', 'i'] + "-yogyakarta"
    ensures forall k :: 0 <= k < |"-yogyakarta"| ==> SlugChar("-yogyakarta"[k])
  {
  }

  /**
   * The slug of `"Kepulauan Bangka Belitung"` keeps all three words, so it differs from the
   * wage table's id `"bangka-belitung"` for the same province.
   */
  lemma SlugOfBangkaBelitung()
    ensures GenerateProvinceId("Kepulauan Bangka Belitung") == "kepulauan-bangka-belitung"
    ensures GenerateProvinceId("Kepulauan Bangka Belitung") != "bangka-belitung"
  {
    BangkaLower();
    BangkaHyphen();
    BangkaRetain();
    SlugStages("Kepulauan Bangka Belitung", "kepulauan bangka belitung",
      "kepulauan-bangka-belitung", "kepulauan-bangka-belitung");
  }

  lemma BangkaLower()
    ensures ToLower("Kepulauan Bangka Belitung") == "kepulauan bangka belitung"
  {
    LowerTo("Kepulauan Bangka Belitung", "kepulauan bangka belitung");
  }

  lemma BangkaHyphen()
    ensures ReplaceSpaceRuns("kepulauan bangka belitung", '-') == "kepulauan-bangka-belitung"
  {
    BangkaSplit();
    BangkaBelitungHyphen();
    JoinWord("kepulauan", "bangka belitung", "bangka-belitung");
  }

  lemma BangkaSplit()
    ensures "kepulauan bangka belitung" == "kepulauan" + " " + "bangka belitung"
    ensures "kepulauan-bangka-belitung" == "kepulauan" + "-" + "bangka-belitung"
    ensures forall k :: 0 <= k < |"kepulauan"| ==> !IsSpace("kepulauan"[k])
  {
  }

  /** A word, one space and a rest whose own hyphenation is known. */
  lemma JoinWord(a: string, b: string, rb: string)
    requires forall i :: 0 <= i < |a| ==> !IsSpace(a[i])
    requires b != [] && !IsSpace(b[0]) && ReplaceSpaceRuns(b, '-') == rb
    ensures ReplaceSpaceRuns(a + " " + b, '-') == a + "-" + rb
  {
    SingleSpaceWords(a, b);
    NoSpaceUnchanged(a, '-');
  }

  lemma BangkaBelitungHyphen()
    ensures ReplaceSpaceRuns("bangka belitung", '-') == "bangka-belitung"
  {
    BangkaBelitungWords();
    TwoWords("bangka", "belitung");
  }

  lemma BangkaBelitungWords()
    ensures "bangka belitung" == "bangka" + " " + "belitung"
    ensures "bangka" + "-" + "belitung" == "bangka-belitung"
  {
  }

  lemma BangkaRetain()
    ensures Retain("kepulauan-bangka-belitung", SlugChar) == "kepulauan-bangka-belitung"
  {
    SlugOfSlug("kepulauan-bangka-belitung");
  }

  /** A word followed by one space: the space becomes the separator. */
  lemma SingleSpaceWords(w: string, rest: string)
    requires forall i :: 0 <= i < |w| ==> !IsSpace(w[i])
    requires rest != [] && !IsSpace(rest[0])
    ensures ReplaceSpaceRuns(w + " " + rest, '-') == ReplaceSpaceRuns(w, '-') + "-" + ReplaceSpaceRuns(rest, '-')
  {
    assert w == [] || !IsSpace(w[|w| - 1]);
    SpaceRunJoin(w, " ", rest, '-');
  }

  // ----- features -----

  /** The properties after normalisation: the old ones, plus the name and its slug. */
  function NormalizeProperties(p: Properties): (q: Properties)
    ensures q.propinsiTitle == p.propinsiTitle && q.propinsiUpper == p.propinsiUpper
    ensures q.propinsiLower == p.propinsiLower && q.name == p.name && q.others == p.others
    ensures q.normalizedName == Some(GetProvinceName(p))
    ensures q.normalizedId == Some(GenerateProvinceId(GetProvinceName(p)))
  {
    var name := GetProvinceName(p);
    p.(normalizedName := Some(name), normalizedId := Some(GenerateProvinceId(name)))
  }

  /** The `map` over the features in `fetchGeoJson`. */
  function NormalizeFeatures(features: seq<Feature>): (r: seq<Feature>)
    ensures |r| == |features|
    ensures forall i :: 0 <= i < |r| ==>
      r[i].geometry == features[i].geometry && r[i].properties == NormalizeProperties(features[i].properties)
  {
    seq(|features|, i requires 0 <= i < |features| =>
      Feature(NormalizeProperties(features[i].properties), features[i].geometry))
  }

  /** Normalising twice gives the same features as normalising once. */
  lemma NormalizeTwice(features: seq<Feature>)
    ensures NormalizeFeatures(NormalizeFeatures(features)) == NormalizeFeatures(features)
  {
    var once := NormalizeFeatures(features);
    var twice := NormalizeFeatures(once);
    forall i | 0 <= i < |once| ensures twice[i] == once[i] {
      assert GetProvinceName(once[i].properties) == GetProvinceName(features[i].properties);
    }
  }

  /** The non-empty normalised names, in feature order. */
  function NonEmptyNames(features: seq<Feature>): (r: seq<string>)
    ensures |r| <= |features|
    ensures forall n :: n in r <==>
      exists i :: 0 <= i < |features| && Truthy(features[i].properties.normalizedName)
                  && features[i].properties.normalizedName.value == n
  {
    if features == [] then []
    else
      var rest := NonEmptyNames(features[1..]);
      assert forall i :: 0 < i < |features| ==> features[i] == features[1..][i - 1];
      var head := features[0].properties.normalizedName;
      if Truthy(head) then [head.value] + rest else rest
  }

  /** A feature contributes its normalised name exactly when that name is non-empty. */
  lemma NonEmptyNamesOne(f: Feature)
    ensures NonEmptyNames([f]) ==
      if Truthy(f.properties.normalizedName) then [f.properties.normalizedName.value] else []
  {
    assert [f][1..] == [];
  }

  /** The names of two runs of features are the names of the first run followed by the second's. */
  lemma {:induction false} NonEmptyNamesAppend(a: seq<Feature>, b: seq<Feature>)
    ensures NonEmptyNames(a + b) == NonEmptyNames(a) + NonEmptyNames(b)
  {
    if a == [] {
      assert a + b == b;
    } else {
      assert (a + b)[0] == a[0];
      assert (a + b)[1..] == a[1..] + b;
      NonEmptyNamesAppend(a[1..], b);
    }
  }

  /** The composable's loaded map data; loading flags and error text are not modelled. */
  class GeoJsonStore {
    var geoJsonData: Option<seq<Feature>>

    constructor()
      ensures geoJsonData == None
    {
      geoJsonData := None;
    }

    /** `fetchGeoJson`, given the features the request returned: normalise them and keep them. */
    method FetchGeoJson(fetched: seq<Feature>) returns (data: seq<Feature>)
      modifies this
      ensures data == NormalizeFeatures(fetched)
      ensures geoJsonData == Some(data)
    {
      data := NormalizeFeatures(fetched);
      geoJsonData := Some(data);
    }

    /** `getFeatureById`: nothing before loading, else the first feature with that normalised id. */
    function GetFeatureById(id: string): (r: Option<Feature>)
      reads this
      ensures geoJsonData.None? ==> r.None?
      ensures r.Some? ==> exists i :: IsFirst(geoJsonData.value, (f: Feature) => f.properties.normalizedId == Some(id), i)
                                      && geoJsonData.value[i] == r.value
      ensures geoJsonData.Some? && r.None? ==>
        forall i :: 0 <= i < |geoJsonData.value| ==> geoJsonData.value[i].properties.normalizedId != Some(id)
    {
      match geoJsonData
      case None => None
      case Some(features) =>
        match Find(features, (f: Feature) => f.properties.normalizedId == Some(id))
        case None => None
        case Some(i) => Some(features[i])
    }

    /** `getAllProvinceNames`: nothing before loading, else the non-empty normalised names. */
    function GetAllProvinceNames(): (r: seq<string>)
      reads this
      ensures geoJsonData.None? ==> r == []
      ensures forall n :: n in r ==> n != ""
      ensures geoJsonData.Some? ==> r == NonEmptyNames(geoJsonData.value)
    {
      match geoJsonData
      case None => []
      case Some(features) => NonEmptyNames(features)
    }
  }

  /** After loading, every feature can be found again under the slug of its own name. */
  lemma LoadedFeatureFound(store: GeoJsonStore, fetched: seq<Feature>, k: int)
    requires store.geoJsonData == Some(NormalizeFeatures(fetched)) && 0 <= k < |fetched|
    ensures var id := GenerateProvinceId(GetProvinceName(fetched[k].properties));
      store.GetFeatureById(id).Some? &&
      store.GetFeatureById(id).value.properties.normalizedId == Some(id)
  {
    var features := NormalizeFeatures(fetched);
    var id := GenerateProvinceId(GetProvinceName(fetched[k].properties));
    assert features[k].properties.normalizedId == Some(id);
  }

  /** After loading, the province names are the non-empty names of the fetched features. */
  lemma LoadedNames(store: GeoJsonStore, fetched: seq<Feature>, n: string)
    requires store.geoJsonData == Some(NormalizeFeatures(fetched))
    ensures n in store.GetAllProvinceNames() <==>
      n != "" && exists k :: 0 <= k < |fetched| && GetProvinceName(fetched[k].properties) == n
  {
    assert store.GetAllProvinceNames() == NonEmptyNames(NormalizeFeatures(fetched));
    if n in NonEmptyNames(NormalizeFeatures(fetched)) {
      var k := NameWitness(NormalizeFeatures(fetched), n);
      assert NormalizeProperties(fetched[k].properties).normalizedName == Some(n);
    }
    if n != "" && exists k :: 0 <= k < |fetched| && GetProvinceName(fetched[k].properties) == n {
      var k :| 0 <= k < |fetched| && GetProvinceName(fetched[k].properties) == n;
      NormalizedNameKept(fetched, n, k);
    }
  }

  /** The position of a feature that carries a listed name. */
  lemma NameWitness(features: seq<Feature>, n: string) returns (k: int)
    requires n in NonEmptyNames(features)
    ensures 0 <= k < |features| && features[k].properties.normalizedName == Some(n) && n != ""
  {
    k :| 0 <= k < |features| && Truthy(features[k].properties.normalizedName)
         && features[k].properties.normalizedName.value == n;
  }

  /** The non-empty name of any fetched feature is listed. */
  lemma NormalizedNameKept(fetched: seq<Feature>, n: string, k: int)
    requires 0 <= k < |fetched| && n != "" && GetProvinceName(fetched[k].properties) == n
    ensures n in NonEmptyNames(NormalizeFeatures(fetched))
  {
    var features := NormalizeFeatures(fetched);
    assert features[k].properties.normalizedName == Some(n);
    assert Truthy(features[k].properties.normalizedName);
  }
}
