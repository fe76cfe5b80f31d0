/**
 * Facts about the shipped table `UMP_DATA` of utils/constants.ts: it is well formed, `UMP_MAP`
 * indexes it, and the resolver maps every name and every alias of an entry back to that entry.
 * The per-entry lemmas compute the normalised form of one table string each; the summary
 * lemmas `NameAt` and `AliasAt` collect them.
 */
module UmpTable {
  import opened Wrappers
  import opened Ascii
  import opened Types
  import opened Constants

  /** The ids of the table, in table order. */
  ghost const Ids: seq<string> := [
      "aceh",
      "sumatera-utara",
      "sumatera-barat",
      "riau",
      "jambi",
      "sumatera-selatan",
      "bengkulu",
      "lampung",
      "bangka-belitung",
      "kepulauan-riau",
      "dki-jakarta",
      "jawa-barat",
      "jawa-tengah",
      "di-yogyakarta",
      "jawa-timur",
      "banten",
      "bali",
      "nusa-tenggara-barat",
      "nusa-tenggara-timur",
      "kalimantan-barat",
      "kalimantan-tengah",
      "kalimantan-selatan",
      "kalimantan-timur",
      "kalimantan-utara",
      "sulawesi-utara",
      "sulawesi-tengah",
      "sulawesi-selatan",
      "sulawesi-tenggara",
      "gorontalo",
      "sulawesi-barat",
      "maluku",
      "maluku-utara",
      "papua-barat",
      "papua",
      "papua-tengah",
      "papua-pegunungan",
      "papua-selatan",
      "papua-barat-daya"
    ]

  /** The UMP of every entry, in table order. */
  ghost const Umps: seq<real> := [3413666.0, 2809915.0, 2742476.0, 3191662.0, 2943000.0, 3456874.0, 2507079.0, 2633284.0, 3498479.0, 3402492.0, 5067381.0, 2057495.0, 2035807.0, 2125898.0, 2040244.0, 2727514.0, 2971250.0, 2444067.0, 2123994.0, 2702616.0, 3181013.0, 3268612.0, 3360449.0, 3466653.0, 3485000.0, 2599546.0, 3385145.0, 2758984.0, 2989350.0, 2879135.0, 2812827.0, 2976720.0, 3282000.0, 3864696.0, 3516700.0, 3501874.0, 3300000.0, 3282000.0]

  /** The normalised form of every table name, in table order. */
  ghost const NormalizedNames: seq<string> := [
      "ACEH",
      "SUMATERA UTARA",
      "SUMATERA BARAT",
      "RIAU",
      "JAMBI",
      "SUMATERA SELATAN",
      "BENGKULU",
      "LAMPUNG",
      "KEPULAUAN BANGKA BELITUNG",
      "KEPULAUAN RIAU",
      "DKI JAKARTA",
      "JAWA BARAT",
      "JAWA TENGAH",
      "DI YOGYAKARTA",
      "JAWA TIMUR",
      "BANTEN",
      "BALI",
      "NUSA TENGGARA BARAT",
      "NUSA TENGGARA TIMUR",
      "KALIMANTAN BARAT",
      "KALIMANTAN TENGAH",
      "KALIMANTAN SELATAN",
      "KALIMANTAN TIMUR",
      "KALIMANTAN UTARA",
      "SULAWESI UTARA",
      "SULAWESI TENGAH",
      "SULAWESI SELATAN",
      "SULAWESI TENGGARA",
      "GORONTALO",
      "SULAWESI BARAT",
      "MALUKU",
      "MALUKU UTARA",
      "PAPUA BARAT",
      "PAPUA",
      "PAPUA TENGAH",
      "PAPUA PEGUNUNGAN",
      "PAPUA SELATAN",
      "PAPUA BARAT DAYA"
    ]

  /** The normalised form of every table alias, entry by entry. */
  ghost const NormalizedAliases: seq<seq<string>> := [
      ["ACEH", "NAD", "NANGGROE ACEH DARUSSALAM"],
      ["SUMATERA UTARA", "SUMUT"],
      ["SUMATERA BARAT", "SUMBAR"],
      ["RIAU"],
      ["JAMBI"],
      ["SUMATERA SELATAN", "SUMSEL"],
      ["BENGKULU"],
      ["LAMPUNG"],
      ["KEPULAUAN BANGKA BELITUNG", "BABEL", "BANGKA BELITUNG"],
      ["KEPULAUAN RIAU", "KEPRI"],
      ["DKI JAKARTA", "JAKARTA"],
      ["JAWA BARAT", "JABAR"],
      ["JAWA TENGAH", "JATENG"],
      ["DI YOGYAKARTA", "DIY", "YOGYAKARTA", "DI YOGYAKARTA"],
      ["JAWA TIMUR", "JATIM"],
      ["BANTEN"],
      ["BALI"],
      ["NUSA TENGGARA BARAT", "NTB"],
      ["NUSA TENGGARA TIMUR", "NTT"],
      ["KALIMANTAN BARAT", "KALBAR"],
      ["KALIMANTAN TENGAH", "KALTENG"],
      ["KALIMANTAN SELATAN", "KALSEL"],
      ["KALIMANTAN TIMUR", "KALTIM"],
      ["KALIMANTAN UTARA", "KALTARA"],
      ["SULAWESI UTARA", "SULUT"],
      ["SULAWESI TENGAH", "SULTENG"],
      ["SULAWESI SELATAN", "SULSEL"],
      ["SULAWESI TENGGARA", "SULTRA"],
      ["GORONTALO"],
      ["SULAWESI BARAT", "SULBAR"],
      ["MALUKU"],
      ["MALUKU UTARA", "MALUT"],
      ["PAPUA BARAT"],
      ["PAPUA"],
      ["PAPUA TENGAH"],
      ["PAPUA PEGUNUNGAN"],
      ["PAPUA SELATAN"],
      ["PAPUA BARAT DAYA"]
    ]

  /** Periods go only after whitespace is tidied: `"D.I. YOGYAKARTA"` normalises to `"DI YOGYAKARTA"`. */
  lemma DottedYogyakarta()
    ensures NormalizeForMatching("D.I. YOGYAKARTA") == "DI YOGYAKARTA"
  {
    DottedTidy();
    DottedUpper();
    NormalizeTidy("D.I. YOGYAKARTA");
    DottedRetain();
  }

  lemma DottedTidy()
    ensures Tidy("D.I. YOGYAKARTA")
  {
  }

  lemma DottedUpper()
    ensures ToUpper("D.I. YOGYAKARTA") == "D.I. YOGYAKARTA"
  {
    var s := "D.I. YOGYAKARTA";
    assert forall k :: 0 <= k < |s| ==> UpperChar(s[k]) == s[k];
    UpperOfEach(s, s);
  }

  lemma DottedRetain()
    ensures Retain("D.I. YOGYAKARTA", NotPeriod) == "DI YOGYAKARTA"
  {
    DottedSplit();
    DropInitialPeriods('D', 'I', " YOGYAKARTA", NotPeriod);
  }

  lemma DottedSplit()
    ensures "D.I. YOGYAKARTA" == ['D', '.', 'I', '.'] + " YOGYAKARTA"
    ensures "DI YOGYAKARTA" == ['D', 'I'] + " YOGYAKARTA"
    ensures forall k :: 0 <= k < |" YOGYAKARTA"| ==> NotPeriod(" YOGYAKARTA"[k])
  {
  }

  lemma TableIds()
    ensures |UmpData| == |Ids| == 38
    ensures forall i :: 0 <= i < |UmpData| ==> UmpData[i].id == Ids[i]
  {
    TableIdsBelow19();
    TableIdsFrom19();
  }

  lemma TableIdsBelow19()
    ensures |UmpData| == |Ids| == 38
    ensures forall i :: 0 <= i < 19 ==> UmpData[i].id == Ids[i]
  {
  }

  lemma TableIdsFrom19()
    ensures |UmpData| == |Ids| == 38
    ensures forall i :: 19 <= i < 38 ==> UmpData[i].id == Ids[i]
  {
  }

  lemma TableUmps()
    ensures |UmpData| == |Umps| == 38
    ensures forall i :: 0 <= i < |UmpData| ==> UmpData[i].ump == Umps[i]
  {
  }

  lemma IdsDistinct()
    ensures forall i, j :: 0 <= i < j < |Ids| ==> Ids[i] != Ids[j]
  {
    forall i, j | 0 <= i < j < |Ids| ensures Ids[i] != Ids[j] {
      IdOnce(i);
    }
  }

  lemma UmpsPositive()
    ensures forall i :: 0 <= i < |Umps| ==> Umps[i] > 0.0
  {
  }

  /** `UMP_DATA` has 38 entries, every UMP is positive and no two entries share an id. */
  lemma TableWellFormed()
    ensures |UmpData| == 38
    ensures forall i :: 0 <= i < |UmpData| ==> UmpData[i].ump > 0.0
    ensures forall i, j :: 0 <= i < j < |UmpData| ==> UmpData[i].id != UmpData[j].id
  {
    TableIds();
    TableUmps();
    IdsDistinct();
    UmpsPositive();
  }

  /** `UMP_MAP` has exactly the table's ids as keys and files each entry under its own id. */
  lemma UmpMapIsTable()
    ensures UmpMap.Keys == IdSet(UmpData)
    ensures forall i :: 0 <= i < |UmpData| ==> UmpData[i].id in UmpMap && UmpMap[UmpData[i].id] == UmpData[i]
  {
    TableWellFormed();
    forall i | 0 <= i < |UmpData| ensures UmpData[i].id in UmpMap && UmpMap[UmpData[i].id] == UmpData[i] {
      IndexByIdLastWins(UmpData, i);
    }
  }

  lemma Name0()
    ensures NormalizeForMatching(UmpData[0].name) == NormalizedNames[0]
  {
    NameText0();
    NameForm0();
  }

  lemma NameText0()
    ensures UmpData[0].name == "Aceh" && NormalizedNames[0] == "ACEH"
  {
  }

  lemma NameForm0()
    ensures NormalizeForMatching("Aceh") == "ACEH"
  {
    NormalizesByChars("Aceh", "ACEH");
  }

  lemma Name1()
    ensures NormalizeForMatching(UmpData[1].name) == NormalizedNames[1]
  {
    NameText1();
    NameForm1();
  }

  lemma NameText1()
    ensures UmpData[1].name == "Sumatera Utara" && NormalizedNames[1] == "SUMATERA UTARA"
  {
  }

  lemma NameForm1()
    ensures NormalizeForMatching("Sumatera Utara") == "SUMATERA UTARA"
  {
    NormalizesByChars("Sumatera Utara", "SUMATERA UTARA");
  }

  lemma Name2()
    ensures NormalizeForMatching(UmpData[2].name) == NormalizedNames[2]
  {
    NameText2();
    NameForm2();
  }

  lemma NameText2()
    ensures UmpData[2].name == "Sumatera Barat" && NormalizedNames[2] == "SUMATERA BARAT"
  {
  }

  lemma NameForm2()
    ensures NormalizeForMatching("Sumatera Barat") == "SUMATERA BARAT"
  {
    NormalizesByChars("Sumatera Barat", "SUMATERA BARAT");
  }

  lemma Name3()
    ensures NormalizeForMatching(UmpData[3].name) == NormalizedNames[3]
  {
    NameText3();
    NameForm3();
  }

  lemma NameText3()
    ensures UmpData[3].name == "Riau" && NormalizedNames[3] == "RIAU"
  {
  }

  lemma NameForm3()
    ensures NormalizeForMatching("Riau") == "RIAU"
  {
    NormalizesByChars("Riau", "RIAU");
  }

  lemma Name4()
    ensures NormalizeForMatching(UmpData[4].name) == NormalizedNames[4]
  {
    NameText4();
    NameForm4();
  }

  lemma NameText4()
    ensures UmpData[4].name == "Jambi" && NormalizedNames[4] == "JAMBI"
  {
  }

  lemma NameForm4()
    ensures NormalizeForMatching("Jambi") == "JAMBI"
  {
    NormalizesByChars("Jambi", "JAMBI");
  }

  lemma Name5()
    ensures NormalizeForMatching(UmpData[5].name) == NormalizedNames[5]
  {
    NameText5();
    NameForm5();
  }

  lemma NameText5()
    ensures UmpData[5].name == "Sumatera Selatan" && NormalizedNames[5] == "SUMATERA SELATAN"
  {
  }

  lemma NameForm5()
    ensures NormalizeForMatching("Sumatera Selatan") == "SUMATERA SELATAN"
  {
    NormalizesByChars("Sumatera Selatan", "SUMATERA SELATAN");
  }

  lemma Name6()
    ensures NormalizeForMatching(UmpData[6].name) == NormalizedNames[6]
  {
    NameText6();
    NameForm6();
  }

  lemma NameText6()
    ensures UmpData[6].name == "Bengkulu" && NormalizedNames[6] == "BENGKULU"
  {
  }

  lemma NameForm6()
    ensures NormalizeForMatching("Bengkulu") == "BENGKULU"
  {
    NormalizesByChars("Bengkulu", "BENGKULU");
  }

  lemma Name7()
    ensures NormalizeForMatching(UmpData[7].name) == NormalizedNames[7]
  {
    NameText7();
    NameForm7();
  }

  lemma NameText7()
    ensures UmpData[7].name == "Lampung" && NormalizedNames[7] == "LAMPUNG"
  {
  }

  lemma NameForm7()
    ensures NormalizeForMatching("Lampung") == "LAMPUNG"
  {
    NormalizesByChars("Lampung", "LAMPUNG");
  }

  lemma Name8()
    ensures NormalizeForMatching(UmpData[8].name) == NormalizedNames[8]
  {
    NameText8();
    NameForm8();
  }

  lemma NameText8()
    ensures UmpData[8].name == "Kepulauan Bangka Belitung" && NormalizedNames[8] == "KEPULAUAN BANGKA BELITUNG"
  {
  }

  lemma NameForm8()
    ensures NormalizeForMatching("Kepulauan Bangka Belitung") == "KEPULAUAN BANGKA BELITUNG"
  {
    NormalizesByChars("Kepulauan Bangka Belitung", "KEPULAUAN BANGKA BELITUNG");
  }

  lemma Name9()
    ensures NormalizeForMatching(UmpData[9].name) == NormalizedNames[9]
  {
    NameText9();
    NameForm9();
  }

  lemma NameText9()
    ensures UmpData[9].name == "Kepulauan Riau" && NormalizedNames[9] == "KEPULAUAN RIAU"
  {
  }

  lemma NameForm9()
    ensures NormalizeForMatching("Kepulauan Riau") == "KEPULAUAN RIAU"
  {
    NormalizesByChars("Kepulauan Riau", "KEPULAUAN RIAU");
  }

  lemma Name10()
    ensures NormalizeForMatching(UmpData[10].name) == NormalizedNames[10]
  {
    NameText10();
    NameForm10();
  }

  lemma NameText10()
    ensures UmpData[10].name == "DKI Jakarta" && NormalizedNames[10] == "DKI JAKARTA"
  {
  }

  lemma NameForm10()
    ensures NormalizeForMatching("DKI Jakarta") == "DKI JAKARTA"
  {
    NormalizesByChars("DKI Jakarta", "DKI JAKARTA");
  }

  lemma Name11()
    ensures NormalizeForMatching(UmpData[11].name) == NormalizedNames[11]
  {
    NameText11();
    NameForm11();
  }

  lemma NameText11()
    ensures UmpData[11].name == "Jawa Barat" && NormalizedNames[11] == "JAWA BARAT"
  {
  }

  lemma NameForm11()
    ensures NormalizeForMatching("Jawa Barat") == "JAWA BARAT"
  {
    NormalizesByChars("Jawa Barat", "JAWA BARAT");
  }

  lemma Name12()
    ensures NormalizeForMatching(UmpData[12].name) == NormalizedNames[12]
  {
    NameText12();
    NameForm12();
  }

  lemma NameText12()
    ensures UmpData[12].name == "Jawa Tengah" && NormalizedNames[12] == "JAWA TENGAH"
  {
  }

  lemma NameForm12()
    ensures NormalizeForMatching("Jawa Tengah") == "JAWA TENGAH"
  {
    NormalizesByChars("Jawa Tengah", "JAWA TENGAH");
  }

  lemma Name13()
    ensures NormalizeForMatching(UmpData[13].name) == NormalizedNames[13]
  {
    NameText13();
    NameForm13();
  }

  lemma NameText13()
    ensures UmpData[13].name == "DI Yogyakarta" && NormalizedNames[13] == "DI YOGYAKARTA"
  {
  }

  lemma NameForm13()
    ensures NormalizeForMatching("DI Yogyakarta") == "DI YOGYAKARTA"
  {
    NormalizesByChars("DI Yogyakarta", "DI YOGYAKARTA");
  }

  lemma Name14()
    ensures NormalizeForMatching(UmpData[14].name) == NormalizedNames[14]
  {
    NameText14();
    NameForm14();
  }

  lemma NameText14()
    ensures UmpData[14].name == "Jawa Timur" && NormalizedNames[14] == "JAWA TIMUR"
  {
  }

  lemma NameForm14()
    ensures NormalizeForMatching("Jawa Timur") == "JAWA TIMUR"
  {
    NormalizesByChars("Jawa Timur", "JAWA TIMUR");
  }

  lemma Name15()
    ensures NormalizeForMatching(UmpData[15].name) == NormalizedNames[15]
  {
    NameText15();
    NameForm15();
  }

  lemma NameText15()
    ensures UmpData[15].name == "Banten" && NormalizedNames[15] == "BANTEN"
  {
  }

  lemma NameForm15()
    ensures NormalizeForMatching("Banten") == "BANTEN"
  {
    NormalizesByChars("Banten", "BANTEN");
  }

  lemma Name16()
    ensures NormalizeForMatching(UmpData[16].name) == NormalizedNames[16]
  {
    NameText16();
    NameForm16();
  }

  lemma NameText16()
    ensures UmpData[16].name == "Bali" && NormalizedNames[16] == "BALI"
  {
  }

  lemma NameForm16()
    ensures NormalizeForMatching("Bali") == "BALI"
  {
    NormalizesByChars("Bali", "BALI");
  }

  lemma Name17()
    ensures NormalizeForMatching(UmpData[17].name) == NormalizedNames[17]
  {
    NameText17();
    NameForm17();
  }

  lemma NameText17()
    ensures UmpData[17].name == "Nusa Tenggara Barat" && NormalizedNames[17] == "NUSA TENGGARA BARAT"
  {
  }

  lemma NameForm17()
    ensures NormalizeForMatching("Nusa Tenggara Barat") == "NUSA TENGGARA BARAT"
  {
    NormalizesByChars("Nusa Tenggara Barat", "NUSA TENGGARA BARAT");
  }

  lemma Name18()
    ensures NormalizeForMatching(UmpData[18].name) == NormalizedNames[18]
  {
    NameText18();
    NameForm18();
  }

  lemma NameText18()
    ensures UmpData[18].name == "Nusa Tenggara Timur" && NormalizedNames[18] == "NUSA TENGGARA TIMUR"
  {
  }

  lemma NameForm18()
    ensures NormalizeForMatching("Nusa Tenggara Timur") == "NUSA TENGGARA TIMUR"
  {
    NormalizesByChars("Nusa Tenggara Timur", "NUSA TENGGARA TIMUR");
  }

  lemma Name19()
    ensures NormalizeForMatching(UmpData[19].name) == NormalizedNames[19]
  {
    NameText19();
    NameForm19();
  }

  lemma NameText19()
    ensures UmpData[19].name == "Kalimantan Barat" && NormalizedNames[19] == "KALIMANTAN BARAT"
  {
  }

  lemma NameForm19()
    ensures NormalizeForMatching("Kalimantan Barat") == "KALIMANTAN BARAT"
  {
    NormalizesByChars("Kalimantan Barat", "KALIMANTAN BARAT");
  }

  lemma Name20()
    ensures NormalizeForMatching(UmpData[20].name) == NormalizedNames[20]
  {
    NameText20();
    NameForm20();
  }

  lemma NameText20()
    ensures UmpData[20].name == "Kalimantan Tengah" && NormalizedNames[20] == "KALIMANTAN TENGAH"
  {
  }

  lemma NameForm20()
    ensures NormalizeForMatching("Kalimantan Tengah") == "KALIMANTAN TENGAH"
  {
    NormalizesByChars("Kalimantan Tengah", "KALIMANTAN TENGAH");
  }

  lemma Name21()
    ensures NormalizeForMatching(UmpData[21].name) == NormalizedNames[21]
  {
    NameText21();
    NameForm21();
  }

  lemma NameText21()
    ensures UmpData[21].name == "Kalimantan Selatan" && NormalizedNames[21] == "KALIMANTAN SELATAN"
  {
  }

  lemma NameForm21()
    ensures NormalizeForMatching("Kalimantan Selatan") == "KALIMANTAN SELATAN"
  {
    NormalizesByChars("Kalimantan Selatan", "KALIMANTAN SELATAN");
  }

  lemma Name22()
    ensures NormalizeForMatching(UmpData[22].name) == NormalizedNames[22]
  {
    NameText22();
    NameForm22();
  }

  lemma NameText22()
    ensures UmpData[22].name == "Kalimantan Timur" && NormalizedNames[22] == "KALIMANTAN TIMUR"
  {
  }

  lemma NameForm22()
    ensures NormalizeForMatching("Kalimantan Timur") == "KALIMANTAN TIMUR"
  {
    NormalizesByChars("Kalimantan Timur", "KALIMANTAN TIMUR");
  }

  lemma Name23()
    ensures NormalizeForMatching(UmpData[23].name) == NormalizedNames[23]
  {
    NameText23();
    NameForm23();
  }

  lemma NameText23()
    ensures UmpData[23].name == "Kalimantan Utara" && NormalizedNames[23] == "KALIMANTAN UTARA"
  {
  }

  lemma NameForm23()
    ensures NormalizeForMatching("Kalimantan Utara") == "KALIMANTAN UTARA"
  {
    NormalizesByChars("Kalimantan Utara", "KALIMANTAN UTARA");
  }

  lemma Name24()
    ensures NormalizeForMatching(UmpData[24].name) == NormalizedNames[24]
  {
    NameText24();
    NameForm24();
  }

  lemma NameText24()
    ensures UmpData[24].name == "Sulawesi Utara" && NormalizedNames[24] == "SULAWESI UTARA"
  {
  }

  lemma NameForm24()
    ensures NormalizeForMatching("Sulawesi Utara") == "SULAWESI UTARA"
  {
    NormalizesByChars("Sulawesi Utara", "SULAWESI UTARA");
  }

  lemma Name25()
    ensures NormalizeForMatching(UmpData[25].name) == NormalizedNames[25]
  {
    NameText25();
    NameForm25();
  }

  lemma NameText25()
    ensures UmpData[25].name == "Sulawesi Tengah" && NormalizedNames[25] == "SULAWESI TENGAH"
  {
  }

  lemma NameForm25()
    ensures NormalizeForMatching("Sulawesi Tengah") == "SULAWESI TENGAH"
  {
    NormalizesByChars("Sulawesi Tengah", "SULAWESI TENGAH");
  }

  lemma Name26()
    ensures NormalizeForMatching(UmpData[26].name) == NormalizedNames[26]
  {
    NameText26();
    NameForm26();
  }

  lemma NameText26()
    ensures UmpData[26].name == "Sulawesi Selatan" && NormalizedNames[26] == "SULAWESI SELATAN"
  {
  }

  lemma NameForm26()
    ensures NormalizeForMatching("Sulawesi Selatan") == "SULAWESI SELATAN"
  {
    NormalizesByChars("Sulawesi Selatan", "SULAWESI SELATAN");
  }

  lemma Name27()
    ensures NormalizeForMatching(UmpData[27].name) == NormalizedNames[27]
  {
    NameText27();
    NameForm27();
  }

  lemma NameText27()
    ensures UmpData[27].name == "Sulawesi Tenggara" && NormalizedNames[27] == "SULAWESI TENGGARA"
  {
  }

  lemma NameForm27()
    ensures NormalizeForMatching("Sulawesi Tenggara") == "SULAWESI TENGGARA"
  {
    NormalizesByChars("Sulawesi Tenggara", "SULAWESI TENGGARA");
  }

  lemma Name28()
    ensures NormalizeForMatching(UmpData[28].name) == NormalizedNames[28]
  {
    NameText28();
    NameForm28();
  }

  lemma NameText28()
    ensures UmpData[28].name == "Gorontalo" && NormalizedNames[28] == "GORONTALO"
  {
  }

  lemma NameForm28()
    ensures NormalizeForMatching("Gorontalo") == "GORONTALO"
  {
    NormalizesByChars("Gorontalo", "GORONTALO");
  }

  lemma Name29()
    ensures NormalizeForMatching(UmpData[29].name) == NormalizedNames[29]
  {
    NameText29();
    NameForm29();
  }

  lemma NameText29()
    ensures UmpData[29].name == "Sulawesi Barat" && NormalizedNames[29] == "SULAWESI BARAT"
  {
  }

  lemma NameForm29()
    ensures NormalizeForMatching("Sulawesi Barat") == "SULAWESI BARAT"
  {
    NormalizesByChars("Sulawesi Barat", "SULAWESI BARAT");
  }

  lemma Name30()
    ensures NormalizeForMatching(UmpData[30].name) == NormalizedNames[30]
  {
    NameText30();
    NameForm30();
  }

  lemma NameText30()
    ensures UmpData[30].name == "Maluku" && NormalizedNames[30] == "MALUKU"
  {
  }

  lemma NameForm30()
    ensures NormalizeForMatching("Maluku") == "MALUKU"
  {
    NormalizesByChars("Maluku", "MALUKU");
  }

  lemma Name31()
    ensures NormalizeForMatching(UmpData[31].name) == NormalizedNames[31]
  {
    NameText31();
    NameForm31();
  }

  lemma NameText31()
    ensures UmpData[31].name == "Maluku Utara" && NormalizedNames[31] == "MALUKU UTARA"
  {
  }

  lemma NameForm31()
    ensures NormalizeForMatching("Maluku Utara") == "MALUKU UTARA"
  {
    NormalizesByChars("Maluku Utara", "MALUKU UTARA");
  }

  lemma Name32()
    ensures NormalizeForMatching(UmpData[32].name) == NormalizedNames[32]
  {
    NameText32();
    NameForm32();
  }

  lemma NameText32()
    ensures UmpData[32].name == "Papua Barat" && NormalizedNames[32] == "PAPUA BARAT"
  {
  }

  lemma NameForm32()
    ensures NormalizeForMatching("Papua Barat") == "PAPUA BARAT"
  {
    NormalizesByChars("Papua Barat", "PAPUA BARAT");
  }

  lemma Name33()
    ensures NormalizeForMatching(UmpData[33].name) == NormalizedNames[33]
  {
    NameText33();
    NameForm33();
  }

  lemma NameText33()
    ensures UmpData[33].name == "Papua" && NormalizedNames[33] == "PAPUA"
  {
  }

  lemma NameForm33()
    ensures NormalizeForMatching("Papua") == "PAPUA"
  {
    NormalizesByChars("Papua", "PAPUA");
  }

  lemma Name34()
    ensures NormalizeForMatching(UmpData[34].name) == NormalizedNames[34]
  {
    NameText34();
    NameForm34();
  }

  lemma NameText34()
    ensures UmpData[34].name == "Papua Tengah" && NormalizedNames[34] == "PAPUA TENGAH"
  {
  }

  lemma NameForm34()
    ensures NormalizeForMatching("Papua Tengah") == "PAPUA TENGAH"
  {
    NormalizesByChars("Papua Tengah", "PAPUA TENGAH");
  }

  lemma Name35()
    ensures NormalizeForMatching(UmpData[35].name) == NormalizedNames[35]
  {
    NameText35();
    NameForm35();
  }

  lemma NameText35()
    ensures UmpData[35].name == "Papua Pegunungan" && NormalizedNames[35] == "PAPUA PEGUNUNGAN"
  {
  }

  lemma NameForm35()
    ensures NormalizeForMatching("Papua Pegunungan") == "PAPUA PEGUNUNGAN"
  {
    NormalizesByChars("Papua Pegunungan", "PAPUA PEGUNUNGAN");
  }

  lemma Name36()
    ensures NormalizeForMatching(UmpData[36].name) == NormalizedNames[36]
  {
    NameText36();
    NameForm36();
  }

  lemma NameText36()
    ensures UmpData[36].name == "Papua Selatan" && NormalizedNames[36] == "PAPUA SELATAN"
  {
  }

  lemma NameForm36()
    ensures NormalizeForMatching("Papua Selatan") == "PAPUA SELATAN"
  {
    NormalizesByChars("Papua Selatan", "PAPUA SELATAN");
  }

  lemma Name37()
    ensures NormalizeForMatching(UmpData[37].name) == NormalizedNames[37]
  {
    NameText37();
    NameForm37();
  }

  lemma NameText37()
    ensures UmpData[37].name == "Papua Barat Daya" && NormalizedNames[37] == "PAPUA BARAT DAYA"
  {
  }

  lemma NameForm37()
    ensures NormalizeForMatching("Papua Barat Daya") == "PAPUA BARAT DAYA"
  {
    NormalizesByChars("Papua Barat Daya", "PAPUA BARAT DAYA");
  }

  lemma Alias0_0(k: int)
    requires k == 0
    ensures NormalizeForMatching(UmpData[0].aliases[k]) == NormalizedAliases[0][k]
  {
    AliasText0_0();
    AliasForm0_0();
  }

  lemma AliasText0_0()
    ensures UmpData[0].aliases[0] == "ACEH" && NormalizedAliases[0][0] == "ACEH"
  {
  }

  lemma AliasForm0_0()
    ensures NormalizeForMatching("ACEH") == "ACEH"
  {
    NormalizesByChars("ACEH", "ACEH");
  }

  lemma Alias0_1(k: int)
    requires k == 1
    ensures NormalizeForMatching(UmpData[0].aliases[k]) == NormalizedAliases[0][k]
  {
    AliasText0_1();
    AliasForm0_1();
  }

  lemma AliasText0_1()
    ensures UmpData[0].aliases[1] == "NAD" && NormalizedAliases[0][1] == "NAD"
  {
  }

  lemma AliasForm0_1()
    ensures NormalizeForMatching("NAD") == "NAD"
  {
    NormalizesByChars("NAD", "NAD");
  }

  lemma Alias0_2(k: int)
    requires k == 2
    ensures NormalizeForMatching(UmpData[0].aliases[k]) == NormalizedAliases[0][k]
  {
    AliasText0_2();
    AliasForm0_2();
  }

  lemma AliasText0_2()
    ensures UmpData[0].aliases[2] == "NANGGROE ACEH DARUSSALAM" && NormalizedAliases[0][2] == "NANGGROE ACEH DARUSSALAM"
  {
  }

  lemma AliasForm0_2()
    ensures NormalizeForMatching("NANGGROE ACEH DARUSSALAM") == "NANGGROE ACEH DARUSSALAM"
  {
    NormalizesByChars("NANGGROE ACEH DARUSSALAM", "NANGGROE ACEH DARUSSALAM");
  }

  lemma Alias1_0(k: int)
    requires k == 0
    ensures NormalizeForMatching(UmpData[1].aliases[k]) == NormalizedAliases[1][k]
  {
    AliasText1_0();
    AliasForm1_0();
  }

  lemma AliasText1_0()
    ensures UmpData[1].aliases[0] == "SUMATERA UTARA" && NormalizedAliases[1][0] == "SUMATERA UTARA"
  {
  }

  lemma AliasForm1_0()
    ensures NormalizeForMatching("SUMATERA UTARA") == "SUMATERA UTARA"
  {
    NormalizesByChars("SUMATERA UTARA", "SUMATERA UTARA");
  }

  lemma Alias1_1(k: int)
    requires k == 1
    ensures NormalizeForMatching(UmpData[1].aliases[k]) == NormalizedAliases[1][k]
  {
    AliasText1_1();
    AliasForm1_1();
  }

  lemma AliasText1_1()
    ensures UmpData[1].aliases[1] == "SUMUT" && NormalizedAliases[1][1] == "SUMUT"
  {
  }

  lemma AliasForm1_1()
    ensures NormalizeForMatching("SUMUT") == "SUMUT"
  {
    NormalizesByChars("SUMUT", "SUMUT");
  }

  lemma Alias2_0(k: int)
    requires k == 0
    ensures NormalizeForMatching(UmpData[2].aliases[k]) == NormalizedAliases[2][k]
  {
    AliasText2_0();
    AliasForm2_0();
  }

  lemma AliasText2_0()
    ensures UmpData[2].aliases[0] == "SUMATERA BARAT" && NormalizedAliases[2][0] == "SUMATERA BARAT"
  {
  }

  lemma AliasForm2_0()
    ensures NormalizeForMatching("SUMATERA BARAT") == "SUMATERA BARAT"
  {
    NormalizesByChars("SUMATERA BARAT", "SUMATERA BARAT");
  }

  lemma Alias2_1(k: int)
    requires k == 1
    ensures NormalizeForMatching(UmpData[2].aliases[k]) == NormalizedAliases[2][k]
  {
    AliasText2_1();
    AliasForm2_1();
  }

  lemma AliasText2_1()
    ensures UmpData[2].aliases[1] == "SUMBAR" && NormalizedAliases[2][1] == "SUMBAR"
  {
  }

  lemma AliasForm2_1()
    ensures NormalizeForMatching("SUMBAR") == "SUMBAR"
  {
    NormalizesByChars("SUMBAR", "SUMBAR");
  }

  lemma Alias3_0(k: int)
    requires k == 0
    ensures NormalizeForMatching(UmpData[3].aliases[k]) == NormalizedAliases[3][k]
  {
    AliasText3_0();
    AliasForm3_0();
  }

  lemma AliasText3_0()
    ensures UmpData[3].aliases[0] == "RIAU" && NormalizedAliases[3][0] == "RIAU"
  {
  }

  lemma AliasForm3_0()
    ensures NormalizeForMatching("RIAU") == "RIAU"
  {
    NormalizesByChars("RIAU", "RIAU");
  }

  lemma Alias4_0(k: int)
    requires k == 0
    ensures NormalizeForMatching(UmpData[4].aliases[k]) == NormalizedAliases[4][k]
  {
    AliasText4_0();
    AliasForm4_0();
  }

  lemma AliasText4_0()
    ensures UmpData[4].aliases[0] == "JAMBI" && NormalizedAliases[4][0] == "JAMBI"
  {
  }

  lemma AliasForm4_0()
    ensures NormalizeForMatching("JAMBI") == "JAMBI"
  {
    NormalizesByChars("JAMBI", "JAMBI");
  }

  lemma Alias5_0(k: int)
    requires k == 0
    ensures NormalizeForMatching(UmpData[5].aliases[k]) == NormalizedAliases[5][k]
  {
    AliasText5_0();
    AliasForm5_0();
  }

  lemma AliasText5_0()
    ensures UmpData[5].aliases[0] == "SUMATERA SELATAN" && NormalizedAliases[5][0] == "SUMATERA SELATAN"
  {
  }

  lemma AliasForm5_0()
    ensures NormalizeForMatching("SUMATERA SELATAN") == "SUMATERA SELATAN"
  {
    NormalizesByChars("SUMATERA SELATAN", "SUMATERA SELATAN");
  }

  lemma Alias5_1(k: int)
    requires k == 1
    ensures NormalizeForMatching(UmpData[5].aliases[k]) == NormalizedAliases[5][k]
  {
    AliasText5_1();
    AliasForm5_1();
  }

  lemma AliasText5_1()
    ensures UmpData[5].aliases[1] == "SUMSEL" && NormalizedAliases[5][1] == "SUMSEL"
  {
  }

  lemma AliasForm5_1()
    ensures NormalizeForMatching("SUMSEL") == "SUMSEL"
  {
    NormalizesByChars("SUMSEL", "SUMSEL");
  }

  lemma Alias6_0(k: int)
    requires k == 0
    ensures NormalizeForMatching(UmpData[6].aliases[k]) == NormalizedAliases[6][k]
  {
    AliasText6_0();
    AliasForm6_0();
  }

  lemma AliasText6_0()
    ensures UmpData[6].aliases[0] == "BENGKULU" && NormalizedAliases[6][0] == "BENGKULU"
  {
  }

  lemma AliasForm6_0()
    ensures NormalizeForMatching("BENGKULU") == "BENGKULU"
  {
    NormalizesByChars("BENGKULU", "BENGKULU");
  }

  lemma Alias7_0(k: int)
    requires k == 0
    ensures NormalizeForMatching(UmpData[7].aliases[k]) == NormalizedAliases[7][k]
  {
    AliasText7_0();
    AliasForm7_0();
  }

  lemma AliasText7_0()
    ensures UmpData[7].aliases[0] == "LAMPUNG" && NormalizedAliases[7][0] == "LAMPUNG"
  {
  }

  lemma AliasForm7_0()
    ensures NormalizeForMatching("LAMPUNG") == "LAMPUNG"
  {
    NormalizesByChars("LAMPUNG", "LAMPUNG");
  }

  lemma Alias8_0(k: int)
    requires k == 0
    ensures NormalizeForMatching(UmpData[8].aliases[k]) == NormalizedAliases[8][k]
  {
    AliasText8_0();
    AliasForm8_0();
  }

  lemma AliasText8_0()
    ensures UmpData[8].aliases[0] == "KEPULAUAN BANGKA BELITUNG" && NormalizedAliases[8][0] == "KEPULAUAN BANGKA BELITUNG"
  {
  }

  lemma AliasForm8_0()
    ensures NormalizeForMatching("KEPULAUAN BANGKA BELITUNG") == "KEPULAUAN BANGKA BELITUNG"
  {
    NormalizesByChars("KEPULAUAN BANGKA BELITUNG", "KEPULAUAN BANGKA BELITUNG");
  }

  lemma Alias8_1(k: int)
    requires k == 1
    ensures NormalizeForMatching(UmpData[8].aliases[k]) == NormalizedAliases[8][k]
  {
    AliasText8_1();
    AliasForm8_1();
  }

  lemma AliasText8_1()
    ensures UmpData[8].aliases[1] == "BABEL" && NormalizedAliases[8][1] == "BABEL"
  {
  }

  lemma AliasForm8_1()
    ensures NormalizeForMatching("BABEL") == "BABEL"
  {
    NormalizesByChars("BABEL", "BABEL");
  }

  lemma Alias8_2(k: int)
    requires k == 2
    ensures NormalizeForMatching(UmpData[8].aliases[k]) == NormalizedAliases[8][k]
  {
    AliasText8_2();
    AliasForm8_2();
  }

  lemma AliasText8_2()
    ensures UmpData[8].aliases[2] == "BANGKA BELITUNG" && NormalizedAliases[8][2] == "BANGKA BELITUNG"
  {
  }

  lemma AliasForm8_2()
    ensures NormalizeForMatching("BANGKA BELITUNG") == "BANGKA BELITUNG"
  {
    NormalizesByChars("BANGKA BELITUNG", "BANGKA BELITUNG");
  }

  lemma Alias9_0(k: int)
    requires k == 0
    ensures NormalizeForMatching(UmpData[9].aliases[k]) == NormalizedAliases[9][k]
  {
    AliasText9_0();
    AliasForm9_0();
  }

  lemma AliasText9_0()
    ensures UmpData[9].aliases[0] == "KEPULAUAN RIAU" && NormalizedAliases[9][0] == "KEPULAUAN RIAU"
  {
  }

  lemma AliasForm9_0()
    ensures NormalizeForMatching("KEPULAUAN RIAU") == "KEPULAUAN RIAU"
  {
    NormalizesByChars("KEPULAUAN RIAU", "KEPULAUAN RIAU");
  }

  lemma Alias9_1(k: int)
    requires k == 1
    ensures NormalizeForMatching(UmpData[9].aliases[k]) == NormalizedAliases[9][k]
  {
    AliasText9_1();
    AliasForm9_1();
  }

  lemma AliasText9_1()
    ensures UmpData[9].aliases[1] == "KEPRI" && NormalizedAliases[9][1] == "KEPRI"
  {
  }

  lemma AliasForm9_1()
    ensures NormalizeForMatching("KEPRI") == "KEPRI"
  {
    NormalizesByChars("KEPRI", "KEPRI");
  }

  lemma Alias10_0(k: int)
    requires k == 0
    ensures NormalizeForMatching(UmpData[10].aliases[k]) == NormalizedAliases[10][k]
  {
    AliasText10_0();
    AliasForm10_0();
  }

  lemma AliasText10_0()
    ensures UmpData[10].aliases[0] == "DKI JAKARTA" && NormalizedAliases[10][0] == "DKI JAKARTA"
  {
  }

  lemma AliasForm10_0()
    ensures NormalizeForMatching("DKI JAKARTA") == "DKI JAKARTA"
  {
    NormalizesByChars("DKI JAKARTA", "DKI JAKARTA");
  }

  lemma Alias10_1(k: int)
    requires k == 1
    ensures NormalizeForMatching(UmpData[10].aliases[k]) == NormalizedAliases[10][k]
  {
    AliasText10_1();
    AliasForm10_1();
  }

  lemma AliasText10_1()
    ensures UmpData[10].aliases[1] == "JAKARTA" && NormalizedAliases[10][1] == "JAKARTA"
  {
  }

  lemma AliasForm10_1()
    ensures NormalizeForMatching("JAKARTA") == "JAKARTA"
  {
    NormalizesByChars("JAKARTA", "JAKARTA");
  }

  lemma Alias11_0(k: int)
    requires k == 0
    ensures NormalizeForMatching(UmpData[11].aliases[k]) == NormalizedAliases[11][k]
  {
    AliasText11_0();
    AliasForm11_0();
  }

  lemma AliasText11_0()
    ensures UmpData[11].aliases[0] == "JAWA BARAT" && NormalizedAliases[11][0] == "JAWA BARAT"
  {
  }

  lemma AliasForm11_0()
    ensures NormalizeForMatching("JAWA BARAT") == "JAWA BARAT"
  {
    NormalizesByChars("JAWA BARAT", "JAWA BARAT");
  }

  lemma Alias11_1(k: int)
    requires k == 1
    ensures NormalizeForMatching(UmpData[11].aliases[k]) == NormalizedAliases[11][k]
  {
    AliasText11_1();
    AliasForm11_1();
  }

  lemma AliasText11_1()
    ensures UmpData[11].aliases[1] == "JABAR" && NormalizedAliases[11][1] == "JABAR"
  {
  }

  lemma AliasForm11_1()
    ensures NormalizeForMatching("JABAR") == "JABAR"
  {
    NormalizesByChars("JABAR", "JABAR");
  }

  lemma Alias12_0(k: int)
    requires k == 0
    ensures NormalizeForMatching(UmpData[12].aliases[k]) == NormalizedAliases[12][k]
  {
    AliasText12_0();
    AliasForm12_0();
  }

  lemma AliasText12_0()
    ensures UmpData[12].aliases[0] == "JAWA TENGAH" && NormalizedAliases[12][0] == "JAWA TENGAH"
  {
  }

  lemma AliasForm12_0()
    ensures NormalizeForMatching("JAWA TENGAH") == "JAWA TENGAH"
  {
    NormalizesByChars("JAWA TENGAH", "JAWA TENGAH");
  }

  lemma Alias12_1(k: int)
    requires k == 1
    ensures NormalizeForMatching(UmpData[12].aliases[k]) == NormalizedAliases[12][k]
  {
    AliasText12_1();
    AliasForm12_1();
  }

  lemma AliasText12_1()
    ensures UmpData[12].aliases[1] == "JATENG" && NormalizedAliases[12][1] == "JATENG"
  {
  }

  lemma AliasForm12_1()
    ensures NormalizeForMatching("JATENG") == "JATENG"
  {
    NormalizesByChars("JATENG", "JATENG");
  }

  lemma Alias13_0(k: int)
    requires k == 0
    ensures NormalizeForMatching(UmpData[13].aliases[k]) == NormalizedAliases[13][k]
  {
    AliasText13_0();
    AliasForm13_0();
  }

  lemma AliasText13_0()
    ensures UmpData[13].aliases[0] == "DI YOGYAKARTA" && NormalizedAliases[13][0] == "DI YOGYAKARTA"
  {
  }

  lemma AliasForm13_0()
    ensures NormalizeForMatching("DI YOGYAKARTA") == "DI YOGYAKARTA"
  {
    NormalizesByChars("DI YOGYAKARTA", "DI YOGYAKARTA");
  }

  lemma Alias13_1(k: int)
    requires k == 1
    ensures NormalizeForMatching(UmpData[13].aliases[k]) == NormalizedAliases[13][k]
  {
    AliasText13_1();
    AliasForm13_1();
  }

  lemma AliasText13_1()
    ensures UmpData[13].aliases[1] == "DIY" && NormalizedAliases[13][1] == "DIY"
  {
  }

  lemma AliasForm13_1()
    ensures NormalizeForMatching("DIY") == "DIY"
  {
    NormalizesByChars("DIY", "DIY");
  }

  lemma Alias13_2(k: int)
    requires k == 2
    ensures NormalizeForMatching(UmpData[13].aliases[k]) == NormalizedAliases[13][k]
  {
    AliasText13_2();
    AliasForm13_2();
  }

  lemma AliasText13_2()
    ensures UmpData[13].aliases[2] == "YOGYAKARTA" && NormalizedAliases[13][2] == "YOGYAKARTA"
  {
  }

  lemma AliasForm13_2()
    ensures NormalizeForMatching("YOGYAKARTA") == "YOGYAKARTA"
  {
    NormalizesByChars("YOGYAKARTA", "YOGYAKARTA");
  }

  lemma Alias13_3(k: int)
    requires k == 3
    ensures NormalizeForMatching(UmpData[13].aliases[k]) == NormalizedAliases[13][k]
  {
    AliasText13_3();
    DottedYogyakarta();
  }

  lemma AliasText13_3()
    ensures UmpData[13].aliases[3] == "D.I. YOGYAKARTA" && NormalizedAliases[13][3] == "DI YOGYAKARTA"
  {
  }

  lemma Alias14_0(k: int)
    requires k == 0
    ensures NormalizeForMatching(UmpData[14].aliases[k]) == NormalizedAliases[14][k]
  {
    AliasText14_0();
    AliasForm14_0();
  }

  lemma AliasText14_0()
    ensures UmpData[14].aliases[0] == "JAWA TIMUR" && NormalizedAliases[14][0] == "JAWA TIMUR"
  {
  }

  lemma AliasForm14_0()
    ensures NormalizeForMatching("JAWA TIMUR") == "JAWA TIMUR"
  {
    NormalizesByChars("JAWA TIMUR", "JAWA TIMUR");
  }

  lemma Alias14_1(k: int)
    requires k == 1
    ensures NormalizeForMatching(UmpData[14].aliases[k]) == NormalizedAliases[14][k]
  {
    AliasText14_1();
    AliasForm14_1();
  }

  lemma AliasText14_1()
    ensures UmpData[14].aliases[1] == "JATIM" && NormalizedAliases[14][1] == "JATIM"
  {
  }

  lemma AliasForm14_1()
    ensures NormalizeForMatching("JATIM") == "JATIM"
  {
    NormalizesByChars("JATIM", "JATIM");
  }

  lemma Alias15_0(k: int)
    requires k == 0
    ensures NormalizeForMatching(UmpData[15].aliases[k]) == NormalizedAliases[15][k]
  {
    AliasText15_0();
    AliasForm15_0();
  }

  lemma AliasText15_0()
    ensures UmpData[15].aliases[0] == "BANTEN" && NormalizedAliases[15][0] == "BANTEN"
  {
  }

  lemma AliasForm15_0()
    ensures NormalizeForMatching("BANTEN") == "BANTEN"
  {
    NormalizesByChars("BANTEN", "BANTEN");
  }

  lemma Alias16_0(k: int)
    requires k == 0
    ensures NormalizeForMatching(UmpData[16].aliases[k]) == NormalizedAliases[16][k]
  {
    AliasText16_0();
    AliasForm16_0();
  }

  lemma AliasText16_0()
    ensures UmpData[16].aliases[0] == "BALI" && NormalizedAliases[16][0] == "BALI"
  {
  }

  lemma AliasForm16_0()
    ensures NormalizeForMatching("BALI") == "BALI"
  {
    NormalizesByChars("BALI", "BALI");
  }

  lemma Alias17_0(k: int)
    requires k == 0
    ensures NormalizeForMatching(UmpData[17].aliases[k]) == NormalizedAliases[17][k]
  {
    AliasText17_0();
    AliasForm17_0();
  }

  lemma AliasText17_0()
    ensures UmpData[17].aliases[0] == "NUSA TENGGARA BARAT" && NormalizedAliases[17][0] == "NUSA TENGGARA BARAT"
  {
  }

  lemma AliasForm17_0()
    ensures NormalizeForMatching("NUSA TENGGARA BARAT") == "NUSA TENGGARA BARAT"
  {
    NormalizesByChars("NUSA TENGGARA BARAT", "NUSA TENGGARA BARAT");
  }

  lemma Alias17_1(k: int)
    requires k == 1
    ensures NormalizeForMatching(UmpData[17].aliases[k]) == NormalizedAliases[17][k]
  {
    AliasText17_1();
    AliasForm17_1();
  }

  lemma AliasText17_1()
    ensures UmpData[17].aliases[1] == "NTB" && NormalizedAliases[17][1] == "NTB"
  {
  }

  lemma AliasForm17_1()
    ensures NormalizeForMatching("NTB") == "NTB"
  {
    NormalizesByChars("NTB", "NTB");
  }

  lemma Alias18_0(k: int)
    requires k == 0
    ensures NormalizeForMatching(UmpData[18].aliases[k]) == NormalizedAliases[18][k]
  {
    AliasText18_0();
    AliasForm18_0();
  }

  lemma AliasText18_0()
    ensures UmpData[18].aliases[0] == "NUSA TENGGARA TIMUR" && NormalizedAliases[18][0] == "NUSA TENGGARA TIMUR"
  {
  }

  lemma AliasForm18_0()
    ensures NormalizeForMatching("NUSA TENGGARA TIMUR") == "NUSA TENGGARA TIMUR"
  {
    NormalizesByChars("NUSA TENGGARA TIMUR", "NUSA TENGGARA TIMUR");
  }

  lemma Alias18_1(k: int)
    requires k == 1
    ensures NormalizeForMatching(UmpData[18].aliases[k]) == NormalizedAliases[18][k]
  {
    AliasText18_1();
    AliasForm18_1();
  }

  lemma AliasText18_1()
    ensures UmpData[18].aliases[1] == "NTT" && NormalizedAliases[18][1] == "NTT"
  {
  }

  lemma AliasForm18_1()
    ensures NormalizeForMatching("NTT") == "NTT"
  {
    NormalizesByChars("NTT", "NTT");
  }

  lemma Alias19_0(k: int)
    requires k == 0
    ensures NormalizeForMatching(UmpData[19].aliases[k]) == NormalizedAliases[19][k]
  {
    AliasText19_0();
    AliasForm19_0();
  }

  lemma AliasText19_0()
    ensures UmpData[19].aliases[0] == "KALIMANTAN BARAT" && NormalizedAliases[19][0] == "KALIMANTAN BARAT"
  {
  }

  lemma AliasForm19_0()
    ensures NormalizeForMatching("KALIMANTAN BARAT") == "KALIMANTAN BARAT"
  {
    NormalizesByChars("KALIMANTAN BARAT", "KALIMANTAN BARAT");
  }

  lemma Alias19_1(k: int)
    requires k == 1
    ensures NormalizeForMatching(UmpData[19].aliases[k]) == NormalizedAliases[19][k]
  {
    AliasText19_1();
    AliasForm19_1();
  }

  lemma AliasText19_1()
    ensures UmpData[19].aliases[1] == "KALBAR" && NormalizedAliases[19][1] == "KALBAR"
  {
  }

  lemma AliasForm19_1()
    ensures NormalizeForMatching("KALBAR") == "KALBAR"
  {
    NormalizesByChars("KALBAR", "KALBAR");
  }

  lemma Alias20_0(k: int)
    requires k == 0
    ensures NormalizeForMatching(UmpData[20].aliases[k]) == NormalizedAliases[20][k]
  {
    AliasText20_0();
    AliasForm20_0();
  }

  lemma AliasText20_0()
    ensures UmpData[20].aliases[0] == "KALIMANTAN TENGAH" && NormalizedAliases[20][0] == "KALIMANTAN TENGAH"
  {
  }

  lemma AliasForm20_0()
    ensures NormalizeForMatching("KALIMANTAN TENGAH") == "KALIMANTAN TENGAH"
  {
    NormalizesByChars("KALIMANTAN TENGAH", "KALIMANTAN TENGAH");
  }

  lemma Alias20_1(k: int)
    requires k == 1
    ensures NormalizeForMatching(UmpData[20].aliases[k]) == NormalizedAliases[20][k]
  {
    AliasText20_1();
    AliasForm20_1();
  }

  lemma AliasText20_1()
    ensures UmpData[20].aliases[1] == "KALTENG" && NormalizedAliases[20][1] == "KALTENG"
  {
  }

  lemma AliasForm20_1()
    ensures NormalizeForMatching("KALTENG") == "KALTENG"
  {
    NormalizesByChars("KALTENG", "KALTENG");
  }

  lemma Alias21_0(k: int)
    requires k == 0
    ensures NormalizeForMatching(UmpData[21].aliases[k]) == NormalizedAliases[21][k]
  {
    AliasText21_0();
    AliasForm21_0();
  }

  lemma AliasText21_0()
    ensures UmpData[21].aliases[0] == "KALIMANTAN SELATAN" && NormalizedAliases[21][0] == "KALIMANTAN SELATAN"
  {
  }

  lemma AliasForm21_0()
    ensures NormalizeForMatching("KALIMANTAN SELATAN") == "KALIMANTAN SELATAN"
  {
    NormalizesByChars("KALIMANTAN SELATAN", "KALIMANTAN SELATAN");
  }

  lemma Alias21_1(k: int)
    requires k == 1
    ensures NormalizeForMatching(UmpData[21].aliases[k]) == NormalizedAliases[21][k]
  {
    AliasText21_1();
    AliasForm21_1();
  }

  lemma AliasText21_1()
    ensures UmpData[21].aliases[1] == "KALSEL" && NormalizedAliases[21][1] == "KALSEL"
  {
  }

  lemma AliasForm21_1()
    ensures NormalizeForMatching("KALSEL") == "KALSEL"
  {
    NormalizesByChars("KALSEL", "KALSEL");
  }

  lemma Alias22_0(k: int)
    requires k == 0
    ensures NormalizeForMatching(UmpData[22].aliases[k]) == NormalizedAliases[22][k]
  {
    AliasText22_0();
    AliasForm22_0();
  }

  lemma AliasText22_0()
    ensures UmpData[22].aliases[0] == "KALIMANTAN TIMUR" && NormalizedAliases[22][0] == "KALIMANTAN TIMUR"
  {
  }

  lemma AliasForm22_0()
    ensures NormalizeForMatching("KALIMANTAN TIMUR") == "KALIMANTAN TIMUR"
  {
    NormalizesByChars("KALIMANTAN TIMUR", "KALIMANTAN TIMUR");
  }

  lemma Alias22_1(k: int)
    requires k == 1
    ensures NormalizeForMatching(UmpData[22].aliases[k]) == NormalizedAliases[22][k]
  {
    AliasText22_1();
    AliasForm22_1();
  }

  lemma AliasText22_1()
    ensures UmpData[22].aliases[1] == "KALTIM" && NormalizedAliases[22][1] == "KALTIM"
  {
  }

  lemma AliasForm22_1()
    ensures NormalizeForMatching("KALTIM") == "KALTIM"
  {
    NormalizesByChars("KALTIM", "KALTIM");
  }

  lemma Alias23_0(k: int)
    requires k == 0
    ensures NormalizeForMatching(UmpData[23].aliases[k]) == NormalizedAliases[23][k]
  {
    AliasText23_0();
    AliasForm23_0();
  }

  lemma AliasText23_0()
    ensures UmpData[23].aliases[0] == "KALIMANTAN UTARA" && NormalizedAliases[23][0] == "KALIMANTAN UTARA"
  {
  }

  lemma AliasForm23_0()
    ensures NormalizeForMatching("KALIMANTAN UTARA") == "KALIMANTAN UTARA"
  {
    NormalizesByChars("KALIMANTAN UTARA", "KALIMANTAN UTARA");
  }

  lemma Alias23_1(k: int)
    requires k == 1
    ensures NormalizeForMatching(UmpData[23].aliases[k]) == NormalizedAliases[23][k]
  {
    AliasText23_1();
    AliasForm23_1();
  }

  lemma AliasText23_1()
    ensures UmpData[23].aliases[1] == "KALTARA" && NormalizedAliases[23][1] == "KALTARA"
  {
  }

  lemma AliasForm23_1()
    ensures NormalizeForMatching("KALTARA") == "KALTARA"
  {
    NormalizesByChars("KALTARA", "KALTARA");
  }

  lemma Alias24_0(k: int)
    requires k == 0
    ensures NormalizeForMatching(UmpData[24].aliases[k]) == NormalizedAliases[24][k]
  {
    AliasText24_0();
    AliasForm24_0();
  }

  lemma AliasText24_0()
    ensures UmpData[24].aliases[0] == "SULAWESI UTARA" && NormalizedAliases[24][0] == "SULAWESI UTARA"
  {
  }

  lemma AliasForm24_0()
    ensures NormalizeForMatching("SULAWESI UTARA") == "SULAWESI UTARA"
  {
    NormalizesByChars("SULAWESI UTARA", "SULAWESI UTARA");
  }

  lemma Alias24_1(k: int)
    requires k == 1
    ensures NormalizeForMatching(UmpData[24].aliases[k]) == NormalizedAliases[24][k]
  {
    AliasText24_1();
    AliasForm24_1();
  }

  lemma AliasText24_1()
    ensures UmpData[24].aliases[1] == "SULUT" && NormalizedAliases[24][1] == "SULUT"
  {
  }

  lemma AliasForm24_1()
    ensures NormalizeForMatching("SULUT") == "SULUT"
  {
    NormalizesByChars("SULUT", "SULUT");
  }

  lemma Alias25_0(k: int)
    requires k == 0
    ensures NormalizeForMatching(UmpData[25].aliases[k]) == NormalizedAliases[25][k]
  {
    AliasText25_0();
    AliasForm25_0();
  }

  lemma AliasText25_0()
    ensures UmpData[25].aliases[0] == "SULAWESI TENGAH" && NormalizedAliases[25][0] == "SULAWESI TENGAH"
  {
  }

  lemma AliasForm25_0()
    ensures NormalizeForMatching("SULAWESI TENGAH") == "SULAWESI TENGAH"
  {
    NormalizesByChars("SULAWESI TENGAH", "SULAWESI TENGAH");
  }

  lemma Alias25_1(k: int)
    requires k == 1
    ensures NormalizeForMatching(UmpData[25].aliases[k]) == NormalizedAliases[25][k]
  {
    AliasText25_1();
    AliasForm25_1();
  }

  lemma AliasText25_1()
    ensures UmpData[25].aliases[1] == "SULTENG" && NormalizedAliases[25][1] == "SULTENG"
  {
  }

  lemma AliasForm25_1()
    ensures NormalizeForMatching("SULTENG") == "SULTENG"
  {
    NormalizesByChars("SULTENG", "SULTENG");
  }

  lemma Alias26_0(k: int)
    requires k == 0
    ensures NormalizeForMatching(UmpData[26].aliases[k]) == NormalizedAliases[26][k]
  {
    AliasText26_0();
    AliasForm26_0();
  }

  lemma AliasText26_0()
    ensures UmpData[26].aliases[0] == "SULAWESI SELATAN" && NormalizedAliases[26][0] == "SULAWESI SELATAN"
  {
  }

  lemma AliasForm26_0()
    ensures NormalizeForMatching("SULAWESI SELATAN") == "SULAWESI SELATAN"
  {
    NormalizesByChars("SULAWESI SELATAN", "SULAWESI SELATAN");
  }

  lemma Alias26_1(k: int)
    requires k == 1
    ensures NormalizeForMatching(UmpData[26].aliases[k]) == NormalizedAliases[26][k]
  {
    AliasText26_1();
    AliasForm26_1();
  }

  lemma AliasText26_1()
    ensures UmpData[26].aliases[1] == "SULSEL" && NormalizedAliases[26][1] == "SULSEL"
  {
  }

  lemma AliasForm26_1()
    ensures NormalizeForMatching("SULSEL") == "SULSEL"
  {
    NormalizesByChars("SULSEL", "SULSEL");
  }

  lemma Alias27_0(k: int)
    requires k == 0
    ensures NormalizeForMatching(UmpData[27].aliases[k]) == NormalizedAliases[27][k]
  {
    AliasText27_0();
    AliasForm27_0();
  }

  lemma AliasText27_0()
    ensures UmpData[27].aliases[0] == "SULAWESI TENGGARA" && NormalizedAliases[27][0] == "SULAWESI TENGGARA"
  {
  }

  lemma AliasForm27_0()
    ensures NormalizeForMatching("SULAWESI TENGGARA") == "SULAWESI TENGGARA"
  {
    NormalizesByChars("SULAWESI TENGGARA", "SULAWESI TENGGARA");
  }

  lemma Alias27_1(k: int)
    requires k == 1
    ensures NormalizeForMatching(UmpData[27].aliases[k]) == NormalizedAliases[27][k]
  {
    AliasText27_1();
    AliasForm27_1();
  }

  lemma AliasText27_1()
    ensures UmpData[27].aliases[1] == "SULTRA" && NormalizedAliases[27][1] == "SULTRA"
  {
  }

  lemma AliasForm27_1()
    ensures NormalizeForMatching("SULTRA") == "SULTRA"
  {
    NormalizesByChars("SULTRA", "SULTRA");
  }

  lemma Alias28_0(k: int)
    requires k == 0
    ensures NormalizeForMatching(UmpData[28].aliases[k]) == NormalizedAliases[28][k]
  {
    AliasText28_0();
    AliasForm28_0();
  }

  lemma AliasText28_0()
    ensures UmpData[28].aliases[0] == "GORONTALO" && NormalizedAliases[28][0] == "GORONTALO"
  {
  }

  lemma AliasForm28_0()
    ensures NormalizeForMatching("GORONTALO") == "GORONTALO"
  {
    NormalizesByChars("GORONTALO", "GORONTALO");
  }

  lemma Alias29_0(k: int)
    requires k == 0
    ensures NormalizeForMatching(UmpData[29].aliases[k]) == NormalizedAliases[29][k]
  {
    AliasText29_0();
    AliasForm29_0();
  }

  lemma AliasText29_0()
    ensures UmpData[29].aliases[0] == "SULAWESI BARAT" && NormalizedAliases[29][0] == "SULAWESI BARAT"
  {
  }

  lemma AliasForm29_0()
    ensures NormalizeForMatching("SULAWESI BARAT") == "SULAWESI BARAT"
  {
    NormalizesByChars("SULAWESI BARAT", "SULAWESI BARAT");
  }

  lemma Alias29_1(k: int)
    requires k == 1
    ensures NormalizeForMatching(UmpData[29].aliases[k]) == NormalizedAliases[29][k]
  {
    AliasText29_1();
    AliasForm29_1();
  }

  lemma AliasText29_1()
    ensures UmpData[29].aliases[1] == "SULBAR" && NormalizedAliases[29][1] == "SULBAR"
  {
  }

  lemma AliasForm29_1()
    ensures NormalizeForMatching("SULBAR") == "SULBAR"
  {
    NormalizesByChars("SULBAR", "SULBAR");
  }

  lemma Alias30_0(k: int)
    requires k == 0
    ensures NormalizeForMatching(UmpData[30].aliases[k]) == NormalizedAliases[30][k]
  {
    AliasText30_0();
    AliasForm30_0();
  }

  lemma AliasText30_0()
    ensures UmpData[30].aliases[0] == "MALUKU" && NormalizedAliases[30][0] == "MALUKU"
  {
  }

  lemma AliasForm30_0()
    ensures NormalizeForMatching("MALUKU") == "MALUKU"
  {
    NormalizesByChars("MALUKU", "MALUKU");
  }

  lemma Alias31_0(k: int)
    requires k == 0
    ensures NormalizeForMatching(UmpData[31].aliases[k]) == NormalizedAliases[31][k]
  {
    AliasText31_0();
    AliasForm31_0();
  }

  lemma AliasText31_0()
    ensures UmpData[31].aliases[0] == "MALUKU UTARA" && NormalizedAliases[31][0] == "MALUKU UTARA"
  {
  }

  lemma AliasForm31_0()
    ensures NormalizeForMatching("MALUKU UTARA") == "MALUKU UTARA"
  {
    NormalizesByChars("MALUKU UTARA", "MALUKU UTARA");
  }

  lemma Alias31_1(k: int)
    requires k == 1
    ensures NormalizeForMatching(UmpData[31].aliases[k]) == NormalizedAliases[31][k]
  {
    AliasText31_1();
    AliasForm31_1();
  }

  lemma AliasText31_1()
    ensures UmpData[31].aliases[1] == "MALUT" && NormalizedAliases[31][1] == "MALUT"
  {
  }

  lemma AliasForm31_1()
    ensures NormalizeForMatching("MALUT") == "MALUT"
  {
    NormalizesByChars("MALUT", "MALUT");
  }

  lemma Alias32_0(k: int)
    requires k == 0
    ensures NormalizeForMatching(UmpData[32].aliases[k]) == NormalizedAliases[32][k]
  {
    AliasText32_0();
    AliasForm32_0();
  }

  lemma AliasText32_0()
    ensures UmpData[32].aliases[0] == "PAPUA BARAT" && NormalizedAliases[32][0] == "PAPUA BARAT"
  {
  }

  lemma AliasForm32_0()
    ensures NormalizeForMatching("PAPUA BARAT") == "PAPUA BARAT"
  {
    NormalizesByChars("PAPUA BARAT", "PAPUA BARAT");
  }

  lemma Alias33_0(k: int)
    requires k == 0
    ensures NormalizeForMatching(UmpData[33].aliases[k]) == NormalizedAliases[33][k]
  {
    AliasText33_0();
    AliasForm33_0();
  }

  lemma AliasText33_0()
    ensures UmpData[33].aliases[0] == "PAPUA" && NormalizedAliases[33][0] == "PAPUA"
  {
  }

  lemma AliasForm33_0()
    ensures NormalizeForMatching("PAPUA") == "PAPUA"
  {
    NormalizesByChars("PAPUA", "PAPUA");
  }

  lemma Alias34_0(k: int)
    requires k == 0
    ensures NormalizeForMatching(UmpData[34].aliases[k]) == NormalizedAliases[34][k]
  {
    AliasText34_0();
    AliasForm34_0();
  }

  lemma AliasText34_0()
    ensures UmpData[34].aliases[0] == "PAPUA TENGAH" && NormalizedAliases[34][0] == "PAPUA TENGAH"
  {
  }

  lemma AliasForm34_0()
    ensures NormalizeForMatching("PAPUA TENGAH") == "PAPUA TENGAH"
  {
    NormalizesByChars("PAPUA TENGAH", "PAPUA TENGAH");
  }

  lemma Alias35_0(k: int)
    requires k == 0
    ensures NormalizeForMatching(UmpData[35].aliases[k]) == NormalizedAliases[35][k]
  {
    AliasText35_0();
    AliasForm35_0();
  }

  lemma AliasText35_0()
    ensures UmpData[35].aliases[0] == "PAPUA PEGUNUNGAN" && NormalizedAliases[35][0] == "PAPUA PEGUNUNGAN"
  {
  }

  lemma AliasForm35_0()
    ensures NormalizeForMatching("PAPUA PEGUNUNGAN") == "PAPUA PEGUNUNGAN"
  {
    NormalizesByChars("PAPUA PEGUNUNGAN", "PAPUA PEGUNUNGAN");
  }

  lemma Alias36_0(k: int)
    requires k == 0
    ensures NormalizeForMatching(UmpData[36].aliases[k]) == NormalizedAliases[36][k]
  {
    AliasText36_0();
    AliasForm36_0();
  }

  lemma AliasText36_0()
    ensures UmpData[36].aliases[0] == "PAPUA SELATAN" && NormalizedAliases[36][0] == "PAPUA SELATAN"
  {
  }

  lemma AliasForm36_0()
    ensures NormalizeForMatching("PAPUA SELATAN") == "PAPUA SELATAN"
  {
    NormalizesByChars("PAPUA SELATAN", "PAPUA SELATAN");
  }

  lemma Alias37_0(k: int)
    requires k == 0
    ensures NormalizeForMatching(UmpData[37].aliases[k]) == NormalizedAliases[37][k]
  {
    AliasText37_0();
    AliasForm37_0();
  }

  lemma AliasText37_0()
    ensures UmpData[37].aliases[0] == "PAPUA BARAT DAYA" && NormalizedAliases[37][0] == "PAPUA BARAT DAYA"
  {
  }

  lemma AliasForm37_0()
    ensures NormalizeForMatching("PAPUA BARAT DAYA") == "PAPUA BARAT DAYA"
  {
    NormalizesByChars("PAPUA BARAT DAYA", "PAPUA BARAT DAYA");
  }

  /** The normalised name of every entry, as listed in `NormalizedNames`. */
  lemma NameAt(j: int)
    requires 0 <= j < |UmpData|
    ensures NormalizeForMatching(UmpData[j].name) == NormalizedNames[j]
  {
    TableIds();
    if j < 10 { NameAtFrom0(j); }
    else if j < 20 { NameAtFrom10(j); }
    else if j < 30 { NameAtFrom20(j); }
    else { NameAtFrom30(j); }
  }

  lemma NameAtFrom0(j: int)
    requires 0 <= j < 10 && j < |UmpData|
    ensures NormalizeForMatching(UmpData[j].name) == NormalizedNames[j]
  {
    if j == 0 { Name0(); }
    else if j == 1 { Name1(); }
    else if j == 2 { Name2(); }
    else if j == 3 { Name3(); }
    else if j == 4 { Name4(); }
    else if j == 5 { Name5(); }
    else if j == 6 { Name6(); }
    else if j == 7 { Name7(); }
    else if j == 8 { Name8(); }
    else { Name9(); }
  }

  lemma NameAtFrom10(j: int)
    requires 10 <= j < 20 && j < |UmpData|
    ensures NormalizeForMatching(UmpData[j].name) == NormalizedNames[j]
  {
    if j == 10 { Name10(); }
    else if j == 11 { Name11(); }
    else if j == 12 { Name12(); }
    else if j == 13 { Name13(); }
    else if j == 14 { Name14(); }
    else if j == 15 { Name15(); }
    else if j == 16 { Name16(); }
    else if j == 17 { Name17(); }
    else if j == 18 { Name18(); }
    else { Name19(); }
  }

  lemma NameAtFrom20(j: int)
    requires 20 <= j < 30 && j < |UmpData|
    ensures NormalizeForMatching(UmpData[j].name) == NormalizedNames[j]
  {
    if j == 20 { Name20(); }
    else if j == 21 { Name21(); }
    else if j == 22 { Name22(); }
    else if j == 23 { Name23(); }
    else if j == 24 { Name24(); }
    else if j == 25 { Name25(); }
    else if j == 26 { Name26(); }
    else if j == 27 { Name27(); }
    else if j == 28 { Name28(); }
    else { Name29(); }
  }

  lemma NameAtFrom30(j: int)
    requires 30 <= j < 38 && j < |UmpData|
    ensures NormalizeForMatching(UmpData[j].name) == NormalizedNames[j]
  {
    if j == 30 { Name30(); }
    else if j == 31 { Name31(); }
    else if j == 32 { Name32(); }
    else if j == 33 { Name33(); }
    else if j == 34 { Name34(); }
    else if j == 35 { Name35(); }
    else if j == 36 { Name36(); }
    else { Name37(); }
  }

  lemma AliasCount0(k: int)
    requires 0 <= k < |UmpData[0].aliases|
    ensures k < 3 && k < |NormalizedAliases[0]|
  {
  }

  lemma AliasPick0(k: int)
    requires 0 <= k < 3
    ensures NormalizeForMatching(UmpData[0].aliases[k]) == NormalizedAliases[0][k]
  {
    if k == 0 { Alias0_0(k); } else if k == 1 { Alias0_1(k); } else { Alias0_2(k); }
  }

  lemma AliasesOf0(j: int, k: int)
    requires j == 0 && 0 <= k < |UmpData[j].aliases|
    ensures k < |NormalizedAliases[j]|
    ensures NormalizeForMatching(UmpData[j].aliases[k]) == NormalizedAliases[j][k]
  {
    AliasCount0(k);
    AliasPick0(k);
  }

  lemma AliasCount1(k: int)
    requires 0 <= k < |UmpData[1].aliases|
    ensures k < 2 && k < |NormalizedAliases[1]|
  {
  }

  lemma AliasPick1(k: int)
    requires 0 <= k < 2
    ensures NormalizeForMatching(UmpData[1].aliases[k]) == NormalizedAliases[1][k]
  {
    if k == 0 { Alias1_0(k); } else { Alias1_1(k); }
  }

  lemma AliasesOf1(j: int, k: int)
    requires j == 1 && 0 <= k < |UmpData[j].aliases|
    ensures k < |NormalizedAliases[j]|
    ensures NormalizeForMatching(UmpData[j].aliases[k]) == NormalizedAliases[j][k]
  {
    AliasCount1(k);
    AliasPick1(k);
  }

  lemma AliasCount2(k: int)
    requires 0 <= k < |UmpData[2].aliases|
    ensures k < 2 && k < |NormalizedAliases[2]|
  {
  }

  lemma AliasPick2(k: int)
    requires 0 <= k < 2
    ensures NormalizeForMatching(UmpData[2].aliases[k]) == NormalizedAliases[2][k]
  {
    if k == 0 { Alias2_0(k); } else { Alias2_1(k); }
  }

  lemma AliasesOf2(j: int, k: int)
    requires j == 2 && 0 <= k < |UmpData[j].aliases|
    ensures k < |NormalizedAliases[j]|
    ensures NormalizeForMatching(UmpData[j].aliases[k]) == NormalizedAliases[j][k]
  {
    AliasCount2(k);
    AliasPick2(k);
  }

  lemma AliasCount3(k: int)
    requires 0 <= k < |UmpData[3].aliases|
    ensures k < 1 && k < |NormalizedAliases[3]|
  {
  }

  lemma AliasPick3(k: int)
    requires 0 <= k < 1
    ensures NormalizeForMatching(UmpData[3].aliases[k]) == NormalizedAliases[3][k]
  {
    Alias3_0(k);
  }

  lemma AliasesOf3(j: int, k: int)
    requires j == 3 && 0 <= k < |UmpData[j].aliases|
    ensures k < |NormalizedAliases[j]|
    ensures NormalizeForMatching(UmpData[j].aliases[k]) == NormalizedAliases[j][k]
  {
    AliasCount3(k);
    AliasPick3(k);
  }

  lemma AliasCount4(k: int)
    requires 0 <= k < |UmpData[4].aliases|
    ensures k < 1 && k < |NormalizedAliases[4]|
  {
  }

  lemma AliasPick4(k: int)
    requires 0 <= k < 1
    ensures NormalizeForMatching(UmpData[4].aliases[k]) == NormalizedAliases[4][k]
  {
    Alias4_0(k);
  }

  lemma AliasesOf4(j: int, k: int)
    requires j == 4 && 0 <= k < |UmpData[j].aliases|
    ensures k < |NormalizedAliases[j]|
    ensures NormalizeForMatching(UmpData[j].aliases[k]) == NormalizedAliases[j][k]
  {
    AliasCount4(k);
    AliasPick4(k);
  }

  lemma AliasCount5(k: int)
    requires 0 <= k < |UmpData[5].aliases|
    ensures k < 2 && k < |NormalizedAliases[5]|
  {
  }

  lemma AliasPick5(k: int)
    requires 0 <= k < 2
    ensures NormalizeForMatching(UmpData[5].aliases[k]) == NormalizedAliases[5][k]
  {
    if k == 0 { Alias5_0(k); } else { Alias5_1(k); }
  }

  lemma AliasesOf5(j: int, k: int)
    requires j == 5 && 0 <= k < |UmpData[j].aliases|
    ensures k < |NormalizedAliases[j]|
    ensures NormalizeForMatching(UmpData[j].aliases[k]) == NormalizedAliases[j][k]
  {
    AliasCount5(k);
    AliasPick5(k);
  }

  lemma AliasCount6(k: int)
    requires 0 <= k < |UmpData[6].aliases|
    ensures k < 1 && k < |NormalizedAliases[6]|
  {
  }

  lemma AliasPick6(k: int)
    requires 0 <= k < 1
    ensures NormalizeForMatching(UmpData[6].aliases[k]) == NormalizedAliases[6][k]
  {
    Alias6_0(k);
  }

  lemma AliasesOf6(j: int, k: int)
    requires j == 6 && 0 <= k < |UmpData[j].aliases|
    ensures k < |NormalizedAliases[j]|
    ensures NormalizeForMatching(UmpData[j].aliases[k]) == NormalizedAliases[j][k]
  {
    AliasCount6(k);
    AliasPick6(k);
  }

  lemma AliasCount7(k: int)
    requires 0 <= k < |UmpData[7].aliases|
    ensures k < 1 && k < |NormalizedAliases[7]|
  {
  }

  lemma AliasPick7(k: int)
    requires 0 <= k < 1
    ensures NormalizeForMatching(UmpData[7].aliases[k]) == NormalizedAliases[7][k]
  {
    Alias7_0(k);
  }

  lemma AliasesOf7(j: int, k: int)
    requires j == 7 && 0 <= k < |UmpData[j].aliases|
    ensures k < |NormalizedAliases[j]|
    ensures NormalizeForMatching(UmpData[j].aliases[k]) == NormalizedAliases[j][k]
  {
    AliasCount7(k);
    AliasPick7(k);
  }

  lemma AliasCount8(k: int)
    requires 0 <= k < |UmpData[8].aliases|
    ensures k < 3 && k < |NormalizedAliases[8]|
  {
  }

  lemma AliasPick8(k: int)
    requires 0 <= k < 3
    ensures NormalizeForMatching(UmpData[8].aliases[k]) == NormalizedAliases[8][k]
  {
    if k == 0 { Alias8_0(k); } else if k == 1 { Alias8_1(k); } else { Alias8_2(k); }
  }

  lemma AliasesOf8(j: int, k: int)
    requires j == 8 && 0 <= k < |UmpData[j].aliases|
    ensures k < |NormalizedAliases[j]|
    ensures NormalizeForMatching(UmpData[j].aliases[k]) == NormalizedAliases[j][k]
  {
    AliasCount8(k);
    AliasPick8(k);
  }

  lemma AliasCount9(k: int)
    requires 0 <= k < |UmpData[9].aliases|
    ensures k < 2 && k < |NormalizedAliases[9]|
  {
  }

  lemma AliasPick9(k: int)
    requires 0 <= k < 2
    ensures NormalizeForMatching(UmpData[9].aliases[k]) == NormalizedAliases[9][k]
  {
    if k == 0 { Alias9_0(k); } else { Alias9_1(k); }
  }

  lemma AliasesOf9(j: int, k: int)
    requires j == 9 && 0 <= k < |UmpData[j].aliases|
    ensures k < |NormalizedAliases[j]|
    ensures NormalizeForMatching(UmpData[j].aliases[k]) == NormalizedAliases[j][k]
  {
    AliasCount9(k);
    AliasPick9(k);
  }

  lemma AliasCount10(k: int)
    requires 0 <= k < |UmpData[10].aliases|
    ensures k < 2 && k < |NormalizedAliases[10]|
  {
  }

  lemma AliasPick10(k: int)
    requires 0 <= k < 2
    ensures NormalizeForMatching(UmpData[10].aliases[k]) == NormalizedAliases[10][k]
  {
    if k == 0 { Alias10_0(k); } else { Alias10_1(k); }
  }

  lemma AliasesOf10(j: int, k: int)
    requires j == 10 && 0 <= k < |UmpData[j].aliases|
    ensures k < |NormalizedAliases[j]|
    ensures NormalizeForMatching(UmpData[j].aliases[k]) == NormalizedAliases[j][k]
  {
    AliasCount10(k);
    AliasPick10(k);
  }

  lemma AliasCount11(k: int)
    requires 0 <= k < |UmpData[11].aliases|
    ensures k < 2 && k < |NormalizedAliases[11]|
  {
  }

  lemma AliasPick11(k: int)
    requires 0 <= k < 2
    ensures NormalizeForMatching(UmpData[11].aliases[k]) == NormalizedAliases[11][k]
  {
    if k == 0 { Alias11_0(k); } else { Alias11_1(k); }
  }

  lemma AliasesOf11(j: int, k: int)
    requires j == 11 && 0 <= k < |UmpData[j].aliases|
    ensures k < |NormalizedAliases[j]|
    ensures NormalizeForMatching(UmpData[j].aliases[k]) == NormalizedAliases[j][k]
  {
    AliasCount11(k);
    AliasPick11(k);
  }

  lemma AliasCount12(k: int)
    requires 0 <= k < |UmpData[12].aliases|
    ensures k < 2 && k < |NormalizedAliases[12]|
  {
  }

  lemma AliasPick12(k: int)
    requires 0 <= k < 2
    ensures NormalizeForMatching(UmpData[12].aliases[k]) == NormalizedAliases[12][k]
  {
    if k == 0 { Alias12_0(k); } else { Alias12_1(k); }
  }

  lemma AliasesOf12(j: int, k: int)
    requires j == 12 && 0 <= k < |UmpData[j].aliases|
    ensures k < |NormalizedAliases[j]|
    ensures NormalizeForMatching(UmpData[j].aliases[k]) == NormalizedAliases[j][k]
  {
    AliasCount12(k);
    AliasPick12(k);
  }

  lemma AliasCount13(k: int)
    requires 0 <= k < |UmpData[13].aliases|
    ensures k < 4 && k < |NormalizedAliases[13]|
  {
  }

  lemma AliasPick13(k: int)
    requires 0 <= k < 4
    ensures NormalizeForMatching(UmpData[13].aliases[k]) == NormalizedAliases[13][k]
  {
    if k == 0 { Alias13_0(k); } else if k == 1 { Alias13_1(k); } else if k == 2 { Alias13_2(k); } else { Alias13_3(k); }
  }

  lemma AliasesOf13(j: int, k: int)
    requires j == 13 && 0 <= k < |UmpData[j].aliases|
    ensures k < |NormalizedAliases[j]|
    ensures NormalizeForMatching(UmpData[j].aliases[k]) == NormalizedAliases[j][k]
  {
    AliasCount13(k);
    AliasPick13(k);
  }

  lemma AliasCount14(k: int)
    requires 0 <= k < |UmpData[14].aliases|
    ensures k < 2 && k < |NormalizedAliases[14]|
  {
  }

  lemma AliasPick14(k: int)
    requires 0 <= k < 2
    ensures NormalizeForMatching(UmpData[14].aliases[k]) == NormalizedAliases[14][k]
  {
    if k == 0 { Alias14_0(k); } else { Alias14_1(k); }
  }

  lemma AliasesOf14(j: int, k: int)
    requires j == 14 && 0 <= k < |UmpData[j].aliases|
    ensures k < |NormalizedAliases[j]|
    ensures NormalizeForMatching(UmpData[j].aliases[k]) == NormalizedAliases[j][k]
  {
    AliasCount14(k);
    AliasPick14(k);
  }

  lemma AliasCount15(k: int)
    requires 0 <= k < |UmpData[15].aliases|
    ensures k < 1 && k < |NormalizedAliases[15]|
  {
  }

  lemma AliasPick15(k: int)
    requires 0 <= k < 1
    ensures NormalizeForMatching(UmpData[15].aliases[k]) == NormalizedAliases[15][k]
  {
    Alias15_0(k);
  }

  lemma AliasesOf15(j: int, k: int)
    requires j == 15 && 0 <= k < |UmpData[j].aliases|
    ensures k < |NormalizedAliases[j]|
    ensures NormalizeForMatching(UmpData[j].aliases[k]) == NormalizedAliases[j][k]
  {
    AliasCount15(k);
    AliasPick15(k);
  }

  lemma AliasCount16(k: int)
    requires 0 <= k < |UmpData[16].aliases|
    ensures k < 1 && k < |NormalizedAliases[16]|
  {
  }

  lemma AliasPick16(k: int)
    requires 0 <= k < 1
    ensures NormalizeForMatching(UmpData[16].aliases[k]) == NormalizedAliases[16][k]
  {
    Alias16_0(k);
  }

  lemma AliasesOf16(j: int, k: int)
    requires j == 16 && 0 <= k < |UmpData[j].aliases|
    ensures k < |NormalizedAliases[j]|
    ensures NormalizeForMatching(UmpData[j].aliases[k]) == NormalizedAliases[j][k]
  {
    AliasCount16(k);
    AliasPick16(k);
  }

  lemma AliasCount17(k: int)
    requires 0 <= k < |UmpData[17].aliases|
    ensures k < 2 && k < |NormalizedAliases[17]|
  {
  }

  lemma AliasPick17(k: int)
    requires 0 <= k < 2
    ensures NormalizeForMatching(UmpData[17].aliases[k]) == NormalizedAliases[17][k]
  {
    if k == 0 { Alias17_0(k); } else { Alias17_1(k); }
  }

  lemma AliasesOf17(j: int, k: int)
    requires j == 17 && 0 <= k < |UmpData[j].aliases|
    ensures k < |NormalizedAliases[j]|
    ensures NormalizeForMatching(UmpData[j].aliases[k]) == NormalizedAliases[j][k]
  {
    AliasCount17(k);
    AliasPick17(k);
  }

  lemma AliasCount18(k: int)
    requires 0 <= k < |UmpData[18].aliases|
    ensures k < 2 && k < |NormalizedAliases[18]|
  {
  }

  lemma AliasPick18(k: int)
    requires 0 <= k < 2
    ensures NormalizeForMatching(UmpData[18].aliases[k]) == NormalizedAliases[18][k]
  {
    if k == 0 { Alias18_0(k); } else { Alias18_1(k); }
  }

  lemma AliasesOf18(j: int, k: int)
    requires j == 18 && 0 <= k < |UmpData[j].aliases|
    ensures k < |NormalizedAliases[j]|
    ensures NormalizeForMatching(UmpData[j].aliases[k]) == NormalizedAliases[j][k]
  {
    AliasCount18(k);
    AliasPick18(k);
  }

  lemma AliasCount19(k: int)
    requires 0 <= k < |UmpData[19].aliases|
    ensures k < 2 && k < |NormalizedAliases[19]|
  {
  }

  lemma AliasPick19(k: int)
    requires 0 <= k < 2
    ensures NormalizeForMatching(UmpData[19].aliases[k]) == NormalizedAliases[19][k]
  {
    if k == 0 { Alias19_0(k); } else { Alias19_1(k); }
  }

  lemma AliasesOf19(j: int, k: int)
    requires j == 19 && 0 <= k < |UmpData[j].aliases|
    ensures k < |NormalizedAliases[j]|
    ensures NormalizeForMatching(UmpData[j].aliases[k]) == NormalizedAliases[j][k]
  {
    AliasCount19(k);
    AliasPick19(k);
  }

  lemma AliasCount20(k: int)
    requires 0 <= k < |UmpData[20].aliases|
    ensures k < 2 && k < |NormalizedAliases[20]|
  {
  }

  lemma AliasPick20(k: int)
    requires 0 <= k < 2
    ensures NormalizeForMatching(UmpData[20].aliases[k]) == NormalizedAliases[20][k]
  {
    if k == 0 { Alias20_0(k); } else { Alias20_1(k); }
  }

  lemma AliasesOf20(j: int, k: int)
    requires j == 20 && 0 <= k < |UmpData[j].aliases|
    ensures k < |NormalizedAliases[j]|
    ensures NormalizeForMatching(UmpData[j].aliases[k]) == NormalizedAliases[j][k]
  {
    AliasCount20(k);
    AliasPick20(k);
  }

  lemma AliasCount21(k: int)
    requires 0 <= k < |UmpData[21].aliases|
    ensures k < 2 && k < |NormalizedAliases[21]|
  {
  }

  lemma AliasPick21(k: int)
    requires 0 <= k < 2
    ensures NormalizeForMatching(UmpData[21].aliases[k]) == NormalizedAliases[21][k]
  {
    if k == 0 { Alias21_0(k); } else { Alias21_1(k); }
  }

  lemma AliasesOf21(j: int, k: int)
    requires j == 21 && 0 <= k < |UmpData[j].aliases|
    ensures k < |NormalizedAliases[j]|
    ensures NormalizeForMatching(UmpData[j].aliases[k]) == NormalizedAliases[j][k]
  {
    AliasCount21(k);
    AliasPick21(k);
  }

  lemma AliasCount22(k: int)
    requires 0 <= k < |UmpData[22].aliases|
    ensures k < 2 && k < |NormalizedAliases[22]|
  {
  }

  lemma AliasPick22(k: int)
    requires 0 <= k < 2
    ensures NormalizeForMatching(UmpData[22].aliases[k]) == NormalizedAliases[22][k]
  {
    if k == 0 { Alias22_0(k); } else { Alias22_1(k); }
  }

  lemma AliasesOf22(j: int, k: int)
    requires j == 22 && 0 <= k < |UmpData[j].aliases|
    ensures k < |NormalizedAliases[j]|
    ensures NormalizeForMatching(UmpData[j].aliases[k]) == NormalizedAliases[j][k]
  {
    AliasCount22(k);
    AliasPick22(k);
  }

  lemma AliasCount23(k: int)
    requires 0 <= k < |UmpData[23].aliases|
    ensures k < 2 && k < |NormalizedAliases[23]|
  {
  }

  lemma AliasPick23(k: int)
    requires 0 <= k < 2
    ensures NormalizeForMatching(UmpData[23].aliases[k]) == NormalizedAliases[23][k]
  {
    if k == 0 { Alias23_0(k); } else { Alias23_1(k); }
  }

  lemma AliasesOf23(j: int, k: int)
    requires j == 23 && 0 <= k < |UmpData[j].aliases|
    ensures k < |NormalizedAliases[j]|
    ensures NormalizeForMatching(UmpData[j].aliases[k]) == NormalizedAliases[j][k]
  {
    AliasCount23(k);
    AliasPick23(k);
  }

  lemma AliasCount24(k: int)
    requires 0 <= k < |UmpData[24].aliases|
    ensures k < 2 && k < |NormalizedAliases[24]|
  {
  }

  lemma AliasPick24(k: int)
    requires 0 <= k < 2
    ensures NormalizeForMatching(UmpData[24].aliases[k]) == NormalizedAliases[24][k]
  {
    if k == 0 { Alias24_0(k); } else { Alias24_1(k); }
  }

  lemma AliasesOf24(j: int, k: int)
    requires j == 24 && 0 <= k < |UmpData[j].aliases|
    ensures k < |NormalizedAliases[j]|
    ensures NormalizeForMatching(UmpData[j].aliases[k]) == NormalizedAliases[j][k]
  {
    AliasCount24(k);
    AliasPick24(k);
  }

  lemma AliasCount25(k: int)
    requires 0 <= k < |UmpData[25].aliases|
    ensures k < 2 && k < |NormalizedAliases[25]|
  {
  }

  lemma AliasPick25(k: int)
    requires 0 <= k < 2
    ensures NormalizeForMatching(UmpData[25].aliases[k]) == NormalizedAliases[25][k]
  {
    if k == 0 { Alias25_0(k); } else { Alias25_1(k); }
  }

  lemma AliasesOf25(j: int, k: int)
    requires j == 25 && 0 <= k < |UmpData[j].aliases|
    ensures k < |NormalizedAliases[j]|
    ensures NormalizeForMatching(UmpData[j].aliases[k]) == NormalizedAliases[j][k]
  {
    AliasCount25(k);
    AliasPick25(k);
  }

  lemma AliasCount26(k: int)
    requires 0 <= k < |UmpData[26].aliases|
    ensures k < 2 && k < |NormalizedAliases[26]|
  {
  }

  lemma AliasPick26(k: int)
    requires 0 <= k < 2
    ensures NormalizeForMatching(UmpData[26].aliases[k]) == NormalizedAliases[26][k]
  {
    if k == 0 { Alias26_0(k); } else { Alias26_1(k); }
  }

  lemma AliasesOf26(j: int, k: int)
    requires j == 26 && 0 <= k < |UmpData[j].aliases|
    ensures k < |NormalizedAliases[j]|
    ensures NormalizeForMatching(UmpData[j].aliases[k]) == NormalizedAliases[j][k]
  {
    AliasCount26(k);
    AliasPick26(k);
  }

  lemma AliasCount27(k: int)
    requires 0 <= k < |UmpData[27].aliases|
    ensures k < 2 && k < |NormalizedAliases[27]|
  {
  }

  lemma AliasPick27(k: int)
    requires 0 <= k < 2
    ensures NormalizeForMatching(UmpData[27].aliases[k]) == NormalizedAliases[27][k]
  {
    if k == 0 { Alias27_0(k); } else { Alias27_1(k); }
  }

  lemma AliasesOf27(j: int, k: int)
    requires j == 27 && 0 <= k < |UmpData[j].aliases|
    ensures k < |NormalizedAliases[j]|
    ensures NormalizeForMatching(UmpData[j].aliases[k]) == NormalizedAliases[j][k]
  {
    AliasCount27(k);
    AliasPick27(k);
  }

  lemma AliasCount28(k: int)
    requires 0 <= k < |UmpData[28].aliases|
    ensures k < 1 && k < |NormalizedAliases[28]|
  {
  }

  lemma AliasPick28(k: int)
    requires 0 <= k < 1
    ensures NormalizeForMatching(UmpData[28].aliases[k]) == NormalizedAliases[28][k]
  {
    Alias28_0(k);
  }

  lemma AliasesOf28(j: int, k: int)
    requires j == 28 && 0 <= k < |UmpData[j].aliases|
    ensures k < |NormalizedAliases[j]|
    ensures NormalizeForMatching(UmpData[j].aliases[k]) == NormalizedAliases[j][k]
  {
    AliasCount28(k);
    AliasPick28(k);
  }

  lemma AliasCount29(k: int)
    requires 0 <= k < |UmpData[29].aliases|
    ensures k < 2 && k < |NormalizedAliases[29]|
  {
  }

  lemma AliasPick29(k: int)
    requires 0 <= k < 2
    ensures NormalizeForMatching(UmpData[29].aliases[k]) == NormalizedAliases[29][k]
  {
    if k == 0 { Alias29_0(k); } else { Alias29_1(k); }
  }

  lemma AliasesOf29(j: int, k: int)
    requires j == 29 && 0 <= k < |UmpData[j].aliases|
    ensures k < |NormalizedAliases[j]|
    ensures NormalizeForMatching(UmpData[j].aliases[k]) == NormalizedAliases[j][k]
  {
    AliasCount29(k);
    AliasPick29(k);
  }

  lemma AliasCount30(k: int)
    requires 0 <= k < |UmpData[30].aliases|
    ensures k < 1 && k < |NormalizedAliases[30]|
  {
  }

  lemma AliasPick30(k: int)
    requires 0 <= k < 1
    ensures NormalizeForMatching(UmpData[30].aliases[k]) == NormalizedAliases[30][k]
  {
    Alias30_0(k);
  }

  lemma AliasesOf30(j: int, k: int)
    requires j == 30 && 0 <= k < |UmpData[j].aliases|
    ensures k < |NormalizedAliases[j]|
    ensures NormalizeForMatching(UmpData[j].aliases[k]) == NormalizedAliases[j][k]
  {
    AliasCount30(k);
    AliasPick30(k);
  }

  lemma AliasCount31(k: int)
    requires 0 <= k < |UmpData[31].aliases|
    ensures k < 2 && k < |NormalizedAliases[31]|
  {
  }

  lemma AliasPick31(k: int)
    requires 0 <= k < 2
    ensures NormalizeForMatching(UmpData[31].aliases[k]) == NormalizedAliases[31][k]
  {
    if k == 0 { Alias31_0(k); } else { Alias31_1(k); }
  }

  lemma AliasesOf31(j: int, k: int)
    requires j == 31 && 0 <= k < |UmpData[j].aliases|
    ensures k < |NormalizedAliases[j]|
    ensures NormalizeForMatching(UmpData[j].aliases[k]) == NormalizedAliases[j][k]
  {
    AliasCount31(k);
    AliasPick31(k);
  }

  lemma AliasCount32(k: int)
    requires 0 <= k < |UmpData[32].aliases|
    ensures k < 1 && k < |NormalizedAliases[32]|
  {
  }

  lemma AliasPick32(k: int)
    requires 0 <= k < 1
    ensures NormalizeForMatching(UmpData[32].aliases[k]) == NormalizedAliases[32][k]
  {
    Alias32_0(k);
  }

  lemma AliasesOf32(j: int, k: int)
    requires j == 32 && 0 <= k < |UmpData[j].aliases|
    ensures k < |NormalizedAliases[j]|
    ensures NormalizeForMatching(UmpData[j].aliases[k]) == NormalizedAliases[j][k]
  {
    AliasCount32(k);
    AliasPick32(k);
  }

  lemma AliasCount33(k: int)
    requires 0 <= k < |UmpData[33].aliases|
    ensures k < 1 && k < |NormalizedAliases[33]|
  {
  }

  lemma AliasPick33(k: int)
    requires 0 <= k < 1
    ensures NormalizeForMatching(UmpData[33].aliases[k]) == NormalizedAliases[33][k]
  {
    Alias33_0(k);
  }

  lemma AliasesOf33(j: int, k: int)
    requires j == 33 && 0 <= k < |UmpData[j].aliases|
    ensures k < |NormalizedAliases[j]|
    ensures NormalizeForMatching(UmpData[j].aliases[k]) == NormalizedAliases[j][k]
  {
    AliasCount33(k);
    AliasPick33(k);
  }

  lemma AliasCount34(k: int)
    requires 0 <= k < |UmpData[34].aliases|
    ensures k < 1 && k < |NormalizedAliases[34]|
  {
  }

  lemma AliasPick34(k: int)
    requires 0 <= k < 1
    ensures NormalizeForMatching(UmpData[34].aliases[k]) == NormalizedAliases[34][k]
  {
    Alias34_0(k);
  }

  lemma AliasesOf34(j: int, k: int)
    requires j == 34 && 0 <= k < |UmpData[j].aliases|
    ensures k < |NormalizedAliases[j]|
    ensures NormalizeForMatching(UmpData[j].aliases[k]) == NormalizedAliases[j][k]
  {
    AliasCount34(k);
    AliasPick34(k);
  }

  lemma AliasCount35(k: int)
    requires 0 <= k < |UmpData[35].aliases|
    ensures k < 1 && k < |NormalizedAliases[35]|
  {
  }

  lemma AliasPick35(k: int)
    requires 0 <= k < 1
    ensures NormalizeForMatching(UmpData[35].aliases[k]) == NormalizedAliases[35][k]
  {
    Alias35_0(k);
  }

  lemma AliasesOf35(j: int, k: int)
    requires j == 35 && 0 <= k < |UmpData[j].aliases|
    ensures k < |NormalizedAliases[j]|
    ensures NormalizeForMatching(UmpData[j].aliases[k]) == NormalizedAliases[j][k]
  {
    AliasCount35(k);
    AliasPick35(k);
  }

  lemma AliasCount36(k: int)
    requires 0 <= k < |UmpData[36].aliases|
    ensures k < 1 && k < |NormalizedAliases[36]|
  {
  }

  lemma AliasPick36(k: int)
    requires 0 <= k < 1
    ensures NormalizeForMatching(UmpData[36].aliases[k]) == NormalizedAliases[36][k]
  {
    Alias36_0(k);
  }

  lemma AliasesOf36(j: int, k: int)
    requires j == 36 && 0 <= k < |UmpData[j].aliases|
    ensures k < |NormalizedAliases[j]|
    ensures NormalizeForMatching(UmpData[j].aliases[k]) == NormalizedAliases[j][k]
  {
    AliasCount36(k);
    AliasPick36(k);
  }

  lemma AliasCount37(k: int)
    requires 0 <= k < |UmpData[37].aliases|
    ensures k < 1 && k < |NormalizedAliases[37]|
  {
  }

  lemma AliasPick37(k: int)
    requires 0 <= k < 1
    ensures NormalizeForMatching(UmpData[37].aliases[k]) == NormalizedAliases[37][k]
  {
    Alias37_0(k);
  }

  lemma AliasesOf37(j: int, k: int)
    requires j == 37 && 0 <= k < |UmpData[j].aliases|
    ensures k < |NormalizedAliases[j]|
    ensures NormalizeForMatching(UmpData[j].aliases[k]) == NormalizedAliases[j][k]
  {
    AliasCount37(k);
    AliasPick37(k);
  }

  /** The normalised aliases of every entry, as listed in `NormalizedAliases`. */
  lemma AliasAt(j: int, k: int)
    requires 0 <= j < |UmpData| && 0 <= k < |UmpData[j].aliases|
    ensures k < |NormalizedAliases[j]|
    ensures NormalizeForMatching(UmpData[j].aliases[k]) == NormalizedAliases[j][k]
  {
    TableIds();
    if j < 5 { AliasAtFrom0(j, k); }
    else if j < 10 { AliasAtFrom5(j, k); }
    else if j < 15 { AliasAtFrom10(j, k); }
    else if j < 20 { AliasAtFrom15(j, k); }
    else if j < 25 { AliasAtFrom20(j, k); }
    else if j < 30 { AliasAtFrom25(j, k); }
    else if j < 35 { AliasAtFrom30(j, k); }
    else { AliasAtFrom35(j, k); }
  }

  lemma AliasAtFrom0(j: int, k: int)
    requires 0 <= j < 5 && j < |UmpData| && 0 <= k < |UmpData[j].aliases|
    ensures k < |NormalizedAliases[j]|
    ensures NormalizeForMatching(UmpData[j].aliases[k]) == NormalizedAliases[j][k]
  {
    if j == 0 { AliasesOf0(j, k); }
    else if j == 1 { AliasesOf1(j, k); }
    else if j == 2 { AliasesOf2(j, k); }
    else if j == 3 { AliasesOf3(j, k); }
    else { AliasesOf4(j, k); }
  }

  lemma AliasAtFrom5(j: int, k: int)
    requires 5 <= j < 10 && j < |UmpData| && 0 <= k < |UmpData[j].aliases|
    ensures k < |NormalizedAliases[j]|
    ensures NormalizeForMatching(UmpData[j].aliases[k]) == NormalizedAliases[j][k]
  {
    if j == 5 { AliasesOf5(j, k); }
    else if j == 6 { AliasesOf6(j, k); }
    else if j == 7 { AliasesOf7(j, k); }
    else if j == 8 { AliasesOf8(j, k); }
    else { AliasesOf9(j, k); }
  }

  lemma AliasAtFrom10(j: int, k: int)
    requires 10 <= j < 15 && j < |UmpData| && 0 <= k < |UmpData[j].aliases|
    ensures k < |NormalizedAliases[j]|
    ensures NormalizeForMatching(UmpData[j].aliases[k]) == NormalizedAliases[j][k]
  {
    if j == 10 { AliasesOf10(j, k); }
    else if j == 11 { AliasesOf11(j, k); }
    else if j == 12 { AliasesOf12(j, k); }
    else if j == 13 { AliasesOf13(j, k); }
    else { AliasesOf14(j, k); }
  }

  lemma AliasAtFrom15(j: int, k: int)
    requires 15 <= j < 20 && j < |UmpData| && 0 <= k < |UmpData[j].aliases|
    ensures k < |NormalizedAliases[j]|
    ensures NormalizeForMatching(UmpData[j].aliases[k]) == NormalizedAliases[j][k]
  {
    if j == 15 { AliasesOf15(j, k); }
    else if j == 16 { AliasesOf16(j, k); }
    else if j == 17 { AliasesOf17(j, k); }
    else if j == 18 { AliasesOf18(j, k); }
    else { AliasesOf19(j, k); }
  }

  lemma AliasAtFrom20(j: int, k: int)
    requires 20 <= j < 25 && j < |UmpData| && 0 <= k < |UmpData[j].aliases|
    ensures k < |NormalizedAliases[j]|
    ensures NormalizeForMatching(UmpData[j].aliases[k]) == NormalizedAliases[j][k]
  {
    if j == 20 { AliasesOf20(j, k); }
    else if j == 21 { AliasesOf21(j, k); }
    else if j == 22 { AliasesOf22(j, k); }
    else if j == 23 { AliasesOf23(j, k); }
    else { AliasesOf24(j, k); }
  }

  lemma AliasAtFrom25(j: int, k: int)
    requires 25 <= j < 30 && j < |UmpData| && 0 <= k < |UmpData[j].aliases|
    ensures k < |NormalizedAliases[j]|
    ensures NormalizeForMatching(UmpData[j].aliases[k]) == NormalizedAliases[j][k]
  {
    if j == 25 { AliasesOf25(j, k); }
    else if j == 26 { AliasesOf26(j, k); }
    else if j == 27 { AliasesOf27(j, k); }
    else if j == 28 { AliasesOf28(j, k); }
    else { AliasesOf29(j, k); }
  }

  lemma AliasAtFrom30(j: int, k: int)
    requires 30 <= j < 35 && j < |UmpData| && 0 <= k < |UmpData[j].aliases|
    ensures k < |NormalizedAliases[j]|
    ensures NormalizeForMatching(UmpData[j].aliases[k]) == NormalizedAliases[j][k]
  {
    if j == 30 { AliasesOf30(j, k); }
    else if j == 31 { AliasesOf31(j, k); }
    else if j == 32 { AliasesOf32(j, k); }
    else if j == 33 { AliasesOf33(j, k); }
    else { AliasesOf34(j, k); }
  }

  lemma AliasAtFrom35(j: int, k: int)
    requires 35 <= j < 38 && j < |UmpData| && 0 <= k < |UmpData[j].aliases|
    ensures k < |NormalizedAliases[j]|
    ensures NormalizeForMatching(UmpData[j].aliases[k]) == NormalizedAliases[j][k]
  {
    if j == 35 { AliasesOf35(j, k); }
    else if j == 36 { AliasesOf36(j, k); }
    else { AliasesOf37(j, k); }
  }

  lemma IdOnce0()
    ensures forall j :: 0 <= j < |Ids| && j != 0 ==> Ids[j] != Ids[0]
  {
  }

  lemma IdOnce1()
    ensures forall j :: 0 <= j < |Ids| && j != 1 ==> Ids[j] != Ids[1]
  {
  }

  lemma IdOnce2()
    ensures forall j :: 0 <= j < |Ids| && j != 2 ==> Ids[j] != Ids[2]
  {
  }

  lemma IdOnce3()
    ensures forall j :: 0 <= j < |Ids| && j != 3 ==> Ids[j] != Ids[3]
  {
  }

  lemma IdOnce4()
    ensures forall j :: 0 <= j < |Ids| && j != 4 ==> Ids[j] != Ids[4]
  {
  }

  lemma IdOnce5()
    ensures forall j :: 0 <= j < |Ids| && j != 5 ==> Ids[j] != Ids[5]
  {
  }

  lemma IdOnce6()
    ensures forall j :: 0 <= j < |Ids| && j != 6 ==> Ids[j] != Ids[6]
  {
  }

  lemma IdOnce7()
    ensures forall j :: 0 <= j < |Ids| && j != 7 ==> Ids[j] != Ids[7]
  {
  }

  lemma IdOnce8()
    ensures forall j :: 0 <= j < |Ids| && j != 8 ==> Ids[j] != Ids[8]
  {
  }

  lemma IdOnce9()
    ensures forall j :: 0 <= j < |Ids| && j != 9 ==> Ids[j] != Ids[9]
  {
  }

  lemma IdOnce10()
    ensures forall j :: 0 <= j < |Ids| && j != 10 ==> Ids[j] != Ids[10]
  {
  }

  lemma IdOnce11()
    ensures forall j :: 0 <= j < |Ids| && j != 11 ==> Ids[j] != Ids[11]
  {
  }

  lemma IdOnce12()
    ensures forall j :: 0 <= j < |Ids| && j != 12 ==> Ids[j] != Ids[12]
  {
  }

  lemma IdOnce13()
    ensures forall j :: 0 <= j < |Ids| && j != 13 ==> Ids[j] != Ids[13]
  {
  }

  lemma IdOnce14()
    ensures forall j :: 0 <= j < |Ids| && j != 14 ==> Ids[j] != Ids[14]
  {
  }

  lemma IdOnce15()
    ensures forall j :: 0 <= j < |Ids| && j != 15 ==> Ids[j] != Ids[15]
  {
  }

  lemma IdOnce16()
    ensures forall j :: 0 <= j < |Ids| && j != 16 ==> Ids[j] != Ids[16]
  {
  }

  lemma IdOnce17()
    ensures forall j :: 0 <= j < |Ids| && j != 17 ==> Ids[j] != Ids[17]
  {
  }

  lemma IdOnce18()
    ensures forall j :: 0 <= j < |Ids| && j != 18 ==> Ids[j] != Ids[18]
  {
  }

  lemma IdOnce19()
    ensures forall j :: 0 <= j < |Ids| && j != 19 ==> Ids[j] != Ids[19]
  {
  }

  lemma IdOnce20()
    ensures forall j :: 0 <= j < |Ids| && j != 20 ==> Ids[j] != Ids[20]
  {
  }

  lemma IdOnce21()
    ensures forall j :: 0 <= j < |Ids| && j != 21 ==> Ids[j] != Ids[21]
  {
  }

  lemma IdOnce22()
    ensures forall j :: 0 <= j < |Ids| && j != 22 ==> Ids[j] != Ids[22]
  {
  }

  lemma IdOnce23()
    ensures forall j :: 0 <= j < |Ids| && j != 23 ==> Ids[j] != Ids[23]
  {
  }

  lemma IdOnce24()
    ensures forall j :: 0 <= j < |Ids| && j != 24 ==> Ids[j] != Ids[24]
  {
  }

  lemma IdOnce25()
    ensures forall j :: 0 <= j < |Ids| && j != 25 ==> Ids[j] != Ids[25]
  {
  }

  lemma IdOnce26()
    ensures forall j :: 0 <= j < |Ids| && j != 26 ==> Ids[j] != Ids[26]
  {
  }

  lemma IdOnce27()
    ensures forall j :: 0 <= j < |Ids| && j != 27 ==> Ids[j] != Ids[27]
  {
  }

  lemma IdOnce28()
    ensures forall j :: 0 <= j < |Ids| && j != 28 ==> Ids[j] != Ids[28]
  {
  }

  lemma IdOnce29()
    ensures forall j :: 0 <= j < |Ids| && j != 29 ==> Ids[j] != Ids[29]
  {
  }

  lemma IdOnce30()
    ensures forall j :: 0 <= j < |Ids| && j != 30 ==> Ids[j] != Ids[30]
  {
  }

  lemma IdOnce31()
    ensures forall j :: 0 <= j < |Ids| && j != 31 ==> Ids[j] != Ids[31]
  {
  }

  lemma IdOnce32()
    ensures forall j :: 0 <= j < |Ids| && j != 32 ==> Ids[j] != Ids[32]
  {
  }

  lemma IdOnce33()
    ensures forall j :: 0 <= j < |Ids| && j != 33 ==> Ids[j] != Ids[33]
  {
  }

  lemma IdOnce34()
    ensures forall j :: 0 <= j < |Ids| && j != 34 ==> Ids[j] != Ids[34]
  {
  }

  lemma IdOnce35()
    ensures forall j :: 0 <= j < |Ids| && j != 35 ==> Ids[j] != Ids[35]
  {
  }

  lemma IdOnce36()
    ensures forall j :: 0 <= j < |Ids| && j != 36 ==> Ids[j] != Ids[36]
  {
  }

  lemma IdOnce37()
    ensures forall j :: 0 <= j < |Ids| && j != 37 ==> Ids[j] != Ids[37]
  {
  }

  /** No other entry has the id of entry `i`. */
  lemma IdOnce(i: int)
    requires 0 <= i < |Ids|
    ensures forall j :: 0 <= j < |Ids| && j != i ==> Ids[j] != Ids[i]
  {
    if i < 10 { IdOnceFrom0(i); }
    else if i < 20 { IdOnceFrom10(i); }
    else if i < 30 { IdOnceFrom20(i); }
    else { IdOnceFrom30(i); }
  }

  lemma IdOnceFrom0(i: int)
    requires 0 <= i < 10 && i < |Ids|
    ensures forall j :: 0 <= j < |Ids| && j != i ==> Ids[j] != Ids[i]
  {
    if i == 0 { IdOnce0(); }
    else if i == 1 { IdOnce1(); }
    else if i == 2 { IdOnce2(); }
    else if i == 3 { IdOnce3(); }
    else if i == 4 { IdOnce4(); }
    else if i == 5 { IdOnce5(); }
    else if i == 6 { IdOnce6(); }
    else if i == 7 { IdOnce7(); }
    else if i == 8 { IdOnce8(); }
    else { IdOnce9(); }
  }

  lemma IdOnceFrom10(i: int)
    requires 10 <= i < 20 && i < |Ids|
    ensures forall j :: 0 <= j < |Ids| && j != i ==> Ids[j] != Ids[i]
  {
    if i == 10 { IdOnce10(); }
    else if i == 11 { IdOnce11(); }
    else if i == 12 { IdOnce12(); }
    else if i == 13 { IdOnce13(); }
    else if i == 14 { IdOnce14(); }
    else if i == 15 { IdOnce15(); }
    else if i == 16 { IdOnce16(); }
    else if i == 17 { IdOnce17(); }
    else if i == 18 { IdOnce18(); }
    else { IdOnce19(); }
  }

  lemma IdOnceFrom20(i: int)
    requires 20 <= i < 30 && i < |Ids|
    ensures forall j :: 0 <= j < |Ids| && j != i ==> Ids[j] != Ids[i]
  {
    if i == 20 { IdOnce20(); }
    else if i == 21 { IdOnce21(); }
    else if i == 22 { IdOnce22(); }
    else if i == 23 { IdOnce23(); }
    else if i == 24 { IdOnce24(); }
    else if i == 25 { IdOnce25(); }
    else if i == 26 { IdOnce26(); }
    else if i == 27 { IdOnce27(); }
    else if i == 28 { IdOnce28(); }
    else { IdOnce29(); }
  }

  lemma IdOnceFrom30(i: int)
    requires 30 <= i < 38 && i < |Ids|
    ensures forall j :: 0 <= j < |Ids| && j != i ==> Ids[j] != Ids[i]
  {
    if i == 30 { IdOnce30(); }
    else if i == 31 { IdOnce31(); }
    else if i == 32 { IdOnce32(); }
    else if i == 33 { IdOnce33(); }
    else if i == 34 { IdOnce34(); }
    else if i == 35 { IdOnce35(); }
    else if i == 36 { IdOnce36(); }
    else { IdOnce37(); }
  }

  lemma AliasCounts()
    ensures |UmpData| == |NormalizedAliases|
    ensures forall j :: 0 <= j < |UmpData| ==> |UmpData[j].aliases| == |NormalizedAliases[j]|
  {
  }

  /** Entry `j` matches `x` by name or by alias exactly when `x` is one of its normalised spellings. */
  lemma ExactTierAt(j: int, x: string)
    requires 0 <= j < |UmpData|
    ensures TierOf(UmpData[j], x) in {1, 2} <==> x == NormalizedNames[j] || x in NormalizedAliases[j]
  {
    NameAt(j);
    AliasMatchesAt(j, x);
    ExactTiers(UmpData[j], x);
  }

  lemma AliasMatchesAt(j: int, x: string)
    requires 0 <= j < |UmpData|
    ensures AliasMatches(UmpData[j], x) <==> x in NormalizedAliases[j]
  {
    AliasCounts();
    var aliases, normalized := UmpData[j].aliases, NormalizedAliases[j];
    forall k | 0 <= k < |aliases| ensures NormalizeForMatching(aliases[k]) == normalized[k] {
      AliasAt(j, k);
    }
    if x in normalized {
      var k :| 0 <= k < |normalized| && normalized[k] == x;
      assert NormalizeForMatching(aliases[k]) == x;
    }
  }

  lemma SpellingCounts()
    ensures |NormalizedNames| == |NormalizedAliases| == |UmpData|
  {
    TableIds();
  }

  lemma Spellings0(x: string)
    requires x == NormalizedNames[0] || x in NormalizedAliases[0]
    ensures x in ["ACEH", "NAD", "NANGGROE ACEH DARUSSALAM"]
  {
  }

  lemma NamesOutside0()
    ensures forall j :: 0 <= j < |NormalizedNames| && j != 0 ==> "ACEH" != NormalizedNames[j] && "NAD" != NormalizedNames[j] && "NANGGROE ACEH DARUSSALAM" != NormalizedNames[j]
  {
  }

  lemma AliasesOutside0()
    ensures forall j :: 0 <= j < |NormalizedAliases| && j != 0 ==> "ACEH" !in NormalizedAliases[j] && "NAD" !in NormalizedAliases[j] && "NANGGROE ACEH DARUSSALAM" !in NormalizedAliases[j]
  {
    AliasesBelow19Outside0();
    AliasesFrom19Outside0();
  }

  lemma AliasesBelow19Outside0()
    ensures forall j :: 0 <= j < 19 && j != 0 ==> "ACEH" !in NormalizedAliases[j] && "NAD" !in NormalizedAliases[j] && "NANGGROE ACEH DARUSSALAM" !in NormalizedAliases[j]
  {
  }

  lemma AliasesFrom19Outside0()
    ensures |NormalizedAliases| == 38
    ensures forall j :: 19 <= j < 38 && j != 0 ==> "ACEH" !in NormalizedAliases[j] && "NAD" !in NormalizedAliases[j] && "NANGGROE ACEH DARUSSALAM" !in NormalizedAliases[j]
  {
  }

  lemma Unique0(x: string)
    requires x == NormalizedNames[0] || x in NormalizedAliases[0]
    ensures forall j :: 0 <= j < |NormalizedNames| && j != 0 ==> x != NormalizedNames[j]
    ensures forall j :: 0 <= j < |NormalizedAliases| && j != 0 ==> x !in NormalizedAliases[j]
  {
    Spellings0(x);
    NamesOutside0();
    AliasesOutside0();
  }

  lemma Spellings1(x: string)
    requires x == NormalizedNames[1] || x in NormalizedAliases[1]
    ensures x in ["SUMATERA UTARA", "SUMUT"]
  {
  }

  lemma NamesOutside1()
    ensures forall j :: 0 <= j < |NormalizedNames| && j != 1 ==> "SUMATERA UTARA" != NormalizedNames[j] && "SUMUT" != NormalizedNames[j]
  {
  }

  lemma AliasesOutside1()
    ensures forall j :: 0 <= j < |NormalizedAliases| && j != 1 ==> "SUMATERA UTARA" !in NormalizedAliases[j] && "SUMUT" !in NormalizedAliases[j]
  {
    AliasesBelow19Outside1();
    AliasesFrom19Outside1();
  }

  lemma AliasesBelow19Outside1()
    ensures forall j :: 0 <= j < 19 && j != 1 ==> "SUMATERA UTARA" !in NormalizedAliases[j] && "SUMUT" !in NormalizedAliases[j]
  {
  }

  lemma AliasesFrom19Outside1()
    ensures |NormalizedAliases| == 38
    ensures forall j :: 19 <= j < 38 && j != 1 ==> "SUMATERA UTARA" !in NormalizedAliases[j] && "SUMUT" !in NormalizedAliases[j]
  {
  }

  lemma Unique1(x: string)
    requires x == NormalizedNames[1] || x in NormalizedAliases[1]
    ensures forall j :: 0 <= j < |NormalizedNames| && j != 1 ==> x != NormalizedNames[j]
    ensures forall j :: 0 <= j < |NormalizedAliases| && j != 1 ==> x !in NormalizedAliases[j]
  {
    Spellings1(x);
    NamesOutside1();
    AliasesOutside1();
  }

  lemma Spellings2(x: string)
    requires x == NormalizedNames[2] || x in NormalizedAliases[2]
    ensures x in ["SUMATERA BARAT", "SUMBAR"]
  {
  }

  lemma NamesOutside2()
    ensures forall j :: 0 <= j < |NormalizedNames| && j != 2 ==> "SUMATERA BARAT" != NormalizedNames[j] && "SUMBAR" != NormalizedNames[j]
  {
  }

  lemma AliasesOutside2()
    ensures forall j :: 0 <= j < |NormalizedAliases| && j != 2 ==> "SUMATERA BARAT" !in NormalizedAliases[j] && "SUMBAR" !in NormalizedAliases[j]
  {
    AliasesBelow19Outside2();
    AliasesFrom19Outside2();
  }

  lemma AliasesBelow19Outside2()
    ensures forall j :: 0 <= j < 19 && j != 2 ==> "SUMATERA BARAT" !in NormalizedAliases[j] && "SUMBAR" !in NormalizedAliases[j]
  {
  }

  lemma AliasesFrom19Outside2()
    ensures |NormalizedAliases| == 38
    ensures forall j :: 19 <= j < 38 && j != 2 ==> "SUMATERA BARAT" !in NormalizedAliases[j] && "SUMBAR" !in NormalizedAliases[j]
  {
  }

  lemma Unique2(x: string)
    requires x == NormalizedNames[2] || x in NormalizedAliases[2]
    ensures forall j :: 0 <= j < |NormalizedNames| && j != 2 ==> x != NormalizedNames[j]
    ensures forall j :: 0 <= j < |NormalizedAliases| && j != 2 ==> x !in NormalizedAliases[j]
  {
    Spellings2(x);
    NamesOutside2();
    AliasesOutside2();
  }

  lemma Spellings3(x: string)
    requires x == NormalizedNames[3] || x in NormalizedAliases[3]
    ensures x in ["RIAU"]
  {
  }

  lemma NamesOutside3()
    ensures forall j :: 0 <= j < |NormalizedNames| && j != 3 ==> "RIAU" != NormalizedNames[j]
  {
  }

  lemma AliasesOutside3()
    ensures forall j :: 0 <= j < |NormalizedAliases| && j != 3 ==> "RIAU" !in NormalizedAliases[j]
  {
    AliasesBelow19Outside3();
    AliasesFrom19Outside3();
  }

  lemma AliasesBelow19Outside3()
    ensures forall j :: 0 <= j < 19 && j != 3 ==> "RIAU" !in NormalizedAliases[j]
  {
  }

  lemma AliasesFrom19Outside3()
    ensures |NormalizedAliases| == 38
    ensures forall j :: 19 <= j < 38 && j != 3 ==> "RIAU" !in NormalizedAliases[j]
  {
  }

  lemma Unique3(x: string)
    requires x == NormalizedNames[3] || x in NormalizedAliases[3]
    ensures forall j :: 0 <= j < |NormalizedNames| && j != 3 ==> x != NormalizedNames[j]
    ensures forall j :: 0 <= j < |NormalizedAliases| && j != 3 ==> x !in NormalizedAliases[j]
  {
    Spellings3(x);
    NamesOutside3();
    AliasesOutside3();
  }

  lemma Spellings4(x: string)
    requires x == NormalizedNames[4] || x in NormalizedAliases[4]
    ensures x in ["JAMBI"]
  {
  }

  lemma NamesOutside4()
    ensures forall j :: 0 <= j < |NormalizedNames| && j != 4 ==> "JAMBI" != NormalizedNames[j]
  {
  }

  lemma AliasesOutside4()
    ensures forall j :: 0 <= j < |NormalizedAliases| && j != 4 ==> "JAMBI" !in NormalizedAliases[j]
  {
    AliasesBelow19Outside4();
    AliasesFrom19Outside4();
  }

  lemma AliasesBelow19Outside4()
    ensures forall j :: 0 <= j < 19 && j != 4 ==> "JAMBI" !in NormalizedAliases[j]
  {
  }

  lemma AliasesFrom19Outside4()
    ensures |NormalizedAliases| == 38
    ensures forall j :: 19 <= j < 38 && j != 4 ==> "JAMBI" !in NormalizedAliases[j]
  {
  }

  lemma Unique4(x: string)
    requires x == NormalizedNames[4] || x in NormalizedAliases[4]
    ensures forall j :: 0 <= j < |NormalizedNames| && j != 4 ==> x != NormalizedNames[j]
    ensures forall j :: 0 <= j < |NormalizedAliases| && j != 4 ==> x !in NormalizedAliases[j]
  {
    Spellings4(x);
    NamesOutside4();
    AliasesOutside4();
  }

  lemma Spellings5(x: string)
    requires x == NormalizedNames[5] || x in NormalizedAliases[5]
    ensures x in ["SUMATERA SELATAN", "SUMSEL"]
  {
  }

  lemma NamesOutside5()
    ensures forall j :: 0 <= j < |NormalizedNames| && j != 5 ==> "SUMATERA SELATAN" != NormalizedNames[j] && "SUMSEL" != NormalizedNames[j]
  {
  }

  lemma AliasesOutside5()
    ensures forall j :: 0 <= j < |NormalizedAliases| && j != 5 ==> "SUMATERA SELATAN" !in NormalizedAliases[j] && "SUMSEL" !in NormalizedAliases[j]
  {
    AliasesBelow19Outside5();
    AliasesFrom19Outside5();
  }

  lemma AliasesBelow19Outside5()
    ensures forall j :: 0 <= j < 19 && j != 5 ==> "SUMATERA SELATAN" !in NormalizedAliases[j] && "SUMSEL" !in NormalizedAliases[j]
  {
  }

  lemma AliasesFrom19Outside5()
    ensures |NormalizedAliases| == 38
    ensures forall j :: 19 <= j < 38 && j != 5 ==> "SUMATERA SELATAN" !in NormalizedAliases[j] && "SUMSEL" !in NormalizedAliases[j]
  {
  }

  lemma Unique5(x: string)
    requires x == NormalizedNames[5] || x in NormalizedAliases[5]
    ensures forall j :: 0 <= j < |NormalizedNames| && j != 5 ==> x != NormalizedNames[j]
    ensures forall j :: 0 <= j < |NormalizedAliases| && j != 5 ==> x !in NormalizedAliases[j]
  {
    Spellings5(x);
    NamesOutside5();
    AliasesOutside5();
  }

  lemma Spellings6(x: string)
    requires x == NormalizedNames[6] || x in NormalizedAliases[6]
    ensures x in ["BENGKULU"]
  {
  }

  lemma NamesOutside6()
    ensures forall j :: 0 <= j < |NormalizedNames| && j != 6 ==> "BENGKULU" != NormalizedNames[j]
  {
  }

  lemma AliasesOutside6()
    ensures forall j :: 0 <= j < |NormalizedAliases| && j != 6 ==> "BENGKULU" !in NormalizedAliases[j]
  {
    AliasesBelow19Outside6();
    AliasesFrom19Outside6();
  }

  lemma AliasesBelow19Outside6()
    ensures forall j :: 0 <= j < 19 && j != 6 ==> "BENGKULU" !in NormalizedAliases[j]
  {
  }

  lemma AliasesFrom19Outside6()
    ensures |NormalizedAliases| == 38
    ensures forall j :: 19 <= j < 38 && j != 6 ==> "BENGKULU" !in NormalizedAliases[j]
  {
  }

  lemma Unique6(x: string)
    requires x == NormalizedNames[6] || x in NormalizedAliases[6]
    ensures forall j :: 0 <= j < |NormalizedNames| && j != 6 ==> x != NormalizedNames[j]
    ensures forall j :: 0 <= j < |NormalizedAliases| && j != 6 ==> x !in NormalizedAliases[j]
  {
    Spellings6(x);
    NamesOutside6();
    AliasesOutside6();
  }

  lemma Spellings7(x: string)
    requires x == NormalizedNames[7] || x in NormalizedAliases[7]
    ensures x in ["LAMPUNG"]
  {
  }

  lemma NamesOutside7()
    ensures forall j :: 0 <= j < |NormalizedNames| && j != 7 ==> "LAMPUNG" != NormalizedNames[j]
  {
  }

  lemma AliasesOutside7()
    ensures forall j :: 0 <= j < |NormalizedAliases| && j != 7 ==> "LAMPUNG" !in NormalizedAliases[j]
  {
    AliasesBelow19Outside7();
    AliasesFrom19Outside7();
  }

  lemma AliasesBelow19Outside7()
    ensures forall j :: 0 <= j < 19 && j != 7 ==> "LAMPUNG" !in NormalizedAliases[j]
  {
  }

  lemma AliasesFrom19Outside7()
    ensures |NormalizedAliases| == 38
    ensures forall j :: 19 <= j < 38 && j != 7 ==> "LAMPUNG" !in NormalizedAliases[j]
  {
  }

  lemma Unique7(x: string)
    requires x == NormalizedNames[7] || x in NormalizedAliases[7]
    ensures forall j :: 0 <= j < |NormalizedNames| && j != 7 ==> x != NormalizedNames[j]
    ensures forall j :: 0 <= j < |NormalizedAliases| && j != 7 ==> x !in NormalizedAliases[j]
  {
    Spellings7(x);
    NamesOutside7();
    AliasesOutside7();
  }

  lemma Spellings8(x: string)
    requires x == NormalizedNames[8] || x in NormalizedAliases[8]
    ensures x in ["KEPULAUAN BANGKA BELITUNG", "BABEL", "BANGKA BELITUNG"]
  {
  }

  lemma NamesOutside8()
    ensures forall j :: 0 <= j < |NormalizedNames| && j != 8 ==> "KEPULAUAN BANGKA BELITUNG" != NormalizedNames[j] && "BABEL" != NormalizedNames[j] && "BANGKA BELITUNG" != NormalizedNames[j]
  {
  }

  lemma AliasesOutside8()
    ensures forall j :: 0 <= j < |NormalizedAliases| && j != 8 ==> "KEPULAUAN BANGKA BELITUNG" !in NormalizedAliases[j] && "BABEL" !in NormalizedAliases[j] && "BANGKA BELITUNG" !in NormalizedAliases[j]
  {
    AliasesBelow19Outside8();
    AliasesFrom19Outside8();
  }

  lemma AliasesBelow19Outside8()
    ensures forall j :: 0 <= j < 19 && j != 8 ==> "KEPULAUAN BANGKA BELITUNG" !in NormalizedAliases[j] && "BABEL" !in NormalizedAliases[j] && "BANGKA BELITUNG" !in NormalizedAliases[j]
  {
  }

  lemma AliasesFrom19Outside8()
    ensures |NormalizedAliases| == 38
    ensures forall j :: 19 <= j < 38 && j != 8 ==> "KEPULAUAN BANGKA BELITUNG" !in NormalizedAliases[j] && "BABEL" !in NormalizedAliases[j] && "BANGKA BELITUNG" !in NormalizedAliases[j]
  {
  }

  lemma Unique8(x: string)
    requires x == NormalizedNames[8] || x in NormalizedAliases[8]
    ensures forall j :: 0 <= j < |NormalizedNames| && j != 8 ==> x != NormalizedNames[j]
    ensures forall j :: 0 <= j < |NormalizedAliases| && j != 8 ==> x !in NormalizedAliases[j]
  {
    Spellings8(x);
    NamesOutside8();
    AliasesOutside8();
  }

  lemma Spellings9(x: string)
    requires x == NormalizedNames[9] || x in NormalizedAliases[9]
    ensures x in ["KEPULAUAN RIAU", "KEPRI"]
  {
  }

  lemma NamesOutside9()
    ensures forall j :: 0 <= j < |NormalizedNames| && j != 9 ==> "KEPULAUAN RIAU" != NormalizedNames[j] && "KEPRI" != NormalizedNames[j]
  {
  }

  lemma AliasesOutside9()
    ensures forall j :: 0 <= j < |NormalizedAliases| && j != 9 ==> "KEPULAUAN RIAU" !in NormalizedAliases[j] && "KEPRI" !in NormalizedAliases[j]
  {
    AliasesBelow19Outside9();
    AliasesFrom19Outside9();
  }

  lemma AliasesBelow19Outside9()
    ensures forall j :: 0 <= j < 19 && j != 9 ==> "KEPULAUAN RIAU" !in NormalizedAliases[j] && "KEPRI" !in NormalizedAliases[j]
  {
  }

  lemma AliasesFrom19Outside9()
    ensures |NormalizedAliases| == 38
    ensures forall j :: 19 <= j < 38 && j != 9 ==> "KEPULAUAN RIAU" !in NormalizedAliases[j] && "KEPRI" !in NormalizedAliases[j]
  {
  }

  lemma Unique9(x: string)
    requires x == NormalizedNames[9] || x in NormalizedAliases[9]
    ensures forall j :: 0 <= j < |NormalizedNames| && j != 9 ==> x != NormalizedNames[j]
    ensures forall j :: 0 <= j < |NormalizedAliases| && j != 9 ==> x !in NormalizedAliases[j]
  {
    Spellings9(x);
    NamesOutside9();
    AliasesOutside9();
  }

  lemma Spellings10(x: string)
    requires x == NormalizedNames[10] || x in NormalizedAliases[10]
    ensures x in ["DKI JAKARTA", "JAKARTA"]
  {
  }

  lemma NamesOutside10()
    ensures forall j :: 0 <= j < |NormalizedNames| && j != 10 ==> "DKI JAKARTA" != NormalizedNames[j] && "JAKARTA" != NormalizedNames[j]
  {
  }

  lemma AliasesOutside10()
    ensures forall j :: 0 <= j < |NormalizedAliases| && j != 10 ==> "DKI JAKARTA" !in NormalizedAliases[j] && "JAKARTA" !in NormalizedAliases[j]
  {
    AliasesBelow19Outside10();
    AliasesFrom19Outside10();
  }

  lemma AliasesBelow19Outside10()
    ensures forall j :: 0 <= j < 19 && j != 10 ==> "DKI JAKARTA" !in NormalizedAliases[j] && "JAKARTA" !in NormalizedAliases[j]
  {
  }

  lemma AliasesFrom19Outside10()
    ensures |NormalizedAliases| == 38
    ensures forall j :: 19 <= j < 38 && j != 10 ==> "DKI JAKARTA" !in NormalizedAliases[j] && "JAKARTA" !in NormalizedAliases[j]
  {
  }

  lemma Unique10(x: string)
    requires x == NormalizedNames[10] || x in NormalizedAliases[10]
    ensures forall j :: 0 <= j < |NormalizedNames| && j != 10 ==> x != NormalizedNames[j]
    ensures forall j :: 0 <= j < |NormalizedAliases| && j != 10 ==> x !in NormalizedAliases[j]
  {
    Spellings10(x);
    NamesOutside10();
    AliasesOutside10();
  }

  lemma Spellings11(x: string)
    requires x == NormalizedNames[11] || x in NormalizedAliases[11]
    ensures x in ["JAWA BARAT", "JABAR"]
  {
  }

  lemma NamesOutside11()
    ensures forall j :: 0 <= j < |NormalizedNames| && j != 11 ==> "JAWA BARAT" != NormalizedNames[j] && "JABAR" != NormalizedNames[j]
  {
  }

  lemma AliasesOutside11()
    ensures forall j :: 0 <= j < |NormalizedAliases| && j != 11 ==> "JAWA BARAT" !in NormalizedAliases[j] && "JABAR" !in NormalizedAliases[j]
  {
    AliasesBelow19Outside11();
    AliasesFrom19Outside11();
  }

  lemma AliasesBelow19Outside11()
    ensures forall j :: 0 <= j < 19 && j != 11 ==> "JAWA BARAT" !in NormalizedAliases[j] && "JABAR" !in NormalizedAliases[j]
  {
  }

  lemma AliasesFrom19Outside11()
    ensures |NormalizedAliases| == 38
    ensures forall j :: 19 <= j < 38 && j != 11 ==> "JAWA BARAT" !in NormalizedAliases[j] && "JABAR" !in NormalizedAliases[j]
  {
  }

  lemma Unique11(x: string)
    requires x == NormalizedNames[11] || x in NormalizedAliases[11]
    ensures forall j :: 0 <= j < |NormalizedNames| && j != 11 ==> x != NormalizedNames[j]
    ensures forall j :: 0 <= j < |NormalizedAliases| && j != 11 ==> x !in NormalizedAliases[j]
  {
    Spellings11(x);
    NamesOutside11();
    AliasesOutside11();
  }

  lemma Spellings12(x: string)
    requires x == NormalizedNames[12] || x in NormalizedAliases[12]
    ensures x in ["JAWA TENGAH", "JATENG"]
  {
  }

  lemma NamesOutside12()
    ensures forall j :: 0 <= j < |NormalizedNames| && j != 12 ==> "JAWA TENGAH" != NormalizedNames[j] && "JATENG" != NormalizedNames[j]
  {
  }

  lemma AliasesOutside12()
    ensures forall j :: 0 <= j < |NormalizedAliases| && j != 12 ==> "JAWA TENGAH" !in NormalizedAliases[j] && "JATENG" !in NormalizedAliases[j]
  {
    AliasesBelow19Outside12();
    AliasesFrom19Outside12();
  }

  lemma AliasesBelow19Outside12()
    ensures forall j :: 0 <= j < 19 && j != 12 ==> "JAWA TENGAH" !in NormalizedAliases[j] && "JATENG" !in NormalizedAliases[j]
  {
  }

  lemma AliasesFrom19Outside12()
    ensures |NormalizedAliases| == 38
    ensures forall j :: 19 <= j < 38 && j != 12 ==> "JAWA TENGAH" !in NormalizedAliases[j] && "JATENG" !in NormalizedAliases[j]
  {
  }

  lemma Unique12(x: string)
    requires x == NormalizedNames[12] || x in NormalizedAliases[12]
    ensures forall j :: 0 <= j < |NormalizedNames| && j != 12 ==> x != NormalizedNames[j]
    ensures forall j :: 0 <= j < |NormalizedAliases| && j != 12 ==> x !in NormalizedAliases[j]
  {
    Spellings12(x);
    NamesOutside12();
    AliasesOutside12();
  }

  lemma Spellings13(x: string)
    requires x == NormalizedNames[13] || x in NormalizedAliases[13]
    ensures x in ["DI YOGYAKARTA", "DIY", "YOGYAKARTA"]
  {
  }

  lemma NamesOutside13()
    ensures forall j :: 0 <= j < |NormalizedNames| && j != 13 ==> "DI YOGYAKARTA" != NormalizedNames[j] && "DIY" != NormalizedNames[j] && "YOGYAKARTA" != NormalizedNames[j]
  {
  }

  lemma AliasesOutside13()
    ensures forall j :: 0 <= j < |NormalizedAliases| && j != 13 ==> "DI YOGYAKARTA" !in NormalizedAliases[j] && "DIY" !in NormalizedAliases[j] && "YOGYAKARTA" !in NormalizedAliases[j]
  {
    AliasesBelow19Outside13();
    AliasesFrom19Outside13();
  }

  lemma AliasesBelow19Outside13()
    ensures forall j :: 0 <= j < 19 && j != 13 ==> "DI YOGYAKARTA" !in NormalizedAliases[j] && "DIY" !in NormalizedAliases[j] && "YOGYAKARTA" !in NormalizedAliases[j]
  {
  }

  lemma AliasesFrom19Outside13()
    ensures |NormalizedAliases| == 38
    ensures forall j :: 19 <= j < 38 && j != 13 ==> "DI YOGYAKARTA" !in NormalizedAliases[j] && "DIY" !in NormalizedAliases[j] && "YOGYAKARTA" !in NormalizedAliases[j]
  {
  }

  lemma Unique13(x: string)
    requires x == NormalizedNames[13] || x in NormalizedAliases[13]
    ensures forall j :: 0 <= j < |NormalizedNames| && j != 13 ==> x != NormalizedNames[j]
    ensures forall j :: 0 <= j < |NormalizedAliases| && j != 13 ==> x !in NormalizedAliases[j]
  {
    Spellings13(x);
    NamesOutside13();
    AliasesOutside13();
  }

  lemma Spellings14(x: string)
    requires x == NormalizedNames[14] || x in NormalizedAliases[14]
    ensures x in ["JAWA TIMUR", "JATIM"]
  {
  }

  lemma NamesOutside14()
    ensures forall j :: 0 <= j < |NormalizedNames| && j != 14 ==> "JAWA TIMUR" != NormalizedNames[j] && "JATIM" != NormalizedNames[j]
  {
  }

  lemma AliasesOutside14()
    ensures forall j :: 0 <= j < |NormalizedAliases| && j != 14 ==> "JAWA TIMUR" !in NormalizedAliases[j] && "JATIM" !in NormalizedAliases[j]
  {
    AliasesBelow19Outside14();
    AliasesFrom19Outside14();
  }

  lemma AliasesBelow19Outside14()
    ensures forall j :: 0 <= j < 19 && j != 14 ==> "JAWA TIMUR" !in NormalizedAliases[j] && "JATIM" !in NormalizedAliases[j]
  {
  }

  lemma AliasesFrom19Outside14()
    ensures |NormalizedAliases| == 38
    ensures forall j :: 19 <= j < 38 && j != 14 ==> "JAWA TIMUR" !in NormalizedAliases[j] && "JATIM" !in NormalizedAliases[j]
  {
  }

  lemma Unique14(x: string)
    requires x == NormalizedNames[14] || x in NormalizedAliases[14]
    ensures forall j :: 0 <= j < |NormalizedNames| && j != 14 ==> x != NormalizedNames[j]
    ensures forall j :: 0 <= j < |NormalizedAliases| && j != 14 ==> x !in NormalizedAliases[j]
  {
    Spellings14(x);
    NamesOutside14();
    AliasesOutside14();
  }

  lemma Spellings15(x: string)
    requires x == NormalizedNames[15] || x in NormalizedAliases[15]
    ensures x in ["BANTEN"]
  {
  }

  lemma NamesOutside15()
    ensures forall j :: 0 <= j < |NormalizedNames| && j != 15 ==> "BANTEN" != NormalizedNames[j]
  {
  }

  lemma AliasesOutside15()
    ensures forall j :: 0 <= j < |NormalizedAliases| && j != 15 ==> "BANTEN" !in NormalizedAliases[j]
  {
    AliasesBelow19Outside15();
    AliasesFrom19Outside15();
  }

  lemma AliasesBelow19Outside15()
    ensures forall j :: 0 <= j < 19 && j != 15 ==> "BANTEN" !in NormalizedAliases[j]
  {
  }

  lemma AliasesFrom19Outside15()
    ensures |NormalizedAliases| == 38
    ensures forall j :: 19 <= j < 38 && j != 15 ==> "BANTEN" !in NormalizedAliases[j]
  {
  }

  lemma Unique15(x: string)
    requires x == NormalizedNames[15] || x in NormalizedAliases[15]
    ensures forall j :: 0 <= j < |NormalizedNames| && j != 15 ==> x != NormalizedNames[j]
    ensures forall j :: 0 <= j < |NormalizedAliases| && j != 15 ==> x !in NormalizedAliases[j]
  {
    Spellings15(x);
    NamesOutside15();
    AliasesOutside15();
  }

  lemma Spellings16(x: string)
    requires x == NormalizedNames[16] || x in NormalizedAliases[16]
    ensures x in ["BALI"]
  {
  }

  lemma NamesOutside16()
    ensures forall j :: 0 <= j < |NormalizedNames| && j != 16 ==> "BALI" != NormalizedNames[j]
  {
  }

  lemma AliasesOutside16()
    ensures forall j :: 0 <= j < |NormalizedAliases| && j != 16 ==> "BALI" !in NormalizedAliases[j]
  {
    AliasesBelow19Outside16();
    AliasesFrom19Outside16();
  }

  lemma AliasesBelow19Outside16()
    ensures forall j :: 0 <= j < 19 && j != 16 ==> "BALI" !in NormalizedAliases[j]
  {
  }

  lemma AliasesFrom19Outside16()
    ensures |NormalizedAliases| == 38
    ensures forall j :: 19 <= j < 38 && j != 16 ==> "BALI" !in NormalizedAliases[j]
  {
  }

  lemma Unique16(x: string)
    requires x == NormalizedNames[16] || x in NormalizedAliases[16]
    ensures forall j :: 0 <= j < |NormalizedNames| && j != 16 ==> x != NormalizedNames[j]
    ensures forall j :: 0 <= j < |NormalizedAliases| && j != 16 ==> x !in NormalizedAliases[j]
  {
    Spellings16(x);
    NamesOutside16();
    AliasesOutside16();
  }

  lemma Spellings17(x: string)
    requires x == NormalizedNames[17] || x in NormalizedAliases[17]
    ensures x in ["NUSA TENGGARA BARAT", "NTB"]
  {
  }

  lemma NamesOutside17()
    ensures forall j :: 0 <= j < |NormalizedNames| && j != 17 ==> "NUSA TENGGARA BARAT" != NormalizedNames[j] && "NTB" != NormalizedNames[j]
  {
  }

  lemma AliasesOutside17()
    ensures forall j :: 0 <= j < |NormalizedAliases| && j != 17 ==> "NUSA TENGGARA BARAT" !in NormalizedAliases[j] && "NTB" !in NormalizedAliases[j]
  {
    AliasesBelow19Outside17();
    AliasesFrom19Outside17();
  }

  lemma AliasesBelow19Outside17()
    ensures forall j :: 0 <= j < 19 && j != 17 ==> "NUSA TENGGARA BARAT" !in NormalizedAliases[j] && "NTB" !in NormalizedAliases[j]
  {
  }

  lemma AliasesFrom19Outside17()
    ensures |NormalizedAliases| == 38
    ensures forall j :: 19 <= j < 38 && j != 17 ==> "NUSA TENGGARA BARAT" !in NormalizedAliases[j] && "NTB" !in NormalizedAliases[j]
  {
  }

  lemma Unique17(x: string)
    requires x == NormalizedNames[17] || x in NormalizedAliases[17]
    ensures forall j :: 0 <= j < |NormalizedNames| && j != 17 ==> x != NormalizedNames[j]
    ensures forall j :: 0 <= j < |NormalizedAliases| && j != 17 ==> x !in NormalizedAliases[j]
  {
    Spellings17(x);
    NamesOutside17();
    AliasesOutside17();
  }

  lemma Spellings18(x: string)
    requires x == NormalizedNames[18] || x in NormalizedAliases[18]
    ensures x in ["NUSA TENGGARA TIMUR", "NTT"]
  {
  }

  lemma NamesOutside18()
    ensures forall j :: 0 <= j < |NormalizedNames| && j != 18 ==> "NUSA TENGGARA TIMUR" != NormalizedNames[j] && "NTT" != NormalizedNames[j]
  {
  }

  lemma AliasesOutside18()
    ensures forall j :: 0 <= j < |NormalizedAliases| && j != 18 ==> "NUSA TENGGARA TIMUR" !in NormalizedAliases[j] && "NTT" !in NormalizedAliases[j]
  {
    AliasesBelow19Outside18();
    AliasesFrom19Outside18();
  }

  lemma AliasesBelow19Outside18()
    ensures forall j :: 0 <= j < 19 && j != 18 ==> "NUSA TENGGARA TIMUR" !in NormalizedAliases[j] && "NTT" !in NormalizedAliases[j]
  {
  }

  lemma AliasesFrom19Outside18()
    ensures |NormalizedAliases| == 38
    ensures forall j :: 19 <= j < 38 && j != 18 ==> "NUSA TENGGARA TIMUR" !in NormalizedAliases[j] && "NTT" !in NormalizedAliases[j]
  {
  }

  lemma Unique18(x: string)
    requires x == NormalizedNames[18] || x in NormalizedAliases[18]
    ensures forall j :: 0 <= j < |NormalizedNames| && j != 18 ==> x != NormalizedNames[j]
    ensures forall j :: 0 <= j < |NormalizedAliases| && j != 18 ==> x !in NormalizedAliases[j]
  {
    Spellings18(x);
    NamesOutside18();
    AliasesOutside18();
  }

  lemma Spellings19(x: string)
    requires x == NormalizedNames[19] || x in NormalizedAliases[19]
    ensures x in ["KALIMANTAN BARAT", "KALBAR"]
  {
  }

  lemma NamesOutside19()
    ensures forall j :: 0 <= j < |NormalizedNames| && j != 19 ==> "KALIMANTAN BARAT" != NormalizedNames[j] && "KALBAR" != NormalizedNames[j]
  {
  }

  lemma AliasesOutside19()
    ensures forall j :: 0 <= j < |NormalizedAliases| && j != 19 ==> "KALIMANTAN BARAT" !in NormalizedAliases[j] && "KALBAR" !in NormalizedAliases[j]
  {
    AliasesBelow19Outside19();
    AliasesFrom19Outside19();
  }

  lemma AliasesBelow19Outside19()
    ensures forall j :: 0 <= j < 19 && j != 19 ==> "KALIMANTAN BARAT" !in NormalizedAliases[j] && "KALBAR" !in NormalizedAliases[j]
  {
  }

  lemma AliasesFrom19Outside19()
    ensures |NormalizedAliases| == 38
    ensures forall j :: 19 <= j < 38 && j != 19 ==> "KALIMANTAN BARAT" !in NormalizedAliases[j] && "KALBAR" !in NormalizedAliases[j]
  {
  }

  lemma Unique19(x: string)
    requires x == NormalizedNames[19] || x in NormalizedAliases[19]
    ensures forall j :: 0 <= j < |NormalizedNames| && j != 19 ==> x != NormalizedNames[j]
    ensures forall j :: 0 <= j < |NormalizedAliases| && j != 19 ==> x !in NormalizedAliases[j]
  {
    Spellings19(x);
    NamesOutside19();
    AliasesOutside19();
  }

  lemma Spellings20(x: string)
    requires x == NormalizedNames[20] || x in NormalizedAliases[20]
    ensures x in ["KALIMANTAN TENGAH", "KALTENG"]
  {
  }

  lemma NamesOutside20()
    ensures forall j :: 0 <= j < |NormalizedNames| && j != 20 ==> "KALIMANTAN TENGAH" != NormalizedNames[j] && "KALTENG" != NormalizedNames[j]
  {
  }

  lemma AliasesOutside20()
    ensures forall j :: 0 <= j < |NormalizedAliases| && j != 20 ==> "KALIMANTAN TENGAH" !in NormalizedAliases[j] && "KALTENG" !in NormalizedAliases[j]
  {
    AliasesBelow19Outside20();
    AliasesFrom19Outside20();
  }

  lemma AliasesBelow19Outside20()
    ensures forall j :: 0 <= j < 19 && j != 20 ==> "KALIMANTAN TENGAH" !in NormalizedAliases[j] && "KALTENG" !in NormalizedAliases[j]
  {
  }

  lemma AliasesFrom19Outside20()
    ensures |NormalizedAliases| == 38
    ensures forall j :: 19 <= j < 38 && j != 20 ==> "KALIMANTAN TENGAH" !in NormalizedAliases[j] && "KALTENG" !in NormalizedAliases[j]
  {
  }

  lemma Unique20(x: string)
    requires x == NormalizedNames[20] || x in NormalizedAliases[20]
    ensures forall j :: 0 <= j < |NormalizedNames| && j != 20 ==> x != NormalizedNames[j]
    ensures forall j :: 0 <= j < |NormalizedAliases| && j != 20 ==> x !in NormalizedAliases[j]
  {
    Spellings20(x);
    NamesOutside20();
    AliasesOutside20();
  }

  lemma Spellings21(x: string)
    requires x == NormalizedNames[21] || x in NormalizedAliases[21]
    ensures x in ["KALIMANTAN SELATAN", "KALSEL"]
  {
  }

  lemma NamesOutside21()
    ensures forall j :: 0 <= j < |NormalizedNames| && j != 21 ==> "KALIMANTAN SELATAN" != NormalizedNames[j] && "KALSEL" != NormalizedNames[j]
  {
  }

  lemma AliasesOutside21()
    ensures forall j :: 0 <= j < |NormalizedAliases| && j != 21 ==> "KALIMANTAN SELATAN" !in NormalizedAliases[j] && "KALSEL" !in NormalizedAliases[j]
  {
    AliasesBelow19Outside21();
    AliasesFrom19Outside21();
  }

  lemma AliasesBelow19Outside21()
    ensures forall j :: 0 <= j < 19 && j != 21 ==> "KALIMANTAN SELATAN" !in NormalizedAliases[j] && "KALSEL" !in NormalizedAliases[j]
  {
  }

  lemma AliasesFrom19Outside21()
    ensures |NormalizedAliases| == 38
    ensures forall j :: 19 <= j < 38 && j != 21 ==> "KALIMANTAN SELATAN" !in NormalizedAliases[j] && "KALSEL" !in NormalizedAliases[j]
  {
  }

  lemma Unique21(x: string)
    requires x == NormalizedNames[21] || x in NormalizedAliases[21]
    ensures forall j :: 0 <= j < |NormalizedNames| && j != 21 ==> x != NormalizedNames[j]
    ensures forall j :: 0 <= j < |NormalizedAliases| && j != 21 ==> x !in NormalizedAliases[j]
  {
    Spellings21(x);
    NamesOutside21();
    AliasesOutside21();
  }

  lemma Spellings22(x: string)
    requires x == NormalizedNames[22] || x in NormalizedAliases[22]
    ensures x in ["KALIMANTAN TIMUR", "KALTIM"]
  {
  }

  lemma NamesOutside22()
    ensures forall j :: 0 <= j < |NormalizedNames| && j != 22 ==> "KALIMANTAN TIMUR" != NormalizedNames[j] && "KALTIM" != NormalizedNames[j]
  {
  }

  lemma AliasesOutside22()
    ensures forall j :: 0 <= j < |NormalizedAliases| && j != 22 ==> "KALIMANTAN TIMUR" !in NormalizedAliases[j] && "KALTIM" !in NormalizedAliases[j]
  {
    AliasesBelow19Outside22();
    AliasesFrom19Outside22();
  }

  lemma AliasesBelow19Outside22()
    ensures forall j :: 0 <= j < 19 && j != 22 ==> "KALIMANTAN TIMUR" !in NormalizedAliases[j] && "KALTIM" !in NormalizedAliases[j]
  {
  }

  lemma AliasesFrom19Outside22()
    ensures |NormalizedAliases| == 38
    ensures forall j :: 19 <= j < 38 && j != 22 ==> "KALIMANTAN TIMUR" !in NormalizedAliases[j] && "KALTIM" !in NormalizedAliases[j]
  {
  }

  lemma Unique22(x: string)
    requires x == NormalizedNames[22] || x in NormalizedAliases[22]
    ensures forall j :: 0 <= j < |NormalizedNames| && j != 22 ==> x != NormalizedNames[j]
    ensures forall j :: 0 <= j < |NormalizedAliases| && j != 22 ==> x !in NormalizedAliases[j]
  {
    Spellings22(x);
    NamesOutside22();
    AliasesOutside22();
  }

  lemma Spellings23(x: string)
    requires x == NormalizedNames[23] || x in NormalizedAliases[23]
    ensures x in ["KALIMANTAN UTARA", "KALTARA"]
  {
  }

  lemma NamesOutside23()
    ensures forall j :: 0 <= j < |NormalizedNames| && j != 23 ==> "KALIMANTAN UTARA" != NormalizedNames[j] && "KALTARA" != NormalizedNames[j]
  {
  }

  lemma AliasesOutside23()
    ensures forall j :: 0 <= j < |NormalizedAliases| && j != 23 ==> "KALIMANTAN UTARA" !in NormalizedAliases[j] && "KALTARA" !in NormalizedAliases[j]
  {
    AliasesBelow19Outside23();
    AliasesFrom19Outside23();
  }

  lemma AliasesBelow19Outside23()
    ensures forall j :: 0 <= j < 19 && j != 23 ==> "KALIMANTAN UTARA" !in NormalizedAliases[j] && "KALTARA" !in NormalizedAliases[j]
  {
  }

  lemma AliasesFrom19Outside23()
    ensures |NormalizedAliases| == 38
    ensures forall j :: 19 <= j < 38 && j != 23 ==> "KALIMANTAN UTARA" !in NormalizedAliases[j] && "KALTARA" !in NormalizedAliases[j]
  {
  }

  lemma Unique23(x: string)
    requires x == NormalizedNames[23] || x in NormalizedAliases[23]
    ensures forall j :: 0 <= j < |NormalizedNames| && j != 23 ==> x != NormalizedNames[j]
    ensures forall j :: 0 <= j < |NormalizedAliases| && j != 23 ==> x !in NormalizedAliases[j]
  {
    Spellings23(x);
    NamesOutside23();
    AliasesOutside23();
  }

  lemma Spellings24(x: string)
    requires x == NormalizedNames[24] || x in NormalizedAliases[24]
    ensures x in ["SULAWESI UTARA", "SULUT"]
  {
  }

  lemma NamesOutside24()
    ensures forall j :: 0 <= j < |NormalizedNames| && j != 24 ==> "SULAWESI UTARA" != NormalizedNames[j] && "SULUT" != NormalizedNames[j]
  {
  }

  lemma AliasesOutside24()
    ensures forall j :: 0 <= j < |NormalizedAliases| && j != 24 ==> "SULAWESI UTARA" !in NormalizedAliases[j] && "SULUT" !in NormalizedAliases[j]
  {
    AliasesBelow19Outside24();
    AliasesFrom19Outside24();
  }

  lemma AliasesBelow19Outside24()
    ensures forall j :: 0 <= j < 19 && j != 24 ==> "SULAWESI UTARA" !in NormalizedAliases[j] && "SULUT" !in NormalizedAliases[j]
  {
  }

  lemma AliasesFrom19Outside24()
    ensures |NormalizedAliases| == 38
    ensures forall j :: 19 <= j < 38 && j != 24 ==> "SULAWESI UTARA" !in NormalizedAliases[j] && "SULUT" !in NormalizedAliases[j]
  {
  }

  lemma Unique24(x: string)
    requires x == NormalizedNames[24] || x in NormalizedAliases[24]
    ensures forall j :: 0 <= j < |NormalizedNames| && j != 24 ==> x != NormalizedNames[j]
    ensures forall j :: 0 <= j < |NormalizedAliases| && j != 24 ==> x !in NormalizedAliases[j]
  {
    Spellings24(x);
    NamesOutside24();
    AliasesOutside24();
  }

  lemma Spellings25(x: string)
    requires x == NormalizedNames[25] || x in NormalizedAliases[25]
    ensures x in ["SULAWESI TENGAH", "SULTENG"]
  {
  }

  lemma NamesOutside25()
    ensures forall j :: 0 <= j < |NormalizedNames| && j != 25 ==> "SULAWESI TENGAH" != NormalizedNames[j] && "SULTENG" != NormalizedNames[j]
  {
  }

  lemma AliasesOutside25()
    ensures forall j :: 0 <= j < |NormalizedAliases| && j != 25 ==> "SULAWESI TENGAH" !in NormalizedAliases[j] && "SULTENG" !in NormalizedAliases[j]
  {
    AliasesBelow19Outside25();
    AliasesFrom19Outside25();
  }

  lemma AliasesBelow19Outside25()
    ensures forall j :: 0 <= j < 19 && j != 25 ==> "SULAWESI TENGAH" !in NormalizedAliases[j] && "SULTENG" !in NormalizedAliases[j]
  {
  }

  lemma AliasesFrom19Outside25()
    ensures |NormalizedAliases| == 38
    ensures forall j :: 19 <= j < 38 && j != 25 ==> "SULAWESI TENGAH" !in NormalizedAliases[j] && "SULTENG" !in NormalizedAliases[j]
  {
  }

  lemma Unique25(x: string)
    requires x == NormalizedNames[25] || x in NormalizedAliases[25]
    ensures forall j :: 0 <= j < |NormalizedNames| && j != 25 ==> x != NormalizedNames[j]
    ensures forall j :: 0 <= j < |NormalizedAliases| && j != 25 ==> x !in NormalizedAliases[j]
  {
    Spellings25(x);
    NamesOutside25();
    AliasesOutside25();
  }

  lemma Spellings26(x: string)
    requires x == NormalizedNames[26] || x in NormalizedAliases[26]
    ensures x in ["SULAWESI SELATAN", "SULSEL"]
  {
  }

  lemma NamesOutside26()
    ensures forall j :: 0 <= j < |NormalizedNames| && j != 26 ==> "SULAWESI SELATAN" != NormalizedNames[j] && "SULSEL" != NormalizedNames[j]
  {
  }

  lemma AliasesOutside26()
    ensures forall j :: 0 <= j < |NormalizedAliases| && j != 26 ==> "SULAWESI SELATAN" !in NormalizedAliases[j] && "SULSEL" !in NormalizedAliases[j]
  {
    AliasesBelow19Outside26();
    AliasesFrom19Outside26();
  }

  lemma AliasesBelow19Outside26()
    ensures forall j :: 0 <= j < 19 && j != 26 ==> "SULAWESI SELATAN" !in NormalizedAliases[j] && "SULSEL" !in NormalizedAliases[j]
  {
  }

  lemma AliasesFrom19Outside26()
    ensures |NormalizedAliases| == 38
    ensures forall j :: 19 <= j < 38 && j != 26 ==> "SULAWESI SELATAN" !in NormalizedAliases[j] && "SULSEL" !in NormalizedAliases[j]
  {
  }

  lemma Unique26(x: string)
    requires x == NormalizedNames[26] || x in NormalizedAliases[26]
    ensures forall j :: 0 <= j < |NormalizedNames| && j != 26 ==> x != NormalizedNames[j]
    ensures forall j :: 0 <= j < |NormalizedAliases| && j != 26 ==> x !in NormalizedAliases[j]
  {
    Spellings26(x);
    NamesOutside26();
    AliasesOutside26();
  }

  lemma Spellings27(x: string)
    requires x == NormalizedNames[27] || x in NormalizedAliases[27]
    ensures x in ["SULAWESI TENGGARA", "SULTRA"]
  {
  }

  lemma NamesOutside27()
    ensures forall j :: 0 <= j < |NormalizedNames| && j != 27 ==> "SULAWESI TENGGARA" != NormalizedNames[j] && "SULTRA" != NormalizedNames[j]
  {
  }

  lemma AliasesOutside27()
    ensures forall j :: 0 <= j < |NormalizedAliases| && j != 27 ==> "SULAWESI TENGGARA" !in NormalizedAliases[j] && "SULTRA" !in NormalizedAliases[j]
  {
    AliasesBelow19Outside27();
    AliasesFrom19Outside27();
  }

  lemma AliasesBelow19Outside27()
    ensures forall j :: 0 <= j < 19 && j != 27 ==> "SULAWESI TENGGARA" !in NormalizedAliases[j] && "SULTRA" !in NormalizedAliases[j]
  {
  }

  lemma AliasesFrom19Outside27()
    ensures |NormalizedAliases| == 38
    ensures forall j :: 19 <= j < 38 && j != 27 ==> "SULAWESI TENGGARA" !in NormalizedAliases[j] && "SULTRA" !in NormalizedAliases[j]
  {
  }

  lemma Unique27(x: string)
    requires x == NormalizedNames[27] || x in NormalizedAliases[27]
    ensures forall j :: 0 <= j < |NormalizedNames| && j != 27 ==> x != NormalizedNames[j]
    ensures forall j :: 0 <= j < |NormalizedAliases| && j != 27 ==> x !in NormalizedAliases[j]
  {
    Spellings27(x);
    NamesOutside27();
    AliasesOutside27();
  }

  lemma Spellings28(x: string)
    requires x == NormalizedNames[28] || x in NormalizedAliases[28]
    ensures x in ["GORONTALO"]
  {
  }

  lemma NamesOutside28()
    ensures forall j :: 0 <= j < |NormalizedNames| && j != 28 ==> "GORONTALO" != NormalizedNames[j]
  {
  }

  lemma AliasesOutside28()
    ensures forall j :: 0 <= j < |NormalizedAliases| && j != 28 ==> "GORONTALO" !in NormalizedAliases[j]
  {
    AliasesBelow19Outside28();
    AliasesFrom19Outside28();
  }

  lemma AliasesBelow19Outside28()
    ensures forall j :: 0 <= j < 19 && j != 28 ==> "GORONTALO" !in NormalizedAliases[j]
  {
  }

  lemma AliasesFrom19Outside28()
    ensures |NormalizedAliases| == 38
    ensures forall j :: 19 <= j < 38 && j != 28 ==> "GORONTALO" !in NormalizedAliases[j]
  {
  }

  lemma Unique28(x: string)
    requires x == NormalizedNames[28] || x in NormalizedAliases[28]
    ensures forall j :: 0 <= j < |NormalizedNames| && j != 28 ==> x != NormalizedNames[j]
    ensures forall j :: 0 <= j < |NormalizedAliases| && j != 28 ==> x !in NormalizedAliases[j]
  {
    Spellings28(x);
    NamesOutside28();
    AliasesOutside28();
  }

  lemma Spellings29(x: string)
    requires x == NormalizedNames[29] || x in NormalizedAliases[29]
    ensures x in ["SULAWESI BARAT", "SULBAR"]
  {
  }

  lemma NamesOutside29()
    ensures forall j :: 0 <= j < |NormalizedNames| && j != 29 ==> "SULAWESI BARAT" != NormalizedNames[j] && "SULBAR" != NormalizedNames[j]
  {
  }

  lemma AliasesOutside29()
    ensures forall j :: 0 <= j < |NormalizedAliases| && j != 29 ==> "SULAWESI BARAT" !in NormalizedAliases[j] && "SULBAR" !in NormalizedAliases[j]
  {
    AliasesBelow19Outside29();
    AliasesFrom19Outside29();
  }

  lemma AliasesBelow19Outside29()
    ensures forall j :: 0 <= j < 19 && j != 29 ==> "SULAWESI BARAT" !in NormalizedAliases[j] && "SULBAR" !in NormalizedAliases[j]
  {
  }

  lemma AliasesFrom19Outside29()
    ensures |NormalizedAliases| == 38
    ensures forall j :: 19 <= j < 38 && j != 29 ==> "SULAWESI BARAT" !in NormalizedAliases[j] && "SULBAR" !in NormalizedAliases[j]
  {
  }

  lemma Unique29(x: string)
    requires x == NormalizedNames[29] || x in NormalizedAliases[29]
    ensures forall j :: 0 <= j < |NormalizedNames| && j != 29 ==> x != NormalizedNames[j]
    ensures forall j :: 0 <= j < |NormalizedAliases| && j != 29 ==> x !in NormalizedAliases[j]
  {
    Spellings29(x);
    NamesOutside29();
    AliasesOutside29();
  }

  lemma Spellings30(x: string)
    requires x == NormalizedNames[30] || x in NormalizedAliases[30]
    ensures x in ["MALUKU"]
  {
  }

  lemma NamesOutside30()
    ensures forall j :: 0 <= j < |NormalizedNames| && j != 30 ==> "MALUKU" != NormalizedNames[j]
  {
  }

  lemma AliasesOutside30()
    ensures forall j :: 0 <= j < |NormalizedAliases| && j != 30 ==> "MALUKU" !in NormalizedAliases[j]
  {
    AliasesBelow19Outside30();
    AliasesFrom19Outside30();
  }

  lemma AliasesBelow19Outside30()
    ensures forall j :: 0 <= j < 19 && j != 30 ==> "MALUKU" !in NormalizedAliases[j]
  {
  }

  lemma AliasesFrom19Outside30()
    ensures |NormalizedAliases| == 38
    ensures forall j :: 19 <= j < 38 && j != 30 ==> "MALUKU" !in NormalizedAliases[j]
  {
  }

  lemma Unique30(x: string)
    requires x == NormalizedNames[30] || x in NormalizedAliases[30]
    ensures forall j :: 0 <= j < |NormalizedNames| && j != 30 ==> x != NormalizedNames[j]
    ensures forall j :: 0 <= j < |NormalizedAliases| && j != 30 ==> x !in NormalizedAliases[j]
  {
    Spellings30(x);
    NamesOutside30();
    AliasesOutside30();
  }

  lemma Spellings31(x: string)
    requires x == NormalizedNames[31] || x in NormalizedAliases[31]
    ensures x in ["MALUKU UTARA", "MALUT"]
  {
  }

  lemma NamesOutside31()
    ensures forall j :: 0 <= j < |NormalizedNames| && j != 31 ==> "MALUKU UTARA" != NormalizedNames[j] && "MALUT" != NormalizedNames[j]
  {
  }

  lemma AliasesOutside31()
    ensures forall j :: 0 <= j < |NormalizedAliases| && j != 31 ==> "MALUKU UTARA" !in NormalizedAliases[j] && "MALUT" !in NormalizedAliases[j]
  {
    AliasesBelow19Outside31();
    AliasesFrom19Outside31();
  }

  lemma AliasesBelow19Outside31()
    ensures forall j :: 0 <= j < 19 && j != 31 ==> "MALUKU UTARA" !in NormalizedAliases[j] && "MALUT" !in NormalizedAliases[j]
  {
  }

  lemma AliasesFrom19Outside31()
    ensures |NormalizedAliases| == 38
    ensures forall j :: 19 <= j < 38 && j != 31 ==> "MALUKU UTARA" !in NormalizedAliases[j] && "MALUT" !in NormalizedAliases[j]
  {
  }

  lemma Unique31(x: string)
    requires x == NormalizedNames[31] || x in NormalizedAliases[31]
    ensures forall j :: 0 <= j < |NormalizedNames| && j != 31 ==> x != NormalizedNames[j]
    ensures forall j :: 0 <= j < |NormalizedAliases| && j != 31 ==> x !in NormalizedAliases[j]
  {
    Spellings31(x);
    NamesOutside31();
    AliasesOutside31();
  }

  lemma Spellings32(x: string)
    requires x == NormalizedNames[32] || x in NormalizedAliases[32]
    ensures x in ["PAPUA BARAT"]
  {
  }

  lemma NamesOutside32()
    ensures forall j :: 0 <= j < |NormalizedNames| && j != 32 ==> "PAPUA BARAT" != NormalizedNames[j]
  {
  }

  lemma AliasesOutside32()
    ensures forall j :: 0 <= j < |NormalizedAliases| && j != 32 ==> "PAPUA BARAT" !in NormalizedAliases[j]
  {
    AliasesBelow19Outside32();
    AliasesFrom19Outside32();
  }

  lemma AliasesBelow19Outside32()
    ensures forall j :: 0 <= j < 19 && j != 32 ==> "PAPUA BARAT" !in NormalizedAliases[j]
  {
  }

  lemma AliasesFrom19Outside32()
    ensures |NormalizedAliases| == 38
    ensures forall j :: 19 <= j < 38 && j != 32 ==> "PAPUA BARAT" !in NormalizedAliases[j]
  {
  }

  lemma Unique32(x: string)
    requires x == NormalizedNames[32] || x in NormalizedAliases[32]
    ensures forall j :: 0 <= j < |NormalizedNames| && j != 32 ==> x != NormalizedNames[j]
    ensures forall j :: 0 <= j < |NormalizedAliases| && j != 32 ==> x !in NormalizedAliases[j]
  {
    Spellings32(x);
    NamesOutside32();
    AliasesOutside32();
  }

  lemma Spellings33(x: string)
    requires x == NormalizedNames[33] || x in NormalizedAliases[33]
    ensures x in ["PAPUA"]
  {
  }

  lemma NamesOutside33()
    ensures forall j :: 0 <= j < |NormalizedNames| && j != 33 ==> "PAPUA" != NormalizedNames[j]
  {
  }

  lemma AliasesOutside33()
    ensures forall j :: 0 <= j < |NormalizedAliases| && j != 33 ==> "PAPUA" !in NormalizedAliases[j]
  {
    AliasesBelow19Outside33();
    AliasesFrom19Outside33();
  }

  lemma AliasesBelow19Outside33()
    ensures forall j :: 0 <= j < 19 && j != 33 ==> "PAPUA" !in NormalizedAliases[j]
  {
  }

  lemma AliasesFrom19Outside33()
    ensures |NormalizedAliases| == 38
    ensures forall j :: 19 <= j < 38 && j != 33 ==> "PAPUA" !in NormalizedAliases[j]
  {
  }

  lemma Unique33(x: string)
    requires x == NormalizedNames[33] || x in NormalizedAliases[33]
    ensures forall j :: 0 <= j < |NormalizedNames| && j != 33 ==> x != NormalizedNames[j]
    ensures forall j :: 0 <= j < |NormalizedAliases| && j != 33 ==> x !in NormalizedAliases[j]
  {
    Spellings33(x);
    NamesOutside33();
    AliasesOutside33();
  }

  lemma Spellings34(x: string)
    requires x == NormalizedNames[34] || x in NormalizedAliases[34]
    ensures x in ["PAPUA TENGAH"]
  {
  }

  lemma NamesOutside34()
    ensures forall j :: 0 <= j < |NormalizedNames| && j != 34 ==> "PAPUA TENGAH" != NormalizedNames[j]
  {
  }

  lemma AliasesOutside34()
    ensures forall j :: 0 <= j < |NormalizedAliases| && j != 34 ==> "PAPUA TENGAH" !in NormalizedAliases[j]
  {
    AliasesBelow19Outside34();
    AliasesFrom19Outside34();
  }

  lemma AliasesBelow19Outside34()
    ensures forall j :: 0 <= j < 19 && j != 34 ==> "PAPUA TENGAH" !in NormalizedAliases[j]
  {
  }

  lemma AliasesFrom19Outside34()
    ensures |NormalizedAliases| == 38
    ensures forall j :: 19 <= j < 38 && j != 34 ==> "PAPUA TENGAH" !in NormalizedAliases[j]
  {
  }

  lemma Unique34(x: string)
    requires x == NormalizedNames[34] || x in NormalizedAliases[34]
    ensures forall j :: 0 <= j < |NormalizedNames| && j != 34 ==> x != NormalizedNames[j]
    ensures forall j :: 0 <= j < |NormalizedAliases| && j != 34 ==> x !in NormalizedAliases[j]
  {
    Spellings34(x);
    NamesOutside34();
    AliasesOutside34();
  }

  lemma Spellings35(x: string)
    requires x == NormalizedNames[35] || x in NormalizedAliases[35]
    ensures x in ["PAPUA PEGUNUNGAN"]
  {
  }

  lemma NamesOutside35()
    ensures forall j :: 0 <= j < |NormalizedNames| && j != 35 ==> "PAPUA PEGUNUNGAN" != NormalizedNames[j]
  {
  }

  lemma AliasesOutside35()
    ensures forall j :: 0 <= j < |NormalizedAliases| && j != 35 ==> "PAPUA PEGUNUNGAN" !in NormalizedAliases[j]
  {
    AliasesBelow19Outside35();
    AliasesFrom19Outside35();
  }

  lemma AliasesBelow19Outside35()
    ensures forall j :: 0 <= j < 19 && j != 35 ==> "PAPUA PEGUNUNGAN" !in NormalizedAliases[j]
  {
  }

  lemma AliasesFrom19Outside35()
    ensures |NormalizedAliases| == 38
    ensures forall j :: 19 <= j < 38 && j != 35 ==> "PAPUA PEGUNUNGAN" !in NormalizedAliases[j]
  {
  }

  lemma Unique35(x: string)
    requires x == NormalizedNames[35] || x in NormalizedAliases[35]
    ensures forall j :: 0 <= j < |NormalizedNames| && j != 35 ==> x != NormalizedNames[j]
    ensures forall j :: 0 <= j < |NormalizedAliases| && j != 35 ==> x !in NormalizedAliases[j]
  {
    Spellings35(x);
    NamesOutside35();
    AliasesOutside35();
  }

  lemma Spellings36(x: string)
    requires x == NormalizedNames[36] || x in NormalizedAliases[36]
    ensures x in ["PAPUA SELATAN"]
  {
  }

  lemma NamesOutside36()
    ensures forall j :: 0 <= j < |NormalizedNames| && j != 36 ==> "PAPUA SELATAN" != NormalizedNames[j]
  {
  }

  lemma AliasesOutside36()
    ensures forall j :: 0 <= j < |NormalizedAliases| && j != 36 ==> "PAPUA SELATAN" !in NormalizedAliases[j]
  {
    AliasesBelow19Outside36();
    AliasesFrom19Outside36();
  }

  lemma AliasesBelow19Outside36()
    ensures forall j :: 0 <= j < 19 && j != 36 ==> "PAPUA SELATAN" !in NormalizedAliases[j]
  {
  }

  lemma AliasesFrom19Outside36()
    ensures |NormalizedAliases| == 38
    ensures forall j :: 19 <= j < 38 && j != 36 ==> "PAPUA SELATAN" !in NormalizedAliases[j]
  {
  }

  lemma Unique36(x: string)
    requires x == NormalizedNames[36] || x in NormalizedAliases[36]
    ensures forall j :: 0 <= j < |NormalizedNames| && j != 36 ==> x != NormalizedNames[j]
    ensures forall j :: 0 <= j < |NormalizedAliases| && j != 36 ==> x !in NormalizedAliases[j]
  {
    Spellings36(x);
    NamesOutside36();
    AliasesOutside36();
  }

  lemma Spellings37(x: string)
    requires x == NormalizedNames[37] || x in NormalizedAliases[37]
    ensures x in ["PAPUA BARAT DAYA"]
  {
  }

  lemma NamesOutside37()
    ensures forall j :: 0 <= j < |NormalizedNames| && j != 37 ==> "PAPUA BARAT DAYA" != NormalizedNames[j]
  {
  }

  lemma AliasesOutside37()
    ensures forall j :: 0 <= j < |NormalizedAliases| && j != 37 ==> "PAPUA BARAT DAYA" !in NormalizedAliases[j]
  {
    AliasesBelow19Outside37();
    AliasesFrom19Outside37();
  }

  lemma AliasesBelow19Outside37()
    ensures forall j :: 0 <= j < 19 && j != 37 ==> "PAPUA BARAT DAYA" !in NormalizedAliases[j]
  {
  }

  lemma AliasesFrom19Outside37()
    ensures |NormalizedAliases| == 38
    ensures forall j :: 19 <= j < 38 && j != 37 ==> "PAPUA BARAT DAYA" !in NormalizedAliases[j]
  {
  }

  lemma Unique37(x: string)
    requires x == NormalizedNames[37] || x in NormalizedAliases[37]
    ensures forall j :: 0 <= j < |NormalizedNames| && j != 37 ==> x != NormalizedNames[j]
    ensures forall j :: 0 <= j < |NormalizedAliases| && j != 37 ==> x !in NormalizedAliases[j]
  {
    Spellings37(x);
    NamesOutside37();
    AliasesOutside37();
  }

  /** A normalised spelling of entry `i` is no normalised spelling of any other entry. */
  lemma SpellingUnique(i: int, j: int, x: string)
    requires 0 <= i < |UmpData| && 0 <= j < |UmpData| && i != j
    requires x == NormalizedNames[i] || x in NormalizedAliases[i]
    ensures x != NormalizedNames[j] && x !in NormalizedAliases[j]
  {
    SpellingCounts();
    if i == 0 { Unique0(x); }
    else if i == 1 { Unique1(x); }
    else if i == 2 { Unique2(x); }
    else if i == 3 { Unique3(x); }
    else if i == 4 { Unique4(x); }
    else if i == 5 { Unique5(x); }
    else if i == 6 { Unique6(x); }
    else if i == 7 { Unique7(x); }
    else if i == 8 { Unique8(x); }
    else if i == 9 { Unique9(x); }
    else if i == 10 { Unique10(x); }
    else if i == 11 { Unique11(x); }
    else if i == 12 { Unique12(x); }
    else if i == 13 { Unique13(x); }
    else if i == 14 { Unique14(x); }
    else if i == 15 { Unique15(x); }
    else if i == 16 { Unique16(x); }
    else if i == 17 { Unique17(x); }
    else if i == 18 { Unique18(x); }
    else if i == 19 { Unique19(x); }
    else if i == 20 { Unique20(x); }
    else if i == 21 { Unique21(x); }
    else if i == 22 { Unique22(x); }
    else if i == 23 { Unique23(x); }
    else if i == 24 { Unique24(x); }
    else if i == 25 { Unique25(x); }
    else if i == 26 { Unique26(x); }
    else if i == 27 { Unique27(x); }
    else if i == 28 { Unique28(x); }
    else if i == 29 { Unique29(x); }
    else if i == 30 { Unique30(x); }
    else if i == 31 { Unique31(x); }
    else if i == 32 { Unique32(x); }
    else if i == 33 { Unique33(x); }
    else if i == 34 { Unique34(x); }
    else if i == 35 { Unique35(x); }
    else if i == 36 { Unique36(x); }
    else { Unique37(x); }
  }
  lemma NoEmptySpelling()
    ensures forall j :: 0 <= j < |NormalizedNames| ==> NormalizedNames[j] != ""
    ensures forall j :: 0 <= j < |NormalizedAliases| ==> "" !in NormalizedAliases[j]
  {
  }

  /** Every name of the table resolves back to its own entry. */
  lemma ResolvesOwnName(i: int)
    requires 0 <= i < |UmpData|
    ensures GetUmpByProvinceName(UmpData[i].name) == Some(UmpData[i])
  {
    var x := NormalizeForMatching(UmpData[i].name);
    NameAt(i);
    ExactTierAt(i, x);
    forall j | 0 <= j < |UmpData| && j != i ensures TierOf(UmpData[j], x) !in {1, 2} {
      SpellingUnique(i, j, x);
      ExactTierAt(j, x);
    }
    MatchSoleExact(UmpData, i, x);
  }

  /** Every alias of the table resolves back to the entry it belongs to. */
  lemma ResolvesOwnAlias(i: int, k: int)
    requires 0 <= i < |UmpData| && 0 <= k < |UmpData[i].aliases|
    ensures GetUmpByProvinceName(UmpData[i].aliases[k]) == Some(UmpData[i])
  {
    var x := NormalizeForMatching(UmpData[i].aliases[k]);
    AliasAt(i, k);
    ExactTierAt(i, x);
    forall j | 0 <= j < |UmpData| && j != i ensures TierOf(UmpData[j], x) !in {1, 2} {
      SpellingUnique(i, j, x);
      ExactTierAt(j, x);
    }
    MatchSoleExact(UmpData, i, x);
  }

  /** The empty input, and any whitespace-only input, resolves to the first entry, Aceh. */
  lemma ResolvesBlank(s: string)
    requires forall k :: 0 <= k < |s| ==> IsSpace(s[k])
    ensures GetUmpByProvinceName(s) == Some(UmpData[0])
    ensures UmpData[0].id == "aceh"
  {
    BlankNormalizesToEmpty(s);
    TableIds();
    SpellingCounts();
    NoEmptySpelling();
    forall j | 0 <= j < |UmpData| ensures !NameMatches(UmpData[j], "") && !AliasMatches(UmpData[j], "") {
      NameAt(j);
      AliasMatchesAt(j, "");
    }
    MatchEmpty(UmpData);
  }

  lemma Row13()
    ensures UmpData[13].id == "di-yogyakarta" && UmpData[13].aliases[3] == "D.I. YOGYAKARTA"
  {
  }

  lemma Row19()
    ensures UmpData[19].id == "kalimantan-barat"
  {
  }

  lemma Row32()
    ensures UmpData[32].id == "papua-barat"
  {
  }

  lemma Row37()
    ensures UmpData[37].id == "papua-barat-daya" && UmpData[37].name == "Papua Barat Daya"
  {
  }

  /** The dotted spelling `"D.I. YOGYAKARTA"` resolves to DI Yogyakarta. */
  lemma DottedYogyakartaResolves()
    ensures GetUmpByProvinceName("D.I. YOGYAKARTA") == Some(UmpData[13])
    ensures UmpData[13].id == "di-yogyakarta"
  {
    Row13();
    ResolvesOwnAlias(13, 3);
  }

  /** `"Papua Barat Daya"` resolves to papua-barat-daya, by name. */
  lemma PapuaBaratDayaResolves()
    ensures GetUmpByProvinceName("Papua Barat Daya") == Some(UmpData[37])
    ensures UmpData[37].id == "papua-barat-daya"
  {
    Row37();
    ResolvesOwnName(37);
  }

  /**
   * The earlier entry Papua Barat matches `"Papua Barat Daya"` by containment, so only the tier
   * order keeps it from winning.
   */
  lemma PapuaBaratContained()
    ensures UmpData[32].id == "papua-barat"
    ensures TierOf(UmpData[32], NormalizeForMatching(UmpData[37].name)) == 3
  {
    Row32();
    PapuaPartial();
    PapuaNotExact();
  }

  lemma PapuaPartial()
    ensures PartialMatches(UmpData[32], NormalizeForMatching(UmpData[37].name))
  {
    NameAt(37);
    NameAt(32);
    PapuaPrefix();
  }

  lemma PapuaNotExact()
    ensures TierOf(UmpData[32], NormalizeForMatching(UmpData[37].name)) !in {1, 2}
  {
    var x := NormalizeForMatching(UmpData[37].name);
    assert |UmpData| == 38 by { TableIds(); }
    NameAt(37);
    SpellingUnique(37, 32, x);
    ExactTierAt(32, x);
  }

  lemma PapuaPrefix()
    ensures Contains(NormalizedNames[37], NormalizedNames[32])
  {
    assert NormalizedNames[37] == "PAPUA BARAT DAYA" && NormalizedNames[32] == "PAPUA BARAT";
    assert "PAPUA BARAT" <= "PAPUA BARAT DAYA";
  }

  lemma KalimantanNormal()
    ensures NormalizeForMatching("KALIMANTAN") == "KALIMANTAN"
  {
    NormalizesToUpper("KALIMANTAN", "KALIMANTAN");
  }

  lemma KalimantanNoSpelling()
    ensures forall j :: 0 <= j < |NormalizedNames| ==> NormalizedNames[j] != "KALIMANTAN"
    ensures forall j :: 0 <= j < |NormalizedAliases| ==> "KALIMANTAN" !in NormalizedAliases[j]
  {
  }

  lemma KalimantanNotExact(j: int)
    requires 0 <= j < |UmpData|
    ensures TierOf(UmpData[j], "KALIMANTAN") !in {1, 2}
  {
    SpellingCounts();
    KalimantanNoSpelling();
    ExactTierAt(j, "KALIMANTAN");
  }

  /** Witnesses that no name before Kalimantan Barat contains `"KALIMANTAN"` or is contained in it. */
  lemma KalimantanForeignChars(j: int)
    requires 0 <= j < 19
    ensures j < |NormalizedNames| && "CSSRJSBPEEDJJDJBBUU"[j] in NormalizedNames[j]
    ensures "CSSRJSBPEEDJJDJBBUU"[j] !in "KALIMANTAN"
  {
    if j < 5 { ForeignCharsFrom0(j); }
    else if j < 10 { ForeignCharsFrom5(j); }
    else if j < 15 { ForeignCharsFrom10(j); }
    else { ForeignCharsFrom15(j); }
    ForeignOfKalimantan(j);
  }

  lemma ForeignOfKalimantan(j: int)
    requires 0 <= j < 19
    ensures "CSSRJSBPEEDJJDJBBUU"[j] !in "KALIMANTAN"
  {
  }

  lemma ForeignCharsFrom0(j: int)
    requires 0 <= j < 5
    ensures j < |NormalizedNames| && "CSSRJSBPEEDJJDJBBUU"[j] in NormalizedNames[j]
  {
  }

  lemma ForeignCharsFrom5(j: int)
    requires 5 <= j < 10
    ensures j < |NormalizedNames| && "CSSRJSBPEEDJJDJBBUU"[j] in NormalizedNames[j]
  {
  }

  lemma ForeignCharsFrom10(j: int)
    requires 10 <= j < 15
    ensures j < |NormalizedNames| && "CSSRJSBPEEDJJDJBBUU"[j] in NormalizedNames[j]
  {
  }

  lemma ForeignCharsFrom15(j: int)
    requires 15 <= j < 19
    ensures j < |NormalizedNames| && "CSSRJSBPEEDJJDJBBUU"[j] in NormalizedNames[j]
  {
  }

  lemma KalimantanMissingChars(j: int)
    requires 0 <= j < 19
    ensures j < |NormalizedNames| && "MKKMKKMKMMMMMMKMMMK"[j] !in NormalizedNames[j]
    ensures "MKKMKKMKMMMMMMKMMMK"[j] in "KALIMANTAN"
  {
    if j < 5 { MissingCharsFrom0(j); }
    else if j < 10 { MissingCharsFrom5(j); }
    else if j < 15 { MissingCharsFrom10(j); }
    else { MissingCharsFrom15(j); }
    InKalimantan(j);
  }

  lemma InKalimantan(j: int)
    requires 0 <= j < 19
    ensures "MKKMKKMKMMMMMMKMMMK"[j] in "KALIMANTAN"
  {
  }

  lemma MissingCharsFrom0(j: int)
    requires 0 <= j < 5
    ensures j < |NormalizedNames| && "MKKMKKMKMMMMMMKMMMK"[j] !in NormalizedNames[j]
  {
  }

  lemma MissingCharsFrom5(j: int)
    requires 5 <= j < 10
    ensures j < |NormalizedNames| && "MKKMKKMKMMMMMMKMMMK"[j] !in NormalizedNames[j]
  {
  }

  lemma MissingCharsFrom10(j: int)
    requires 10 <= j < 15
    ensures j < |NormalizedNames| && "MKKMKKMKMMMMMMKMMMK"[j] !in NormalizedNames[j]
  {
  }

  lemma MissingCharsFrom15(j: int)
    requires 15 <= j < 19
    ensures j < |NormalizedNames| && "MKKMKKMKMMMMMMKMMMK"[j] !in NormalizedNames[j]
  {
  }

  lemma KalimantanEarlierMiss(j: int)
    requires 0 <= j < 19
    ensures TierOf(UmpData[j], "KALIMANTAN") == 0
  {
    KalimantanForeignChars(j);
    KalimantanMissingChars(j);
    TableIds();
    NameAt(j);
    MissingCharNotContained("KALIMANTAN", NormalizedNames[j], "CSSRJSBPEEDJJDJBBUU"[j]);
    MissingCharNotContained(NormalizedNames[j], "KALIMANTAN", "MKKMKKMKMMMMMMKMMMK"[j]);
    KalimantanNotExact(j);
  }

  lemma KalimantanPrefix()
    ensures Contains(NormalizedNames[19], "KALIMANTAN")
  {
    assert NormalizedNames[19] == "KALIMANTAN BARAT";
    assert "KALIMANTAN" <= "KALIMANTAN BARAT";
  }

  lemma KalimantanBaratContains()
    ensures TierOf(UmpData[19], "KALIMANTAN") == 3
  {
    TableIds();
    NameAt(19);
    KalimantanPrefix();
    KalimantanNotExact(19);
  }

  lemma KalimantanMatch()
    ensures MatchIndex(UmpData, "KALIMANTAN") == Some(19)
  {
    TableIds();
    KalimantanBaratContains();
    forall j | 0 <= j < |UmpData| ensures TierOf(UmpData[j], "KALIMANTAN") !in {1, 2} {
      KalimantanNotExact(j);
    }
    forall j | 0 <= j < 19 ensures TierOf(UmpData[j], "KALIMANTAN") == 0 {
      KalimantanEarlierMiss(j);
    }
    MatchFirstPartial(UmpData, 19, "KALIMANTAN");
  }

  /**
   * `"KALIMANTAN"` matches no name or alias exactly; among the five Kalimantan entries that
   * contain it the first in table order, Kalimantan Barat, wins.
   */
  lemma KalimantanResolves()
    ensures GetUmpByProvinceName("KALIMANTAN") == Some(UmpData[19])
    ensures UmpData[19].id == "kalimantan-barat"
  {
    Row19();
    KalimantanNormal();
    KalimantanMatch();
  }
}
