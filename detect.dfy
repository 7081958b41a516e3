/**
 * The filename-driven disease lookup of the Express detection service: the
 * static `diseaseData` table, the language and file-name defaults of the
 * `/detect` handler, and the matching rule `getDiseases`.
 */
module Detect {
  import opened Wrappers
  import opened Strings

  /** One table entry; the source's keys are d (name), s (symptoms), t (treatment), p (prevention). */
  datatype Disease = Disease(name: string, symptoms: string, treatment: string, prevention: string)

  const ENGLISH: seq<Disease> := [
    Disease("Powdery Mildew", "White powder on leaves.", "Spray fungicide.", "Avoid overhead watering."),
    Disease("Leaf Spot", "Brown or black spots.", "Use copper fungicide.", "Remove infected leaves."),
    Disease("Rust Disease", "Orange rust spots.", "Sulfur fungicide.", "Improve air flow."),
    Disease("Bacterial Blight", "Water soaked lesions.", "Antibacterial spray.", "Avoid wet leaves."),
    Disease("Early Blight", "Dark concentric rings.", "Neem oil or fungicide.", "Crop rotation."),
    Disease("Healthy Leaf", "No disease signs.", "No treatment needed.", "Maintain proper care.")
  ]

  const HINDI: seq<Disease> := [
    Disease("पाउडरी मिल्ड्यू", "सफेद पाउडर जैसे धब्बे।", "फंगिसाइड छिड़कें।", "ऊपर से पानी न डालें।"),
    Disease("लीफ स्पॉट", "भूरे/काले धब्बे।", "कॉपर फंगिसाइड।", "संक्रमित पत्ते हटाएं।"),
    Disease("रस्ट रोग", "नारंगी जंग जैसे धब्बे।", "सल्फर फंगिसाइड।", "हवा का संचार बढ़ाएं।"),
    Disease("स्वस्थ पत्ता", "कोई रोग नहीं।", "उपचार आवश्यक नहीं।", "नियमित देखभाल।")
  ]

  const TELUGU: seq<Disease> := [
    Disease("పౌడరీ మిల్డ్యూ", "తెల్లటి పొడి మచ్చలు.", "ఫంగిసైడ్ వాడండి.", "పై నుండి నీరు పోయవద్దు."),
    Disease("లీఫ్ స్పాట్", "గోధుమ/నల్ల మచ్చలు.", "కాపర్ ఫంగిసైడ్.", "బాధిత ఆకులు తొలగించండి."),
    Disease("రస్ట్ వ్యాధి", "నారింజ రంగు మచ్చలు.", "సల్ఫర్ ఫంగిసైడ్.", "గాలి ప్రవాహం పెంచండి."),
    Disease("ఆరోగ్యమైన ఆకు", "ఎటువంటి వ్యాధి లేదు.", "చికిత్స అవసరం లేదు.", "సరైన సంరక్షణ.")
  ]

  /** `diseaseData`: one list per language name. */
  const DISEASE_DATA: map<string, seq<Disease>> := map["English" := ENGLISH, "Hindi" := HINDI, "Telugu" := TELUGU]

  /** `diseaseData[lang] || diseaseData["English"]`. */
  function SelectList(lang: string): (list: seq<Disease>)
    ensures |list| > 0
    ensures list == ENGLISH || list == HINDI || list == TELUGU
  {
    if lang in DISEASE_DATA then DISEASE_DATA[lang] else ENGLISH
  }

  /** The filter condition of the rust branch: the lower-cased name contains "rust". */
  predicate MentionsRust(x: Disease)
    ensures MentionsRust(x) ==> 'r' in x.name || 'R' in x.name
  {
    var mentions := Contains(ToLower(x.name), "rust");
    if 'r' in x.name || 'R' in x.name then mentions
    else
      LowerRComesFromR(x.name);
      NotContainsWithoutFirstChar(ToLower(x.name), "rust");
      mentions
  }

  /** `list.filter(x => x.d.toLowerCase().includes("rust"))`. */
  function RustEntries(list: seq<Disease>): (r: seq<Disease>)
    ensures IsSubsequence(r, list)
    ensures forall x :: x in r ==> MentionsRust(x)
    ensures forall i :: 0 <= i < |list| && MentionsRust(list[i]) ==> list[i] in r
    ensures forall x :: multiset(r)[x] == if MentionsRust(x) then multiset(list)[x] else 0
  {
    if list == [] then []
    else
      assert list == [list[0]] + list[1..];
      assert multiset(list) == multiset{list[0]} + multiset(list[1..]);
      if MentionsRust(list[0]) then [list[0]] + RustEntries(list[1..])
      else
        var rest := RustEntries(list[1..]);
        assert rest != [] ==> rest[0] != list[0] by {
          if rest != [] { assert rest[0] in rest; }
        }
        rest
  }

  /** `getDiseases(lang, fileName)`. */
  function GetDiseases(lang: string, fileName: string): (r: seq<Disease>)
    ensures IsSubsequence(r, SelectList(lang))
    ensures |r| <= |SelectList(lang)|
  {
    var list := SelectList(lang);
    if Contains(fileName, "healthy") then
      SubsequenceOfOne(list, |list| - 1);
      [list[|list| - 1]]
    else if Contains(fileName, "rust") then
      SubsequenceLength(RustEntries(list), list);
      RustEntries(list)
    else
      SubsequenceReflexive(list);
      list
  }

  /** `req.body.language || "English"`: a missing or empty field selects English. */
  function RequestLanguage(language: Option<string>): (lang: string)
    ensures lang != ""
    ensures language.None? || language.value == "" ==> lang == "English"
    ensures language.Some? && language.value != "" ==> lang == language.value
  {
    if language.None? || language.value == "" then "English" else language.value
  }

  /** `req.file ? req.file.filename.toLowerCase() : ""`. */
  function RequestFileName(stored: Option<string>): (fileName: string)
    ensures forall i :: 0 <= i < |fileName| ==> !IsAsciiUpper(fileName[i])
    ensures stored.None? ==> fileName == ""
    ensures stored.Some? ==> |fileName| == |stored.value|
    ensures stored.Some? ==> fileName == ToLower(stored.value)
    ensures stored.Some? ==> forall i :: 0 <= i < |fileName| ==> fileName[i] == LowerChar(stored.value[i])
  {
    if stored.None? then ""
    else
      ToLowerHasNoUpper(stored.value);
      ToLower(stored.value)
  }

  /** The `diseases` list the `/detect` handler answers with. */
  function DetectResponse(language: Option<string>, stored: Option<string>): (r: seq<Disease>)
    ensures IsSubsequence(r, SelectList(RequestLanguage(language)))
  {
    GetDiseases(RequestLanguage(language), RequestFileName(stored))
  }

  // ---------------------------------------------------------------------
  // Properties of the matching rule

  /** True of a list none of whose names holds the letter r in either case. */
  predicate NoNameHasLetterR(list: seq<Disease>) {
    forall i :: 0 <= i < |list| ==> 'r' !in list[i].name && 'R' !in list[i].name
  }

  /** A list whose names lack the letter r has no entry mentioning "rust". */
  lemma NoLetterRMeansNoRustEntries(list: seq<Disease>)
    requires NoNameHasLetterR(list)
    ensures RustEntries(list) == []
  {
    var r := RustEntries(list);
    SubsequenceElements(r, list);
    forall i | 0 <= i < |list| ensures !MentionsRust(list[i]) { }
  }

  predicate LacksLetterR(name: string) {
    'r' !in name && 'R' !in name
  }

  lemma FourNamesLackR(list: seq<Disease>)
    requires |list| == 4
    requires LacksLetterR(list[0].name) && LacksLetterR(list[1].name)
    requires LacksLetterR(list[2].name) && LacksLetterR(list[3].name)
    ensures NoNameHasLetterR(list)
  {
  }

  lemma HindiPowderyMildewLacksR() ensures LacksLetterR(HINDI[0].name) { }
  lemma HindiLeafSpotLacksR() ensures LacksLetterR(HINDI[1].name) { }
  lemma HindiRustDiseaseLacksR() ensures LacksLetterR(HINDI[2].name) { }
  lemma HindiHealthyLeafLacksR() ensures LacksLetterR(HINDI[3].name) { }

  lemma TeluguPowderyMildewLacksR() ensures LacksLetterR(TELUGU[0].name) { }
  lemma TeluguLeafSpotLacksR() ensures LacksLetterR(TELUGU[1].name) { }
  lemma TeluguRustDiseaseLacksR() ensures LacksLetterR(TELUGU[2].name) { }
  lemma TeluguHealthyLeafLacksR() ensures LacksLetterR(TELUGU[3].name) { }

  /** The rust filter finds nothing in the Hindi list nor in the Telugu list. */
  lemma IndicListsHaveNoRustEntries()
    ensures RustEntries(HINDI) == [] && RustEntries(TELUGU) == []
  {
    HindiPowderyMildewLacksR();
    HindiLeafSpotLacksR();
    HindiRustDiseaseLacksR();
    HindiHealthyLeafLacksR();
    TeluguPowderyMildewLacksR();
    TeluguLeafSpotLacksR();
    TeluguRustDiseaseLacksR();
    TeluguHealthyLeafLacksR();
    FourNamesLackR(HINDI);
    FourNamesLackR(TELUGU);
    NoLetterRMeansNoRustEntries(HINDI);
    NoLetterRMeansNoRustEntries(TELUGU);
  }

  /** A missing, empty or unknown language is answered from the English list. */
  lemma UnknownLanguageFallsBackToEnglish(language: Option<string>, stored: Option<string>)
    requires language.None? || language.value !in DISEASE_DATA
    ensures SelectList(RequestLanguage(language)) == ENGLISH
    ensures DetectResponse(language, stored) == DetectResponse(Some("English"), stored)
  {
    assert RequestLanguage(Some("English")) == "English";
    SameListSameDiseases(RequestLanguage(language), "English", RequestFileName(stored));
  }

  /** The answer depends on the language only through the list it selects. */
  lemma SameListSameDiseases(lang: string, lang': string, fileName: string)
    requires SelectList(lang) == SelectList(lang')
    ensures GetDiseases(lang, fileName) == GetDiseases(lang', fileName)
  {
  }

  /** A "healthy" file name yields exactly the last entry of the selected list,
      even when the name also contains "rust". */
  lemma HealthyNameYieldsLastEntry(lang: string, fileName: string)
    requires Contains(fileName, "healthy")
    ensures var list := SelectList(lang);
      GetDiseases(lang, fileName) == [list[|list| - 1]]
  {
  }

  /** A "rust" (and not "healthy") file name yields, in their original order,
      exactly the entries whose lower-cased name contains "rust". */
  lemma RustNameYieldsRustEntries(lang: string, fileName: string)
    requires !Contains(fileName, "healthy") && Contains(fileName, "rust")
    ensures var r, list := GetDiseases(lang, fileName), SelectList(lang);
      && IsSubsequence(r, list)
      && (forall x :: x in r <==> x in list && MentionsRust(x))
      && (forall x :: multiset(r)[x] == if MentionsRust(x) then multiset(list)[x] else 0)
  {
    var r, list := GetDiseases(lang, fileName), SelectList(lang);
    SubsequenceElements(r, list);
  }

  /** Any other file name yields the selected list unchanged. */
  lemma OtherNameYieldsWholeList(lang: string, fileName: string)
    requires !Contains(fileName, "healthy") && !Contains(fileName, "rust")
    ensures GetDiseases(lang, fileName) == SelectList(lang)
  {
  }

  /** Without an uploaded file the handler matches the empty name and returns the whole list. */
  lemma NoUploadYieldsWholeList(language: Option<string>)
    ensures DetectResponse(language, None) == SelectList(RequestLanguage(language))
  {
  }

  /** Asking for a rust disease in Hindi or Telugu returns nothing. */
  lemma IndicRustRequestIsEmpty(lang: string, fileName: string)
    requires lang == "Hindi" || lang == "Telugu"
    requires !Contains(fileName, "healthy") && Contains(fileName, "rust")
    ensures GetDiseases(lang, fileName) == []
  {
    RustBranchIsRustFilter(lang, fileName);
    IndicLanguagesSelectIndicLists();
    IndicListsHaveNoRustEntries();
  }

  lemma RustBranchIsRustFilter(lang: string, fileName: string)
    requires !Contains(fileName, "healthy") && Contains(fileName, "rust")
    ensures GetDiseases(lang, fileName) == RustEntries(SelectList(lang))
  {
  }

  lemma IndicLanguagesSelectIndicLists()
    ensures SelectList("Hindi") == HINDI && SelectList("Telugu") == TELUGU
  {
  }

  /** The keywords match in any letter case, because the stored name is lower-cased first. */
  lemma HealthyMatchIgnoresCase(language: Option<string>, stored: string, keyword: string)
    requires ToLower(keyword) == "healthy" && Contains(stored, keyword)
    ensures var list := SelectList(RequestLanguage(language));
      DetectResponse(language, Some(stored)) == [list[|list| - 1]]
  {
    ContainsToLower(stored, keyword);
  }

  lemma RustMatchIgnoresCase(language: Option<string>, stored: string, keyword: string)
    requires ToLower(keyword) == "rust" && Contains(stored, keyword)
    requires !Contains(ToLower(stored), "healthy")
    ensures var list := SelectList(RequestLanguage(language));
      DetectResponse(language, Some(stored)) == RustEntries(list)
  {
    ContainsToLower(stored, keyword);
  }
}
