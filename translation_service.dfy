/**
 * `services/translation_service.py`: keyword-based priority and category
 * extraction over the multilingual tables, and the shortcuts of
 * `translate_to_english`.  Language detection and the translator are
 * inputs: the detected code, and the translator's answer (`None` when it
 * raises).
 */
module Translation {
  import opened Wrappers
  import opened Text

  /** A priority level or category with its keyword lists per language code. */
  datatype Level = Level(name: string, keywords: map<string, seq<string>>)

  /** Pairs each name with the keyword lists at the same position. */
  function Levels(names: seq<string>, keywords: seq<map<string, seq<string>>>): (r: seq<Level>)
    ensures |r| <= |names|
    ensures forall i :: 0 <= i < |r| ==> r[i].name == names[i]
  {
    if names == [] || keywords == [] then []
    else [Level(names[0], keywords[0])] + Levels(names[1..], keywords[1..])
  }

  /** The keys of `priority_keywords`, in its iteration order. */
  const PriorityNames: seq<string> := ["urgent", "high", "low"]

  /** The values of `priority_keywords`, in the same order. */
  const PriorityKeywords: seq<map<string, seq<string>>> := [
    map[
      "en" := ["urgent", "asap", "immediately", "critical", "emergency"],
      "es" := ["urgente", "inmediatamente", "crítico", "emergencia"],
      "fr" := ["urgent", "immédiatement", "critique", "urgence"],
      "de" := ["dringend", "sofort", "kritisch", "notfall"],
      "hi" := ["तुरंत", "जरूरी", "आपातकाल"],
      "te" := ["తక్షణం", "అత్యవసరం"],
      "ta" := ["உடனடி", "அவசரம்"],
      "zh" := ["紧急", "立即", "马上"],
      "ja" := ["緊急", "すぐに", "至急"],
      "ar" := ["عاجل", "فوري", "طارئ"]],
    map[
      "en" := ["high priority", "important", "high"],
      "es" := ["alta prioridad", "importante", "alto"],
      "fr" := ["haute priorité", "important", "élevé"],
      "de" := ["hohe priorität", "wichtig", "hoch"],
      "hi" := ["उच्च प्राथमिकता", "महत्वपूर्ण"],
      "te" := ["అధిక ప్రాధాన్యత", "ముఖ్యమైన"],
      "ta" := ["உயர் முன்னுரிமை", "முக்கியமான"],
      "zh" := ["高优先级", "重要"],
      "ja" := ["高優先度", "重要"],
      "ar" := ["أولوية عالية", "مهم"]],
    map[
      "en" := ["low priority", "when possible", "eventually", "low"],
      "es" := ["baja prioridad", "cuando sea posible", "bajo"],
      "fr" := ["basse priorité", "quand possible", "bas"],
      "de" := ["niedrige priorität", "wenn möglich", "niedrig"],
      "hi" := ["कम प्राथमिकता", "जब संभव हो"],
      "te" := ["తక్కువ ప్రాధాన్యత"],
      "ta" := ["குறைந்த முன்னுரிமை"],
      "zh" := ["低优先级"],
      "ja" := ["低優先度"],
      "ar" := ["أولوية منخفضة"]]
  ]

  /** The keys of `category_keywords`, in its iteration order. */
  const CategoryNames: seq<string> := ["work", "health", "education", "personal", "shopping"]

  /** The values of `category_keywords`, in the same order. */
  const CategoryKeywords: seq<map<string, seq<string>>> := [
    map[
      "en" := ["work", "office", "job", "meeting", "report", "project", "business"],
      "es" := ["trabajo", "oficina", "reunión", "informe", "proyecto", "negocio"],
      "fr" := ["travail", "bureau", "réunion", "rapport", "projet", "affaires"],
      "de" := ["arbeit", "büro", "besprechung", "bericht", "projekt", "geschäft"],
      "hi" := ["काम", "कार्यालय", "नौकरी", "बैठक", "रिपोर्ट"],
      "te" := ["పని", "కార్యాలయం", "ఉద్యోగం", "సమావేశం"],
      "ta" := ["வேலை", "அலுவலகம்", "கூட்டம்"],
      "zh" := ["工作", "办公室", "会议", "报告", "项目"],
      "ja" := ["仕事", "オフィス", "会議", "レポート"],
      "ar" := ["عمل", "مكتب", "اجتماع", "تقرير"]],
    map[
      "en" := ["doctor", "appointment", "medical", "health", "hospital", "clinic"],
      "es" := ["doctor", "cita", "médico", "salud", "hospital"],
      "fr" := ["docteur", "rendez-vous", "médical", "santé", "hôpital"],
      "de" := ["arzt", "termin", "medizinisch", "gesundheit", "krankenhaus"],
      "hi" := ["डॉक्टर", "अपॉइंटमेंट", "स्वास्थ्य", "अस्पताल"],
      "te" := ["డాక్టర్", "అపాయింట్మెంట్", "ఆరోగ్యం"],
      "ta" := ["மருத்துவர்", "சுகாதாரம்"],
      "zh" := ["医生", "预约", "医疗", "健康", "医院"],
      "ja" := ["医者", "予約", "医療", "健康", "病院"],
      "ar" := ["طبيب", "موعد", "طبي", "صحة", "مستشفى"]],
    map[
      "en" := ["study", "homework", "assignment", "exam", "school", "university", "college"],
      "es" := ["estudiar", "tarea", "examen", "escuela", "universidad"],
      "fr" := ["étudier", "devoirs", "examen", "école", "université"],
      "de" := ["studieren", "hausaufgaben", "prüfung", "schule", "universität"],
      "hi" := ["पढ़ाई", "होमवर्क", "परीक्षा", "स्कूल", "विश्वविद्यालय"],
      "te" := ["చదువు", "హోంవర్క్", "పరీక్ష", "పాఠశాల"],
      "ta" := ["படிப்பு", "பாடம்", "தேர்வு", "பள்ளி"],
      "zh" := ["学习", "作业", "考试", "学校", "大学"],
      "ja" := ["勉強", "宿題", "試験", "学校", "大学"],
      "ar" := ["دراسة", "واجب", "امتحان", "مدرسة", "جامعة"]],
    map[
      "en" := ["personal", "home", "family", "friend", "birthday", "anniversary"],
      "es" := ["personal", "casa", "familia", "amigo", "cumpleaños"],
      "fr" := ["personnel", "maison", "famille", "ami", "anniversaire"],
      "de" := ["persönlich", "zuhause", "familie", "freund", "geburtstag"],
      "hi" := ["व्यक्तिगत", "घर", "परिवार", "दोस्त"],
      "te" := ["వ్యక్తిగత", "ఇల్లు", "కుటుంబం", "స్నేహితుడు"],
      "ta" := ["தனிப்பட்ட", "வீடு", "குடும்பம்", "நண்பர்"],
      "zh" := ["个人", "家", "家庭", "朋友", "生日"],
      "ja" := ["個人", "家", "家族", "友達", "誕生日"],
      "ar" := ["شخصي", "منزل", "عائلة", "صديق"]],
    map[
      "en" := ["buy", "purchase", "shop", "store", "groceries", "market"],
      "es" := ["comprar", "tienda", "mercado", "comestibles"],
      "fr" := ["acheter", "magasin", "marché", "épicerie"],
      "de" := ["kaufen", "geschäft", "markt", "lebensmittel"],
      "hi" := ["खरीदना", "दुकान", "बाजार", "किराना"],
      "te" := ["కొనుగోలు", "దుకాణం", "మార్కెట్"],
      "ta" := ["வாங்க", "கடை", "சந்தை"],
      "zh" := ["买", "购买", "商店", "市场", "杂货"],
      "ja" := ["買う", "購入", "店", "市場", "食料品"],
      "ar" := ["شراء", "متجر", "سوق", "بقالة"]]
  ]

  /** `priority_keywords`. */
  const PriorityTable: seq<Level> := Levels(PriorityNames, PriorityKeywords)

  /** `category_keywords`. */
  const CategoryTable: seq<Level> := Levels(CategoryNames, CategoryKeywords)

  /** `any(keyword in text for keyword in keywords)`. */
  function AnyContained(text: string, keywords: seq<string>): (r: bool)
    ensures r <==> exists k :: 0 <= k < |keywords| && Contains(text, keywords[k])
  {
    if keywords == [] then false
    else if Contains(text, keywords[0]) then true
    else
      var rest := AnyContained(text, keywords[1..]);
      assert forall k :: 1 <= k < |keywords| ==> keywords[k] == keywords[1..][k - 1];
      rest
  }

  /** Whether `level` has keywords for `lang` and one of them occurs in `text`. */
  predicate Matches(level: Level, text: string, lang: string) {
    lang in level.keywords && AnyContained(text, level.keywords[lang])
  }

  /** The first level, in table order, that matches; levels without keywords for `lang` are passed over. */
  function FirstMatch(text: string, lang: string, table: seq<Level>): (r: Option<string>)
    ensures r.Some? <==> exists i :: 0 <= i < |table| && Matches(table[i], text, lang)
    ensures r.Some? ==> exists i :: 0 <= i < |table| && Matches(table[i], text, lang) && r.value == table[i].name
                                   && forall j :: 0 <= j < i ==> !Matches(table[j], text, lang)
  {
    if table == [] then None
    else if Matches(table[0], text, lang) then Some(table[0].name)
    else
      var rest := FirstMatch(text, lang, table[1..]);
      assert forall i :: 1 <= i < |table| ==> table[i] == table[1..][i - 1];
      rest
  }

  /** When every name is non-empty, so is any match. */
  lemma MatchNamesNonEmpty(text: string, lang: string, names: seq<string>, keywords: seq<map<string, seq<string>>>)
    requires forall i :: 0 <= i < |names| ==> names[i] != ""
    ensures FirstMatch(text, lang, Levels(names, keywords)).Some? ==> FirstMatch(text, lang, Levels(names, keywords)).value != ""
  {
  }

  /** Every category name is a non-empty string. */
  lemma CategoryNamesNonEmpty(text: string, lang: string)
    ensures FirstMatch(text, lang, CategoryTable).Some? ==> FirstMatch(text, lang, CategoryTable).value != ""
  {
    MatchNamesNonEmpty(text, lang, CategoryNames, CategoryKeywords);
  }

  datatype Features = Features(priority: string, category: string)

  /** The first matching priority level and category of the lowered text, with the defaults. */
  function FeaturesOf(originalText: string, sourceLang: string): Features {
    Features(FirstMatch(Lower(originalText), sourceLang, PriorityTable).GetOr("medium"),
             FirstMatch(Lower(originalText), sourceLang, CategoryTable).GetOr("general"))
  }

  /** `extract_multilingual_features`. */
  method ExtractMultilingualFeatures(originalText: string, sourceLang: string) returns (f: Features)
    ensures f == FeaturesOf(originalText, sourceLang)
  {
    var textLower := Lower(originalText);
    var priority := FirstLevel(textLower, sourceLang, PriorityTable, "medium");
    var category := FirstLevel(textLower, sourceLang, CategoryTable, "general");
    f := Features(priority, category);
  }

  /** One of the two loops of `extract_multilingual_features`: stop at the first matching entry. */
  method FirstLevel(textLower: string, sourceLang: string, table: seq<Level>, default: string) returns (chosen: string)
    ensures chosen == FirstMatch(textLower, sourceLang, table).GetOr(default)
  {
    chosen := default;
    var i := 0;
    while i < |table|
      invariant 0 <= i <= |table|
      invariant FirstMatch(textLower, sourceLang, table) == FirstMatch(textLower, sourceLang, table[i..])
      invariant chosen == default
    {
      var level := table[i];
      assert table[i..][0] == level && table[i..][1..] == table[i + 1..];
      if sourceLang in level.keywords {
        var keywords := level.keywords[sourceLang];
        if AnyContained(textLower, keywords) {
          chosen := level.name;
          break;
        }
      }
      i := i + 1;
    }
  }

  /** A language with no keyword lists gets the defaults whatever the text says. */
  lemma UnlistedLanguageNoMatch(text: string, lang: string, table: seq<Level>)
    requires forall i :: 0 <= i < |table| ==> lang !in table[i].keywords
    ensures FirstMatch(text, lang, table).None?
  {
  }

  /** Languages listed in the tables. */
  const KeywordLanguages := {"en", "es", "fr", "de", "hi", "te", "ta", "zh", "ja", "ar"}

  /** Levels built from keyword maps none of which lists `lang` never match. */
  lemma {:induction false} UnlistedLevels(text: string, lang: string, names: seq<string>, keywords: seq<map<string, seq<string>>>)
    requires forall i :: 0 <= i < |keywords| ==> lang !in keywords[i]
    ensures FirstMatch(text, lang, Levels(names, keywords)).None?
  {
    if names != [] && keywords != [] {
      UnlistedLevels(text, lang, names[1..], keywords[1..]);
    }
  }

  lemma PriorityKeysListed(lang: string)
    requires lang !in KeywordLanguages
    ensures forall i :: 0 <= i < |PriorityKeywords| ==> lang !in PriorityKeywords[i]
  {
  }

  lemma CategoryKeysListed(lang: string)
    requires lang !in KeywordLanguages
    ensures forall i :: 0 <= i < |CategoryKeywords| ==> lang !in CategoryKeywords[i]
  {
  }

  /** A language outside the tables gets priority "medium" and category "general" whatever the text says. */
  lemma UnlistedLanguageDefaults(text: string, lang: string)
    requires lang !in KeywordLanguages
    ensures FeaturesOf(text, lang) == Features("medium", "general")
  {
    PriorityKeysListed(lang);
    UnlistedLevels(Lower(text), lang, PriorityNames, PriorityKeywords);
    CategoryKeysListed(lang);
    UnlistedLevels(Lower(text), lang, CategoryNames, CategoryKeywords);
  }

  // ---------- translate_to_english ----------

  /** The dictionary `translate_to_english` returns. */
  datatype Translated = Translated(originalText: string, translatedText: string, sourceLanguage: string,
                                   translationNeeded: bool, failed: bool)

  /**
   * `translate_to_english`: a missing language code is replaced by the
   * detected one (`detect_language` answers "en" when it fails); English
   * text is returned as is; otherwise the translator's answer is used, and
   * its failure returns the original text.  `translatorCalled` records
   * whether the translator was asked.
   */
  function TranslateToEnglish(text: string, sourceLang: Option<string>, detected: string,
                              translator: Option<string>): (r: (Translated, bool))
    ensures var lang := if Truthy(sourceLang) then sourceLang.value else detected;
      && r.0.originalText == text
      && (lang == "en" ==> r.0 == Translated(text, text, "en", false, false) && !r.1)
      && (lang != "en" ==> r.1)
      && (lang != "en" && translator.None? ==>
            r.0 == Translated(text, text, OrElse(Some(lang), "unknown"), false, true))
      && (lang != "en" && translator.Some? ==> r.0 == Translated(text, translator.value, lang, true, false))
  {
    var lang := if Truthy(sourceLang) then sourceLang.value else detected;
    if lang == "en" then (Translated(text, text, "en", false, false), false)
    else if translator.None? then (Translated(text, text, OrElse(Some(lang), "unknown"), false, true), true)
    else (Translated(text, translator.value, lang, true, false), true)
  }

  /** Whenever nothing was translated, the "translated" text is the original. */
  lemma UntranslatedKeepsText(text: string, sourceLang: Option<string>, detected: string, translator: Option<string>)
    ensures !TranslateToEnglish(text, sourceLang, detected, translator).0.translationNeeded ==>
      TranslateToEnglish(text, sourceLang, detected, translator).0.translatedText == text
  {
  }

  /** A worked example: English text marked urgent and about a meeting. */
  lemma ExampleUrgentMeeting()
    ensures FirstMatch("urgent meeting", "en", PriorityTable) == Some("urgent")
  {
    UrgentLevelFirst();
    UrgentOccurs("urgent meeting");
    var kws := PriorityTable[0].keywords["en"];
    assert AnyContained("urgent meeting", kws);
    assert Matches(PriorityTable[0], "urgent meeting", "en");
  }

  /** The first priority level is "urgent", and its English list starts with "urgent". */
  lemma UrgentLevelFirst()
    ensures |PriorityTable| >= 1 && PriorityTable[0].name == "urgent"
    ensures "en" in PriorityTable[0].keywords && |PriorityTable[0].keywords["en"]| >= 1
    ensures PriorityTable[0].keywords["en"][0] == "urgent"
  {
    assert PriorityTable[0] == Level(PriorityNames[0], PriorityKeywords[0]);
  }

  lemma UrgentOccurs(text: string)
    requires text == "urgent meeting"
    ensures Contains(text, "urgent")
  {
    assert OccursAt(text, "urgent", 0);
    ContainsIff(text, "urgent");
  }
}
