/**
 * The translation hook: the languages offered, the interface strings looked
 * up by key with English as the fallback, and the common-symptom list in the
 * reader's language.
 */
module Translation {
  import opened Wrappers

  datatype Language = Language(code: string, name: string, flag: string, rtl: bool)

  /** `languages`, in the order offered. */
  const Languages: seq<Language> := [
    Language("en", "English", "🇺🇸", false),
    Language("es", "Español", "🇪🇸", false),
    Language("hi", "हिंदी", "🇮🇳", false),
    Language("bn", "বাংলা", "🇧🇩", false),
    Language("ar", "العربية", "🇸🇦", true),
    Language("zh", "中文", "🇨🇳", false),
    Language("ur", "اردو", "🇵🇰", true),
    Language("te", "తెలుగు", "🇮🇳", false),
    Language("ta", "தமிழ்", "🇮🇳", false),
    Language("mr", "मराठी", "🇮🇳", false)
  ]

  /** The language selected at first: the first one offered, English. */
  function DefaultLanguage(): (l: Language)
    ensures l == Languages[0] && l.code == "en"
  {
    Languages[0]
  }

  /** The English interface strings, by key. */
  const English: map<string, string> := map[
      "welcomeTitle" := "AI Health Assistant",
      "welcomeDescription" := "I'm your AI Doctor Assistant, equipped with advanced medical knowledge and natural language understanding. How can I help you today?",
      "selectSymptoms" := "Select Symptoms",
      "writeDescription" := "Write or Speak",
      "uploadReport" := "Upload Report",
      "speak" := "Speak Now",
      "listening" := "Listening...",
      "checkHealth" := "Check My Health",
      "cancel" := "Cancel",
      "askAnything" := "Ask me anything about your health...",
      "tellHealth" := "Tell Me About Your Health",
      "describeFeeling" := "Select your symptoms or describe how you're feeling in simple words.",
      "capabilities" := "Capabilities",
      "accuracy" := "Accuracy",
      "whatCanYouDo" := "What can you help me with?",
      "howAccurate" := "How do you ensure medical accuracy?",
      "analyzing" := "Analyzing your request...",
      "pleaseDescribeSymptoms" := "Please describe your symptoms or select from the common symptoms",
      "whatIUnderstand" := "What I Understand",
      "importantFindings" := "Important Findings",
      "whatThisMightBe" := "What This Might Be",
      "whatToDoNext" := "What To Do Next",
      "whenToSeeDoctor" := "When to See a Doctor",
      "needsImmediateAttention" := "This needs immediate medical attention",
      "shouldSeeDoctor" := "You should see a doctor soon",
      "canTreatAtHome" := "You can treat this at home but see a doctor if it gets worse"
    ]

  /** The Spanish interface strings, by key. */
  const Spanish: map<string, string> := map[
      "welcomeTitle" := "Asistente de Salud IA",
      "welcomeDescription" := "Soy tu Asistente Médico IA, equipado con conocimientos médicos avanzados y comprensión del lenguaje natural. ¿Cómo puedo ayudarte hoy?",
      "selectSymptoms" := "Seleccionar Síntomas",
      "writeDescription" := "Escribir o Hablar",
      "uploadReport" := "Subir Informe",
      "speak" := "Hablar Ahora",
      "listening" := "Escuchando...",
      "checkHealth" := "Revisar mi Salud",
      "cancel" := "Cancelar",
      "askAnything" := "Pregúntame cualquier cosa sobre tu salud...",
      "tellHealth" := "Cuéntame sobre tu Salud",
      "describeFeeling" := "Selecciona tus síntomas o describe cómo te sientes en palabras simples.",
      "capabilities" := "Capacidades",
      "accuracy" := "Precisión",
      "whatCanYouDo" := "¿En qué puedes ayudarme?",
      "howAccurate" := "¿Cómo aseguras la precisión médica?",
      "analyzing" := "Analizando su consulta...",
      "pleaseDescribeSymptoms" := "Por favor describe tus síntomas o selecciona de los síntomas comunes",
      "whatIUnderstand" := "Lo que Entiendo",
      "importantFindings" := "Hallazgos Importantes",
      "whatThisMightBe" := "Qué Podría Ser",
      "whatToDoNext" := "Qué Hacer Después",
      "whenToSeeDoctor" := "Cuándo Ver al Médico",
      "needsImmediateAttention" := "Esto necesita atención médica inmediata",
      "shouldSeeDoctor" := "Deberías ver a un médico pronto",
      "canTreatAtHome" := "Puedes tratarlo en casa pero consulta al médico si empeora"
    ]

  /** The Hindi interface strings, by key. */
  const Hindi: map<string, string> := map[
      "welcomeTitle" := "एआई स्वास्थ्य सहायक",
      "welcomeDescription" := "मैं आपका एआई डॉक्टर सहायक हूं, उन्नत चिकित्सा ज्ञान और प्राकृतिक भाषा समझ से लैस। मैं आज आपकी कैसे मदद कर सकता हूं?",
      "selectSymptoms" := "लक्षण चुनें",
      "writeDescription" := "लिखें या बोलें",
      "uploadReport" := "रिपोर्ट अपलोड करें",
      "speak" := "अब बोलें",
      "listening" := "सुन रहा हूं...",
      "checkHealth" := "मेरी सेहत जांचें",
      "cancel" := "रद्द करें",
      "askAnything" := "अपनी सेहत के बारे में कुछ भी पूछें...",
      "tellHealth" := "अपनी सेहत के बारे में बताएं",
      "describeFeeling" := "अपने लक्षण चुनें या बताएं कि आप कैसा महसूस कर रहे हैं।",
      "capabilities" := "क्षमताएं",
      "accuracy" := "सटीकता",
      "whatCanYouDo" := "आप मेरी कैसे मदद कर सकते हैं?",
      "howAccurate" := "आप चिकित्सा सटीकता कैसे सुनिश्चित करते हैं?",
      "analyzing" := "आपके प्रश्न का विश्लेषण कर रहा हूं...",
      "pleaseDescribeSymptoms" := "कृपया अपने लक्षणों का वर्णन करें या सामान्य लक्षणों में से चुनें",
      "whatIUnderstand" := "मैं क्या समझता हूं",
      "importantFindings" := "महत्वपूर्ण निष्कर्ष",
      "whatThisMightBe" := "यह क्या हो सकता है",
      "whatToDoNext" := "आगे क्या करें",
      "whenToSeeDoctor" := "डॉक्टर को कब दिखाएं",
      "needsImmediateAttention" := "इसे तत्काल चिकित्सा ध्यान की आवश्यकता है",
      "shouldSeeDoctor" := "आपको जल्द ही डॉक्टर को दिखाना चाहिए",
      "canTreatAtHome" := "आप इसका घर पर इलाज कर सकते हैं लेकिन अगर स्थिति बिगड़े तो डॉक्टर को दिखाएं"
    ]

  /** The codes of the languages that have a table. */
  const TranslatedCodes: set<string> := {"en", "es", "hi"}

  function TableOf(code: string): map<string, string> {
    if code == "es" then Spanish else if code == "hi" then Hindi else English
  }

  /** `uiTranslations`: the tables that exist, by language code. */
  const UiTranslations: map<string, map<string, string>> := map code | code in TranslatedCodes :: TableOf(code)

  /** The tables are English, Spanish and Hindi, under their codes. */
  lemma TableCodes()
    ensures UiTranslations.Keys == TranslatedCodes
    ensures UiTranslations["en"] == English && UiTranslations["es"] == Spanish && UiTranslations["hi"] == Hindi
  {
  }

  /**
   * `t(key)`: the current language's non-empty entry when its table has one,
   * otherwise the English entry; missing from both, nothing.
   */
  function T(tables: map<string, map<string, string>>, code: string, key: string): (r: Option<string>)
    requires "en" in tables
    ensures code in tables && key in tables[code] && tables[code][key] != "" ==> r == Some(tables[code][key])
    ensures !(code in tables && key in tables[code] && tables[code][key] != "") ==>
      r == (if key in tables["en"] then Some(tables["en"][key]) else None)
  {
    var table := if code in tables then tables[code] else tables["en"];
    if key in table && table[key] != "" then Some(table[key])
    else if key in tables["en"] then Some(tables["en"][key])
    else None
  }

  /** A language without a table reads every key in English. */
  lemma NoTableIsEnglish(tables: map<string, map<string, string>>, code: string, key: string)
    requires "en" in tables && code !in tables
    ensures T(tables, code, key) == T(tables, "en", key)
  {
  }

  /** The offered languages without a table of their own. */
  lemma UntranslatedLanguages()
    ensures forall i :: 0 <= i < |Languages| && Languages[i].code !in TranslatedCodes ==>
              Languages[i].code in ["bn", "ar", "zh", "ur", "te", "ta", "mr"]
    ensures forall c :: c in ["bn", "ar", "zh", "ur", "te", "ta", "mr"] ==> c !in TranslatedCodes
  {
  }

  /** An entry the English table has is never replaced by nothing, whatever the language. */
  lemma EnglishComplete(tables: map<string, map<string, string>>, code: string, key: string)
    requires "en" in tables && key in tables["en"] && tables["en"][key] != ""
    ensures T(tables, code, key).Some? && T(tables, code, key).value != ""
  {
  }

  datatype Symptom = Symptom(id: string, caption: string, icon: string, description: string)

  const EnglishSymptoms: seq<Symptom> := [
    Symptom("fever", "🤒 Fever", "🌡️", "Body feels hot"),
    Symptom("headache", "🤕 Headache", "🤕", "Pain in head"),
    Symptom("cough", "😷 Cough", "🤧", "Continuous coughing"),
    Symptom("stomach", "🤢 Stomach Pain", "😣", "Pain in stomach"),
    Symptom("tired", "😫 Feeling Tired", "😴", "No energy"),
    Symptom("body-pain", "🤒 Body Pain", "🤕", "Pain in body")
  ]

  const HindiSymptoms: seq<Symptom> := [
    Symptom("fever", "🤒 बुखार", "🌡️", "शरीर गरम महसूस होता है"),
    Symptom("headache", "🤕 सिरदर्द", "🤕", "सिर में दर्द"),
    Symptom("cough", "😷 खांसी", "🤧", "लगातार खांसी"),
    Symptom("stomach", "🤢 पेट दर्द", "😣", "पेट में दर्द"),
    Symptom("tired", "😫 थकान", "😴", "ऊर्जा नहीं है"),
    Symptom("body-pain", "🤒 शरीर दर्द", "🤕", "शरीर में दर्द")
  ]

  function Ids(symptoms: seq<Symptom>): (r: seq<string>)
    ensures |r| == |symptoms|
    ensures forall i :: 0 <= i < |symptoms| ==> r[i] == symptoms[i].id
  {
    if symptoms == [] then [] else [symptoms[0].id] + Ids(symptoms[1..])
  }

  /** `getLocalizedSymptoms`: the Hindi list for Hindi, the English list for every other language. */
  function LocalizedSymptoms(code: string): (r: seq<Symptom>)
    ensures code == "hi" ==> r == HindiSymptoms
    ensures code != "hi" ==> r == EnglishSymptoms
    ensures Ids(r) == Ids(EnglishSymptoms)
  {
    SameSymptoms();
    if code == "hi" then HindiSymptoms else EnglishSymptoms
  }

  /** Both lists name the same symptoms in the same order. */
  lemma SameSymptoms()
    ensures Ids(HindiSymptoms) == Ids(EnglishSymptoms)
  {
    assert forall i :: 0 <= i < |HindiSymptoms| ==> HindiSymptoms[i].id == EnglishSymptoms[i].id;
  }
}
