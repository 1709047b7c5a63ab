/** The interface strings in English and Telugu, and their lookup
    (utils/translations.ts). */
module Translations {
  import opened Types

  /** The two renderings of one interface string. */
  datatype Entry = Entry(en: string, te: string) {
    function In(lang: Language): string {
      match lang
      case En => en
      case Te => te
    }
  }

  /** The table, key by key, as the file has it. */
  const Table: map<string, Entry> := map[
    "app_name" := Entry("NurtureAI",
      "NurtureAI (\U{0C2A}\U{0C4B}\U{0C37}\U{0C23})"),
    "login_title" := Entry("Patient Login",
      "\U{0C2A}\U{0C47}\U{0C37}\U{0C46}\U{0C02}\U{0C1F}\U{0C4D} \U{0C32}\U{0C3E}\U{0C17}\U{0C3F}\U{0C28}\U{0C4D}"),
    "baby_name" := Entry("Baby Name",
      "\U{0C2A}\U{0C3E}\U{0C2A}/\U{0C2C}\U{0C3E}\U{0C2C}\U{0C41} \U{0C2A}\U{0C47}\U{0C30}\U{0C41}"),
    "parent_name" := Entry("Parent Name",
      "\U{0C24}\U{0C32}\U{0C4D}\U{0C32}\U{0C3F}/\U{0C24}\U{0C02}\U{0C21}\U{0C4D}\U{0C30}\U{0C3F} \U{0C2A}\U{0C47}\U{0C30}\U{0C41}"),
    "birth_date" := Entry("Birth Date",
      "\U{0C2A}\U{0C41}\U{0C1F}\U{0C4D}\U{0C1F}\U{0C3F}\U{0C28} \U{0C24}\U{0C47}\U{0C26}\U{0C40}"),
    "weight" := Entry("Weight (kg)",
      "\U{0C2C}\U{0C30}\U{0C41}\U{0C35}\U{0C41} (kg)"),
    "enter_app" := Entry("Start Monitoring",
      "\U{0C2A}\U{0C30}\U{0C4D}\U{0C2F}\U{0C35}\U{0C47}\U{0C15}\U{0C4D}\U{0C37}\U{0C23} \U{0C2A}\U{0C4D}\U{0C30}\U{0C3E}\U{0C30}\U{0C02}\U{0C2D}\U{0C3F}\U{0C02}\U{0C1A}\U{0C02}\U{0C21}\U{0C3F}"),
    "dashboard" := Entry("Home",
      "\U{0C39}\U{0C4B}\U{0C2E}\U{0C4D}"),
    "trends" := Entry("Trends",
      "\U{0C2A}\U{0C4B}\U{0C15}\U{0C21}\U{0C32}\U{0C41}"),
    "agent" := Entry("Agent",
      "\U{0C0F}\U{0C1C}\U{0C46}\U{0C02}\U{0C1F}\U{0C4D}"),
    "report" := Entry("Report",
      "\U{0C28}\U{0C3F}\U{0C35}\U{0C47}\U{0C26}\U{0C3F}\U{0C15}"),
    "generate_report" := Entry("Generate Medical Report",
      "\U{0C35}\U{0C48}\U{0C26}\U{0C4D}\U{0C2F} \U{0C28}\U{0C3F}\U{0C35}\U{0C47}\U{0C26}\U{0C3F}\U{0C15}\U{0C28}\U{0C41} \U{0C30}\U{0C42}\U{0C2A}\U{0C4A}\U{0C02}\U{0C26}\U{0C3F}\U{0C02}\U{0C1A}\U{0C02}\U{0C21}\U{0C3F}"),
    "download" := Entry("Download Report",
      "\U{0C28}\U{0C3F}\U{0C35}\U{0C47}\U{0C26}\U{0C3F}\U{0C15}\U{0C28}\U{0C41} \U{0C21}\U{0C4C}\U{0C28}\U{0C4D}\U{200C}\U{0C32}\U{0C4B}\U{0C21}\U{0C4D} \U{0C1A}\U{0C47}\U{0C2F}\U{0C02}\U{0C21}\U{0C3F}"),
    "generating" := Entry("Generating...",
      "\U{0C30}\U{0C42}\U{0C2A}\U{0C4A}\U{0C02}\U{0C26}\U{0C3F}\U{0C38}\U{0C4D}\U{0C24}\U{0C4B}\U{0C02}\U{0C26}\U{0C3F}..."),
    "quick_log" := Entry("Quick Log",
      "\U{0C24}\U{0C4D}\U{0C35}\U{0C30}\U{0C3F}\U{0C24} \U{0C28}\U{0C2E}\U{0C4B}\U{0C26}\U{0C41}"),
    "recent_activity" := Entry("Recent Activity",
      "\U{0C07}\U{0C1F}\U{0C40}\U{0C35}\U{0C32}\U{0C3F} \U{0C15}\U{0C3E}\U{0C30}\U{0C4D}\U{0C2F}\U{0C15}\U{0C32}\U{0C3E}\U{0C2A}\U{0C3E}\U{0C32}\U{0C41}"),
    "feed" := Entry("Feed",
      "\U{0C06}\U{0C39}\U{0C3E}\U{0C30}\U{0C02}"),
    "sleep" := Entry("Sleep",
      "\U{0C28}\U{0C3F}\U{0C26}\U{0C4D}\U{0C30}"),
    "diaper" := Entry("Diaper",
      "\U{0C21}\U{0C48}\U{0C2A}\U{0C30}\U{0C4D}"),
    "temp" := Entry("Temp",
      "\U{0C09}\U{0C37}\U{0C4D}\U{0C23}\U{0C4B}\U{0C17}\U{0C4D}\U{0C30}\U{0C24}"),
    "kb_active" := Entry("Knowledge Base Active",
      "\U{0C1C}\U{0C4D}\U{0C1E}\U{0C3E}\U{0C28} \U{0C2D}\U{0C3E}\U{0C02}\U{0C21}\U{0C3E}\U{0C17}\U{0C3E}\U{0C30}\U{0C02} \U{0C2F}\U{0C3E}\U{0C15}\U{0C4D}\U{0C1F}\U{0C3F}\U{0C35}\U{0C4D}\U{200C}\U{0C17}\U{0C3E} \U{0C09}\U{0C02}\U{0C26}\U{0C3F}")
  ]

  /** `t(key, lang)`: the table's string for the language, or the key itself
      when the key is not in the table or its string is empty. */
  function T(key: string, lang: Language): (r: string)
    ensures key !in Table ==> r == key
    ensures key in Table && Table[key].In(lang) != "" ==> r == Table[key].In(lang)
    ensures r == key || (key in Table && r == Table[key].In(lang))
  {
    if key in Table && Table[key].In(lang) != "" then Table[key].In(lang) else key
  }

  /** Every string in the table is non-empty, in both languages. */
  lemma EntriesNonEmpty()
    ensures forall k :: k in Table ==> Table[k].en != "" && Table[k].te != ""
  {
  }

  /** So a known key always comes back translated, never as itself. */
  lemma KnownKeyTranslated(key: string, lang: Language)
    requires key in Table
    ensures T(key, lang) == Table[key].In(lang)
  {
    EntriesNonEmpty();
  }

  /** The vital-sign keys are not in the table: they come back verbatim. */
  lemma VitalKeysUntranslated(lang: Language)
    ensures T("heart_rate", lang) == "heart_rate" && T("spo2", lang) == "spo2"
    ensures T("temperature", lang) == "temperature" && T("feeding", lang) == "feeding"
  {
  }
}
