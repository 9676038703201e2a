/** The editable note sections of the page and the pure rules that read or
    rewrite their texts: section labels, the "effectively empty" test, and the
    bulk rewrites performed by restoring a session, clearing, applying the
    templates and auto-filling. A page's texts are a map from element id to
    the element's text content. */
module Sections {

  import opened Wrappers
  import opened Text

  const Transcription: string := "transcription"
  const Complaints: string := "complaints"
  const Diagnosis: string := "diagnosis"
  const Prescriptions: string := "prescriptions"
  const CurrentMeds: string := "current-meds"

  /** The ids of the `.editable-text` elements: the nine sections that have a
      human-readable label (app.js:201-211). */
  const FieldIds: set<string> := {
    "transcription", "complaints", "life-history", "allergies", "examination",
    "diagnosis", "prescriptions", "examinations", "current-meds"
  }

  /** The human-readable label of each section. */
  const SectionNames: map<string, string> := map[
    "transcription" := "Транскрипция",
    "complaints" := "Жалобы",
    "life-history" := "Анамнез жизни",
    "allergies" := "Аллергологический",
    "examination" := "Объективный осмотр",
    "diagnosis" := "Диагноз",
    "prescriptions" := "Назначения",
    "examinations" := "Исследования",
    "current-meds" := "Принимаемые препараты"
  ]

  /** The opening text put into an unfilled section by "apply templates". The
      longest template is written as two literals only so that the verifier can
      read its first character; the value is the one string the page uses. */
  const Templates: map<string, string> := map[
    "complaints" := "Жалобы на момент осмотра: ",
    "life-history" := "Анамнез жизни: ",
    "allergies" := "Аллергологический анамнез: не отягощен.",
    "examination" := "Объективный осмотр: " + "Общее состояние удовлетворительное. ",
    "diagnosis" := "Диагноз: ",
    "prescriptions" := "Назначения: ",
    "examinations" := "Назначенные исследования: ",
    "current-meds" := "Постоянно принимаемые препараты: "
  ]

  /** The fixed texts the stand-in for conversation analysis writes into the sections. */
  const AutoFillTexts: map<string, string> := map[
    "complaints" := "Боли в эпигастральной области после приема пищи, изжога, отрыжка.",
    "life-history" := "Хронических заболеваний не отмечает. Операций не было.",
    "allergies" := "Аллергологический анамнез не отягощен.",
    "examination" := "Общее состояние удовлетворительное. Кожные покровы чистые. Язык обложен белым налетом. При пальпации живота болезненность в эпигастральной области.",
    "diagnosis" := "Острый гастрит. Гастроэзофагеальная рефлюксная болезнь.",
    "prescriptions" := "1. Омепразол 20 мг 1 раз в день утром за 30 мин до еды - 14 дней\n2. Алмагель по 1 ст.л. 3 раза в день через 1 час после еды - 10 дней",
    "examinations" := "1. ФГДС\n2. УЗИ органов брюшной полости\n3. Общий анализ крови, биохимический анализ крови",
    "current-meds" := "Ренни по требованию при изжоге."
  ]

  /** The fixed transcript the stand-in for speech recognition produces, split
      after its first word for the same reason as the longest template. */
  const SampleTranscript: string := "Пациент: " + "Добрый день, доктор. Беспокоят боли в области желудка, особенно после еды. Также есть изжога и отрыжка.\n        \nВрач: Как давно появились эти симптомы? Принимали ли что-то для облегчения?\n        \nПациент: Около двух недель. Пью иногда Ренни, помогает, но ненадолго."

  /** The fixed advice the stand-in for recommendation generation produces. */
  const Recommendations: string := "Рекомендации для пациента:\n1. Соблюдение диеты: исключить острую, жареную, жирную пищу, газированные напитки\n2. Питание дробное, 4-5 раз в день небольшими порциями\n3. Не ложиться в течение 2 часов после еды\n4. Исключить курение и алкоголь\n5. Контроль состояния через 2 недели"

  /** The label shown for a section id: its human-readable name when it has one,
      otherwise the id itself. */
  function SectionName(id: string): (r: string)
    ensures id in SectionNames ==> r == SectionNames[id] && r != id
    ensures id !in SectionNames ==> r == id
    ensures id != "" ==> r != ""
  {
    if id in SectionNames then SectionNames[id] else id
  }

  /** The `data-placeholder` attribute of element `id`, or None when it has none. */
  function PlaceholderOf(placeholders: map<string, string>, id: string): Option<string> {
    if id in placeholders then Some(placeholders[id]) else None
  }

  /** The "is this section filled in?" policy: the trimmed text is empty, or
      equals the element's placeholder attribute (which is compared untrimmed).
      Equivalently: the text is all whitespace, or its trim is the placeholder. */
  predicate IsEffectivelyEmpty(text: string, placeholder: Option<string>)
    ensures IsEffectivelyEmpty(text, placeholder) <==>
      AllWhitespace(text) || (placeholder.Some? && Trim(text) == placeholder.value)
  {
    var t := Trim(text);
    t == "" || (placeholder.Some? && t == placeholder.value)
  }

  /** Whitespace around a text never changes whether it counts as filled in. */
  lemma EffectivelyEmptyIgnoresPadding(w1: string, text: string, w2: string, placeholder: Option<string>)
    requires AllWhitespace(w1) && AllWhitespace(w2)
    ensures IsEffectivelyEmpty(w1 + text + w2, placeholder) == IsEffectivelyEmpty(text, placeholder)
  {
    TrimPadded(w1, text, w2);
  }

  /** A placeholder that is empty or has whitespace at either end can never equal
      a trimmed text, so only blank texts count as unfilled under it. */
  lemma PaddedPlaceholderNeverMatches(text: string, p: string)
    requires p == "" || IsWhitespace(p[0]) || IsWhitespace(p[|p| - 1])
    ensures IsEffectivelyEmpty(text, Some(p)) <==> AllWhitespace(text)
  {
  }

  /** The texts of every section set to the empty string. */
  const Blank: map<string, string> := map id | id in FieldIds :: ""

  /** The texts after a saved session's `data` is written back: every id the data
      holds that names a section gets the saved text; every other section keeps
      its text. Ids in the data that name no section are ignored. */
  function Restored(texts: map<string, string>, data: map<string, string>): (r: map<string, string>)
    ensures r.Keys == texts.Keys
  {
    map id | id in texts :: if id in data then data[id] else texts[id]
  }

  /** Writing back a snapshot of the same sections gives exactly that snapshot,
      whatever the sections held before. */
  lemma RestoreSnapshot(current: map<string, string>, snapshot: map<string, string>)
    requires current.Keys == snapshot.Keys
    ensures Restored(current, snapshot) == snapshot
  {
  }

  /** Restoring data that lacks some sections leaves those sections as they were. */
  lemma RestorePartial(current: map<string, string>, data: map<string, string>, id: string)
    requires id in current && id !in data
    ensures Restored(current, data)[id] == current[id]
  {
  }

  /** The texts after "apply templates" with the given templates: each templated
      section that is effectively empty gets its template; every other section
      keeps its text. */
  function Templated(texts: map<string, string>, templates: map<string, string>, placeholders: map<string, string>): (r: map<string, string>)
    ensures r.Keys == texts.Keys
  {
    map id | id in texts ::
      if id in templates && IsEffectivelyEmpty(texts[id], PlaceholderOf(placeholders, id))
      then templates[id] else texts[id]
  }

  /** Every template has a non-whitespace character, so it is never blank. */
  lemma TemplatesNotBlank(id: string)
    requires id in Templates
    ensures !AllWhitespace(Templates[id])
  {
    var t := Templates[id];
    if id == "complaints" {
      assert t[0] == 'Ж';
    } else if id == "life-history" || id == "allergies" {
      assert t[0] == 'А';
    } else if id == "examination" {
      assert t[0] == 'О';
    } else if id == "diagnosis" {
      assert t[0] == 'Д';
    } else if id == "prescriptions" || id == "examinations" {
      assert t[0] == 'Н';
    } else {
      assert t[0] == 'П';
    }
  }

  /** After "apply templates" no templated section is blank, and a section that
      was filled in keeps its text. */
  lemma TemplatedFillsBlanks(texts: map<string, string>, placeholders: map<string, string>, id: string)
    requires id in texts
    ensures id in Templates ==> !AllWhitespace(Templated(texts, Templates, placeholders)[id])
    ensures !IsEffectivelyEmpty(texts[id], PlaceholderOf(placeholders, id)) ==>
      Templated(texts, Templates, placeholders)[id] == texts[id]
  {
    if id in Templates {
      TemplatesNotBlank(id);
    }
  }

  /** Applying the templates a second time changes nothing. */
  lemma TemplatedIdempotent(texts: map<string, string>, templates: map<string, string>, placeholders: map<string, string>)
    ensures Templated(Templated(texts, templates, placeholders), templates, placeholders)
         == Templated(texts, templates, placeholders)
  {
  }

  /** Templates and auto-fill cover the same eight sections: every editable
      section except the transcription. */
  lemma TemplatedSections()
    ensures Templates.Keys == AutoFillTexts.Keys == FieldIds - {Transcription}
  {
  }

  /** The sample transcript is never blank, so once transcribed the conversation
      passes the analysis guard unless the placeholder is the transcript itself. */
  lemma SampleTranscriptFilled(placeholder: Option<string>)
    requires placeholder.None? || placeholder.value != Trim(SampleTranscript)
    ensures !IsEffectivelyEmpty(SampleTranscript, placeholder)
  {
    assert SampleTranscript[0] == 'П';
  }
}
