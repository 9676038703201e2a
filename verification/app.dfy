/** The application object: the configuration held in memory, the text of each
    editable section on the page, the placeholder attribute of each section, and
    the one durable storage slot the configuration is copied into. Prompt and
    confirmation answers and the clock are parameters of the operations that
    consult them. */
module App {

  import opened Wrappers
  import opened Text
  import opened Sections
  import opened Sessions

  class MedicalApp {
    /** The configuration in memory. */
    var config: Config
    /** The text content of each `.editable-text` element, by id. */
    var fields: map<string, string>
    /** The `data-placeholder` attribute of each element that has one. */
    const placeholders: map<string, string>
    /** The storage slot holding the last configuration written; None when empty. */
    var stored: Option<Config>

    /** The page shows exactly the editable sections. */
    predicate Valid()
      reads this
    {
      fields.Keys == FieldIds
    }

    /** The page as loaded: the configuration holds its built-in defaults, the
        sections hold the page's initial texts, and the storage slot holds
        whatever an earlier visit left in it. */
    constructor (placeholders: map<string, string>, initial: map<string, string>, stored: Option<Config>)
      requires initial.Keys == FieldIds
      ensures Valid()
      ensures config == Defaults && fields == initial
      ensures this.placeholders == placeholders && this.stored == stored
    {
      this.config := Defaults;
      this.fields := initial;
      this.placeholders := placeholders;
      this.stored := stored;
    }

    /** Copies the whole configuration into the storage slot. */
    method SaveConfig()
      modifies this`stored
      ensures stored == Some(config)
    {
      stored := Some(config);
    }

    /** Replaces the configuration by the stored copy when there is one. Every
        copy the slot holds was written whole, so overlaying its keys on the
        defaults yields the stored copy itself. */
    method LoadConfig()
      modifies this`config
      ensures old(stored).Some? ==> config == old(stored).value
      ensures old(stored).None? ==> config == old(config)
    {
      if stored.Some? {
        config := stored.value;
      }
    }

    /** Records the chosen font size and persists the configuration. */
    method ChangeFontSize(size: string)
      modifies this`config, this`stored
      ensures config == old(config).(fontSize := size)
      ensures stored == Some(config)
    {
      config := config.(fontSize := size);
      SaveConfig();
    }

    /** Reads the text of every editable section into a fresh snapshot. */
    method CaptureAll() returns (data: map<string, string>)
      requires Valid()
      ensures data == fields
    {
      data := map[];
      var todo := FieldIds;
      while todo != {}
        invariant todo <= FieldIds
        invariant data.Keys == FieldIds - todo
        invariant forall id | id in data :: data[id] == fields[id]
        decreases todo
      {
        var id :| id in todo;
        data := data[id := fields[id]];
        todo := todo - {id};
      }
    }

    /** Sets the text of every editable section to the empty string. */
    method ClearAllSections()
      requires Valid()
      modifies this`fields
      ensures Valid() && fields == Blank
    {
      var todo := FieldIds;
      while todo != {}
        invariant todo <= FieldIds && fields.Keys == FieldIds
        invariant forall id | id in FieldIds :: fields[id] == if id in todo then old(fields)[id] else ""
        decreases todo
      {
        var id :| id in todo;
        fields := fields[id := ""];
        todo := todo - {id};
      }
    }

    /** Writes each entry's text into the element with that id, skipping ids
        that name no element on the page. */
    method WriteEntries(entries: map<string, string>)
      requires Valid()
      modifies this`fields
      ensures Valid() && fields == Restored(old(fields), entries)
    {
      var todo := entries.Keys;
      while todo != {}
        invariant todo <= entries.Keys && fields.Keys == FieldIds
        invariant forall id | id in FieldIds ::
          fields[id] == if id in entries && id !in todo then entries[id] else old(fields)[id]
        decreases todo
      {
        var id :| id in todo;
        if id in FieldIds {
          fields := fields[id := entries[id]];
        }
        todo := todo - {id};
      }
    }

    /** Writes each template into its section when that section is effectively
        empty. Every template names a section. */
    method FillEffectivelyEmpty(templates: map<string, string>)
      requires Valid() && templates.Keys <= FieldIds
      modifies this`fields
      ensures Valid() && fields == Templated(old(fields), templates, placeholders)
    {
      ghost var filled := Templated(old(fields), templates, placeholders);
      var todo := templates.Keys;
      while todo != {}
        invariant todo <= templates.Keys && fields.Keys == FieldIds
        invariant forall id | id in FieldIds :: fields[id] == if id in todo then old(fields)[id] else filled[id]
        decreases todo
      {
        var id :| id in todo;
        if IsEffectivelyEmpty(fields[id], PlaceholderOf(placeholders, id)) {
          fields := fields[id := templates[id]];
        }
        todo := todo - {id};
      }
    }

    /** Saves the current texts under `name` at time `now`, makes `name` the
        current session and persists the configuration. */
    method SaveSession(name: string, now: int)
      requires Valid()
      modifies this`config, this`stored
      ensures config == Saved(old(config), name, fields, now)
      ensures stored == Some(config)
    {
      var data := CaptureAll();
      config := config.(sessions := config.sessions[name := SessionRecord(data, now)]);
      config := config.(currentSession := name);
      SaveConfig();
    }

    /** Loads a saved session. A known name writes its saved texts back (sections
        the snapshot lacks keep their text), becomes current and is persisted.
        An unknown "default" only blanks the sections; any other unknown name
        changes nothing. */
    method LoadSession(name: string)
      requires Valid()
      modifies this`fields, this`config, this`stored
      ensures Valid()
      ensures name in old(config.sessions) ==>
        && fields == Restored(old(fields), old(config.sessions[name].data))
        && config == old(config).(currentSession := name)
        && stored == Some(config)
      ensures name !in old(config.sessions) && name == DefaultName ==>
        fields == Blank && config == old(config) && stored == old(stored)
      ensures name !in old(config.sessions) && name != DefaultName ==>
        fields == old(fields) && config == old(config) && stored == old(stored)
    {
      if name in config.sessions {
        WriteEntries(config.sessions[name].data);
        config := config.(currentSession := name);
        SaveConfig();
      } else if name == DefaultName {
        ClearAllSections();
      }
    }

    /** Starts a new session from the prompt's answer (None when cancelled):
        with a name that is not blank, the sections are cleared and the trimmed
        name becomes current and is persisted; nothing is saved under it yet.
        The name "default" is not refused. */
    method CreateNewSession(answer: Option<string>)
      requires Valid()
      modifies this`fields, this`config, this`stored
      ensures Valid()
      ensures answer.None? || AllWhitespace(answer.value) ==>
        fields == old(fields) && config == old(config) && stored == old(stored)
      ensures answer.Some? && !AllWhitespace(answer.value) ==>
        && fields == Blank
        && config == old(config).(currentSession := Trim(answer.value))
        && stored == Some(config)
    {
      if answer.Some? && answer.value != "" && Trim(answer.value) != "" {
        ClearAllSections();
        config := config.(currentSession := Trim(answer.value));
        SaveConfig();
      }
    }

    /** Saves under the prompt's answer (None when cancelled), trimmed, when it is
        not blank; "default" is accepted like any other name. */
    method SaveCurrentSession(answer: Option<string>, now: int)
      requires Valid()
      modifies this`config, this`stored
      ensures answer.None? || AllWhitespace(answer.value) ==>
        config == old(config) && stored == old(stored)
      ensures answer.Some? && !AllWhitespace(answer.value) ==>
        config == Saved(old(config), Trim(answer.value), fields, now) && stored == Some(config)
    {
      if answer.Some? && answer.value != "" && Trim(answer.value) != "" {
        SaveSession(Trim(answer.value), now);
      }
    }

    /** Deletes a session once the user confirms. The configuration is persisted
        right after the removal, and only then, if the deleted session was
        current, the pointer is reset to "default" and the sections are cleared;
        so the stored copy still names the deleted session as current. */
    method DeleteSession(name: string, confirmed: bool)
      requires Valid()
      modifies this`fields, this`config, this`stored
      ensures Valid()
      ensures !confirmed ==> fields == old(fields) && config == old(config) && stored == old(stored)
      ensures confirmed ==>
        && config.sessions == old(config.sessions) - {name}
        && config.fontSize == old(config.fontSize)
        && stored == Some(Deleted(old(config), name))
      ensures confirmed && old(config.currentSession) == name ==>
        config.currentSession == DefaultName && fields == Blank
      ensures confirmed && old(config.currentSession) != name ==>
        config.currentSession == old(config.currentSession) && fields == old(fields)
    {
      if confirmed {
        config := config.(sessions := config.sessions - {name});
        SaveConfig();
        if config.currentSession == name {
          config := config.(currentSession := DefaultName);
          ClearAllSections();
        }
      }
    }

    /** Saves the current texts under the current session, unless no named
        session is active. */
    method AutoSave(now: int)
      requires Valid()
      modifies this`config, this`stored
      ensures config == AutoSaved(old(config), fields, now)
      ensures stored == if AutoSaves(old(config)) then Some(config) else old(stored)
    {
      if config.currentSession != "" && config.currentSession != DefaultName {
        SaveSession(config.currentSession, now);
      }
    }

    /** The user changes the text of one section; the input event auto-saves. */
    method Edit(id: string, text: string, now: int)
      requires Valid() && id in FieldIds
      modifies this`fields, this`config, this`stored
      ensures Valid() && fields == old(fields)[id := text]
      ensures config == AutoSaved(old(config), fields, now)
      ensures stored == if AutoSaves(old(config)) then Some(config) else old(stored)
    {
      fields := fields[id := text];
      AutoSave(now);
    }

    /** Puts each template into its section when that section is effectively
        empty, then auto-saves. */
    method ApplyTemplates(now: int)
      requires Valid()
      modifies this`fields, this`config, this`stored
      ensures Valid() && fields == Templated(old(fields), Templates, placeholders)
      ensures fields[Transcription] == old(fields)[Transcription]
      ensures config == AutoSaved(old(config), fields, now)
      ensures stored == if AutoSaves(old(config)) then Some(config) else old(stored)
    {
      TemplatedSections();
      FillEffectivelyEmpty(Templates);
      AutoSave(now);
    }

    /** The stand-in analysis: writes its fixed text into each of the eight
        sections other than the transcription, then auto-saves. */
    method AutoFillSections(now: int)
      requires Valid()
      modifies this`fields, this`config, this`stored
      ensures Valid() && fields == Restored(old(fields), AutoFillTexts)
      ensures config == AutoSaved(old(config), fields, now)
      ensures stored == if AutoSaves(old(config)) then Some(config) else old(stored)
    {
      WriteEntries(AutoFillTexts);
      AutoSave(now);
    }

    /** The delayed completion of a recording or an upload: the fixed transcript
        replaces the transcription, then the sections are auto-filled. */
    method SimulateTranscription(now: int)
      requires Valid()
      modifies this`fields, this`config, this`stored
      ensures Valid() && fields == Restored(old(fields)[Transcription := SampleTranscript], AutoFillTexts)
      ensures fields[Transcription] == SampleTranscript
      ensures config == AutoSaved(old(config), fields, now)
      ensures stored == if AutoSaves(old(config)) then Some(config) else old(stored)
    {
      fields := fields[Transcription := SampleTranscript];
      AutoFillSections(now);
    }

    /** The guard of the drug-compatibility check: the check goes ahead (and its
        delayed completion only notifies) exactly when the current medications
        are filled in. No section and no configuration changes. */
    method CheckDrugCompatibility() returns (scheduled: bool)
      requires Valid()
      ensures scheduled <==>
        && !AllWhitespace(fields[CurrentMeds])
        && (CurrentMeds !in placeholders || Trim(fields[CurrentMeds]) != placeholders[CurrentMeds])
    {
      scheduled := !IsEffectivelyEmpty(fields[CurrentMeds], PlaceholderOf(placeholders, CurrentMeds));
    }

    /** The guard of conversation analysis: the analysis goes ahead exactly when
        the transcription is filled in; its delayed completion is
        AutoFillSections. No section and no configuration changes here. */
    method AnalyzeConversation() returns (scheduled: bool)
      requires Valid()
      ensures scheduled <==>
        && !AllWhitespace(fields[Transcription])
        && (Transcription !in placeholders || Trim(fields[Transcription]) != placeholders[Transcription])
    {
      scheduled := !IsEffectivelyEmpty(fields[Transcription], PlaceholderOf(placeholders, Transcription));
    }

    /** The delayed completion of recommendation generation: the fixed advice is
        appended to the prescriptions after a blank line, then auto-saves. */
    method AppendRecommendations(now: int)
      requires Valid()
      modifies this`fields, this`config, this`stored
      ensures Valid()
      ensures fields == old(fields)[Prescriptions := old(fields)[Prescriptions] + "\n\n" + Recommendations]
      ensures fields[Prescriptions][..|old(fields)[Prescriptions]|] == old(fields)[Prescriptions]
      ensures config == AutoSaved(old(config), fields, now)
      ensures stored == if AutoSaves(old(config)) then Some(config) else old(stored)
    {
      fields := fields[Prescriptions := fields[Prescriptions] + "\n\n" + Recommendations];
      AutoSave(now);
    }

    /** Start-up: load the stored configuration, re-apply (and so persist) the
        font size, then load the session named "default", not the stored
        current session. When no session is saved under "default" the sections
        are blanked but the pointer keeps the stored current session. */
    method Init()
      requires Valid()
      modifies this`fields, this`config, this`stored
      ensures Valid() && stored == Some(config)
      ensures var loaded := if old(stored).Some? then old(stored).value else old(config);
        if DefaultName in loaded.sessions then
          fields == Restored(old(fields), loaded.sessions[DefaultName].data)
          && config == loaded.(currentSession := DefaultName)
        else
          fields == Blank && config == loaded
    {
      LoadConfig();
      ChangeFontSize(config.fontSize);
      LoadSession(DefaultName);
    }

    /** Start-up as evidently intended: the blank page it shows is the default
        session, so the pointer is reset to "default" before the font size is
        persisted and the default session is loaded. */
    method InitAsDefault()
      requires Valid()
      modifies this`fields, this`config, this`stored
      ensures Valid() && stored == Some(config)
      ensures config.currentSession == DefaultName && !AutoSaves(config)
      ensures var loaded := if old(stored).Some? then old(stored).value else old(config);
        && config == loaded.(currentSession := DefaultName)
        && fields == if DefaultName in loaded.sessions
                     then Restored(old(fields), loaded.sessions[DefaultName].data)
                     else Blank
    {
      LoadConfig();
      config := config.(currentSession := DefaultName);
      ChangeFontSize(config.fontSize);
      LoadSession(DefaultName);
    }
  }

  /** Saving a session and then loading it with nothing in between leaves every
      section as it was, with the session current and its record holding those texts. */
  method SaveThenLoadRestores(app: MedicalApp, name: string, now: int)
    requires app.Valid()
    modifies app
    ensures app.Valid() && app.fields == old(app.fields)
    ensures app.config.currentSession == name
    ensures name in app.config.sessions && app.config.sessions[name] == SessionRecord(old(app.fields), now)
    ensures app.stored == Some(app.config)
  {
    app.SaveSession(name, now);
    app.LoadSession(name);
    RestoreSnapshot(old(app.fields), old(app.fields));
  }

  /** A reload followed by one edit, as the start-up is written: when the stored
      pointer names a session and nothing is saved under "default", the page
      comes up blank yet still auto-saves into the stored session, so the first
      keystroke replaces everything that session held by the blank page plus
      that keystroke. */
  method ReloadThenEditAsWritten(
    placeholders: map<string, string>, initial: map<string, string>, previous: Config,
    id: string, text: string, now: int)
    returns (sessions: map<string, SessionRecord>)
    requires initial.Keys == FieldIds && id in FieldIds
    requires AutoSaves(previous) && DefaultName !in previous.sessions
    ensures sessions == previous.sessions[previous.currentSession := SessionRecord(Blank[id := text], now)]
  {
    var app := new MedicalApp(placeholders, initial, Some(previous));
    app.Init();
    app.Edit(id, text, now);
    sessions := app.config.sessions;
  }

  /** A concrete instance: a session "visit1" saved with "headache" as its
      complaints loses them to a reload and an edit of the transcription. */
  method ReloadLosesSavedComplaints() returns (before: string, after: string)
    ensures before == "headache" && after == ""
  {
    var saved := Blank[Complaints := "headache"];
    var previous := Config("normal", "visit1", map["visit1" := SessionRecord(saved, 1)]);
    var sessions := ReloadThenEditAsWritten(map[], Blank, previous, Transcription, "x", 2);
    before := saved[Complaints];
    after := sessions["visit1"].data[Complaints];
  }

  /** The same reload and edit with the corrected start-up: every stored
      session survives untouched. */
  method ReloadThenEditCorrected(
    placeholders: map<string, string>, initial: map<string, string>, previous: Option<Config>,
    id: string, text: string, now: int)
    returns (sessions: map<string, SessionRecord>)
    requires initial.Keys == FieldIds && id in FieldIds
    ensures sessions == if previous.Some? then previous.value.sessions else Defaults.sessions
  {
    var app := new MedicalApp(placeholders, initial, previous);
    app.InitAsDefault();
    app.Edit(id, text, now);
    sessions := app.config.sessions;
  }
}
