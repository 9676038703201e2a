/** The application's configuration record, the one value that is persisted:
    the font size, the current-session pointer and the named session snapshots,
    with the pure transitions the session operations apply to it. */
module Sessions {

  /** The name that stands for "no named session is active". */
  const DefaultName: string := "default"

  /** A saved snapshot: the text of each section by element id, and the time of
      the save in milliseconds since the epoch. */
  datatype SessionRecord = SessionRecord(data: map<string, string>, timestamp: int)

  datatype Config = Config(
    fontSize: string,
    currentSession: string,
    sessions: map<string, SessionRecord>)

  /** The configuration the application starts from before anything is loaded. */
  const Defaults: Config := Config("normal", DefaultName, map[])

  /** The configuration after the current texts `data` are saved under `name` at
      time `now`: that entry is created or replaced, the pointer moves to it,
      and every other entry and the font size stay as they were. */
  function Saved(c: Config, name: string, data: map<string, string>, now: int): (r: Config)
    ensures name in r.sessions && r.sessions[name] == SessionRecord(data, now)
    ensures r.currentSession == name && r.fontSize == c.fontSize
    ensures r.sessions.Keys == c.sessions.Keys + {name}
    ensures forall k | k in c.sessions && k != name :: r.sessions[k] == c.sessions[k]
  {
    c.(sessions := c.sessions[name := SessionRecord(data, now)], currentSession := name)
  }

  /** Saving twice under one name keeps only the second save: last write wins,
      with the later timestamp. */
  lemma SaveOverwrites(c: Config, name: string, d1: map<string, string>, t1: int, d2: map<string, string>, t2: int)
    ensures Saved(Saved(c, name, d1, t1), name, d2, t2) == Saved(c, name, d2, t2)
  {
  }

  /** Whether an edit is saved automatically: the pointer is a non-empty name
      other than the reserved default (an empty string is falsy in the source). */
  predicate AutoSaves(c: Config) {
    c.currentSession != "" && c.currentSession != DefaultName
  }

  /** The configuration after an auto-save of the texts `data` at time `now`. */
  function AutoSaved(c: Config, data: map<string, string>, now: int): (r: Config)
    ensures r.currentSession == c.currentSession && r.fontSize == c.fontSize
    ensures !AutoSaves(c) ==> r.sessions == c.sessions
    ensures AutoSaves(c) ==> r.sessions == c.sessions[c.currentSession := SessionRecord(data, now)]
  {
    if AutoSaves(c) then Saved(c, c.currentSession, data, now) else c
  }

  /** An auto-save never moves the pointer, so whether the next edit is saved
      does not depend on how many edits came before. */
  lemma AutoSaveStable(c: Config, data: map<string, string>, now: int)
    ensures AutoSaves(AutoSaved(c, data, now)) == AutoSaves(c)
  {
  }

  /** The configuration once the entry `name` is removed. */
  function Deleted(c: Config, name: string): (r: Config)
    ensures name !in r.sessions && r.sessions.Keys == c.sessions.Keys - {name}
    ensures forall k | k in r.sessions :: r.sessions[k] == c.sessions[k]
    ensures r.currentSession == c.currentSession && r.fontSize == c.fontSize
  {
    c.(sessions := c.sessions - {name})
  }

  /** Deleting a name just saved restores the other entries exactly. */
  lemma DeleteUndoesSave(c: Config, name: string, data: map<string, string>, now: int)
    requires name !in c.sessions
    ensures Deleted(Saved(c, name, data, now), name).sessions == c.sessions
  {
  }
}
