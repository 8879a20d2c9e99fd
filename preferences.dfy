/** The saved preferences: one record per product category, holding what the
    user asked for last time, when, and their note. The JSON file the store
    is persisted to is not modelled; the clock reading is a parameter. */
module Preferences {
  import opened Text
  import opened Values

  /** What a search leaves to remember: the keywords and attributes of a
      targeted search, or the ratings of an exploratory one. */
  datatype Preference =
    | Targeted(keywords: seq<string>, attributes: map<string, Value>)
    | Rated(priorities: seq<(string, int)>)

  /** One saved entry: the preferences, an ISO timestamp and the note. */
  datatype PreferenceRecord = PreferenceRecord(preferences: Preference, timestamp: string, note: string)

  /** What recalling a category gives back: the preferences to reuse, if
      any, and the note, if any. */
  datatype Recalled = Recalled(preferences: Option<Preference>, note: Option<string>)

  /** The outcome of recalling `category` from `saved` when the user answers
      `confirm` to reusing it and would type `newNote` otherwise. */
  function RecallFrom(saved: map<string, PreferenceRecord>, category: string, confirm: bool, newNote: string): Recalled
  {
    if category !in saved then Recalled(None, None)
    else if confirm then Recalled(Some(saved[category].preferences), Some(saved[category].note))
    else Recalled(None, Some(Strip(newNote)))
  }

  /** Recalling gives preferences back only for a saved category the user
      confirms, and a note exactly when the category was saved. */
  lemma RecallOutcomes(saved: map<string, PreferenceRecord>, category: string, confirm: bool, newNote: string)
    ensures var r := RecallFrom(saved, category, confirm, newNote);
      && (r.preferences.Some? <==> category in saved && confirm)
      && (r.note.Some? <==> category in saved)
      && (r.preferences.Some? ==> r.preferences.value == saved[category].preferences && r.note == Some(saved[category].note))
  {
  }

  /** Saving one category does not change what another recalls. */
  lemma SaveKeepsOthers(saved: map<string, PreferenceRecord>, category: string, record: PreferenceRecord,
                        other: string, confirm: bool, newNote: string)
    requires other != category
    ensures RecallFrom(saved[category := record], other, confirm, newNote) == RecallFrom(saved, other, confirm, newNote)
  {
  }

  /** The store of saved preferences, by category. */
  class PreferenceStore {
    var saved: map<string, PreferenceRecord>

    /** Starts from the preferences found on disk, or none. */
    constructor(loaded: map<string, PreferenceRecord>)
      ensures saved == loaded
    {
      saved := loaded;
    }

    /** Records `preferences` for `category` with the time and the note (no
      note is the empty note), replacing what was saved for it. */
    method Save(category: string, preferences: Preference, timestamp: string, note: Option<string>)
      modifies this
      ensures saved == old(saved)[category := PreferenceRecord(preferences, timestamp, OrElse(note, ""))]
    {
      saved := saved[category := PreferenceRecord(preferences, timestamp, OrElse(note, ""))];
    }

    /** Looks up `category`: with no saved record, nothing; otherwise its
        preferences and note when the user confirms, else only the new
        note they type, stripped. */
    method Recall(category: string, confirm: bool, newNote: string) returns (preferences: Option<Preference>, note: Option<string>)
      ensures Recalled(preferences, note) == RecallFrom(saved, category, confirm, newNote)
    {
      if category in saved {
        var data := saved[category];
        if confirm {
          return Some(data.preferences), Some(data.note);
        } else {
          return None, Some(Strip(newNote));
        }
      }
      return None, None;
    }
  }

  /** Saving preferences and then recalling them with confirmation gives
      back the preferences and the note saved; other categories recall as
      before. */
  method SaveThenRecall(store: PreferenceStore, category: string, preferences: Preference, timestamp: string, note: Option<string>)
    returns (recalled: Option<Preference>, recalledNote: Option<string>)
    modifies store
    ensures recalled == Some(preferences)
    ensures recalledNote == Some(OrElse(note, ""))
    ensures forall other :: other != category && other in old(store.saved) ==> other in store.saved && store.saved[other] == old(store.saved)[other]
  {
    store.Save(category, preferences, timestamp, note);
    recalled, recalledNote := store.Recall(category, true, "");
  }
}
