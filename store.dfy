/**
 * The history store: the JSON file holding the conversation (load_chat_history,
 * save_chat_history, add_to_history). The file is one value that save replaces
 * wholesale; load turns a missing file, or one that is not valid JSON, into the empty history.
 *
 * The lock in the source guards each load and each save separately, not the
 * load-append-save sequence of add_to_history. Two appends that interleave
 * their loads and saves lose one update; LostUpdate below shows the schedule.
 */
module Store {
  import opened Clock
  import opened Conversation

  /** The state of the history file on disk; Corrupt is text json.load rejects. */
  datatype StoreFile = Missing | Corrupt | Saved(turns: seq<Turn>)

  /** What load_chat_history returns for a file state. */
  function Decoded(file: StoreFile): seq<Turn>
  {
    if file.Saved? then file.turns else []
  }

  class HistoryStore {
    var file: StoreFile

    constructor (initial: StoreFile)
      ensures file == initial
    {
      file := initial;
    }

    /** The history a load would return now. */
    function History(): seq<Turn>
      reads this
    {
      Decoded(file)
    }

    /** load_chat_history: the saved list, or [] when the file is absent or not valid JSON. */
    method Load() returns (history: seq<Turn>)
      ensures file.Saved? ==> history == file.turns
      ensures !file.Saved? ==> history == []
    {
      history := Decoded(file);
    }

    /** save_chat_history: the file afterwards holds exactly the given list. */
    method Save(history: seq<Turn>)
      modifies this
      ensures file == Saved(history)
      ensures History() == history
    {
      file := Saved(history);
    }

    /**
     * add_to_history: load, append one turn at the end, save. Every earlier turn
     * stays where it was and the history grows by exactly one.
     */
    method Append(role: Role, text: string, at: Moment)
      modifies this
      ensures History() == old(History()) + [NewTurn(role, text, at)]
      ensures |History()| == |old(History())| + 1
      ensures forall i :: 0 <= i < |old(History())| ==> History()[i] == old(History())[i]
      ensures History()[|History()| - 1] == Turn(role, [Part(text)], at)
      ensures file.Saved?
    {
      var history := Load();
      history := history + [NewTurn(role, text, at)];
      Save(history);
    }
  }

  /**
   * Two add_to_history calls whose loads both happen before either save: the
   * second save overwrites the first, so the first turn is lost.
   */
  method LostUpdate(store: HistoryStore, first: Turn, second: Turn)
    modifies store
    ensures store.History() == old(store.History()) + [second]
    ensures first != second ==> first !in store.History()[|old(store.History())|..]
  {
    var seenByFirst := store.Load();
    var seenBySecond := store.Load();
    store.Save(seenByFirst + [first]);
    store.Save(seenBySecond + [second]);
  }
}
