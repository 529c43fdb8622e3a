/**
 * The conversation record: turns as stored in the history file, the entries
 * replayed to the language model as context, and the outcome of a completion
 * request to the model (which is not part of this model beyond that outcome).
 */
module Conversation {
  import opened Clock

  /** The two speakers a stored turn can have ("user" or "model"). */
  datatype Role = User | Model

  /** One element of a turn's "parts" list: {"text": ...}. */
  datatype Part = Part(text: string)

  /** A stored turn: {"role": ..., "parts": [...], "timestamp": ...}. */
  datatype Turn = Turn(role: Role, parts: seq<Part>, timestamp: Moment)

  /** A context entry for the model: {"role": ..., "parts": [...]}, no timestamp. */
  datatype Entry = Entry(role: Role, parts: seq<Part>)

  /** What a completion request yields: the response text, or an exception. */
  datatype Completion = Completed(text: string) | Failed

  /** The turn add_to_history(role, text) builds at clock reading at. */
  function NewTurn(role: Role, text: string, at: Moment): Turn
  {
    Turn(role, [Part(text)], at)
  }

  /**
   * The projection of the stored history onto the model's context: one entry per
   * turn, in the same order, keeping role and parts and dropping the timestamp.
   */
  function Context(history: seq<Turn>): (context: seq<Entry>)
    ensures |context| == |history|
    ensures forall i :: 0 <= i < |history| ==>
              context[i].role == history[i].role && context[i].parts == history[i].parts
  {
    if history == [] then []
    else [Entry(history[0].role, history[0].parts)] + Context(history[1..])
  }

  /** The context of a history extended by one turn is the old context extended by its entry. */
  lemma ContextAppend(history: seq<Turn>, t: Turn)
    ensures Context(history + [t]) == Context(history) + [Entry(t.role, t.parts)]
  {
  }
}
