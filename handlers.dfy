/**
 * The Telegram handlers for /start and for plain text messages. The sender's
 * identity and the configured AUTHORIZED_USER_ID are parameters; the model's
 * completion is a function from (context, new message) to its outcome, so that
 * what the model is asked is visible; the replies are the texts the handler
 * tries to send back, in order (a send that raises is still listed).
 */
module Handlers {
  import opened Clock
  import opened Delay
  import opened Conversation
  import opened Store

  const Refusal: string := "sadece sahibimle konuşurum."
  const Greeting: string := "slm"
  const WelcomeBack: string := "yine ben :)"
  const Fallback: string := "kafam yandı bi an.. ne diyodun"

  /**
   * /start: a stranger gets the refusal; the owner's first /start seeds the
   * history with a user "slm" and replies "slm"; a later /start only says
   * "yine ben :)".
   */
  method Start(store: HistoryStore, sender: int, authorized: int, now: Moment) returns (reply: string)
    modifies store
    ensures sender != authorized ==> reply == Refusal && store.file == old(store.file)
    ensures sender == authorized && old(store.History()) == [] ==>
              reply == Greeting && store.History() == [NewTurn(User, Greeting, now)]
    ensures sender == authorized && old(store.History()) != [] ==>
              reply == WelcomeBack && store.file == old(store.file)
  {
    if sender != authorized {
      reply := Refusal;
      return;
    }
    var history := store.Load();
    if history == [] {
      store.Append(User, Greeting, now);
      reply := Greeting;
    } else {
      reply := WelcomeBack;
    }
  }

  /**
   * handle_message: a stranger is ignored. Otherwise the user turn is stored
   * first, the human-like delay is computed (the wait itself is not modelled),
   * and the model is asked for a completion with the stored history, which
   * already ends with that user turn, as context. A completed answer is stored
   * as a model turn stamped repliedAt and sent; if that send raises (deliverOk
   * false), the fallback is sent as well, so attempted lists both. A failed
   * completion stores nothing more and sends only the fallback.
   */
  method HandleMessage(store: HistoryStore, sender: int, authorized: int, text: string, now: Moment,
                       wakeMinute: int, r: real, u: real,
                       complete: (seq<Entry>, string) -> Completion,
                       repliedAt: Moment, deliverOk: bool)
    returns (delay: real, attempted: seq<string>)
    requires 0 <= wakeMinute <= 30 && IsUnitDraw(r) && IsUnitDraw(u)
    modifies store
    ensures sender != authorized ==> delay == 0.0 && attempted == [] && store.file == old(store.file)
    ensures sender == authorized ==>
              var asked := old(store.History()) + [NewTurn(User, text, now)];
              delay == HumanlikeDelay(now, wakeMinute, r, u) &&
              match complete(Context(asked), text)
              case Failed =>
                store.History() == asked && attempted == [Fallback]
              case Completed(answer) =>
                store.History() == asked + [NewTurn(Model, answer, repliedAt)] &&
                attempted == (if deliverOk then [answer] else [answer, Fallback])
  {
    if sender != authorized {
      delay, attempted := 0.0, [];
      return;
    }
    store.Append(User, text, now);
    delay := HumanlikeDelay(now, wakeMinute, r, u);
    var history := store.Load();
    var outcome := complete(Context(history), text);
    match outcome
    case Failed =>
      attempted := [Fallback];
    case Completed(answer) =>
      store.Append(Model, answer, repliedAt);
      attempted := if deliverOk then [answer] else [answer, Fallback];
  }

  /**
   * The request the model receives ends with the new user turn, and the same
   * text is sent again as the new message: the model sees it twice.
   */
  lemma ContextEndsWithMessage(history: seq<Turn>, text: string, now: Moment)
    ensures var context := Context(history + [NewTurn(User, text, now)]);
            |context| == |history| + 1 &&
            context[..|history|] == Context(history) &&
            context[|history|] == Entry(User, [Part(text)])
  {
  }

  /** The owner's first message on a fresh store is answered "slm" and recorded. */
  method FirstContact(owner: int, now: Moment) returns (reply: string, history: seq<Turn>)
    ensures reply == Greeting
    ensures history == [Turn(User, [Part("slm")], now)]
  {
    var store := new HistoryStore(Missing);
    reply := Start(store, owner, owner, now);
    history := store.Load();
  }

  /** When the model fails, the reply is the fallback and only the user turn is kept. */
  method FailedCompletion(owner: int, earlier: seq<Turn>, text: string, now: Moment, later: Moment)
    returns (replies: seq<string>, history: seq<Turn>)
    ensures replies == [Fallback]
    ensures history == earlier + [Turn(User, [Part(text)], now)]
  {
    var store := new HistoryStore(Saved(earlier));
    var delay;
    delay, replies := HandleMessage(store, owner, owner, text, now, 0, 0.0, 0.0,
                                    (context, message) => Failed, later, true);
    history := store.Load();
  }

  /** An answered message: the reply sent is the text of the model turn stored after the user turn. */
  method AnsweredMessage(owner: int, earlier: seq<Turn>, text: string, answer: string,
                         now: Moment, later: Moment)
    returns (replies: seq<string>, history: seq<Turn>)
    ensures replies == [answer]
    ensures history == earlier + [Turn(User, [Part(text)], now), Turn(Model, [Part(answer)], later)]
    ensures history[|history| - 1].parts == [Part(replies[0])]
  {
    var store := new HistoryStore(Saved(earlier));
    var delay;
    delay, replies := HandleMessage(store, owner, owner, text, now, 0, 0.0, 0.0,
                                    (context, message) => Completed(answer), later, true);
    history := store.Load();
  }

  /** A stranger's message leaves the history as it was and gets no reply. */
  method StrangerIgnored(owner: int, stranger: int, earlier: StoreFile, text: string, now: Moment,
                         answer: string)
    returns (replies: seq<string>, history: seq<Turn>)
    requires stranger != owner
    ensures replies == []
    ensures history == Decoded(earlier)
  {
    var store := new HistoryStore(earlier);
    var delay;
    delay, replies := HandleMessage(store, stranger, owner, text, now, 0, 0.0, 0.0,
                                    (context, message) => Completed(answer), now, true);
    history := store.Load();
  }
}
