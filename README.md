# Virtual-friend Telegram bot: delay, history and proactive-message model

A Dafny model of the decision logic in `bot.py`, a Telegram companion bot that
answers one authorized user through Gemini. It keeps the transcript in a JSON
file and answers with a human-like delay. The model covers five parts:

- **Clock**: local time in whole seconds, as a day index plus the second of the
  day, and the sleep window [02:00, 09:00) (`is_sleeping_time`).
- **Delay**: `get_humanlike_delay`. While the user is asleep, the delay runs
  until 09:mm:00 (mm drawn in 0..30), moved to the next day when that moment
  has passed. While awake, a draw `r` picks one of three bands and a second draw
  places the delay inside the band. Every `random.*` result is a parameter
  with its documented range. `uniform(a, b)` is `a + (b - a) * random()`, as
  CPython computes it.
- **Conversation / Store**: a stored turn is `{role, parts, timestamp}`. The
  history file is a class field that `save` replaces whole. `load` of a
  missing file or one that is not valid JSON gives `[]`. `add_to_history` loads, appends one
  turn and saves. The context sent to Gemini keeps role and parts and drops the
  timestamp.
- **Handlers**: `/start` and `handle_message`. Gemini is a function from
  (context, message) to `Completed(text)` or `Failed`. The model therefore shows
  that the completion is requested on a history that already ends with the new
  user turn. The same text is then sent again as the new message, so Gemini
  sees it twice.
- **Proactive**: one pass of `proactive_message_checker` is a pure decision
  (`Decide`). A method applies it to the store, and a finite run of passes
  is a loop over that method.

## Model

| member | source | states |
|---|---|---|
| Clock.Hour | bot.py:63 | the hour field is the unique h in 0..23 whose hour contains the second of the day |
| Clock.IsSleepingTime | bot.py:62-64 | asleep exactly when 2 <= hour < 9, i.e. the second of the day is in [7200, 32400) |
| Clock.SecondsOrder | bot.py:70 | comparing moments by their second count is the (day, second-of-day) lexicographic order |
| Delay.Scaled | bot.py:74-76 | (b - a) * u with u in [0, 1) lies in [0, b - a], and below b - a when a < b |
| Delay.Uniform | bot.py:74-76 | uniform(a, b) lies in [a, b], and below b when a < b |
| Delay.WakeSecond | bot.py:69 | 09:mm:00 lies between 09:00:00 and 09:30:00 |
| Delay.WakeTime | bot.py:69-70 | the wake time reads 09:mm:00, is the first such moment at or after now (not before now, less than a day later), is on the same or next day, and is on the same day when now is in the sleep window |
| Delay.SleepDelay | bot.py:67-71 | the delay is in [0, 86400) and now + delay lands at 09:mm:00 of the same or next day; in the sleep window it lands on the same day and lies in [1 s, 7 h 30 min] |
| Delay.AwakeDelay | bot.py:72-76 | r < 0.5 gives [1, 5), 0.5 <= r < 0.9 gives [10, 90), r >= 0.9 gives [120, 900); always in [1, 900) |
| Delay.HumanlikeDelay | bot.py:66-76 | the delay is never negative; asleep it lands on today's 09:mm:00 and is at most 7 h 30 min; awake it is in [1, 900) |
| Conversation.Context | bot.py:124 | the context has one entry per stored turn, in order, each with that turn's role and parts and no timestamp |
| Conversation.ContextAppend | bot.py:124 | the context of a history extended by one turn is the old context extended by that turn's entry |
| Store.HistoryStore.Load | bot.py:79-86 | load returns the saved list, or [] when the file is missing or not valid JSON |
| Store.HistoryStore.Save | bot.py:88-91 | after save the file holds exactly the given list |
| Store.HistoryStore.Append | bot.py:93-96 | the new history is the old one followed by exactly one turn {role, [text], timestamp}; earlier turns are unchanged and the length grows by one |
| Store.LostUpdate | bot.py:79-96 | two appends whose loads both precede their saves keep only the second turn: the first is lost |
| Handlers.Start | bot.py:99-109 | a stranger gets "sadece sahibimle konuşurum." and the file is untouched; the owner with an empty history gets one user turn "slm" and the reply "slm"; otherwise the reply is "yine ben :)" and the file is untouched |
| Handlers.HandleMessage | bot.py:115-132 | a stranger changes nothing and gets no reply; otherwise the user turn is appended first and the completion is requested on the context of that extended history; on success exactly one model turn with the answer follows it and the answer is sent (if that send raises, the fallback is sent too, so the attempted replies are both); on failure only the user turn is added and the reply is "kafam yandı bi an.. ne diyodun"; the delay is the human-like delay at the message's time |
| Handlers.ContextEndsWithMessage | bot.py:118-126 | the context sent to Gemini is the old context followed by the new user turn's entry, whose text is also the new message |
| Handlers.FirstContact | bot.py:99-107 | the owner's /start on a fresh store replies "slm" and leaves the history [user "slm"] |
| Handlers.FailedCompletion | bot.py:115-132 | when Gemini fails, the replies are exactly the fallback and the history gains only the user turn |
| Handlers.AnsweredMessage | bot.py:115-129 | when Gemini answers, the reply is the answer and the history gains the user turn followed by the model turn holding that answer |
| Handlers.StrangerIgnored | bot.py:115-116 | a stranger's message gets no reply and leaves the loaded history unchanged |
| Proactive.Threshold | bot.py:146-147 | the silence threshold is in [4 h, 11 h) |
| Proactive.Decide | bot.py:139-148 | skip while asleep; skip on empty history; skip when the model spoke last and r < 0.7; otherwise originate exactly when the silence exceeds the threshold; an originated pass follows at least 4 h of silence and carries the whole hours of silence; a user turn silent for 11 h or more while awake always originates |
| Proactive.ProactivePass | bot.py:137-156 | when the decision is to originate and Gemini answers, the answer is sent and appended as one model turn; otherwise nothing is sent and the file is untouched |
| Proactive.RunChecker | bot.py:135-156 | over any finite run, each pass asking the model afresh, the history only grows, each added turn is a model turn holding the text sent, and a run from an empty history sends nothing and leaves the file untouched |

## Left out

- Flask health-check server, Telegram application wiring, thread start-up and `main`: framework plumbing.
- Gemini itself, the persona and the proactive prompt text: a completion is only `Completed(text)` or `Failed`. The proactive prompt is represented by the one value it varies on, the whole hours of silence.
- `time.sleep`, async suspension and the 45-120 minute pause between proactive passes. A pass starts from the clock reading after its pause.
- `history_lock`: it guards each load and each save, not the whole load-append-save. The lost update this allows is shown by `Store.LostUpdate` rather than prevented.
- JSON encoding, `os.path.exists`/`makedirs` and other file-system errors. The file is `Missing`, `Corrupt` (not valid JSON, the `JSONDecodeError` case) or `Saved(turns)`. A decodable file whose content is not a list of turns is not modelled.
- A history file that is not valid UTF-8 (for example a write cut inside a multi-byte character): `json.load` then raises `UnicodeDecodeError`, which the source does not catch. The model has no such state.
- pytz, daylight saving and sub-second precision. Time is whole seconds in a fixed zone where every day has 86400 seconds. `timedelta(hours=x)` is compared as `x * 3600` real seconds.
- The second clock reading in `get_humanlike_delay` (line 68 against line 63). The model uses one reading, under which the next-day rollover never happens while asleep. With two readings straddling 09:00 it can, giving a delay of about a day.
- Random generation itself: each draw is a parameter in its documented range.
- Environment parsing and `exit()` on a missing `AUTHORIZED_USER_ID`: the authorized id is a parameter.
- The `/test` command: a fixed reply with no state or decision.
- The typing indicator in `handle_message` (line 121): it is assumed to succeed. If it raised, the handler would stop after storing the user turn.
- A "forget"/clear command: this version of the bot has none.
- Delivery of the proactive message. `send_message` at line 153 is called without `await`, so whether it is ever delivered is outside the model. `Proactive.ProactivePass` records the text handed to it as sent.
- Delay.AwakeDelay: uses exact reals, so each band excludes its upper end. In floating point, `uniform(a, b)` may round to `b`.
- Delay.Uniform: exact reals give a result below `hi` whenever `lo < hi`. In floating point, `a + (b - a) * random()` can round to exactly `b` (for `random()` = 1 - 2^-53), so the source's range is [a, b].
- Proactive.Threshold: for the same reason the threshold is in [4 h, 11 h) here but can be exactly 11 h in the source. `Proactive.Decide`'s clause that a user turn silent for 11 h or more always originates depends on this: with a threshold of exactly 11 h and exactly 39600 s of silence, the source's strict `>` skips.
- Proactive.ProactivePass: the appended model turn is stamped with the pass's clock reading, whereas the source reads the clock again inside `add_to_history`.
- Handlers.HandleMessage: the model turn's timestamp `repliedAt` is a free clock reading. The model does not state that it comes after the delay.
- Handlers.HandleMessage: the model assumes no other writer between the append of the user turn and the reload before the completion. In the source the proactive thread can append a model turn during the delay (up to 7 h 30 min), and then the context no longer ends with the user turn.
- Handlers.HandleMessage: the replies are the sends the handler attempts. When sending the answer raises, the answer is still listed before the fallback.
