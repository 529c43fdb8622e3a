/**
 * The proactive message engine (proactive_message_checker). Each pass of its
 * endless loop, after its random pause, either skips or originates a message.
 * One pass is a decision over the clock reading, the stored history and two
 * draws (r = random(), consulted only when the bot spoke last; u = the random()
 * behind uniform(4, 11)); the model's opener is a function of the whole hours
 * since the last turn, the only varying part of its prompt.
 */
module Proactive {
  import opened Clock
  import opened Delay
  import opened Conversation
  import opened Store

  /** The chance to stay quiet when the bot has already spoken last. */
  const StayQuietBelow: real := 0.7

  datatype SkipReason = Asleep | NoHistory | BotSpokeLast | TooSoon

  /** The outcome of one pass: skip (continue), or ask for an opener. */
  datatype Decision = Skip(reason: SkipReason) | Originate(hoursSince: int)

  /**
   * One pass's inputs: the clock after the pause, its two draws, and what the
   * model answers on this pass when asked for an opener for a given number of
   * hours (each pass asks afresh).
   */
  datatype Pass = Pass(now: Moment, r: real, u: real, generate: int -> Completion)

  /** Seconds since the turn was stamped. */
  function Elapsed(now: Moment, last: Turn): int
  {
    Seconds(now) - Seconds(last.timestamp)
  }

  /** The silence threshold, uniform(4, 11) hours, in seconds. */
  function Threshold(u: real): (seconds: real)
    requires IsUnitDraw(u)
    ensures 4.0 * 3600.0 <= seconds < 11.0 * 3600.0
  {
    Uniform(4.0, 11.0, u) * 3600.0
  }

  /** One pass of the loop after its pause. */
  function Decide(now: Moment, history: seq<Turn>, r: real, u: real): (d: Decision)
    requires IsUnitDraw(r) && IsUnitDraw(u)
    ensures d == Skip(Asleep) <==> IsSleepingTime(now)
    ensures d == Skip(NoHistory) <==> !IsSleepingTime(now) && history == []
    ensures d == Skip(BotSpokeLast) <==>
              !IsSleepingTime(now) && history != [] &&
              history[|history| - 1].role == Model && r < StayQuietBelow
    ensures d.Originate? <==>
              !IsSleepingTime(now) && history != [] &&
              !(history[|history| - 1].role == Model && r < StayQuietBelow) &&
              Elapsed(now, history[|history| - 1]) as real > Threshold(u)
    ensures d.Originate? ==>
              Elapsed(now, history[|history| - 1]) > 4 * SecondsPerHour &&
              d.hoursSince * SecondsPerHour <= Elapsed(now, history[|history| - 1]) &&
              Elapsed(now, history[|history| - 1]) < (d.hoursSince + 1) * SecondsPerHour &&
              d.hoursSince >= 4
    ensures (!IsSleepingTime(now) && history != [] && history[|history| - 1].role == User &&
             Elapsed(now, history[|history| - 1]) >= 11 * SecondsPerHour) ==> d.Originate?
  {
    if IsSleepingTime(now) then Skip(Asleep)
    else if history == [] then Skip(NoHistory)
    else
      var last := history[|history| - 1];
      var elapsed := Elapsed(now, last);
      if last.role == Model && r < StayQuietBelow then Skip(BotSpokeLast)
      else if elapsed as real > Threshold(u) then Originate(elapsed / SecondsPerHour)
      else Skip(TooSoon)
  }

  /**
   * One pass against the store. When it originates and the model answers, the
   * answer is handed to the send call and stored as a model turn; otherwise
   * nothing is sent and the file is untouched. The stored turn is stamped with
   * the pass's clock reading.
   */
  method ProactivePass(store: HistoryStore, pass: Pass)
    returns (sent: seq<string>)
    requires IsUnitDraw(pass.r) && IsUnitDraw(pass.u)
    modifies store
    ensures var d := Decide(pass.now, old(store.History()), pass.r, pass.u);
            if d.Originate? && pass.generate(d.hoursSince).Completed? then
              sent == [pass.generate(d.hoursSince).text] &&
              store.History() == old(store.History()) + [NewTurn(Model, sent[0], pass.now)]
            else
              sent == [] && store.file == old(store.file)
  {
    var history := store.Load();
    var d := Decide(pass.now, history, pass.r, pass.u);
    sent := [];
    if d.Originate? {
      var outcome := pass.generate(d.hoursSince);
      if outcome.Completed? {
        sent := [outcome.text];
        store.Append(Model, outcome.text, pass.now);
      }
    }
  }

  /**
   * A finite run of the loop. The history only grows, every turn it gains is a
   * model turn carrying exactly the text that was sent, and a run that starts
   * from an empty history never sends anything.
   */
  method RunChecker(store: HistoryStore, passes: seq<Pass>)
    returns (sent: seq<string>)
    requires forall i :: 0 <= i < |passes| ==> IsUnitDraw(passes[i].r) && IsUnitDraw(passes[i].u)
    modifies store
    ensures |store.History()| == |old(store.History())| + |sent|
    ensures store.History()[..|old(store.History())|] == old(store.History())
    ensures forall j :: |old(store.History())| <= j < |store.History()| ==>
              store.History()[j].role == Model &&
              store.History()[j].parts == [Part(sent[j - |old(store.History())|])]
    ensures old(store.History()) == [] ==> sent == [] && store.file == old(store.file)
  {
    ghost var start := store.History();
    sent := [];
    for i := 0 to |passes|
      invariant |store.History()| == |start| + |sent|
      invariant store.History()[..|start|] == start
      invariant forall j :: |start| <= j < |store.History()| ==>
                  store.History()[j].role == Model &&
                  store.History()[j].parts == [Part(sent[j - |start|])]
      invariant start == [] ==> sent == [] && store.file == old(store.file)
    {
      ghost var before := store.History();
      var out := ProactivePass(store, passes[i]);
      sent := sent + out;
      assert forall j :: |start| <= j < |before| ==> store.History()[j] == before[j];
    }
  }
}
