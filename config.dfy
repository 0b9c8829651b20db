/**
 * The configuration of a sender (the `Options` struct of in.go), the check
 * that `New` applies to it, and the pacing period of the dispatcher.
 */
module Config {
  import opened Wrappers

  /** The bot's credential and the chats every message is sent to, in order. */
  datatype Options = Options(botToken: string, chatIds: seq<string>)

  /** The two errors `New` can return, in the order it checks for them. */
  datatype ConfigError = MissingToken | NoChatIds

  /**
   * The validation done by `New`: an empty token is rejected first, then an
   * empty chat list; anything else is accepted unchanged.
   */
  function Validate(o: Options): (r: Result<Options, ConfigError>)
    ensures r.Failure? <==> o.botToken == "" || |o.chatIds| == 0
    ensures r.Success? ==> r.value == o
    ensures o.botToken == "" ==> r == Failure(MissingToken)
    ensures o.botToken != "" && |o.chatIds| == 0 ==> r == Failure(NoChatIds)
  {
    if o.botToken == "" then Failure(MissingToken)
    else if |o.chatIds| == 0 then Failure(NoChatIds)
    else Success(o)
  }

  /** `time.Minute` in nanoseconds, the unit of Go's `time.Duration`. */
  const Minute: int := 60_000_000_000

  /** The rate `New` starts the dispatcher with. */
  const DefaultRps: int := 20

  /**
   * The ticker period `time.Minute / time.Duration(rps)`, in nanoseconds.
   * Go's division truncates toward zero; the dividend is positive, so it agrees
   * with Dafny's division here. `None` stands for the two ways Go panics:
   * a division by zero, and `time.NewTicker` given a period that is not positive.
   * The period is per MINUTE: `rps` is the number of ticks in one minute.
   */
  function TickPeriod(rps: int): (r: Option<int>)
    ensures r.Some? <==> 0 < rps <= Minute
    ensures r.Some? ==> r.value > 0 && r.value * rps <= Minute < (r.value + 1) * rps
  {
    if rps == 0 then None
    else
      var d := Minute / rps;
      if d <= 0 then None else Some(d)
  }

  /** At the default rate the dispatcher ticks every three seconds, twenty times a minute. */
  lemma DefaultPeriod()
    ensures TickPeriod(DefaultRps) == Some(3_000_000_000)
    ensures TickPeriod(DefaultRps).value * DefaultRps == Minute
  {
  }
}
