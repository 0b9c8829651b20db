/**
 * The sender object of in.go: the work queue and the WaitGroup counter it
 * updates in place, `New`, `Send`, one tick of the dispatcher loop, the end of
 * a dispatched send, and `Wait`. Each method is specified by the matching
 * step of module Dispatch.
 */
module MessageSender {
  import opened Wrappers
  import opened Config
  import opened Requests
  import Dispatch

  class TelegramBot {
    /** The validated configuration, copied at `New` (writes through the caller's `ChatIds` slice are not seen). */
    const cfg: Options
    /** The ticker period the dispatcher was started with, in nanoseconds. */
    const period: int
    /** The work queue, head first. */
    var queue: seq<Dispatch.Item>
    /** The WaitGroup counter. */
    var inFlight: nat
    /** Started sends that have not finished (their goroutines). */
    ghost var running: nat
    /** Popped entries that failed the type assertion; their count is never released. */
    ghost var leaked: nat

    ghost function State(): Dispatch.State
      reads this
    {
      Dispatch.State(queue, inFlight, running, leaked)
    }

    ghost predicate Valid()
      reads this
    {
      cfg.botToken != "" && |cfg.chatIds| > 0 && Dispatch.Inv(State())
    }

    /** The object `New` builds once the options pass validation. */
    constructor (o: Options)
      requires Validate(o).Success?
      ensures Valid() && cfg == o
      ensures Some(period) == TickPeriod(DefaultRps)
      ensures State() == Dispatch.Initial()
    {
      cfg := o;
      period := Minute / DefaultRps;
      queue := [];
      inFlight := 0;
      running := 0;
      leaked := 0;
    }

    /**
     * Builds one request per chat, in order; each is counted and then pushed.
     * The first URL that `accepts` (standing for `http.NewRequest`) refuses ends
     * the call with an error, and the requests pushed before it stay queued.
     */
    method Send(message: string, accepts: string -> bool) returns (err: Option<SendError>)
      requires Valid()
      modifies this
      ensures Valid()
      ensures var k := FirstRejected(cfg.botToken, cfg.chatIds, message, accepts);
        && State() == Dispatch.Enqueue(old(State()), SendRequests(cfg.botToken, cfg.chatIds[..k], message))
        && err == if k == |cfg.chatIds| then None
                  else Some(RequestRejected(SendUrl(cfg.botToken, cfg.chatIds[k], message)))
    {
      var token, ids := cfg.botToken, cfg.chatIds;
      ghost var k := FirstRejected(token, ids, message, accepts);
      ghost var start := State();
      assert ids[..0] == [];
      for i := 0 to |ids|
        invariant i <= k
        invariant State() == Dispatch.Enqueue(start, SendRequests(token, ids[..i], message))
      {
        var url := SendUrl(token, ids[i], message);
        FirstRejectedStep(token, ids, message, accepts, i);
        if !accepts(url) {
          return Some(RequestRejected(url));
        }
        var request := Request("POST", url);
        Dispatch.EnqueueNextChat(start, token, ids, message, i);
        Admit(request);
      }
      assert ids[..|ids|] == ids;
      return None;
    }

    /** Counting a request (`wg.Add(1)`) and then pushing it at the tail of the queue. */
    method Admit(request: Request)
      modifies this
      ensures queue == old(queue) + [Dispatch.Queued(request)] && inFlight == old(inFlight) + 1
      ensures running == old(running) && leaked == old(leaked)
    {
      inFlight := inFlight + 1;
      queue := queue + [Dispatch.Queued(request)];
    }

    /**
     * One iteration of the dispatcher loop, on a tick of its ticker: nothing
     * when the queue is empty; otherwise exactly the head is popped and either
     * dropped (not a request) or handed to a new send, which is now running.
     */
    method Tick() returns (outcome: Dispatch.TickOutcome)
      requires Valid()
      modifies this
      ensures Valid()
      ensures (State(), outcome) == Dispatch.Tick(old(State()))
    {
      if |queue| == 0 {
        return Dispatch.Idle;
      }
      var item := queue[0];
      queue := queue[1..];
      match item
      case Malformed =>
        leaked := leaked + 1;
        outcome := Dispatch.Discarded;
      case Queued(req) =>
        running := running + 1;
        outcome := Dispatch.Dispatched(req);
    }

    /** A dispatched send finishing, successfully or not: `wg.Done()`. */
    method Complete()
      requires Valid() && running > 0
      modifies this
      ensures Valid()
      ensures State() == Dispatch.Complete(old(State()))
    {
      inFlight := inFlight - 1;
      running := running - 1;
    }

    /** Whether `Wait` returns now rather than blocking. */
    method Wait() returns (done: bool)
      requires Valid()
      ensures done == Dispatch.Drained(State())
      ensures done <==> queue == [] && running == 0 && leaked == 0
    {
      done := inFlight == 0;
    }
  }

  /**
   * `New`: validates the options and, when they pass, returns a sender with
   * an empty queue, a zero counter and a dispatcher ticking every
   * `time.Minute / 20`.
   */
  method New(o: Options) returns (r: Result<TelegramBot, ConfigError>)
    ensures r.Failure? <==> Validate(o).Failure?
    ensures r.Failure? ==> r.error == Validate(o).error
    ensures r.Success? ==> fresh(r.value) && r.value.Valid() && r.value.cfg == o
    ensures r.Success? ==> r.value.State() == Dispatch.Initial() && r.value.period == 3_000_000_000
  {
    var v := Validate(o);
    if v.Failure? {
      return Failure(v.error);
    }
    var bot := new TelegramBot(o);
    DefaultPeriod();
    return Success(bot);
  }
}
