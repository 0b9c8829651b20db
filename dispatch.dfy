/**
 * The sender's state as a value, and the steps that change it: `Send`
 * pushing requests, one tick of the dispatcher, and the completion of a
 * dispatched send. The class in sender.dfy is specified by these functions.
 */
module Dispatch {
  import opened Requests

  /**
   * An entry of the untyped queue library: a request, or a value that fails
   * the dispatcher's type assertion. Only `Send` pushes, and it pushes requests.
   */
  datatype Item = Queued(req: Request) | Malformed

  /** What one tick does: nothing, drop a malformed entry, or start a send. */
  datatype TickOutcome = Idle | Discarded | Dispatched(req: Request)

  /**
   * `queue` is the work queue, head first; `inFlight` the WaitGroup counter;
   * `running` the number of started sends that have not completed; `leaked`
   * the number of entries dropped by the type assertion, whose count was
   * added but is never released.
   */
  datatype State = State(queue: seq<Item>, inFlight: nat, running: nat, leaked: nat)

  /** Every entry pushed was counted first, and only a completed send releases its count. */
  ghost predicate Inv(s: State)
  {
    s.inFlight == |s.queue| + s.running + s.leaked
  }

  /** The queue holds only requests and nothing has been dropped. */
  ghost predicate WellTyped(s: State)
  {
    s.leaked == 0 && forall i :: 0 <= i < |s.queue| ==> s.queue[i].Queued?
  }

  /** The state `New` creates: an empty queue and a zero counter. */
  function Initial(): (s: State)
    ensures Inv(s) && WellTyped(s)
    ensures s.queue == [] && s.inFlight == 0
  {
    State([], 0, 0, 0)
  }

  /**
   * The effect of `Send` for the requests it built: each one is counted and
   * then pushed at the tail.
   */
  function Enqueue(s: State, rs: seq<Request>): (t: State)
    ensures |t.queue| == |s.queue| + |rs| && t.queue[..|s.queue|] == s.queue
    ensures forall i :: 0 <= i < |rs| ==> t.queue[|s.queue| + i] == Queued(rs[i])
    ensures t.inFlight == s.inFlight + |rs|
    ensures t.running == s.running && t.leaked == s.leaked
    ensures Inv(s) ==> Inv(t)
    ensures WellTyped(s) ==> WellTyped(t)
  {
    State(s.queue + seq(|rs|, i requires 0 <= i < |rs| => Queued(rs[i])), s.inFlight + |rs|, s.running, s.leaked)
  }

  /** Pushing one more request after some others is enqueuing them all at once. */
  lemma EnqueueSnoc(s: State, rs: seq<Request>, r: Request)
    ensures Enqueue(s, rs + [r]) == Enqueue(Enqueue(s, rs), [r])
  {
  }

  /**
   * One step of `Send`'s loop: after the requests for `ids[..i]`, counting and
   * pushing the request for `ids[i]` gives the state for `ids[..i + 1]`.
   */
  lemma EnqueueNextChat(s: State, token: string, ids: seq<string>, message: string, i: nat)
    requires i < |ids|
    ensures var t := Enqueue(s, SendRequests(token, ids[..i], message));
      Enqueue(s, SendRequests(token, ids[..i + 1], message))
        == State(t.queue + [Queued(SendRequest(token, ids[i], message))], t.inFlight + 1, t.running, t.leaked)
  {
    var rs := SendRequests(token, ids[..i], message);
    var r := SendRequest(token, ids[i], message);
    SendRequestsSnoc(token, ids, message, i);
    EnqueueSnoc(s, rs, r);
    var t := Enqueue(s, rs);
    assert Enqueue(t, [r]).queue == t.queue + [Queued(r)];
  }

  /** What a tick does to a popped entry: the type assertion `.(*http.Request)`. */
  function OutcomeOf(item: Item): (o: TickOutcome)
    ensures o.Dispatched? <==> item.Queued?
    ensures o.Discarded? <==> item.Malformed?
    ensures item.Queued? ==> o.req == item.req
  {
    match item
    case Queued(r) => Dispatched(r)
    case Malformed => Discarded
  }

  /**
   * One tick of the dispatcher: skip when the queue is empty; otherwise pop the
   * head, drop it if it is not a request, or start its send.
   */
  function Tick(s: State): (r: (State, TickOutcome))
    ensures s.queue == [] ==> r == (s, Idle)
    ensures s.queue != [] ==> r.0.queue == s.queue[1..] && r.1 == OutcomeOf(s.queue[0])
    ensures r.0.inFlight == s.inFlight
    ensures r.1.Dispatched? ==> r.0.running == s.running + 1 && r.0.leaked == s.leaked
    ensures r.1.Discarded? ==> r.0.running == s.running && r.0.leaked == s.leaked + 1
    ensures r.1.Idle? ==> r.0 == s
    ensures Inv(s) ==> Inv(r.0)
    ensures WellTyped(s) ==> WellTyped(r.0) && !r.1.Discarded?
  {
    if s.queue == [] then (s, Idle)
    else
      var rest := s.queue[1..];
      match s.queue[0]
      case Malformed => (State(rest, s.inFlight, s.running, s.leaked + 1), Discarded)
      case Queued(req) => (State(rest, s.inFlight, s.running + 1, s.leaked), Dispatched(req))
  }

  /** A started send finishing, whatever its outcome: `wg.Done()`. */
  function Complete(s: State): (t: State)
    requires Inv(s) && s.running > 0
    ensures t.inFlight + 1 == s.inFlight
    ensures t.running + 1 == s.running
    ensures t.queue == s.queue && t.leaked == s.leaked
    ensures Inv(t)
    ensures WellTyped(s) ==> WellTyped(t)
  {
    State(s.queue, s.inFlight - 1, s.running - 1, s.leaked)
  }

  /**
   * `Wait` returns exactly when the counter is zero; under the invariant that
   * is when the queue is empty, no send is running and nothing was dropped.
   */
  predicate Drained(s: State)
    ensures Inv(s) ==> (Drained(s) <==> s.queue == [] && s.running == 0 && s.leaked == 0)
  {
    s.inFlight == 0
  }

  /** `k` ticks in a row, with the outcome of each. */
  function RunTicks(s: State, k: nat): (r: (State, seq<TickOutcome>))
    ensures |r.1| == k
    decreases k
  {
    if k == 0 then (s, [])
    else
      var (t, o) := Tick(s);
      var (u, os) := RunTicks(t, k - 1);
      (u, [o] + os)
  }

  function Min(a: nat, b: nat): nat { if a <= b then a else b }

  /**
   * First in, first out, one entry per tick: after `k` ticks the first
   * `n = min(k, |queue|)` entries are gone and the rest is left in order; the
   * i-th tick handled the i-th entry and the ticks after the queue emptied were idle.
   */
  lemma {:induction false} RunTicksFifo(s: State, k: nat)
    ensures var n := Min(k, |s.queue|); var (t, os) := RunTicks(s, k);
      && t.queue == s.queue[n..]
      && |os| == k
      && (forall i :: 0 <= i < n ==> os[i] == OutcomeOf(s.queue[i]))
      && (forall i :: n <= i < k ==> os[i] == Idle)
      && t.inFlight == s.inFlight
      && t.running + t.leaked == s.running + s.leaked + n
    decreases k
  {
    if k > 0 {
      var (t, o) := Tick(s);
      RunTicksFifo(t, k - 1);
      var (u, os) := RunTicks(t, k - 1);
      assert RunTicks(s, k) == (u, [o] + os);
      if s.queue != [] {
        assert t.queue == s.queue[1..];
        forall i | 1 <= i < Min(k, |s.queue|) ensures ([o] + os)[i] == OutcomeOf(s.queue[i]) {
          assert os[i - 1] == OutcomeOf(t.queue[i - 1]);
        }
      }
    }
  }

  /**
   * First in, first out across two `Send` calls: once the queue has been
   * ticked through, the entries queued before came first, then every request
   * of the first call in order, then every request of the second.
   */
  lemma TwoSendsFifo(s: State, a: seq<Request>, b: seq<Request>)
    ensures var t := Enqueue(Enqueue(s, a), b);
      var n := |s.queue| + |a| + |b|;
      var os := RunTicks(t, n).1;
      && |t.queue| == n
      && (forall i :: 0 <= i < |a| ==> os[|s.queue| + i] == Dispatched(a[i]))
      && (forall j :: 0 <= j < |b| ==> os[|s.queue| + |a| + j] == Dispatched(b[j]))
  {
    var u := Enqueue(s, a);
    var t := Enqueue(u, b);
    var n := |s.queue| + |a| + |b|;
    RunTicksFifo(t, n);
    var os := RunTicks(t, n).1;
    forall i | 0 <= i < |a| ensures os[|s.queue| + i] == Dispatched(a[i]) {
      assert t.queue[|s.queue| + i] == t.queue[..|u.queue|][|s.queue| + i] == u.queue[|s.queue| + i];
    }
  }

  /** Ticks preserve the invariant, and on well-typed queues they never drop anything. */
  lemma {:induction false} RunTicksKeepsInvariants(s: State, k: nat)
    ensures Inv(s) ==> Inv(RunTicks(s, k).0)
    ensures WellTyped(s) ==> WellTyped(RunTicks(s, k).0)
    ensures WellTyped(s) ==> forall i :: 0 <= i < k ==> !RunTicks(s, k).1[i].Discarded?
    decreases k
  {
    if k > 0 {
      var (t, o) := Tick(s);
      RunTicksKeepsInvariants(t, k - 1);
      RunTicksFifo(s, k);
      var os := RunTicks(t, k - 1).1;
      assert RunTicks(s, k).1 == [o] + os;
      if WellTyped(s) {
        forall i | 1 <= i < k ensures !RunTicks(s, k).1[i].Discarded? {
          assert RunTicks(s, k).1[i] == os[i - 1];
        }
      }
    }
  }

  /** `n` sends finishing, one after another. */
  function CompleteAll(s: State, n: nat): (t: State)
    requires Inv(s) && n <= s.running
    ensures Inv(t)
    decreases n
  {
    if n == 0 then s else CompleteAll(Complete(s), n - 1)
  }

  /** Completing every running send releases exactly their counts. */
  lemma {:induction false} CompleteAllReleases(s: State, n: nat)
    requires Inv(s) && n <= s.running
    ensures CompleteAll(s, n).inFlight == s.inFlight - n
    ensures CompleteAll(s, n).running == s.running - n
    ensures CompleteAll(s, n).queue == s.queue && CompleteAll(s, n).leaked == s.leaked
    decreases n
  {
    if n > 0 {
      CompleteAllReleases(Complete(s), n - 1);
    }
  }

  /**
   * From any well-typed state, one tick per queued request followed by the
   * completion of every send drains the counter, so `Wait` returns.
   */
  lemma EventuallyDrains(s: State)
    requires Inv(s) && WellTyped(s)
    ensures var t := RunTicks(s, |s.queue|).0;
      Inv(t) && Drained(CompleteAll(t, t.running))
  {
    var t := RunTicks(s, |s.queue|).0;
    RunTicksFifo(s, |s.queue|);
    RunTicksKeepsInvariants(s, |s.queue|);
    assert t.queue == [];
    CompleteAllReleases(t, t.running);
  }
}
