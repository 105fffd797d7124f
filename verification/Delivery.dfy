/** The message handler: one engine query from its first delivery to its last settlement.

    The plugin and the broker are an oracle: `handled(t)` and `fails(t)` say how the t-th
    operation ends.  Each publish is atomic: it happens or it raises. */
module Delivery {

  /** How `plugin.handle` ends; a time-out is either the pipeline's or the model provider's. */
  datatype Handled = Answered | TimedOut | EmbeddingTransient | EmbeddingPermanent | OtherFailure

  datatype Effect =
    | Ran
    | Published(answer: bool)
    | PublishFailed
    | Republished(retryCount: nat)
    | RepublishFailed
    | Acked(ok: bool)
    | Rejected(ok: bool)

  predicate IsEmbedding(h: Handled) { h.EmbeddingTransient? || h.EmbeddingPermanent? }

  /** How many effects of each kind. */
  datatype Tally = Tally(runs: nat, results: nat, retries: nat, settlements: nat, lost: nat)

  function Plus(a: Tally, b: Tally): Tally {
    Tally(a.runs + b.runs, a.results + b.results, a.retries + b.retries, a.settlements + b.settlements, a.lost + b.lost)
  }

  lemma PlusTwice(a: Tally, b: Tally)
    ensures Plus(Plus(a, Tally(1, 0, 0, 0, 0)), b) == Plus(a, Plus(Tally(1, 0, 0, 0, 0), b))
  {}

  function One(e: Effect): Tally {
    match e
    case Ran => Tally(1, 0, 0, 0, 0)
    case Published(_) => Tally(0, 1, 0, 0, 0)
    case PublishFailed => Tally(0, 0, 0, 0, 1)
    case Republished(_) => Tally(0, 0, 1, 0, 0)
    case RepublishFailed => Tally(0, 0, 0, 0, 0)
    case Acked(_) => Tally(0, 0, 0, 1, 0)
    case Rejected(_) => Tally(0, 0, 0, 1, 0)
  }

  /** A log with its running tallies, in which no retry is queued once a result is out. */
  predicate Recorded(log: seq<Effect>, tallies: seq<Tally>) {
    && |tallies| == |log| + 1 && tallies[0] == Tally(0, 0, 0, 0, 0)
    && forall i :: 0 <= i < |log| ==>
         tallies[i + 1] == Plus(tallies[i], One(log[i])) && (log[i].Republished? ==> tallies[i].results == 0)
  }

  lemma {:induction false} ResultsGrow(log: seq<Effect>, tallies: seq<Tally>, i: nat, j: nat)
    requires Recorded(log, tallies) && i <= j <= |log|
    ensures tallies[i].results <= tallies[j].results
    decreases j - i
  {
    if i < j {
      ResultsGrow(log, tallies, i, j - 1);
      assert tallies[j - 1 + 1] == Plus(tallies[j - 1], One(log[j - 1]));
    }
  }

  /** After a published result nothing is ever queued again. */
  lemma NoRetryAfterResult(log: seq<Effect>, tallies: seq<Tally>, result: nat, later: nat)
    requires Recorded(log, tallies) && result < later < |log| && log[result].Published?
    ensures !log[later].Republished?
  {
    ResultsGrow(log, tallies, result + 1, later);
    assert tallies[result + 1] == Plus(tallies[result], One(log[result]));
  }

  predicate IsSettlement(e: Effect) { e.Acked? || e.Rejected? }

  /** Settling is the last effect, and no other. */
  predicate SettlesOnce(log: seq<Effect>) {
    log != [] && forall i :: 0 <= i < |log| ==> (IsSettlement(log[i]) <==> i == |log| - 1)
  }

  lemma Before(front: seq<Effect>, rest: seq<Effect>)
    requires SettlesOnce(rest) && forall i :: 0 <= i < |front| ==> !IsSettlement(front[i])
    ensures SettlesOnce(front + rest)
    ensures forall e :: e in front + rest <==> e in front || e in rest
  {}

  function Together(logs: seq<seq<Effect>>): seq<Effect> {
    if logs == [] then [] else Together(logs[..|logs| - 1]) + logs[|logs| - 1]
  }

  lemma TogetherStep(logs: seq<seq<Effect>>, one: seq<Effect>)
    ensures Together(logs + [one]) == Together(logs) + one
  {
    assert (logs + [one])[..|logs|] == logs;
  }

  /** Each log starts where the one before it ended. */
  ghost predicate InTurn(starts: seq<nat>, logs: seq<seq<Effect>>, first: nat) {
    |starts| == |logs| && forall k :: 0 <= k < |starts| ==> starts[k] == first + |Together(logs[..k])|
  }

  lemma InTurnStep(starts: seq<nat>, logs: seq<seq<Effect>>, first: nat, next: nat, one: seq<Effect>)
    requires InTurn(starts, logs, first) && next == first + |Together(logs)|
    ensures InTurn(starts + [next], logs + [one], first)
  {
    var n, more := |starts|, logs + [one];
    forall k | 0 <= k <= n ensures (starts + [next])[k] == first + |Together(more[..k])| {
      assert more[..k] == logs[..k];
      assert k == n ==> logs[..k] == logs;
    }
  }

  /** Logged since `first`: these logs one after the other, each starting where the one before ended. */
  ghost predicate Traced(starts: seq<nat>, logs: seq<seq<Effect>>, first: nat, before: seq<Effect>, now: nat, log: seq<Effect>) {
    InTurn(starts, logs, first) && log == before + Together(logs) && now == first + |Together(logs)|
  }

  lemma TracedStep(starts: seq<nat>, logs: seq<seq<Effect>>, first: nat, before: seq<Effect>, now: nat, log: seq<Effect>, one: seq<Effect>)
    requires Traced(starts, logs, first, before, now, log)
    ensures Traced(starts + [now], logs + [one], first, before, now + |one|, log + one)
  {
    InTurnStep(starts, logs, first, now, one);
    TogetherStep(logs, one);
    assert before + Together(logs) + one == before + (Together(logs) + one);
  }

  lemma Appended(a: seq<Effect>, b: seq<Effect>, c: seq<Effect>)
    ensures a + b + c == a + (b + c)
  {}

  /** At most one delivery waits, with this retry count. */
  predicate Waits(queue: seq<nat>, retryCount: nat) { queue == [] || (|queue| == 1 && queue[0] == retryCount) }

  class Consumer {
    const maxRetries: nat
    const parses: bool
    const handled: nat -> Handled
    const fails: nat -> bool
    var clock: nat
    var queue: seq<nat>
    var log: seq<Effect>
    /** The log's effects by kind, so far and all along. */
    ghost var tally: Tally
    ghost var tallies: seq<Tally>

    ghost predicate Valid()
      reads this
    {
      Recorded(log, tallies) && tally == tallies[|log|]
    }

    constructor (maxRetries: nat, parses: bool, handled: nat -> Handled, fails: nat -> bool, retryCount: nat)
      ensures this.maxRetries == maxRetries && this.parses == parses && this.handled == handled && this.fails == fails
      ensures queue == [retryCount] && log == [] && tally == Tally(0, 0, 0, 0, 0) && Valid()
    {
      this.maxRetries, this.parses, this.handled, this.fails := maxRetries, parses, handled, fails;
      clock, queue, log, tally, tallies := 0, [retryCount], [], Tally(0, 0, 0, 0, 0), [Tally(0, 0, 0, 0, 0)];
    }

    /** One operation against the outside: does it fail? */
    method Attempt(done: Effect, failed: Effect) returns (ok: bool)
      requires Valid() && !failed.Republished? && (done.Republished? ==> tally.results == 0)
      modifies `clock, `log, `tally, `tallies
      ensures ok == !fails(old(clock)) && clock == old(clock) + 1
      ensures log == old(log) + [if ok then done else failed]
      ensures Valid() && tally == Plus(old(tally), One(if ok then done else failed))
    {
      ok := !fails(clock);
      clock, log := clock + 1, log + [if ok then done else failed];
      tally := Plus(tally, One(if ok then done else failed));
      tallies := tallies + [tally];
    }

    /** The last thing done was to settle, by acknowledging or by rejecting. */
    predicate EndsWith(acknowledged: bool)
      reads this
    {
      log != [] && if acknowledged then log[|log| - 1].Acked? else log[|log| - 1].Rejected?
    }

    /** Settling is attempted once and its failure is swallowed. */
    method Settle(acknowledge: bool)
      requires Valid()
      modifies `clock, `log, `tally, `tallies
      ensures log == old(log) + [if acknowledge then Acked(!fails(old(clock))) else Rejected(!fails(old(clock)))]
      ensures Valid() && tally == Plus(old(tally), Tally(0, 0, 0, 1, 0)) && EndsWith(acknowledge) && clock == old(clock) + 1
    {
      var ok;
      if acknowledge {
        ok := Attempt(Acked(true), Acked(false));
      } else {
        ok := Attempt(Rejected(true), Rejected(false));
      }
    }

    method RunPlugin() returns (r: Handled)
      requires Valid()
      modifies `clock, `log, `tally, `tallies
      ensures r == handled(old(clock)) && log == old(log) + [Ran] && clock == old(clock) + 1
      ensures Valid() && tally == Plus(old(tally), Tally(1, 0, 0, 0, 0))
    {
      r := handled(clock);
      clock, log, tally := clock + 1, log + [Ran], Plus(tally, One(Ran));
      tallies := tallies + [tally];
    }

    // ----- the effects of one delivery, by how its operations end

    function ErrorAt(at: nat): Effect { if fails(at) then PublishFailed else Published(false) }

    function RetryLog(at: nat, retryCount: nat, hasEvent: bool, forceTerminal: bool, acknowledgeTerminal: bool): seq<Effect> {
      if !forceTerminal && retryCount + 1 < maxRetries then
        if !fails(at) then [Republished(retryCount + 1), Rejected(!fails(at + 1))]
        else if hasEvent then [RepublishFailed, ErrorAt(at + 1), Rejected(!fails(at + 2))]
        else [RepublishFailed, Rejected(!fails(at + 1))]
      else if !hasEvent then [Rejected(!fails(at))]
      else [ErrorAt(at), if acknowledgeTerminal && !fails(at) then Acked(!fails(at + 1)) else Rejected(!fails(at + 1))]
    }

    function AnswerLog(at: nat, retryCount: nat): seq<Effect> {
      if !fails(at) then [Published(true), Acked(!fails(at + 1))]
      else [PublishFailed] + RetryLog(at + 1, retryCount, true, false, false)
    }

    function QueryLog(at: nat, retryCount: nat): seq<Effect> {
      var h := handled(at);
      [Ran] + if h.Answered? then AnswerLog(at + 1, retryCount)
              else RetryLog(at + 1, retryCount, true, IsEmbedding(h), h.EmbeddingPermanent?)
    }

    function DeliveryLog(at: nat, retryCount: nat): seq<Effect> {
      if parses then QueryLog(at, retryCount) else RetryLog(at, retryCount, false, false, false)
    }

    /** The plugin answers and the answer is published. */
    predicate AnswerIsOut(at: nat) { parses && handled(at).Answered? && !fails(at + 1) }

    /** The first operation after an attempt at `at` failed. */
    function FailureAt(at: nat): nat { if handled(at).Answered? then at + 2 else at + 1 }

    /** From `at` on the error is published: at once, or after queueing another attempt failed. */
    predicate ErrorGoesOut(at: nat, retriable: bool) { if retriable then fails(at) && !fails(at + 1) else !fails(at) }

    /** Worth another attempt: a time-out, a failure that is no embedding failure, or an answer
        that could not be published. */
    predicate IsRetriable(at: nat) { handled(at).Answered? || handled(at).TimedOut? || handled(at).OtherFailure? }

    /** An error result is published: the attempt failed, and it was the last, or embedding broke,
        or queueing another failed. */
    predicate ErrorIsOut(at: nat, retryCount: nat) {
      parses && !AnswerIsOut(at) && ErrorGoesOut(FailureAt(at), IsRetriable(at) && retryCount + 1 < maxRetries)
    }

    /** Another attempt is queued with the next count, or none is. */
    ghost predicate QueuesNext(l: seq<Effect>, retryCount: nat, possible: bool) {
      forall n: nat :: Republished(n) in l <==> n == retryCount + 1 && n < maxRetries && possible
    }

    /** Queueing another attempt is tried and succeeds, attempts being left. */
    predicate QueueingSucceeds(at: nat) {
      if parses then !AnswerIsOut(at) && IsRetriable(at) && !fails(FailureAt(at)) else !fails(at)
    }

    lemma RetryMeans(at: nat, retryCount: nat, hasEvent: bool, forceTerminal: bool, acknowledgeTerminal: bool)
      ensures var l := RetryLog(at, retryCount, hasEvent, forceTerminal, acknowledgeTerminal);
        && Published(true) !in l && Ran !in l
        && (Published(false) in l <==> hasEvent && ErrorGoesOut(at, !forceTerminal && retryCount + 1 < maxRetries))
        && QueuesNext(l, retryCount, !forceTerminal && !fails(at)) && SettlesOnce(l)
        && (l[|l| - 1].Acked? <==> (forceTerminal || retryCount + 1 >= maxRetries) && hasEvent && acknowledgeTerminal && !fails(at))
    {
      var l := RetryLog(at, retryCount, hasEvent, forceTerminal, acknowledgeTerminal);
      assert |l| == 1 ==> l == [l[0]];
      assert |l| == 2 ==> l == [l[0], l[1]];
      assert |l| == 3 ==> l == [l[0], l[1], l[2]];
      assert |l| > 0 && l[0] in l && (|l| > 1 ==> l[1] in l);
    }

    /** What one delivery does to the outside.  An answer is published if and only if the plugin
        gave one and publishing it succeeded, an error exactly as `ErrorIsOut` says, another
        attempt is queued with the next count while attempts are left, and settling comes last and
        once: an acknowledgement of an answer that is out, or of a permanent embedding failure
        whose error is out. */
    lemma DeliveryMeans(at: nat, retryCount: nat)
      ensures var l := DeliveryLog(at, retryCount);
        && (Published(true) in l <==> AnswerIsOut(at))
        && (Published(false) in l <==> ErrorIsOut(at, retryCount))
        && (Ran in l <==> parses)
        && QueuesNext(l, retryCount, QueueingSucceeds(at)) && SettlesOnce(l)
        && (l[|l| - 1].Acked? <==> AnswerIsOut(at) || (handled(at).EmbeddingPermanent? && ErrorIsOut(at, retryCount)))
    {
      if !parses {
        RetryMeans(at, retryCount, false, false, false);
      } else {
        QueryMeans(at, retryCount);
      }
    }

    lemma QueryMeans(at: nat, retryCount: nat)
      requires parses
      ensures var l := QueryLog(at, retryCount);
        && (Published(true) in l <==> AnswerIsOut(at))
        && (Published(false) in l <==> ErrorIsOut(at, retryCount))
        && Ran in l && QueuesNext(l, retryCount, QueueingSucceeds(at)) && SettlesOnce(l)
        && (l[|l| - 1].Acked? <==> AnswerIsOut(at) || (handled(at).EmbeddingPermanent? && ErrorIsOut(at, retryCount)))
    {
      var h := handled(at);
      if AnswerIsOut(at) {
        var l := [Ran, Published(true), Acked(!fails(at + 2))];
        assert QueryLog(at, retryCount) == l && l[1] in l && l[0] in l;
      } else if h.Answered? {
        var rest := RetryLog(at + 2, retryCount, true, false, false);
        RetryMeans(at + 2, retryCount, true, false, false);
        assert QueryLog(at, retryCount) == [Ran, PublishFailed] + rest;
        Before([Ran, PublishFailed], rest);
      } else {
        var rest := RetryLog(at + 1, retryCount, true, IsEmbedding(h), h.EmbeddingPermanent?);
        RetryMeans(at + 1, retryCount, true, IsEmbedding(h), h.EmbeddingPermanent?);
        Before([Ran], rest);
      }
    }

    /** What a failed delivery does besides settling once: queue exactly one more attempt, or
        publish the error; with no event there is nobody to publish it to. */
    predicate FailedDelivery(t: Tally, retryCount: nat, hasEvent: bool, forceTerminal: bool) {
      && t.runs == 0 && t.settlements == 1 && t.retries + t.results <= 1 && t.lost <= 1
      && (t.retries == 1 ==> !forceTerminal && retryCount + 1 < maxRetries && t.lost == 0)
      && (!hasEvent ==> t.results == 0 && t.lost == 0)
      && (hasEvent && t.lost == 0 ==> t.retries + t.results == 1)
    }

    /** The branch with attempts left: queue another, or failing that publish the error. */
    method Requeue(retryCount: nat, hasEvent: bool) returns (ghost t: Tally)
      requires Valid() && tally.results == 0 && retryCount + 1 < maxRetries
      modifies `clock, `log, `tally, `tallies, `queue
      ensures Valid() && tally == Plus(old(tally), t) && FailedDelivery(t, retryCount, hasEvent, false)
      ensures log == old(log) + RetryLog(old(clock), retryCount, hasEvent, false, false)
      ensures clock == old(clock) + |RetryLog(old(clock), retryCount, hasEvent, false, false)|
      ensures queue == if t.retries == 1 then old(queue) + [retryCount + 1] else old(queue)
      ensures (t.retries == 1 <==> !fails(old(clock))) && EndsWith(false)
    {
      var published := false;
      var queued := Attempt(Republished(retryCount + 1), RepublishFailed);
      if queued {
        queue := queue + [retryCount + 1];
      } else if hasEvent {
        published := Attempt(Published(false), PublishFailed);
      }
      t := Tally(0, if published then 1 else 0, if queued then 1 else 0, 1, if !queued && hasEvent && !published then 1 else 0);
      Settle(false);
    }

    /** The terminal branch: publish the error, and settle. */
    method GiveUp(retryCount: nat, hasEvent: bool, forceTerminal: bool, acknowledgeTerminal: bool) returns (ghost t: Tally)
      requires Valid() && (forceTerminal || retryCount + 1 >= maxRetries)
      modifies `clock, `log, `tally, `tallies
      ensures Valid() && tally == Plus(old(tally), t) && FailedDelivery(t, retryCount, hasEvent, forceTerminal) && t.retries == 0
      ensures log == old(log) + RetryLog(old(clock), retryCount, hasEvent, forceTerminal, acknowledgeTerminal)
      ensures clock == old(clock) + |RetryLog(old(clock), retryCount, hasEvent, forceTerminal, acknowledgeTerminal)|
      ensures EndsWith(acknowledgeTerminal && t.results == 1)
    {
      var published := false;
      if hasEvent { published := Attempt(Published(false), PublishFailed); }
      t := Tally(0, if published then 1 else 0, 0, 1, if hasEvent && !published then 1 else 0);
      Settle(acknowledgeTerminal && published);
    }

    method RetryOrReject(retryCount: nat, hasEvent: bool, forceTerminal: bool, acknowledgeTerminal: bool) returns (ghost t: Tally)
      requires Valid() && tally.results == 0
      modifies `clock, `log, `tally, `tallies, `queue
      ensures Valid() && tally == Plus(old(tally), t) && FailedDelivery(t, retryCount, hasEvent, forceTerminal)
      ensures log == old(log) + RetryLog(old(clock), retryCount, hasEvent, forceTerminal, acknowledgeTerminal)
      ensures clock == old(clock) + |RetryLog(old(clock), retryCount, hasEvent, forceTerminal, acknowledgeTerminal)|
      ensures queue == if t.retries == 1 then old(queue) + [retryCount + 1] else old(queue)
      ensures t.retries == 1 <==> !forceTerminal && retryCount + 1 < maxRetries && !fails(old(clock))
      ensures EndsWith(acknowledgeTerminal && t.results == 1 && (forceTerminal || retryCount + 1 >= maxRetries))
    {
      if !forceTerminal && retryCount + 1 < maxRetries {
        t := Requeue(retryCount, hasEvent);
      } else {
        t := GiveUp(retryCount, hasEvent, forceTerminal, acknowledgeTerminal);
      }
    }

    /** One delivery: at most one plugin run, one settlement, and either one result, one retry,
        or a publish that failed. */
    predicate OneDelivery(t: Tally, retryCount: nat) {
      && t.runs == (if parses then 1 else 0) && t.settlements == 1 && t.retries + t.results <= 1
      && (t.retries == 1 ==> retryCount + 1 < maxRetries)
      && (!parses ==> t.results == 0 && t.lost == 0)
      && (parses && t.lost == 0 ==> t.retries + t.results == 1)
    }

    method PublishAnswer(retryCount: nat) returns (ghost t: Tally, ghost acked: bool)
      requires Valid() && tally.results == 0
      modifies `clock, `log, `tally, `tallies, `queue
      ensures Valid() && tally == Plus(old(tally), t) && EndsWith(acked)
      ensures t.runs == 0 && t.settlements == 1 && t.retries + t.results <= 1 && (t.retries == 1 ==> retryCount + 1 < maxRetries)
      ensures t.lost == 0 ==> t.results == 1
      ensures log == old(log) + AnswerLog(old(clock), retryCount) && clock == old(clock) + |AnswerLog(old(clock), retryCount)|
      ensures t.retries == 1 <==> fails(old(clock)) && retryCount + 1 < maxRetries && !fails(old(clock) + 1)
      ensures acked <==> t.results == 1 && t.lost == 0
      ensures queue == if t.retries == 1 then old(queue) + [retryCount + 1] else old(queue)
    {
      var published := Attempt(Published(true), PublishFailed);
      acked := published;
      if published {
        Settle(true);
        t := Tally(0, 1, 0, 1, 0);
      } else {
        Appended(old(log), [PublishFailed], RetryLog(clock, retryCount, true, false, false));
        t := RetryOrReject(retryCount, true, false, false);
        t := Plus(Tally(0, 0, 0, 0, 1), t);
      }
    }

    /** Whether the plugin's outcome is one whose published result is acknowledged. */
    predicate Acknowledges(h: Handled, t: Tally) {
      t.results == 1 && (h.EmbeddingPermanent? || (h.Answered? && t.lost == 0))
    }

    /** A failure is retried exactly while attempts are left and queueing succeeds. */
    predicate Retries(start: nat, retryCount: nat) {
      && retryCount + 1 < maxRetries && !IsEmbedding(handled(start))
      && (if handled(start).Answered? then fails(start + 1) && !fails(start + 2) else !fails(start + 1))
    }

    method HandleFailure(retryCount: nat, outcome: Handled) returns (ghost t: Tally, ghost acked: bool)
      requires Valid() && tally.results == 0 && !outcome.Answered?
      modifies `clock, `log, `tally, `tallies, `queue
      ensures Valid() && tally == Plus(old(tally), t) && EndsWith(acked)
      ensures t.runs == 0 && t.settlements == 1 && t.retries + t.results <= 1 && (t.lost == 0 ==> t.retries + t.results == 1)
      ensures queue == if t.retries == 1 then old(queue) + [retryCount + 1] else old(queue)
      ensures t.retries == 1 <==> !IsEmbedding(outcome) && retryCount + 1 < maxRetries && !fails(old(clock))
      ensures acked == (t.results == 1 && outcome.EmbeddingPermanent?)
      ensures var l := RetryLog(old(clock), retryCount, true, IsEmbedding(outcome), outcome.EmbeddingPermanent?);
        log == old(log) + l && clock == old(clock) + |l|
    {
      t := RetryOrReject(retryCount, true, IsEmbedding(outcome), outcome.EmbeddingPermanent?);
      acked := outcome.EmbeddingPermanent? && t.results == 1;
    }

    /** An embedding failure is never retried; what is acknowledged is a published answer, or
        the error published after a permanent embedding failure. */
    method HandleQuery(retryCount: nat) returns (ghost t: Tally, ghost acked: bool)
      requires Valid() && tally.results == 0 && parses
      modifies `clock, `log, `tally, `tallies, `queue
      ensures Valid() && tally == Plus(old(tally), t) && OneDelivery(t, retryCount) && EndsWith(acked)
      ensures queue == if t.retries == 1 then old(queue) + [retryCount + 1] else old(queue)
      ensures t.retries == 1 <==> Retries(old(clock), retryCount)
      ensures log == old(log) + QueryLog(old(clock), retryCount) && clock == old(clock) + |QueryLog(old(clock), retryCount)|
      ensures acked <==> Acknowledges(handled(old(clock)), t)
    {
      var outcome := RunPlugin();
      if outcome.Answered? {
        t, acked := PublishAnswer(retryCount);
      } else {
        t, acked := HandleFailure(retryCount, outcome);
      }
      PlusTwice(old(tally), t);
      assert acked <==> Acknowledges(outcome, t);
      ghost var part := t;
      t := Plus(Tally(1, 0, 0, 0, 0), t);
      assert t.results == part.results && t.lost == part.lost;
    }

    /** One delivery. */
    method OnMessage(retryCount: nat) returns (ghost t: Tally, ghost acked: bool)
      requires Valid() && tally.results == 0
      modifies `clock, `log, `tally, `tallies, `queue
      ensures Valid() && tally == Plus(old(tally), t) && OneDelivery(t, retryCount) && EndsWith(acked)
      ensures queue == if t.retries == 1 then old(queue) + [retryCount + 1] else old(queue)
      ensures parses ==> (t.retries == 1 <==> Retries(old(clock), retryCount))
      ensures !parses ==> (t.retries == 1 <==> retryCount + 1 < maxRetries && !fails(old(clock)))
      ensures log == old(log) + DeliveryLog(old(clock), retryCount) && clock == old(clock) + |DeliveryLog(old(clock), retryCount)|
      ensures acked <==> parses && Acknowledges(handled(old(clock)), t)
    {
      if parses {
        t, acked := HandleQuery(retryCount);
      } else {
        t := RetryOrReject(retryCount, false, false, false);
        acked := false;
      }
    }

    /** After `deliveries` deliveries, with or without one more queued. */
    predicate InChain(t: Tally, queued: bool, retryCount: nat, deliveries: nat) {
      && t.runs == (if parses then deliveries else 0) && t.settlements == deliveries
      && (!parses ==> t.results == 0)
      && (deliveries <= 1 || retryCount + deliveries <= maxRetries)
      && (if queued then t.retries == deliveries && t.results == 0 && (deliveries == 0 || retryCount + deliveries < maxRetries)
          else t.retries + 1 == deliveries && t.results <= 1 && (parses && t.lost == 0 ==> t.results == 1))
    }

    lemma NextInChain(t: Tally, retryCount: nat, deliveries: nat, one: Tally)
      requires InChain(t, true, retryCount, deliveries) && OneDelivery(one, retryCount + deliveries)
      ensures InChain(Plus(t, one), one.retries == 1, retryCount, deliveries + 1)
    {}

    /** The effects of the k-th delivery of a chain, which starts at this operation. */
    ghost predicate AreDeliveries(starts: seq<nat>, logs: seq<seq<Effect>>, retryCount: nat) {
      |logs| == |starts| && forall k :: 0 <= k < |starts| ==> logs[k] == DeliveryLog(starts[k], retryCount + k)
    }

    lemma DeliveriesStep(starts: seq<nat>, logs: seq<seq<Effect>>, retryCount: nat, now: nat, one: seq<Effect>)
      requires AreDeliveries(starts, logs, retryCount) && one == DeliveryLog(now, retryCount + |starts|)
      ensures AreDeliveries(starts + [now], logs + [one], retryCount)
    {}

    ghost predicate SomeAnswer(starts: seq<nat>) { exists k :: 0 <= k < |starts| && AnswerIsOut(starts[k]) }

    ghost predicate SomeError(starts: seq<nat>, retryCount: nat) {
      exists k :: 0 <= k < |starts| && ErrorIsOut(starts[k], retryCount + k)
    }

    lemma SomeStep(starts: seq<nat>, retryCount: nat, n: nat)
      requires |starts| == n + 1
      ensures SomeAnswer(starts) <==> SomeAnswer(starts[..n]) || AnswerIsOut(starts[n])
      ensures SomeError(starts, retryCount) <==> SomeError(starts[..n], retryCount) || ErrorIsOut(starts[n], retryCount + n)
    {
      assert forall k :: 0 <= k < n ==> starts[..n][k] == starts[k];
    }

    /** The chain publishes an answer if and only if some delivery does, and an error likewise. */
    lemma {:induction false} ChainMeans(starts: seq<nat>, logs: seq<seq<Effect>>, retryCount: nat)
      requires AreDeliveries(starts, logs, retryCount)
      ensures Published(true) in Together(logs) <==> SomeAnswer(starts)
      ensures Published(false) in Together(logs) <==> SomeError(starts, retryCount)
      decreases |starts|
    {
      if starts != [] {
        var n := |starts| - 1;
        ChainMeans(starts[..n], logs[..n], retryCount);
        DeliveryMeans(starts[n], retryCount + n);
        SomeStep(starts, retryCount, n);
      }
    }

    /** So far: these deliveries, from these operations on, and nothing else. */
    ghost predicate Delivered(starts: seq<nat>, logs: seq<seq<Effect>>, retryCount: nat, first: nat, before: seq<Effect>)
      reads this
    {
      AreDeliveries(starts, logs, retryCount) && Traced(starts, logs, first, before, clock, log)
    }

    method Deliver(current: nat, ghost retryCount: nat, ghost first: nat, ghost before: seq<Effect>, ghost starts: seq<nat>,
                   ghost logs: seq<seq<Effect>>)
      returns (ghost moreStarts: seq<nat>, ghost moreLogs: seq<seq<Effect>>)
      requires Valid() && Waits(queue, current) && queue != [] && current == retryCount + |starts| && InChain(tally, true, retryCount, |starts|)
      requires Delivered(starts, logs, retryCount, first, before)
      modifies `clock, `log, `tally, `tallies, `queue
      ensures Valid() && Waits(queue, retryCount + |moreStarts|)
      ensures |moreStarts| == |starts| + 1 && InChain(tally, queue != [], retryCount, |moreStarts|)
      ensures Delivered(moreStarts, moreLogs, retryCount, first, before)
    {
      ghost var one := DeliveryLog(clock, current);
      DeliveriesStep(starts, logs, retryCount, clock, one);
      TracedStep(starts, logs, first, before, clock, log, one);
      moreStarts, moreLogs := starts + [clock], logs + [one];
      queue := [];
      ghost var sofar := tally;
      ghost var t, acked := OnMessage(current);
      NextInChain(sofar, retryCount, |starts|, t);
    }

    method DrainQueue(retryCount: nat) returns (deliveries: nat, ghost starts: seq<nat>, ghost logs: seq<seq<Effect>>)
      requires queue == [retryCount] && Valid() && tally == Tally(0, 0, 0, 0, 0)
      modifies `clock, `log, `tally, `tallies, `queue
      ensures queue == [] && Valid() && 1 <= deliveries == |starts|
      ensures InChain(tally, false, retryCount, deliveries)
      ensures Delivered(starts, logs, retryCount, old(clock), old(log))
    {
      deliveries, starts, logs := 0, [], [];
      while queue != []
        invariant |starts| == deliveries && Delivered(starts, logs, retryCount, old(clock), old(log))
        invariant Valid() && Waits(queue, retryCount + deliveries)
        invariant InChain(tally, queue != [], retryCount, deliveries)
        decreases if queue == [] then 0 else 1 + (if retryCount + deliveries < maxRetries then maxRetries - retryCount - deliveries else 0)
      {
        starts, logs := Deliver(queue[0], retryCount, old(clock), old(log), starts, logs);
        deliveries := deliveries + 1;
      }
    }

    /** The whole retry chain of one query, whatever fails when.

        The plugin runs once for every delivery that parses and at most max_retries times; at
        most one result is published, and then nothing is queued again; each delivery is
        settled once; and if no result publish fails, exactly one result is published.  It is
        an answer if and only if some delivery's run answered and publishing that succeeded. */
    method Drain(retryCount: nat) returns (deliveries: nat, ghost starts: seq<nat>, ghost logs: seq<seq<Effect>>)
      requires queue == [retryCount] && Valid() && tally == Tally(0, 0, 0, 0, 0)
      modifies `clock, `log, `tally, `tallies, `queue
      ensures queue == [] && Valid()
      ensures 1 <= deliveries && (deliveries == 1 || retryCount + deliveries <= maxRetries)
      ensures tally.runs == (if parses then deliveries else 0) && tally.settlements == deliveries && tally.retries == deliveries - 1
      ensures tally.results <= 1 && (!parses ==> tally.results == 0) && (parses && tally.lost == 0 ==> tally.results == 1)
      ensures |starts| == deliveries && Delivered(starts, logs, retryCount, old(clock), old(log))
      ensures Published(true) in Together(logs) <==> SomeAnswer(starts)
      ensures Published(false) in Together(logs) <==> SomeError(starts, retryCount)
    {
      deliveries, starts, logs := DrainQueue(retryCount);
      ChainMeans(starts, logs, retryCount);
    }

    function PipelineLog(at: nat): seq<Effect> {
      [Ran] + if !handled(at).Answered? then [ErrorAt(at + 1)]
              else if !fails(at + 1) then [Published(true)] else [PublishFailed, ErrorAt(at + 2)]
    }

    /** An answer goes out if and only if there is one and publishing it succeeds; failing that,
        the error does if and only if publishing that succeeds. */
    lemma PipelineMeans(at: nat)
      ensures var l := PipelineLog(at);
        && l[0] == Ran && (Published(true) in l <==> handled(at).Answered? && !fails(at + 1))
        && (Published(false) in l <==> Published(true) !in l && !fails(if handled(at).Answered? then at + 2 else at + 1))
    {
      var l := PipelineLog(at);
      assert |l| == 2 ==> l == [l[0], l[1]] && l[1] in l;
      assert |l| == 3 ==> l == [l[0], l[1], l[2]] && l[2] in l;
    }

    /** The plugin and its one published result; if the answer cannot be published, the generic
        error is tried once in its place. */
    method RunPipeline() returns (ghost t: Tally)
      requires Valid()
      modifies `clock, `log, `tally, `tallies
      ensures Valid() && tally == Plus(old(tally), t)
      ensures t.runs == 1 && t.retries == 0 && t.settlements == 0
      ensures log == old(log) + PipelineLog(old(clock))
      ensures t.results <= 1 && t.lost <= 2 && t.results + t.lost >= 1 && (t.lost == 0 ==> t.results == 1)
    {
      var outcome := RunPlugin();
      var published := false;
      t := Tally(1, 0, 0, 0, 0);
      if outcome.Answered? {
        published := Attempt(Published(true), PublishFailed);
        t := Tally(1, if published then 1 else 0, 0, 0, if published then 0 else 1);
      }
      if !published {
        published := Attempt(Published(false), PublishFailed);
        t := Tally(1, if published then 1 else 0, 0, 0, t.lost + if published then 0 else 1);
      }
    }

    /** The early-acknowledged path of an ingest event: settle first, then run.  A failed
        acknowledgement raises, so nothing runs. */
    method OnIngest() returns (acknowledged: bool, ghost t: Tally)
      requires Valid()
      modifies `clock, `log, `tally, `tallies
      ensures Valid() && acknowledged == !fails(old(clock)) && tally == Plus(Plus(old(tally), Tally(0, 0, 0, 1, 0)), t)
      ensures t.settlements == 0 && t.retries == 0 && t.results <= 1
      ensures log == old(log) + [Acked(acknowledged)] + if acknowledged then PipelineLog(old(clock) + 1) else []
      ensures if acknowledged then t.runs == 1 && (t.lost == 0 ==> t.results == 1) else t == Tally(0, 0, 0, 0, 0)
    {
      acknowledged := Attempt(Acked(true), Acked(false));
      t := Tally(0, 0, 0, 0, 0);
      if acknowledged { t := RunPipeline(); }
    }
  }
}
