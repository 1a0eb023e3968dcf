/**
 The RabbitMQ stream publisher: goroutines that publish, one send loop, handlers of
 confirmations that resend what was not confirmed, and one call of Close.

 Every atomic action is a step. The channel between them is unbuffered, so a send is a
 rendezvous with the send loop; until then the sender is blocked. A send on the closed
 channel panics.
 */
module Publisher {

  type Message = nat

  datatype Loop = Idle | Sending(message: Message) | Stopped
  datatype Confirmation = Confirmation(message: Message, confirmed: bool)

  /** How far the call of Close has come. From `Waiting` on, publishing is refused. */
  datatype Closing = Open | Waiting | Signalling | Draining | Closed

  /** `checked`: publish calls between their closed-check and their Add.
      `blocked`: messages of publish calls that are blocked on the channel.
      `inFlight`: messages sent and not yet reported on.
      `handlers`: the reports each confirmation goroutine still has to work through.
      `accepted`, `confirmed`, `dropped`: what became of messages so far. */
  datatype State = State(counter: int, checked: nat, blocked: multiset<Message>, loop: Loop, inFlight: multiset<Message>,
                         handlers: seq<seq<Confirmation>>, closing: Closing, panicked: bool,
                         accepted: multiset<Message>, confirmed: multiset<Message>, dropped: multiset<Message>)

  datatype Step =
    | Check                                 // Publish finds the publisher open
    | Abandon                               // the event cannot be encoded
    | Accept(message: Message)              // Add(1), then block on the channel
    | Deliver(message: Message)             // the loop takes the message of a blocked publish
    | SendAccepted | SendFailed             // the producer takes the message, or refuses it
    | Report(batch: seq<Confirmation>)      // the broker reports on messages in flight
    | Confirm(handler: nat)                 // a handler counts a confirmed message as done
    | Resend(handler: nat)                  // the loop takes an unconfirmed message of a handler
    | StartClose | WaitOver | Signal | CloseChannel
    | SendOnClosed(message: Message) | ResendOnClosed(handler: nat)

  function Messages(batch: seq<Confirmation>): multiset<Message> {
    if batch == [] then multiset{} else multiset{batch[0].message} + Messages(batch[1..])
  }

  /** The messages the confirmation handlers still have to deal with. */
  function Pending(handlers: seq<seq<Confirmation>>): multiset<Message> {
    if handlers == [] then multiset{} else Messages(handlers[0]) + Pending(handlers[1..])
  }

  function Carried(loop: Loop): multiset<Message> {
    if loop.Sending? then multiset{loop.message} else multiset{}
  }

  predicate HasWork(s: State, handler: nat, confirmed: bool) {
    handler < |s.handlers| && s.handlers[handler] != [] && s.handlers[handler][0].confirmed == confirmed
  }

  predicate Enabled(s: State, step: Step) {
    && !s.panicked
    && match step
       case Check => s.closing.Open?
       case Abandon => s.checked > 0
       case Accept(_) => s.checked > 0
       case Deliver(m) => m in s.blocked && s.loop.Idle? && !s.closing.Closed?
       case SendAccepted => s.loop.Sending?
       case SendFailed => s.loop.Sending?
       case Report(batch) => Messages(batch) <= s.inFlight
       case Confirm(h) => HasWork(s, h, true)
       case Resend(h) => HasWork(s, h, false) && s.loop.Idle? && !s.closing.Closed?
       case StartClose => s.closing.Open?
       case WaitOver => s.closing.Waiting? && s.counter == 0
       case Signal => s.closing.Signalling? && s.loop.Idle?
       case CloseChannel => s.closing.Draining?
       case SendOnClosed(m) => m in s.blocked && s.closing.Closed?
       case ResendOnClosed(h) => HasWork(s, h, false) && s.closing.Closed?
  }

  function Effect(s: State, step: Step): State
    requires Enabled(s, step)
  {
    match step
    case Check => s.(checked := s.checked + 1)
    case Abandon => s.(checked := s.checked - 1)
    case Accept(m) =>
      s.(checked := s.checked - 1, counter := s.counter + 1, blocked := s.blocked + multiset{m}, accepted := s.accepted + multiset{m})
    case Deliver(m) => s.(blocked := s.blocked - multiset{m}, loop := Sending(m))
    case SendAccepted => s.(loop := Idle, inFlight := s.inFlight + multiset{s.loop.message})
    case SendFailed => s.(loop := Idle, counter := s.counter - 1, dropped := s.dropped + multiset{s.loop.message})
    case Report(batch) => s.(inFlight := s.inFlight - Messages(batch), handlers := s.handlers + [batch])
    case Confirm(h) =>
      s.(handlers := s.handlers[h := s.handlers[h][1..]], counter := s.counter - 1,
         confirmed := s.confirmed + multiset{s.handlers[h][0].message})
    case Resend(h) => s.(handlers := s.handlers[h := s.handlers[h][1..]], loop := Sending(s.handlers[h][0].message))
    case StartClose => s.(closing := Waiting)
    case WaitOver => s.(closing := Signalling)
    case Signal => s.(closing := Draining, loop := Stopped)
    case CloseChannel => s.(closing := Closed)
    case SendOnClosed(_) => s.(panicked := true)
    case ResendOnClosed(_) => s.(panicked := true)
  }

  function Apply(s: State, step: Step): State {
    if Enabled(s, step) then Effect(s, step) else s
  }

  const FRESH := State(0, 0, multiset{}, Idle, multiset{}, [], Open, false, multiset{}, multiset{}, multiset{})

  function RunFrom(s: State, steps: seq<Step>): State {
    if steps == [] then s else Apply(RunFrom(s, steps[..|steps| - 1]), steps[|steps| - 1])
  }

  function Run(steps: seq<Step>): State { RunFrom(FRESH, steps) }

  // ---------------------------------------------------------------- conservation

  /** Messages accepted and neither confirmed nor dropped, wherever they are. */
  function Outstanding(s: State): multiset<Message> {
    s.blocked + Carried(s.loop) + s.inFlight + Pending(s.handlers)
  }

  predicate Inv(s: State) {
    && s.accepted == Outstanding(s) + s.confirmed + s.dropped
    && s.counter == |Outstanding(s)|
    && (s.loop.Stopped? <==> s.closing.Draining? || s.closing.Closed?)
  }

  lemma {:induction false} PendingAppend(handlers: seq<seq<Confirmation>>, batch: seq<Confirmation>)
    ensures Pending(handlers + [batch]) == Pending(handlers) + Messages(batch)
  {
    if handlers == [] {
      assert [batch][1..] == [];
    } else {
      assert (handlers + [batch])[1..] == handlers[1..] + [batch];
      PendingAppend(handlers[1..], batch);
    }
  }

  lemma {:induction false} PendingPop(handlers: seq<seq<Confirmation>>, h: nat)
    requires h < |handlers| && handlers[h] != []
    ensures Pending(handlers) == Pending(handlers[h := handlers[h][1..]]) + multiset{handlers[h][0].message}
  {
    var popped := handlers[h := handlers[h][1..]];
    if h == 0 {
      assert popped[1..] == handlers[1..];
    } else {
      assert popped[1..] == handlers[1..][h - 1 := handlers[h][1..]];
      PendingPop(handlers[1..], h - 1);
    }
  }

  /** The steps that only move a message from one place to another. */
  predicate Moving(step: Step) { step.Deliver? || step.SendAccepted? || step.Report? || step.Resend? }

  predicate Finishing(step: Step) { step.SendFailed? || step.Confirm? }

  function Finished(s: State, step: Step): Message
    requires Finishing(step) && Enabled(s, step)
  {
    if step.SendFailed? then s.loop.message else s.handlers[step.handler][0].message
  }

  // Sums of the four places a message can be in.

  lemma {:induction false} FromFirst(a: multiset<Message>, m: Message, c: multiset<Message>, d: multiset<Message>)
    requires m in a
    ensures (a - multiset{m}) + multiset{m} + c + d == a + multiset{} + c + d
  {
  }

  lemma {:induction false} FromSecond(a: multiset<Message>, m: Message, c: multiset<Message>, d: multiset<Message>)
    ensures a + multiset{} + (c + multiset{m}) + d == a + multiset{m} + c + d
  {
  }

  lemma {:induction false} FromThird(a: multiset<Message>, b: multiset<Message>, c: multiset<Message>, d: multiset<Message>, part: multiset<Message>)
    requires part <= c
    ensures a + b + (c - part) + (d + part) == a + b + c + d
  {
  }

  lemma {:induction false} FromFourth(a: multiset<Message>, m: Message, c: multiset<Message>, d: multiset<Message>)
    ensures a + multiset{m} + c + d == a + multiset{} + c + (d + multiset{m})
  {
  }

  lemma {:induction false} MovingKeepsOutstanding(s: State, step: Step)
    requires Moving(step) && Enabled(s, step)
    ensures Outstanding(Effect(s, step)) == Outstanding(s)
  {
    match step
    case Deliver(m) => FromFirst(s.blocked, m, s.inFlight, Pending(s.handlers));
    case SendAccepted => FromSecond(s.blocked, s.loop.message, s.inFlight, Pending(s.handlers));
    case Report(batch) =>
      PendingAppend(s.handlers, batch);
      FromThird(s.blocked, Carried(s.loop), s.inFlight, Pending(s.handlers), Messages(batch));
    case Resend(h) =>
      PendingPop(s.handlers, h);
      FromFourth(s.blocked, s.handlers[h][0].message, s.inFlight, Pending(Effect(s, step).handlers));
  }

  lemma {:induction false} FinishingShrinksOutstanding(s: State, step: Step)
    requires Finishing(step) && Enabled(s, step)
    ensures Outstanding(s) == Outstanding(Effect(s, step)) + multiset{Finished(s, step)}
  {
    if step.Confirm? { PendingPop(s.handlers, step.handler); }
  }

  lemma {:induction false} AcceptGrowsOutstanding(s: State, m: Message)
    requires Enabled(s, Accept(m))
    ensures Outstanding(Effect(s, Accept(m))) == Outstanding(s) + multiset{m}
  {
  }

  lemma {:induction false} OneLess(all: multiset<Message>, left: multiset<Message>, m: Message)
    requires all == left + multiset{m}
    ensures |left| == |all| - 1
  {
  }

  lemma {:induction false} FinishKeeps(s: State, step: Step)
    requires Inv(s) && Finishing(step) && Enabled(s, step)
    ensures Inv(Effect(s, step))
  {
    FinishingShrinksOutstanding(s, step);
    OneLess(Outstanding(s), Outstanding(Effect(s, step)), Finished(s, step));
  }

  lemma {:induction false} AcceptKeeps(s: State, m: Message)
    requires Inv(s) && Enabled(s, Accept(m))
    ensures Inv(Effect(s, Accept(m)))
  {
    AcceptGrowsOutstanding(s, m);
    OneLess(Outstanding(Effect(s, Accept(m))), Outstanding(s), m);
  }

  lemma {:induction false} ControlKeeps(s: State, step: Step)
    requires Inv(s) && Enabled(s, step) && !Moving(step) && !Finishing(step) && !step.Accept?
    ensures Inv(Effect(s, step))
  {
    var t := Effect(s, step);
    assert t.blocked == s.blocked && t.inFlight == s.inFlight && t.handlers == s.handlers && Carried(t.loop) == Carried(s.loop);
  }

  lemma {:induction false} StepKeeps(s: State, step: Step)
    requires Inv(s)
    ensures Inv(Apply(s, step))
  {
    if Enabled(s, step) {
      if Moving(step) { MovingKeepsOutstanding(s, step); }
      else if Finishing(step) { FinishKeeps(s, step); }
      else if step.Accept? { AcceptKeeps(s, step.message); }
      else { ControlKeeps(s, step); }
    }
  }

  lemma {:induction false} RunKeeps(s: State, steps: seq<Step>)
    requires Inv(s)
    ensures Inv(RunFrom(s, steps))
  {
    if steps == [] {
    } else {
      RunKeeps(s, steps[..|steps| - 1]);
      StepKeeps(RunFrom(s, steps[..|steps| - 1]), steps[|steps| - 1]);
    }
  }

  /** In every run: no message is lost, duplicated or invented, and the wait group counts
      exactly the accepted messages that are neither confirmed nor dropped, so it never goes
      below zero. */
  lemma {:induction false} CounterIsExact(steps: seq<Step>)
    ensures var s := Run(steps);
            && s.accepted == s.blocked + Carried(s.loop) + s.inFlight + Pending(s.handlers) + s.confirmed + s.dropped
            && s.counter == |s.accepted| - |s.confirmed| - |s.dropped|
            && s.counter >= 0
  {
    RunKeeps(FRESH, steps);
    var s := Run(steps);
    assert s.accepted == Outstanding(s) + s.confirmed + s.dropped;
    assert |Outstanding(s) + s.confirmed + s.dropped| == |Outstanding(s)| + |s.confirmed| + |s.dropped|;
  }

  // ---------------------------------------------------------------- a clean close

  /** Close was called while no publish stood between its closed-check and its Add. */
  predicate CleanClose(s: State) {
    && Inv(s) && !s.closing.Open? && s.checked == 0 && !s.panicked
    && (!s.closing.Waiting? ==> s.counter == 0)
  }

  lemma {:induction false} EmptyHandlers(handlers: seq<seq<Confirmation>>, h: nat)
    requires h < |handlers| && handlers[h] != []
    ensures Pending(handlers) != multiset{}
  {
    PendingPop(handlers, h);
    assert handlers[h][0].message in Pending(handlers);
  }

  /** With the counter at zero there is nothing anywhere. */
  lemma {:induction false} NothingOutstanding(s: State)
    requires Inv(s) && s.counter == 0
    ensures s.blocked == multiset{} && !s.loop.Sending? && s.inFlight == multiset{}
    ensures forall h :: 0 <= h < |s.handlers| ==> s.handlers[h] == []
    ensures s.accepted == s.confirmed + s.dropped
  {
    var all := Outstanding(s);
    assert all == multiset{};
    assert s.blocked <= all && s.inFlight <= all && Carried(s.loop) <= all && Pending(s.handlers) <= all;
    forall h | 0 <= h < |s.handlers| ensures s.handlers[h] == [] {
      if s.handlers[h] != [] { EmptyHandlers(s.handlers, h); }
    }
  }

  lemma {:induction false} CleanStep(s: State, step: Step)
    requires CleanClose(s)
    ensures CleanClose(Apply(s, step))
  {
    StepKeeps(s, step);
    if !s.closing.Waiting? { NothingOutstanding(s); }
  }

  lemma {:induction false} CleanRun(s: State, more: seq<Step>)
    requires CleanClose(s)
    ensures CleanClose(RunFrom(s, more))
  {
    if more == [] {
    } else {
      CleanRun(s, more[..|more| - 1]);
      CleanStep(RunFrom(s, more[..|more| - 1]), more[|more| - 1]);
    }
  }

  lemma {:induction false} CloseStarted(s: State)
    requires Inv(s) && s.closing.Open? && !s.panicked
    ensures Inv(Apply(s, StartClose)) && Apply(s, StartClose) == s.(closing := Waiting)
  {
    StepKeeps(s, StartClose);
  }

  /** If no publish stands between its closed-check and its Add when Close starts, then
      whatever happens afterwards: once the wait is over nothing is queued or in flight and
      every accepted message was confirmed or dropped; and no send hits the closed channel. */
  lemma {:induction false} CloseIsClean(before: seq<Step>, after: seq<Step>)
    requires Run(before).closing.Open? && Run(before).checked == 0 && !Run(before).panicked
    ensures var s := RunFrom(Apply(Run(before), StartClose), after);
            && !s.panicked
            && (!s.closing.Waiting? ==>
                  && s.blocked == multiset{} && !s.loop.Sending? && s.inFlight == multiset{}
                  && (forall h :: 0 <= h < |s.handlers| ==> s.handlers[h] == [])
                  && s.accepted == s.confirmed + s.dropped)
  {
    RunKeeps(FRESH, before);
    CloseStarted(Run(before));
    var start := Run(before).(closing := Waiting);
    CleanRun(start, after);
    if !RunFrom(start, after).closing.Waiting? { NothingOutstanding(RunFrom(start, after)); }
  }

  // ---------------------------------------------------------------- and exactly when

  lemma {:induction false} RunSnoc(s: State, steps: seq<Step>, step: Step)
    ensures RunFrom(s, steps + [step]) == Apply(RunFrom(s, steps), step)
  {
    assert (steps + [step])[..|steps|] == steps;
  }

  lemma {:induction false} FindWork(handlers: seq<seq<Confirmation>>) returns (h: nat)
    requires Pending(handlers) != multiset{}
    ensures h < |handlers| && handlers[h] != []
  {
    if handlers[0] != [] {
      h := 0;
    } else {
      h := FindWork(handlers[1..]);
      h := h + 1;
    }
  }

  lemma {:induction false} RunOne(s: State, step: Step) returns (steps: seq<Step>)
    ensures RunFrom(s, steps) == Apply(s, step)
  {
    RunSnoc(s, [], step);
    steps := [] + [step];
  }

  lemma {:induction false} RunTwo(s: State, a: Step, b: Step) returns (steps: seq<Step>)
    ensures RunFrom(s, steps) == Apply(Apply(s, a), b)
  {
    var first := RunOne(s, a);
    RunSnoc(s, first, b);
    steps := first + [b];
  }

  /** Nothing but the messages under way has changed, and there is one less of them. */
  predicate OneFinished(s: State, t: State) {
    t.counter == s.counter - 1 && t.closing == s.closing && t.checked == s.checked && t.panicked == s.panicked
  }

  lemma {:induction false} ReportOne(s: State, m: Message) returns (reported: State)
    requires !s.panicked && m in s.inFlight
    ensures reported == Apply(s, Report([Confirmation(m, true)]))
    ensures reported == s.(inFlight := reported.inFlight, handlers := s.handlers + [[Confirmation(m, true)]])
  {
    var batch := [Confirmation(m, true)];
    assert batch[1..] == [] && Messages(batch) == multiset{m};
    reported := Apply(s, Report(batch));
  }

  lemma {:induction false} FinishInFlight(s: State) returns (steps: seq<Step>)
    requires !s.panicked && s.inFlight != multiset{}
    ensures OneFinished(s, RunFrom(s, steps))
  {
    var m :| m in s.inFlight;
    var h := |s.handlers|;
    var reported := ReportOne(s, m);
    assert HasWork(reported, h, true);
    steps := RunTwo(s, Report([Confirmation(m, true)]), Confirm(h));
  }

  lemma {:induction false} FinishHandled(s: State, h: nat) returns (steps: seq<Step>)
    requires !s.panicked && s.loop.Idle? && !s.closing.Closed? && h < |s.handlers| && s.handlers[h] != []
    ensures OneFinished(s, RunFrom(s, steps))
  {
    if s.handlers[h][0].confirmed {
      steps := RunOne(s, Confirm(h));
    } else {
      steps := RunTwo(s, Resend(h), SendFailed);
    }
  }

  lemma {:induction false} FinishBlocked(s: State) returns (steps: seq<Step>)
    requires !s.panicked && s.loop.Idle? && !s.closing.Closed? && s.blocked != multiset{}
    ensures OneFinished(s, RunFrom(s, steps))
  {
    var m :| m in s.blocked;
    steps := RunTwo(s, Deliver(m), SendFailed);
  }

  /** While Close waits, some one or two steps finish one more message. */
  lemma {:induction false} FinishOne(s: State) returns (steps: seq<Step>)
    requires Inv(s) && s.closing.Waiting? && !s.panicked && s.counter > 0
    ensures OneFinished(s, RunFrom(s, steps))
  {
    if s.loop.Sending? {
      steps := RunOne(s, SendFailed);
    } else if Pending(s.handlers) != multiset{} {
      var h := FindWork(s.handlers);
      steps := FinishHandled(s, h);
    } else if s.blocked != multiset{} {
      steps := FinishBlocked(s);
    } else {
      steps := FinishInFlight(s);
    }
  }

  lemma {:induction false} RunConcat(s: State, a: seq<Step>, b: seq<Step>)
    ensures RunFrom(s, a + b) == RunFrom(RunFrom(s, a), b)
  {
    if b == [] {
      assert a + b == a;
    } else {
      assert (a + b)[..|a + b| - 1] == a + b[..|b| - 1];
      RunConcat(s, a, b[..|b| - 1]);
    }
  }

  lemma {:induction false} Drain(s: State) returns (steps: seq<Step>)
    requires Inv(s) && s.closing.Waiting? && !s.panicked
    ensures var t := RunFrom(s, steps);
            Inv(t) && t.counter == 0 && t.closing.Waiting? && t.checked == s.checked && !t.panicked
    decreases s.counter
  {
    if s.counter == 0 {
      steps := [];
    } else {
      var one := FinishOne(s);
      RunKeeps(s, one);
      var rest := Drain(RunFrom(s, one));
      RunConcat(s, one, rest);
      steps := one + rest;
    }
  }

  lemma {:induction false} CloseThenSend(t: State) returns (steps: seq<Step>)
    requires t.closing.Waiting? && t.counter == 0 && t.loop.Idle? && t.checked > 0 && !t.panicked
    ensures RunFrom(t, steps).panicked
  {
    var first := RunTwo(t, WaitOver, Signal);
    var rest := SendAfterClose(RunFrom(t, first), 0);
    RunConcat(t, first, rest);
    steps := first + rest;
  }

  lemma {:induction false} AcceptedAfterClose(t: State, m: Message) returns (steps: seq<Step>)
    requires t.closing.Draining? && t.checked > 0 && !t.panicked
    ensures var late := RunFrom(t, steps); m in late.blocked && late.closing.Closed? && !late.panicked
  {
    steps := RunTwo(t, CloseChannel, Accept(m));
    var shut := Apply(t, CloseChannel);
    assert shut == t.(closing := Closed);
    assert Apply(shut, Accept(m)).blocked == t.blocked + multiset{m};
  }

  lemma {:induction false} SendAfterClose(t: State, m: Message) returns (steps: seq<Step>)
    requires t.closing.Draining? && t.checked > 0 && !t.panicked
    ensures RunFrom(t, steps).panicked
  {
    var first := AcceptedAfterClose(t, m);
    var last := RunOne(RunFrom(t, first), SendOnClosed(m));
    RunConcat(t, first, last);
    steps := first + last;
  }

  /** A publish that was past its closed-check when Close started can run into the closed channel. */
  lemma {:induction false} LatePublishPanics(s: State) returns (steps: seq<Step>)
    requires Inv(s) && s.closing.Waiting? && !s.panicked && s.checked > 0
    ensures RunFrom(s, steps).panicked
  {
    var drained := Drain(s);
    var t := RunFrom(s, drained);
    NothingOutstanding(t);
    var rest := CloseThenSend(t);
    RunConcat(s, drained, rest);
    steps := drained + rest;
  }

  lemma {:induction false} LateCloseCanPanic(before: seq<Step>) returns (after: seq<Step>)
    requires Run(before).closing.Open? && !Run(before).panicked && Run(before).checked > 0
    ensures RunFrom(Apply(Run(before), StartClose), after).panicked
  {
    var s := Run(before);
    RunKeeps(FRESH, before);
    CloseStarted(s);
    after := LatePublishPanics(s.(closing := Waiting));
  }

  /** Exactly when Close is safe: some continuation sends on the closed channel if and only if
      a publish stood between its closed-check and its Add when Close started. */
  lemma {:induction false} PanicsExactly(before: seq<Step>)
    requires Run(before).closing.Open? && !Run(before).panicked
    ensures (exists after :: RunFrom(Apply(Run(before), StartClose), after).panicked) <==> Run(before).checked > 0
  {
    if Run(before).checked > 0 {
      var after := LateCloseCanPanic(before);
    } else {
      forall after ensures !RunFrom(Apply(Run(before), StartClose), after).panicked { CloseIsClean(before, after); }
    }
  }
}
