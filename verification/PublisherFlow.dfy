/**
 The books of the publisher: what each kind of step has moved so far, and that every place a
 message can be in holds exactly what came in and did not go out again.
 */
module PublisherFlow {
  import opened Publisher

  /** What the steps of a run moved: taken over from publishers, handed to the send loop, given to the
      producer, refused by it, reported with and without confirmation, counted as done, and taken
      up by the send loop again. */
  datatype Books = Books(accepted: multiset<Message>, delivered: multiset<Message>, sent: multiset<Message>,
                         refused: multiset<Message>, acknowledged: multiset<Message>, rejected: multiset<Message>,
                         done: multiset<Message>, retaken: multiset<Message>)

  const NOTHING := Books(multiset{}, multiset{}, multiset{}, multiset{}, multiset{}, multiset{}, multiset{}, multiset{})

  /** The messages of a batch that were, or were not, confirmed by the broker. */
  function Flagged(batch: seq<Confirmation>, confirmed: bool): multiset<Message> {
    if batch == [] then multiset{}
    else (if batch[0].confirmed == confirmed then multiset{batch[0].message} else multiset{}) + Flagged(batch[1..], confirmed)
  }

  /** The same of everything the handlers still have to work through. */
  function Waiting(handlers: seq<seq<Confirmation>>, confirmed: bool): multiset<Message> {
    if handlers == [] then multiset{} else Flagged(handlers[0], confirmed) + Waiting(handlers[1..], confirmed)
  }

  /** The books after one more step. */
  function Entered(b: Books, s: State, step: Step): Books {
    if !Enabled(s, step) then b
    else match step
      case Accept(m) => b.(accepted := b.accepted + multiset{m})
      case Deliver(m) => b.(delivered := b.delivered + multiset{m})
      case SendAccepted => b.(sent := b.sent + Carried(s.loop))
      case SendFailed => b.(refused := b.refused + Carried(s.loop))
      case Report(batch) =>
        b.(acknowledged := b.acknowledged + Flagged(batch, true), rejected := b.rejected + Flagged(batch, false))
      case Confirm(h) => b.(done := b.done + multiset{s.handlers[h][0].message})
      case Resend(h) => b.(retaken := b.retaken + multiset{s.handlers[h][0].message})
      case _ => b
  }

  function BooksOf(steps: seq<Step>): Books {
    if steps == [] then NOTHING
    else Entered(BooksOf(steps[..|steps| - 1]), Run(steps[..|steps| - 1]), steps[|steps| - 1])
  }

  /** Every place holds what came in and did not go out. */
  predicate Balanced(s: State, b: Books) {
    && s.accepted == b.accepted && s.confirmed == b.done && s.dropped == b.refused
    && s.blocked + b.delivered == b.accepted
    && Carried(s.loop) + b.sent + b.refused == b.delivered + b.retaken
    && s.inFlight + b.acknowledged + b.rejected == b.sent
    && Waiting(s.handlers, true) + b.done == b.acknowledged
    && Waiting(s.handlers, false) + b.retaken == b.rejected
  }

  // ---------------------------------------------------------------- batches

  lemma {:induction false} BatchSplits(batch: seq<Confirmation>)
    ensures Messages(batch) == Flagged(batch, true) + Flagged(batch, false)
  {
    if batch == [] {
    } else {
      BatchSplits(batch[1..]);
    }
  }

  lemma {:induction false} WaitingAppend(handlers: seq<seq<Confirmation>>, batch: seq<Confirmation>, confirmed: bool)
    ensures Waiting(handlers + [batch], confirmed) == Waiting(handlers, confirmed) + Flagged(batch, confirmed)
  {
    if handlers == [] {
      assert [batch][1..] == [];
    } else {
      assert (handlers + [batch])[1..] == handlers[1..] + [batch];
      WaitingAppend(handlers[1..], batch, confirmed);
    }
  }

  lemma {:induction false} WaitingPop(handlers: seq<seq<Confirmation>>, h: nat, confirmed: bool)
    requires h < |handlers| && handlers[h] != []
    ensures var popped := handlers[h := handlers[h][1..]];
            Waiting(handlers, confirmed) == Waiting(popped, confirmed)
              + (if handlers[h][0].confirmed == confirmed then multiset{handlers[h][0].message} else multiset{})
  {
    var popped := handlers[h := handlers[h][1..]];
    if h == 0 {
      assert popped[1..] == handlers[1..];
    } else {
      assert popped[1..] == handlers[1..][h - 1 := handlers[h][1..]];
      WaitingPop(handlers[1..], h - 1, confirmed);
    }
  }

  // ---------------------------------------------------------------- every step keeps the balance

  lemma {:induction false} ReportBalances(s: State, b: Books, batch: seq<Confirmation>)
    requires Balanced(s, b) && Enabled(s, Report(batch))
    ensures Balanced(Effect(s, Report(batch)), Entered(b, s, Report(batch)))
  {
    BatchSplits(batch);
    WaitingAppend(s.handlers, batch, true);
    WaitingAppend(s.handlers, batch, false);
  }

  lemma {:induction false} ConfirmBalances(s: State, b: Books, h: nat)
    requires Balanced(s, b) && Enabled(s, Confirm(h))
    ensures Balanced(Effect(s, Confirm(h)), Entered(b, s, Confirm(h)))
  {
    WaitingPop(s.handlers, h, true);
    WaitingPop(s.handlers, h, false);
    Passed(Waiting(Effect(s, Confirm(h)).handlers, true), b.done, s.handlers[h][0].message);
  }

  lemma {:induction false} ResendBalances(s: State, b: Books, h: nat)
    requires Balanced(s, b) && Enabled(s, Resend(h))
    ensures Balanced(Effect(s, Resend(h)), Entered(b, s, Resend(h)))
  {
    WaitingPop(s.handlers, h, true);
    WaitingPop(s.handlers, h, false);
    Passed(Waiting(Effect(s, Resend(h)).handlers, false), b.retaken, s.handlers[h][0].message);
    TakenUp(b.sent, b.refused, b.delivered, b.retaken, s.handlers[h][0].message);
  }

  lemma {:induction false} Passed(left: multiset<Message>, gone: multiset<Message>, m: Message)
    ensures (left + multiset{m}) + gone == left + (gone + multiset{m})
  {
  }

  lemma {:induction false} TakenUp(sent: multiset<Message>, refused: multiset<Message>,
                                   delivered: multiset<Message>, retaken: multiset<Message>, m: Message)
    requires multiset{} + sent + refused == delivered + retaken
    ensures multiset{m} + sent + refused == (delivered + multiset{m}) + retaken
    ensures multiset{m} + sent + refused == delivered + (retaken + multiset{m})
  {
    assert multiset{m} + sent + refused == multiset{m} + (multiset{} + sent + refused);
  }

  lemma {:induction false} PublishBalances(s: State, b: Books, step: Step)
    requires Balanced(s, b) && Enabled(s, step) && (step.Accept? || step.Deliver?)
    ensures Balanced(Effect(s, step), Entered(b, s, step))
  {
    if step.Deliver? {
      Passed(s.blocked - multiset{step.message}, b.delivered, step.message);
      TakenUp(b.sent, b.refused, b.delivered, b.retaken, step.message);
    }
  }

  lemma {:induction false} SendBalances(s: State, b: Books)
    requires Balanced(s, b) && Enabled(s, SendAccepted)
    ensures Balanced(Effect(s, SendAccepted), Entered(b, s, SendAccepted))
  {
    var m := s.loop.message;
    assert multiset{m} + b.sent + b.refused == multiset{} + (b.sent + multiset{m}) + b.refused;
  }

  lemma {:induction false} RefuseBalances(s: State, b: Books)
    requires Balanced(s, b) && Enabled(s, SendFailed)
    ensures Balanced(Effect(s, SendFailed), Entered(b, s, SendFailed))
  {
    var m := s.loop.message;
    assert multiset{m} + b.sent + b.refused == multiset{} + b.sent + (b.refused + multiset{m});
  }

  lemma {:induction false} StepBalances(s: State, b: Books, step: Step)
    requires Balanced(s, b)
    ensures Balanced(Apply(s, step), Entered(b, s, step))
  {
    if Enabled(s, step) {
      if step.Report? { ReportBalances(s, b, step.batch); }
      else if step.Confirm? { ConfirmBalances(s, b, step.handler); }
      else if step.Resend? { ResendBalances(s, b, step.handler); }
      else if step.Accept? || step.Deliver? { PublishBalances(s, b, step); }
      else if step.SendAccepted? { SendBalances(s, b); }
      else if step.SendFailed? { RefuseBalances(s, b); }
      else { assert Carried(Effect(s, step).loop) == Carried(s.loop); }
    }
  }

  /** In every run the books balance: what the publisher counts as done, and what its handlers will
      still count as done, is what the broker confirmed; what the send loop took up again, and what
      handlers still wait to hand it, is what the broker did not confirm; what was given to the
      producer is in flight or reported; and what is dropped is what the producer refused. */
  lemma {:induction false} BooksBalance(steps: seq<Step>)
    ensures Balanced(Run(steps), BooksOf(steps))
  {
    if steps == [] {
    } else {
      BooksBalance(steps[..|steps| - 1]);
      StepBalances(Run(steps[..|steps| - 1]), BooksOf(steps[..|steps| - 1]), steps[|steps| - 1]);
    }
  }

  lemma {:induction false} NoneWaiting(handlers: seq<seq<Confirmation>>, confirmed: bool)
    requires forall h :: 0 <= h < |handlers| ==> handlers[h] == []
    ensures Waiting(handlers, confirmed) == multiset{}
  {
    if handlers == [] {
    } else {
      assert forall h :: 0 <= h < |handlers[1..]| ==> handlers[1..][h] == handlers[h + 1];
      NoneWaiting(handlers[1..], confirmed);
    }
  }

  /** In every run, when the wait group is at zero every accepted message was confirmed by the broker
      or refused by the producer, and everything the broker did not confirm was sent again. */
  lemma {:induction false} ZeroMeansAcknowledged(steps: seq<Step>)
    requires Run(steps).counter == 0
    ensures var b := BooksOf(steps);
            b.accepted == b.acknowledged + b.refused && b.retaken == b.rejected
  {
    RunKeeps(FRESH, steps);
    BooksBalance(steps);
    NothingOutstanding(Run(steps));
    NoneWaiting(Run(steps).handlers, true);
    NoneWaiting(Run(steps).handlers, false);
  }
}
