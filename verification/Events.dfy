/** messages/event_subscription.go: a subscription is a line of two channels of
    capacity one with a worker between them. Full channels drop events. */
module Events {
  import opened Types

  datatype Details = Details(kind: MessageType, view: View, hasMinRound: bool)

  /** eventSupported */
  predicate EventSupported(d: Details, kind: MessageType, view: View) {
    && view.height == d.view.height
    && (if d.hasMinRound then view.round >= d.view.round else view.round == d.view.round)
    && kind == d.kind
  }

  /** `hand` is the round the worker has taken from one channel and not yet put
      into the other; `done` that the subscription is closed; `ended` that the
      worker has returned. */
  datatype Subscription = Subscription(
    details: Details,
    notifyCh: Option<nat>,
    hand: Option<nat>,
    outputCh: Option<nat>,
    done: bool,
    ended: bool)

  function NewSubscription(details: Details): Subscription {
    Subscription(details, None, None, None, false, false)
  }

  /** One routine gets to act: a caller of pushEvent, the worker, the subscriber,
      or whoever closes the subscription. */
  datatype Turn = Push(kind: MessageType, view: View) | Worker | WorkerStops | Receive | Close

  function Next(s: Subscription, t: Turn): Subscription {
    match t
    case Push(kind, view) =>
      if EventSupported(s.details, kind, view) && s.notifyCh.None? then s.(notifyCh := Some(view.round)) else s
    case Worker =>
      if s.ended then s
      else if s.hand.Some? then if s.outputCh.None? then s.(outputCh := s.hand, hand := None) else s
      else if s.notifyCh.Some? then s.(hand := s.notifyCh, notifyCh := None)
      else s
    case WorkerStops => if s.done then s.(ended := true) else s
    case Receive => s.(outputCh := None)
    case Close => s.(done := true)
  }

  /** Something is on its way to the subscriber. */
  predicate Pending(s: Subscription) {
    s.notifyCh.Some? || s.hand.Some? || s.outputCh.Some?
  }

  // ---------- runs ----------

  function StateAt(s: Subscription, turns: nat -> Turn, n: nat): Subscription {
    if n == 0 then s else Next(StateAt(s, turns, n - 1), turns(n - 1))
  }

  /** The subscriber gets a round in turn n. */
  predicate Delivers(s: Subscription, turns: nat -> Turn, n: nat) {
    turns(n) == Receive && StateAt(s, turns, n).outputCh.Some?
  }

  ghost predicate TurnComes(turns: nat -> Turn, t: Turn, i: nat) {
    exists j: nat :: i <= j && turns(j) == t
  }

  /** The worker runs and the subscriber keeps receiving, and nobody closes. */
  ghost predicate FairAndOpen(turns: nat -> Turn) {
    && (forall i: nat :: TurnComes(turns, Worker, i) && TurnComes(turns, Receive, i))
    && (forall i: nat :: turns(i) != Close)
  }

  lemma {:induction false} StaysOpen(s: Subscription, turns: nat -> Turn, n: nat)
    requires FairAndOpen(turns) && !s.done && !s.ended
    ensures !StateAt(s, turns, n).done && !StateAt(s, turns, n).ended
  {
    if n > 0 {
      StaysOpen(s, turns, n - 1);
    }
  }

  lemma {:induction false} OutputIsDelivered(s: Subscription, turns: nat -> Turn, i: nat, j: nat) returns (k: nat)
    requires FairAndOpen(turns) && !s.done && !s.ended
    requires i <= j && turns(j) == Receive && StateAt(s, turns, i).outputCh.Some?
    ensures i <= k && Delivers(s, turns, k)
    decreases j - i
  {
    if turns(i) == Receive {
      k := i;
    } else {
      StaysOpen(s, turns, i);
      k := OutputIsDelivered(s, turns, i + 1, j);
    }
  }

  lemma {:induction false} HandReachesOutput(s: Subscription, turns: nat -> Turn, i: nat, j: nat) returns (k: nat)
    requires FairAndOpen(turns) && !s.done && !s.ended
    requires i <= j && turns(j) == Worker && StateAt(s, turns, i).hand.Some?
    ensures i <= k && StateAt(s, turns, k).outputCh.Some?
    decreases j - i
  {
    StaysOpen(s, turns, i);
    if StateAt(s, turns, i).outputCh.Some? {
      k := i;
    } else if turns(i) == Worker {
      k := i + 1;
    } else {
      k := HandReachesOutput(s, turns, i + 1, j);
    }
  }

  lemma {:induction false} NotifyReachesHand(s: Subscription, turns: nat -> Turn, i: nat, j: nat) returns (k: nat)
    requires FairAndOpen(turns) && !s.done && !s.ended
    requires i <= j && turns(j) == Worker && StateAt(s, turns, i).notifyCh.Some?
    ensures i <= k && StateAt(s, turns, k).hand.Some?
    decreases j - i
  {
    StaysOpen(s, turns, i);
    if StateAt(s, turns, i).hand.Some? {
      k := i;
    } else if turns(i) == Worker {
      k := i + 1;
    } else {
      k := NotifyReachesHand(s, turns, i + 1, j);
    }
  }

  /** Coalescing without loss: every supported push, dropped or not, is followed
      by a delivery to a subscriber that keeps receiving. */
  lemma PushIsFollowedByDelivery(s: Subscription, turns: nat -> Turn, i: nat) returns (k: nat)
    requires FairAndOpen(turns) && !s.done && !s.ended
    requires turns(i).Push? && turns(i).kind == s.details.kind && turns(i).view.height == s.details.view.height
    requires turns(i).view.round == s.details.view.round
             || (s.details.hasMinRound && turns(i).view.round > s.details.view.round)
    ensures i < k && Delivers(s, turns, k)
  {
    DetailsStay(s, turns, i);
    k := i + 1;
    assert StateAt(s, turns, k).notifyCh.Some?;
    assert TurnComes(turns, Worker, k);
    var j: nat :| k <= j && turns(j) == Worker;
    k := NotifyReachesHand(s, turns, k, j);
    assert TurnComes(turns, Worker, k);
    j :| k <= j && turns(j) == Worker;
    k := HandReachesOutput(s, turns, k, j);
    assert TurnComes(turns, Receive, k);
    j :| k <= j && turns(j) == Receive;
    k := OutputIsDelivered(s, turns, k, j);
  }

  lemma {:induction false} DetailsStay(s: Subscription, turns: nat -> Turn, n: nat)
    ensures StateAt(s, turns, n).details == s.details
  {
    if n > 0 {
      DetailsStay(s, turns, n - 1);
    }
  }

  /** The round is one subscribed to and was pushed, with the subscribed type and
      height, before turn n. */
  ghost predicate Pushed(d: Details, turns: nat -> Turn, n: nat, round: nat) {
    && (round == d.view.round || (d.hasMinRound && round > d.view.round))
    && exists j: nat :: j < n && turns(j) == Push(d.kind, View(d.view.height, round))
  }

  /** Only supported events are ever delivered, each one after it was pushed. */
  lemma {:induction false} OnlySupportedIsBuffered(d: Details, turns: nat -> Turn, n: nat)
    ensures var s := StateAt(NewSubscription(d), turns, n);
            && (s.notifyCh.Some? ==> Pushed(d, turns, n, s.notifyCh.value))
            && (s.hand.Some? ==> Pushed(d, turns, n, s.hand.value))
            && (s.outputCh.Some? ==> Pushed(d, turns, n, s.outputCh.value))
  {
    if n > 0 {
      OnlySupportedIsBuffered(d, turns, n - 1);
      DetailsStay(NewSubscription(d), turns, n - 1);
      forall round | Pushed(d, turns, n - 1, round) ensures Pushed(d, turns, n, round) {
        var j: nat :| j < n - 1 && turns(j) == Push(d.kind, View(d.view.height, round));
        assert j < n;
      }
    }
  }

  /** A closed subscription ends when its worker notices; then nothing more is handed out. */
  lemma ClosingEnds(s: Subscription, t: Turn)
    ensures Next(Next(s, Close), WorkerStops).ended
    ensures s.ended ==> Next(s, t).ended && (Next(s, t).outputCh.None? || Next(s, t).outputCh == s.outputCh)
    ensures !s.done && t != Close ==> !Next(s, t).done && Next(s, t).ended == s.ended
  {
  }
}
