/** core/ibft.go subscribe and AddMessage with messages/event_manager.go: no
    interleaving loses the wakeup of a subscription to an exact view. A subscription
    with a minimum round tests the bucket of that round only, so there the wakeup
    for a higher round depends on when its quorum was stored. */
module Wakeup {
  import opened Types
  import opened Quorum
  import opened Events

  /** An AddMessage call: insert, read the bucket, read the counter of
      subscriptions, push. */
  datatype AdderPc = Arriving | Inserted | WillSignal | WillPush | Finished

  /** The subscriber: registration and counting happen under the write lock; then
      it reads the bucket, may signal itself, and waits for notifications. */
  datatype SubscriberPc =
    Unsubscribed | Registered | Subscribed | WillSignalItself | WillPushItself | Waiting | Handling

  /** A subscription and one view among those it is for. */
  datatype Watch = Watch(powers: map<Address, int>, details: Details, view: View)
  {
    predicate Valid() {
      EventSupported(details, details.kind, view)
    }

    /** The view is the one whose bucket subscribe tests. */
    predicate Tested() {
      details.view == view
    }

    /** The handler called for a notification reads the bucket of the view: the one
        for proposals reads the round it is notified of, that for round changes all. */
    predicate Reads(round: nat) {
      details.kind == PREPREPARE ==> round == view.round
    }
  }

  /** `bucket` holds the senders of the stored messages of the watched view and type.
      `proposer` is the sender of the proposal held, which the test for PREPAREs
      looks at; it is held before the node subscribes to them. `counted` and `others`
      make up numSubscriptions. `received` is the round of the notification being
      handled. `handled` records that the handler has read the bucket after the last
      insertion. */
  datatype Wake = Wake(
    bucket: set<Address>,
    proposer: Option<Address>,
    adders: map<nat, AdderPc>,
    subscriber: SubscriberPc,
    counted: bool,
    others: nat,
    pipe: Subscription,
    received: nat,
    handled: bool)
  {
    function NumSubscriptions(): nat {
      others + if counted then 1 else 0
    }

    ghost predicate Reached(watch: Watch) {
      IsQuorumFor(watch.powers, watch.details.kind, proposer, bucket)
    }

    /** The write lock of the event manager is held in the middle of subscribe. */
    predicate Locked() {
      subscriber == Registered
    }
  }

  /** `AddElsewhere` is the push of an AddMessage for another round; `reached` is
      what the subscriber finds when it tests another bucket than the watched one. */
  datatype WakeAction =
    | Insert(t: nat, from: Address)
    | ReadBucket(t: nat)
    | ReadCounter(t: nat)
    | PushEvent(t: nat)
    | AddElsewhere(round: nat)
    | HoldProposal(proposer: Address)
    | Register
    | Count
    | SubscriberReadsBucket(reached: bool)
    | SubscriberReadsCounter
    | SubscriberPushes
    | ReceiveEvent
    | Handle
    | PipeWorks
    | OtherSubscribes
    | OtherUnsubscribes

  ghost predicate WakeEnabled(watch: Watch, w: Wake, a: WakeAction) {
    match a
    case Insert(t, _) => t in w.adders && w.adders[t] == Arriving
    case ReadBucket(t) => t in w.adders && w.adders[t] == Inserted
    case ReadCounter(t) => t in w.adders && w.adders[t] == WillSignal
    case PushEvent(t) => t in w.adders && w.adders[t] == WillPush && !w.Locked()
    case AddElsewhere(round) => round != watch.view.round && !w.Locked()
    case HoldProposal(_) => w.subscriber == Unsubscribed
    case Register => w.subscriber == Unsubscribed
    case Count => w.subscriber == Registered
    case SubscriberReadsBucket(reached) =>
      w.subscriber == Subscribed && (watch.Tested() ==> reached == w.Reached(watch))
    case SubscriberReadsCounter => w.subscriber == WillSignalItself
    case SubscriberPushes => w.subscriber == WillPushItself
    case ReceiveEvent => w.subscriber == Waiting && w.pipe.outputCh.Some?
    case Handle => w.subscriber == Handling
    case PipeWorks => true
    case OtherSubscribes => !w.Locked()
    case OtherUnsubscribes => !w.Locked() && w.others > 0
  }

  /** pushEvent on the subscription, once it is in the map. */
  function Pushed(w: Wake, kind: MessageType, view: View): Subscription {
    if w.subscriber == Unsubscribed then w.pipe else Next(w.pipe, Push(kind, view))
  }

  ghost function WakeNext(watch: Watch, w: Wake, a: WakeAction): Wake
    requires WakeEnabled(watch, w, a)
  {
    match a
    case Insert(t, from) => w.(bucket := w.bucket + {from}, adders := w.adders[t := Inserted], handled := false)
    case ReadBucket(t) =>
      w.(adders := w.adders[t := if w.Reached(watch) then WillSignal else Finished])
    case ReadCounter(t) => w.(adders := w.adders[t := if w.NumSubscriptions() == 0 then Finished else WillPush])
    case PushEvent(t) => w.(adders := w.adders[t := Finished], pipe := Pushed(w, watch.details.kind, watch.view))
    case AddElsewhere(round) => w.(pipe := Pushed(w, watch.details.kind, View(watch.view.height, round)))
    case HoldProposal(p) => w.(proposer := Some(p))
    case Register => w.(subscriber := Registered)
    case Count => w.(subscriber := Subscribed, counted := true)
    case SubscriberReadsBucket(reached) => w.(subscriber := if reached then WillSignalItself else Waiting)
    case SubscriberReadsCounter => w.(subscriber := if w.NumSubscriptions() == 0 then Waiting else WillPushItself)
    case SubscriberPushes => w.(subscriber := Waiting, pipe := Pushed(w, watch.details.kind, watch.details.view))
    case ReceiveEvent => w.(subscriber := Handling, received := w.pipe.outputCh.value, pipe := Next(w.pipe, Receive))
    case Handle => w.(subscriber := Waiting, handled := w.handled || watch.Reads(w.received))
    case PipeWorks => w.(pipe := Next(w.pipe, Worker))
    case OtherSubscribes => w.(others := w.others + 1)
    case OtherUnsubscribes => w.(others := w.others - 1)
  }

  /** Any number of AddMessage calls, and any bucket to begin with. */
  ghost predicate WakeInit(watch: Watch, w: Wake) {
    && (forall t :: t in w.adders ==> w.adders[t] == Arriving)
    && w.subscriber == Unsubscribed && !w.counted && !w.handled
    && w.pipe == NewSubscription(watch.details)
  }

  ghost predicate WakeSteps(watch: Watch, states: seq<Wake>, steps: seq<WakeAction>) {
    && |states| == |steps| + 1
    && forall i :: 0 <= i < |steps| ==>
         WakeEnabled(watch, states[i], steps[i]) && states[i + 1] == WakeNext(watch, states[i], steps[i])
  }

  ghost predicate WakeRun(watch: Watch, states: seq<Wake>, steps: seq<WakeAction>) {
    watch.Valid() && WakeSteps(watch, states, steps) && WakeInit(watch, states[0])
  }

  predicate IsUnderway(pc: AdderPc) {
    pc == Inserted || pc == WillSignal || pc == WillPush
  }

  /** Some AddMessage call for the view has inserted its message and has not finished. */
  ghost predicate AdderUnderway(w: Wake) {
    exists t :: t in w.adders && IsUnderway(w.adders[t])
  }

  predicate SubscriberUnderway(w: Wake) {
    w.subscriber != Waiting && w.subscriber != Handling
  }

  /** Nobody is in the middle of anything. */
  ghost predicate AtRest(w: Wake) {
    !AdderUnderway(w) && w.subscriber == Waiting
  }

  /** A notification that makes the handler read the bucket is on its way. */
  predicate Noticed(watch: Watch, w: Wake) {
    || (w.pipe.notifyCh.Some? && watch.Reads(w.pipe.notifyCh.value))
    || (w.pipe.hand.Some? && watch.Reads(w.pipe.hand.value))
    || (w.pipe.outputCh.Some? && watch.Reads(w.pipe.outputCh.value))
  }

  /** The step brings a notification of another round. */
  predicate Foreign(watch: Watch, a: WakeAction) {
    || (a.AddElsewhere? && watch.details.hasMinRound)
    || (a.SubscriberReadsBucket? && a.reached && !watch.Tested())
  }

  /** It does not displace one of the watched round. */
  predicate Clear(watch: Watch, a: WakeAction) {
    watch.details.kind == PREPREPARE ==> !Foreign(watch, a)
  }

  // ---------- what every step keeps ----------

  ghost predicate WakeInv(watch: Watch, w: Wake) {
    && w.pipe.details == watch.details && !w.pipe.ended
    && (w.counted <==> w.subscriber != Unsubscribed && w.subscriber != Registered)
    && (!w.counted ==> !w.handled && w.pipe == NewSubscription(watch.details))
  }

  /** Every notification on its way makes the handler read the bucket. */
  ghost predicate Uniform(watch: Watch, w: Wake) {
    && (w.pipe.notifyCh.Some? ==> watch.Reads(w.pipe.notifyCh.value))
    && (w.pipe.hand.Some? ==> watch.Reads(w.pipe.hand.value))
    && (w.pipe.outputCh.Some? ==> watch.Reads(w.pipe.outputCh.value))
    && (w.subscriber == Handling ==> watch.Reads(w.received))
    && (w.subscriber == WillSignalItself || w.subscriber == WillPushItself ==> watch.Reads(watch.details.view.round))
  }

  /** A bucket with a quorum has been handled or will be. */
  ghost predicate Alert(watch: Watch, w: Wake) {
    w.Reached(watch) ==>
      || w.handled || Noticed(watch, w) || AdderUnderway(w) || w.subscriber == Handling
      || (watch.Tested() && SubscriberUnderway(w))
  }

  lemma WakeInvKept(watch: Watch, w: Wake, a: WakeAction)
    requires watch.Valid() && WakeInv(watch, w) && WakeEnabled(watch, w, a)
    ensures WakeInv(watch, WakeNext(watch, w, a))
  {
  }

  lemma UniformKept(watch: Watch, w: Wake, a: WakeAction)
    requires watch.Valid() && WakeInv(watch, w) && Uniform(watch, w) && WakeEnabled(watch, w, a)
    requires w.counted ==> Clear(watch, a)
    ensures Uniform(watch, WakeNext(watch, w, a))
  {
  }

  lemma AlertKept(watch: Watch, w: Wake, a: WakeAction)
    requires watch.Valid() && WakeInv(watch, w) && Uniform(watch, w) && Alert(watch, w) && WakeEnabled(watch, w, a)
    requires watch.Tested() || w.counted
    ensures Alert(watch, WakeNext(watch, w, a))
  {
    var w' := WakeNext(watch, w, a);
    if a.Insert? {
      assert w'.adders[a.t] == Inserted;
    } else if AdderUnderway(w) {
      var t :| t in w.adders && IsUnderway(w.adders[t]);
      assert t in w'.adders;
      assert a.ReadBucket? ==> w'.adders[a.t] == Finished || w'.adders[a.t] == WillSignal;
      assert a.ReadCounter? ==> w'.adders[a.t] == Finished || w'.adders[a.t] == WillPush;
    }
  }

  /** An insertion alerts whatever was the case before. */
  lemma InsertAlerts(watch: Watch, w: Wake, a: WakeAction)
    requires WakeEnabled(watch, w, a) && a.Insert?
    ensures Alert(watch, WakeNext(watch, w, a))
  {
    assert WakeNext(watch, w, a).adders[a.t] == Inserted;
  }

  // ---------- every run ----------

  /** The subscription takes no events before it is counted. */
  ghost predicate ClearSteps(watch: Watch, states: seq<Wake>, steps: seq<WakeAction>, i: nat) {
    forall k :: 0 <= k < i && k < |steps| && k < |states| && states[k].counted ==> Clear(watch, steps[k])
  }

  lemma {:induction false} WakeInvAlways(watch: Watch, states: seq<Wake>, steps: seq<WakeAction>, i: nat)
    requires WakeRun(watch, states, steps) && i < |states|
    ensures WakeInv(watch, states[i])
    ensures ClearSteps(watch, states, steps, i) ==> Uniform(watch, states[i])
  {
    hide WakeInv, Uniform, Clear, WakeEnabled, WakeNext;
    if i == 0 {
      AtFirst(watch, states[0]);
    } else {
      WakeInvAlways(watch, states, steps, i - 1);
      WakeInvKept(watch, states[i - 1], steps[i - 1]);
      if ClearSteps(watch, states, steps, i) {
        assert ClearSteps(watch, states, steps, i - 1);
        UniformKept(watch, states[i - 1], steps[i - 1]);
      }
    }
  }

  lemma AtFirst(watch: Watch, w: Wake)
    requires WakeInit(watch, w)
    ensures WakeInv(watch, w) && Uniform(watch, w)
  {
  }

  /** Once the bucket is alert, it stays so. */
  lemma {:induction false} StaysAlert(watch: Watch, states: seq<Wake>, steps: seq<WakeAction>, j: nat, i: nat)
    requires WakeRun(watch, states, steps) && j <= i < |states| && ClearSteps(watch, states, steps, i)
    requires Alert(watch, states[j]) && (watch.Tested() || states[j].counted)
    ensures Alert(watch, states[i]) && (watch.Tested() || states[i].counted)
    decreases i - j
  {
    hide WakeInv, Uniform, Alert, Clear;
    if j < i {
      assert ClearSteps(watch, states, steps, i - 1);
      StaysAlert(watch, states, steps, j, i - 1);
      WakeInvAlways(watch, states, steps, i - 1);
      AlertKept(watch, states[i - 1], steps[i - 1]);
      assert WakeInv(watch, states[i - 1]) && WakeEnabled(watch, states[i - 1], steps[i - 1]);
    }
  }

  /** No lost wakeup: in every interleaving, when the calls of AddMessage are over
      and the subscriber to an exact view waits, a bucket that has reached its
      quorum has been read by the handler since the last insertion, or a
      notification is pending. */
  lemma NoLostWakeup(watch: Watch, states: seq<Wake>, steps: seq<WakeAction>, i: nat)
    requires WakeRun(watch, states, steps) && i < |states| && !watch.details.hasMinRound
    requires AtRest(states[i]) && states[i].Reached(watch)
    ensures states[i].handled || Noticed(watch, states[i])
  {
    assert ClearSteps(watch, states, steps, i);
    assert Alert(watch, states[0]);
    StaysAlert(watch, states, steps, 0, i);
  }

  // ---------- subscriptions with a minimum round ----------

  /** Nothing will make the handler read the bucket. */
  ghost predicate Deaf(watch: Watch, w: Wake) {
    && w.counted && !AdderUnderway(w) && !w.handled && !Pending(w.pipe)
    && (w.subscriber == Subscribed || w.subscriber == Waiting)
  }

  lemma StaysDeaf(watch: Watch, w: Wake, a: WakeAction)
    requires watch.Valid() && Deaf(watch, w) && WakeEnabled(watch, w, a)
    requires !watch.Tested() && !Foreign(watch, a) && !a.Insert?
    ensures Deaf(watch, WakeNext(watch, w, a))
  {
    assert WakeNext(watch, w, a).adders == w.adders;
  }

  lemma {:induction false} DeafFrom(watch: Watch, states: seq<Wake>, steps: seq<WakeAction>, c: nat, i: nat)
    requires WakeRun(watch, states, steps) && c < i < |states| && steps[c] == Count && !watch.Tested()
    requires !AdderUnderway(states[c])
    requires forall k :: c < k < i ==> !Foreign(watch, steps[k]) && !steps[k].Insert?
    ensures Deaf(watch, states[i])
    decreases i
  {
    if i == c + 1 {
      WakeInvAlways(watch, states, steps, c);
      assert states[i].adders == states[c].adders;
    } else {
      DeafFrom(watch, states, steps, c, i - 1);
      StaysDeaf(watch, states[i - 1], steps[i - 1]);
    }
  }

  /** There was something to notice after the subscription was counted in step c. */
  ghost predicate SomethingNew(states: seq<Wake>, steps: seq<WakeAction>, c: nat, i: nat)
    requires c < i < |states| && |states| == |steps| + 1
  {
    AdderUnderway(states[c]) || exists k :: c < k < i && steps[k].Insert?
  }

  lemma {:induction false} UncountedBefore(watch: Watch, states: seq<Wake>, steps: seq<WakeAction>, k: nat, c: nat)
    requires WakeRun(watch, states, steps) && k <= c < |steps| && steps[c] == Count
    ensures !states[k].counted
    decreases c - k
  {
    WakeInvAlways(watch, states, steps, k);
    assert WakeEnabled(watch, states[c], steps[c]);
    if k < c {
      UncountedBefore(watch, states, steps, k + 1, c);
      assert states[k + 1] == WakeNext(watch, states[k], steps[k]);
    }
  }

  /** What comes of a quorum in a subscription with a minimum round. If an AddMessage
      for the view was underway when the subscription was counted, or came later, the
      quorum is noticed, unless notifications of other rounds displace those of the
      round a proposal is for. Without notifications of other rounds it is noticed
      only then: a quorum stored before for a round above the minimum is not. */
  lemma MinimumRoundWakeup(watch: Watch, states: seq<Wake>, steps: seq<WakeAction>, c: nat, i: nat)
    requires WakeRun(watch, states, steps) && c < i < |states| && steps[c] == Count
    requires AtRest(states[i]) && states[i].Reached(watch)
    requires forall k :: c < k < i ==> Clear(watch, steps[k])
    ensures watch.Tested() || SomethingNew(states, steps, c, i) ==> states[i].handled || Noticed(watch, states[i])
    ensures (forall k :: c < k < i ==> !Foreign(watch, steps[k])) ==>
              (states[i].handled || Noticed(watch, states[i]) <==> watch.Tested() || SomethingNew(states, steps, c, i))
  {
    forall k | 0 <= k < i && states[k].counted ensures Clear(watch, steps[k]) {
      if k <= c {
        UncountedBefore(watch, states, steps, k, c);
      }
    }
    if watch.Tested() {
      assert Alert(watch, states[0]);
      StaysAlert(watch, states, steps, 0, i);
    } else if AdderUnderway(states[c]) {
      assert states[c + 1].adders == states[c].adders;
      assert Alert(watch, states[c + 1]) && states[c + 1].counted;
      StaysAlert(watch, states, steps, c + 1, i);
    } else if k :| c < k < i && steps[k].Insert? {
      CountedFrom(watch, states, steps, c, k + 1);
      InsertAlerts(watch, states[k], steps[k]);
      StaysAlert(watch, states, steps, k + 1, i);
    } else if forall k :: c < k < i ==> !Foreign(watch, steps[k]) {
      DeafFrom(watch, states, steps, c, i);
    }
  }

  lemma {:induction false} CountedFrom(watch: Watch, states: seq<Wake>, steps: seq<WakeAction>, c: nat, k: nat)
    requires WakeRun(watch, states, steps) && c < k < |states| && steps[c] == Count
    ensures states[k].counted
    decreases k
  {
    if k > c + 1 {
      CountedFrom(watch, states, steps, c, k - 1);
      WakeInvAlways(watch, states, steps, k - 1);
    }
  }

  /** A call of AddMessage is never held up but by the lock that subscribe holds. */
  lemma AdderGoesOn(watch: Watch, w: Wake, t: nat)
    requires t in w.adders && w.adders[t] != Finished && !w.Locked()
    ensures exists a :: (a == Insert(t, V) || a == ReadBucket(t) || a == ReadCounter(t) || a == PushEvent(t))
                        && WakeEnabled(watch, w, a)
  {
    var a := match w.adders[t]
      case Arriving => Insert(t, V)
      case Inserted => ReadBucket(t)
      case WillSignal => ReadCounter(t)
      case _ => PushEvent(t);
    assert WakeEnabled(watch, w, a);
  }

  /** Nor is the subscriber, unless there is nothing to be notified of. */
  lemma SubscriberGoesOn(watch: Watch, w: Wake)
    requires w.subscriber == Waiting ==> w.pipe.outputCh.Some?
    ensures exists a :: (a == Register || a == Count || a.SubscriberReadsBucket? || a == SubscriberReadsCounter
                         || a == SubscriberPushes || a == ReceiveEvent || a == Handle)
                        && WakeEnabled(watch, w, a)
  {
    var a := match w.subscriber
      case Unsubscribed => Register
      case Registered => Count
      case Subscribed => SubscriberReadsBucket(w.Reached(watch))
      case WillSignalItself => SubscriberReadsCounter
      case WillPushItself => SubscriberPushes
      case Waiting => ReceiveEvent
      case Handling => Handle;
    assert WakeEnabled(watch, w, a);
  }

  // ---------- two notifications that never come ----------

  const V: Address := [1]

  function OneVote(): map<Address, int> {
    map[V := 1]
  }

  lemma OneIsQuorum()
    ensures IsQuorum(OneVote(), {V})
  {
    PowerOfSplit(OneVote(), {V}, V);
    assert {V} - {V} == {} && OneVote().Keys == {V};
  }

  ghost predicate LeadsBy(watch: Watch, w: Wake, w': Wake, states: seq<Wake>, steps: seq<WakeAction>) {
    WakeSteps(watch, states, steps) && states[0] == w && states[|steps|] == w'
  }

  /** Steps of a run lead from one state to the other. */
  ghost predicate Leads(watch: Watch, w: Wake, w': Wake) {
    exists states, steps :: LeadsBy(watch, w, w', states, steps)
  }

  lemma LeadsToItself(watch: Watch, w: Wake)
    ensures Leads(watch, w, w)
  {
    assert LeadsBy(watch, w, w, [w], []);
  }

  lemma Does(watch: Watch, w0: Wake, w: Wake, a: WakeAction) returns (w': Wake)
    requires Leads(watch, w0, w) && WakeEnabled(watch, w, a)
    ensures w' == WakeNext(watch, w, a) && Leads(watch, w0, w')
  {
    hide WakeEnabled, WakeNext;
    w' := WakeNext(watch, w, a);
    var states, steps :| LeadsBy(watch, w0, w, states, steps);
    assert LeadsBy(watch, w0, w', states + [w'], steps + [a]);
  }

  /** The first AddMessage has yet to come. */
  function Start(watch: Watch): Wake {
    Wake({}, None, map[0 := Arriving], Unsubscribed, false, 0, NewSubscription(watch.details), 0, false)
  }

  /** At rest, with a quorum, and nothing on the way. */
  ghost predicate Lost(watch: Watch, w: Wake) {
    AtRest(w) && w.Reached(watch) && !w.handled && !Pending(w.pipe)
  }

  /** A watcher in round 0 subscribes to ROUND_CHANGEs from round 1 on; a quorum of
      them for round 2 is in the queues already, and nobody tells it. */
  lemma QuorumBeforeSubscription() returns (watch: Watch, w: Wake)
    ensures watch.Valid() && watch == Watch(OneVote(), Details(ROUND_CHANGE, View(1, 1), true), View(1, 2))
    ensures WakeInit(watch, Start(watch)) && Leads(watch, Start(watch), w) && Lost(watch, w)
  {
    hide Leads, Start, IsQuorum;
    OneIsQuorum();
    watch := Watch(OneVote(), Details(ROUND_CHANGE, View(1, 1), true), View(1, 2));
    w := StoresQuorum(watch);
    w := Does(watch, Start(watch), w, Register);
    w := Does(watch, Start(watch), w, Count);
    w := Does(watch, Start(watch), w, SubscriberReadsBucket(false));
  }

  /** Before anybody has subscribed, AddMessage stores the message and signals nothing. */
  lemma StoresQuorum(watch: Watch) returns (w: Wake)
    requires watch.details.kind == ROUND_CHANGE && watch.powers == OneVote()
    ensures WakeInit(watch, Start(watch)) && Leads(watch, Start(watch), w)
    ensures w == Start(watch).(bucket := {V}, adders := map[0 := Finished])
  {
    hide Leads, IsQuorum;
    OneIsQuorum();
    w := Start(watch);
    LeadsToItself(watch, w);
    w := Does(watch, Start(watch), w, Insert(0, V));
    assert w.bucket == {V};
    w := Does(watch, Start(watch), w, ReadBucket(0));
    w := Does(watch, Start(watch), w, ReadCounter(0));
  }

  /** A proposal for round 2 arrives at a waiting watcher while a notification for
      round 1 is still in the channel: its own notification is dropped, and it is
      not looked at. */
  lemma ProposalDisplaced() returns (watch: Watch, before: Wake, w: Wake)
    ensures watch.Valid() && watch == Watch(OneVote(), Details(PREPREPARE, View(1, 1), true), View(1, 2))
    ensures WakeInit(watch, Start(watch)) && Leads(watch, Start(watch), before) && Leads(watch, before, w)
    ensures AtRest(before) && before.bucket == {} && Lost(watch, w)
  {
    watch := Watch(OneVote(), Details(PREPREPARE, View(1, 1), true), View(1, 2));
    before := WaitsForProposals(watch);
    w := NextIsDropped(watch, before);
    w := OtherIsHandled(watch, before, w);
  }

  lemma WaitsForProposals(watch: Watch) returns (w: Wake)
    requires watch.Valid() && watch.details.hasMinRound && watch.view.round == 2 && watch.details.view.round == 1
    ensures WakeInit(watch, Start(watch)) && Leads(watch, Start(watch), w)
    ensures w == Start(watch).(subscriber := Waiting, counted := true,
                               pipe := NewSubscription(watch.details).(notifyCh := Some(1)))
  {
    hide Leads;
    w := Start(watch);
    LeadsToItself(watch, w);
    w := Does(watch, Start(watch), w, Register);
    w := Does(watch, Start(watch), w, Count);
    w := Does(watch, Start(watch), w, SubscriberReadsBucket(false));
    w := Does(watch, Start(watch), w, AddElsewhere(1));
  }

  lemma NextIsDropped(watch: Watch, before: Wake) returns (w: Wake)
    requires watch.details.kind == PREPREPARE && watch.view.round == 2 && before.adders == map[0 := Arriving]
    requires before.subscriber == Waiting && before.counted && !before.handled && before.bucket == {}
    requires before.pipe == NewSubscription(watch.details).(notifyCh := Some(1))
    ensures Leads(watch, before, w) && w.subscriber == Waiting && !w.handled && w.bucket == {V}
    ensures w.adders == map[0 := Finished] && w.pipe == before.pipe
  {
    hide Leads;
    LeadsToItself(watch, before);
    w := Does(watch, before, before, Insert(0, V));
    w := Does(watch, before, w, ReadBucket(0));
    w := Does(watch, before, w, ReadCounter(0));
    w := Does(watch, before, w, PushEvent(0));
  }

  lemma OtherIsHandled(watch: Watch, before: Wake, dropped: Wake) returns (w: Wake)
    requires Leads(watch, before, dropped) && watch.details.kind == PREPREPARE && watch.view.round == 2
    requires dropped.subscriber == Waiting && !dropped.handled && dropped.bucket == {V}
    requires dropped.adders == map[0 := Finished]
    requires dropped.pipe == NewSubscription(watch.details).(notifyCh := Some(1))
    ensures Leads(watch, before, w) && Lost(watch, w)
  {
    hide Leads;
    w := Does(watch, before, dropped, PipeWorks);
    w := Does(watch, before, w, PipeWorks);
    w := Does(watch, before, w, ReceiveEvent);
    w := Does(watch, before, w, Handle);
  }

  /** More messages never take a quorum away, unless they are PREPAREs of the
      proposer; so the quorum need only be reached at some point. */
  lemma ReachedStays(powers: map<Address, int>, kind: MessageType, proposer: Option<Address>,
                     senders: set<Address>, more: set<Address>)
    requires NonNegative(powers) && IsQuorumFor(powers, kind, proposer, senders)
    ensures IsQuorumFor(powers, kind, proposer, senders + more) <==> !(kind == PREPARE && proposer.value in more)
  {
    QuorumMonotone(powers, senders, senders + more);
    if kind == PREPARE {
      QuorumMonotone(powers, {proposer.value} + senders, {proposer.value} + (senders + more));
    }
  }
}
