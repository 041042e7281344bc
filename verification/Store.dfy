/** messages/messages.go: the message queues. Four maps nested by height, round
    and sender behave as one flat map keyed by type, height, round and sender. */
module Store {
  import opened Types

  type ProtoMessages = map<Address, Message>
  type RoundMessageMap = map<nat, ProtoMessages>
  type HeightMessageMap = map<nat, RoundMessageMap>

  // ---------- the flat map ----------

  datatype Key = Key(kind: MessageType, view: View, from: Address)

  type Entries = imap<Key, Message>

  function KeyOf(m: Message): Key {
    Key(m.kind, m.view, m.from)
  }

  /** What the queues hold for a view and a type. */
  predicate Invalidated(k: Key, m: Message, view: View, kind: MessageType, isValid: Message -> bool) {
    k.kind == kind && k.view == view && !isValid(m)
  }

  datatype Operation =
    | Add(message: Message)
    | Fetch(view: View, kind: MessageType, isValid: Message -> bool)
    | Prune(height: nat)

  ghost function Apply(e: Entries, op: Operation): Entries {
    match op
    case Add(m) => e[KeyOf(m) := m]
    case Fetch(view, kind, isValid) => imap k | k in e && !Invalidated(k, e[k], view, kind, isValid) :: e[k]
    case Prune(height) => imap k | k in e && k.view.height >= height :: e[k]
  }

  ghost function ApplyAll(ops: seq<Operation>): Entries {
    if ops == [] then imap[] else Apply(ApplyAll(ops[..|ops| - 1]), ops[|ops| - 1])
  }

  /** The operation leaves the message where it is. */
  ghost predicate Spares(op: Operation, m: Message) {
    match op
    case Add(other) => KeyOf(other) != KeyOf(m)
    case Fetch(view, kind, isValid) => !Invalidated(KeyOf(m), m, view, kind, isValid)
    case Prune(height) => m.view.height >= height
  }

  ghost predicate AddedAndSpared(ops: seq<Operation>, m: Message, i: nat) {
    i < |ops| && ops[i] == Add(m) && forall j :: i < j < |ops| ==> Spares(ops[j], m)
  }

  /** After any sequence of operations, an entry is there exactly if its message
      was added, under its own key, and no later operation displaced it. */
  lemma {:induction false} EntriesAreWhatWasAdded(ops: seq<Operation>, k: Key, m: Message)
    ensures k in ApplyAll(ops) && ApplyAll(ops)[k] == m <==> k == KeyOf(m) && exists i: nat :: AddedAndSpared(ops, m, i)
  {
    if ops != [] {
      var n := |ops| - 1;
      var front := ops[..n];
      EntriesAreWhatWasAdded(front, k, m);
      if exists i: nat :: AddedAndSpared(ops, m, i) {
        var i: nat :| AddedAndSpared(ops, m, i);
        if i < n {
          assert AddedAndSpared(front, m, i);
          assert Spares(ops[n], m);
        }
      }
      if k in ApplyAll(ops) && ApplyAll(ops)[k] == m {
        if ops[n] == Add(m) {
          assert AddedAndSpared(ops, m, n);
        } else {
          var i: nat :| AddedAndSpared(front, m, i);
          assert AddedAndSpared(ops, m, i);
        }
      }
    }
  }

  /** Every entry sits under its own type, view and sender. */
  ghost predicate OwnKeys(e: Entries) {
    forall k :: k in e ==> k == KeyOf(e[k])
  }

  lemma EntriesHaveOwnKeys(ops: seq<Operation>)
    ensures OwnKeys(ApplyAll(ops))
  {
    forall k | k in ApplyAll(ops) ensures k == KeyOf(ApplyAll(ops)[k]) {
      EntriesAreWhatWasAdded(ops, k, ApplyAll(ops)[k]);
    }
  }

  // ---------- lists taken from one bucket ----------

  /** `list` holds the valid messages of the bucket, once each, in some order. */
  ghost predicate ListedAs(list: seq<Message>, bucket: ProtoMessages, isValid: Message -> bool, keys: seq<Address>) {
    && |keys| == |list|
    && (forall i :: 0 <= i < |keys| ==> keys[i] in bucket && list[i] == bucket[keys[i]] && isValid(list[i]))
    && (forall i, j :: 0 <= i < j < |keys| ==> keys[i] != keys[j])
    && (forall a :: a in bucket && isValid(bucket[a]) ==> a in keys)
  }

  ghost predicate Lists(list: seq<Message>, bucket: ProtoMessages, isValid: Message -> bool) {
    exists keys :: ListedAs(list, bucket, isValid, keys)
  }

  ghost function ValidSenders(bucket: ProtoMessages, isValid: Message -> bool): set<Address> {
    set a | a in bucket && isValid(bucket[a]) :: bucket[a].from
  }

  lemma SenderIsListed(list: seq<Message>, bucket: ProtoMessages, isValid: Message -> bool, keys: seq<Address>,
                       a: Address)
    requires ListedAs(list, bucket, isValid, keys) && a in bucket && isValid(bucket[a])
    ensures bucket[a].from in Senders(list)
  {
    var i :| 0 <= i < |keys| && keys[i] == a;
    assert list[i] in list;
  }

  lemma ListedSenders(list: seq<Message>, bucket: ProtoMessages, isValid: Message -> bool)
    requires Lists(list, bucket, isValid)
    ensures Senders(list) == ValidSenders(bucket, isValid)
  {
    var keys :| ListedAs(list, bucket, isValid, keys);
    forall x | x in ValidSenders(bucket, isValid) ensures x in Senders(list) {
      var a :| a in bucket && isValid(bucket[a]) && bucket[a].from == x;
      SenderIsListed(list, bucket, isValid, keys, a);
    }
    forall m | m in list ensures m.from in ValidSenders(bucket, isValid) {
      var i :| 0 <= i < |list| && list[i] == m;
      assert keys[i] in bucket;
    }
  }

  lemma {:induction false} DistinctCount(keys: seq<Address>, s: set<Address>)
    requires forall i, j :: 0 <= i < j < |keys| ==> keys[i] != keys[j]
    requires forall a :: a in s <==> a in keys
    ensures |keys| == |s|
  {
    if keys == [] {
      assert s == {};
    } else {
      var n := |keys| - 1;
      assert keys == keys[..n] + [keys[n]];
      DistinctCount(keys[..n], s - {keys[n]});
    }
  }

  /** All listings of a bucket have the same senders and the same length, so tests
      on either do not depend on the order. */
  lemma ListedCount(list: seq<Message>, bucket: ProtoMessages, isValid: Message -> bool)
    requires Lists(list, bucket, isValid)
    ensures |list| == |set a | a in bucket && isValid(bucket[a])|
  {
    var keys :| ListedAs(list, bucket, isValid, keys);
    DistinctCount(keys, set a | a in bucket && isValid(bucket[a]));
  }

  /** A list taken from a bucket of own keys has one message per sender, all of the bucket's view and type. */
  lemma ListedDistinct(list: seq<Message>, bucket: ProtoMessages, isValid: Message -> bool, view: View,
                       kind: MessageType)
    requires Lists(list, bucket, isValid)
    requires forall a :: a in bucket ==> Key(kind, view, a) == KeyOf(bucket[a])
    ensures DistinctSenders(list)
    ensures forall i :: 0 <= i < |list| ==> list[i].view == view && list[i].kind == kind && isValid(list[i])
  {
    var keys :| ListedAs(list, bucket, isValid, keys);
    forall i | 0 <= i < |list| ensures list[i].from == keys[i] && list[i].view == view && list[i].kind == kind {
      assert KeyOf(bucket[keys[i]]) == Key(kind, view, keys[i]);
    }
  }

  method ListValid(bucket: ProtoMessages, isValid: Message -> bool) returns (list: seq<Message>, rejected: seq<Address>)
    ensures Lists(list, bucket, isValid)
    ensures forall a :: a in rejected <==> a in bucket && !isValid(bucket[a])
  {
    list, rejected := [], [];
    ghost var keys: seq<Address> := [];
    var rest := bucket.Keys;
    while rest != {}
      invariant rest <= bucket.Keys && |keys| == |list|
      invariant forall i :: 0 <= i < |keys| ==>
                  keys[i] in bucket && keys[i] !in rest && list[i] == bucket[keys[i]] && isValid(list[i])
      invariant forall i, j :: 0 <= i < j < |keys| ==> keys[i] != keys[j]
      invariant forall a :: a in bucket && a !in rest && isValid(bucket[a]) ==> a in keys
      invariant forall a :: a in rejected <==> a in bucket && a !in rest && !isValid(bucket[a])
      decreases rest
    {
      var key :| key in rest;
      rest := rest - {key};
      if !isValid(bucket[key]) {
        rejected := rejected + [key];
      } else {
        list := list + [bucket[key]];
        keys := keys + [key];
      }
    }
    assert ListedAs(list, bucket, isValid, keys);
  }

  // ---------- round-change certificates ----------

  /** The round is positive and its valid messages make a certificate. */
  ghost predicate HasRCC(rounds: RoundMessageMap, isValid: Message -> bool, isValidRCC: (nat, seq<Message>) -> bool,
                         round: nat) {
    && round > 0 && round in rounds
    && exists list :: Lists(list, rounds[round], isValid) && isValidRCC(round, list)
  }

  /** The verdict on a certificate does not depend on the order in which the map
      of its messages is visited. */
  ghost predicate OrderFree(rounds: RoundMessageMap, isValid: Message -> bool,
                            isValidRCC: (nat, seq<Message>) -> bool) {
    forall round, a, b :: round in rounds && Lists(a, rounds[round], isValid) && Lists(b, rounds[round], isValid) ==>
      isValidRCC(round, a) == isValidRCC(round, b)
  }

  ghost predicate IsHighestRCC(rounds: RoundMessageMap, isValid: Message -> bool,
                               isValidRCC: (nat, seq<Message>) -> bool,
                               highest: nat)
  {
    HasRCC(rounds, isValid, isValidRCC, highest)
    && forall r: nat :: HasRCC(rounds, isValid, isValidRCC, r) ==> r <= highest
  }

  // ---------- the queues ----------

  ghost function Replaced(e: Entries, kind: MessageType, view: View, bucket: ProtoMessages): Entries {
    imap k: Key | (if k.kind == kind && k.view == view then k.from in bucket else k in e) ::
      if k.kind == kind && k.view == view then bucket[k.from] else e[k]
  }

  /** Deleting the invalid messages of one bucket is what a fetch does to the flat map. */
  lemma FetchReplaces(e: Entries, bucket: ProtoMessages, kept: ProtoMessages, view: View, kind: MessageType,
                      isValid: Message -> bool)
    requires forall a :: a in bucket <==> Key(kind, view, a) in e
    requires forall a :: a in bucket ==> bucket[a] == e[Key(kind, view, a)]
    requires forall a :: a in kept <==> a in bucket && isValid(bucket[a])
    requires forall a :: a in kept ==> kept[a] == bucket[a]
    ensures Replaced(e, kind, view, kept) == Apply(e, Fetch(view, kind, isValid))
  {
    var r, f := Replaced(e, kind, view, kept), Apply(e, Fetch(view, kind, isValid));
    forall k: Key ensures k in r <==> k in f ensures k in r ==> r[k] == f[k] {
      if k.kind == kind && k.view == view {
        assert k == Key(kind, view, k.from);
      }
    }
  }

  lemma NothingInvalid(e: Entries, bucket: ProtoMessages, view: View, kind: MessageType, isValid: Message -> bool)
    requires forall a :: Key(kind, view, a) in e ==> a in bucket && isValid(bucket[a])
    requires forall a :: Key(kind, view, a) in e ==> bucket[a] == e[Key(kind, view, a)]
    ensures Apply(e, Fetch(view, kind, isValid)) == e
  {
    forall k | k in e ensures !Invalidated(k, e[k], view, kind, isValid) {
      assert k.kind == kind && k.view == view ==> k == Key(kind, view, k.from);
    }
  }

  method DeleteKeys(messages: ProtoMessages, keys: seq<Address>) returns (kept: ProtoMessages)
    ensures forall a :: a in kept <==> a in messages && a !in keys
    ensures forall a :: a in kept ==> kept[a] == messages[a]
  {
    kept := messages;
    var i := 0;
    while i < |keys|
      invariant 0 <= i <= |keys|
      invariant forall a :: a in kept <==> a in messages && a !in keys[..i]
      invariant forall a :: a in kept ==> kept[a] == messages[a]
    {
      kept := kept - {keys[i]};
      i := i + 1;
    }
    assert keys[..i] == keys;
  }

  function RoundsIn(m: HeightMessageMap, height: nat): RoundMessageMap {
    if height in m then m[height] else map[]
  }

  function BucketIn(m: HeightMessageMap, view: View): ProtoMessages {
    if view.round in RoundsIn(m, view.height) then RoundsIn(m, view.height)[view.round] else map[]
  }

  /** The four maps, as a value. */
  datatype Queues = Queues(preprepare: HeightMessageMap, prepare: HeightMessageMap, commit: HeightMessageMap,
                           roundChange: HeightMessageMap)
  {
    function Of(kind: MessageType): HeightMessageMap {
      match kind
      case PREPREPARE => preprepare
      case PREPARE => prepare
      case COMMIT => commit
      case ROUND_CHANGE => roundChange
    }

    function With(kind: MessageType, m: HeightMessageMap): Queues {
      match kind
      case PREPREPARE => this.(preprepare := m)
      case PREPARE => this.(prepare := m)
      case COMMIT => this.(commit := m)
      case ROUND_CHANGE => this.(roundChange := m)
    }

    /** The flat map that the nested ones amount to. */
    ghost function Flat(): Entries {
      imap k: Key | k.from in BucketIn(Of(k.kind), k.view) :: BucketIn(Of(k.kind), k.view)[k.from]
    }
  }

  function WithBucket(m: HeightMessageMap, view: View, bucket: ProtoMessages): HeightMessageMap {
    m[view.height := RoundsIn(m, view.height)[view.round := bucket]]
  }

  lemma BucketReplaced(m: HeightMessageMap, view: View, bucket: ProtoMessages, v: View)
    ensures BucketIn(WithBucket(m, view, bucket), v) == if v == view then bucket else BucketIn(m, v)
  {
  }

  lemma QueueReplaced(q: Queues, kind: MessageType, view: View, bucket: ProtoMessages, k: MessageType, v: View)
    ensures BucketIn(q.With(kind, WithBucket(q.Of(kind), view, bucket)).Of(k), v) ==
            if k == kind && v == view then bucket else BucketIn(q.Of(k), v)
  {
    hide BucketIn, RoundsIn, WithBucket;
    BucketReplaced(q.Of(kind), view, bucket, v);
  }

  lemma FlatReplaced(q: Queues, kind: MessageType, view: View, bucket: ProtoMessages)
    ensures q.With(kind, WithBucket(q.Of(kind), view, bucket)).Flat() == Replaced(q.Flat(), kind, view, bucket)
  {
    hide BucketIn, RoundsIn, WithBucket, Queues.Of, Queues.With;
    var now, was := q.With(kind, WithBucket(q.Of(kind), view, bucket)).Flat(), Replaced(q.Flat(), kind, view, bucket);
    forall k: Key ensures k in now <==> k in was ensures k in now ==> now[k] == was[k] {
      QueueReplaced(q, kind, view, bucket, k.kind, k.view);
    }
    assert now == was;
  }

  lemma BucketPruned(m: HeightMessageMap, before: HeightMessageMap, height: nat, view: View)
    requires Pruned(m, before, height)
    ensures BucketIn(m, view) == if view.height >= height then BucketIn(before, view) else map[]
  {
  }

  lemma FlatPruned(q: Queues, q': Queues, height: nat)
    requires forall kind :: Pruned(q'.Of(kind), q.Of(kind), height)
    ensures q'.Flat() == Apply(q.Flat(), Prune(height))
  {
    hide BucketIn, Pruned;
    var now, was := q'.Flat(), Apply(q.Flat(), Prune(height));
    forall k: Key ensures k in now <==> k in was ensures k in now ==> now[k] == was[k] {
      BucketPruned(q'.Of(k.kind), q.Of(k.kind), height, k.view);
    }
    assert now == was;
  }

  class Messages {
    var preprepareMessages: HeightMessageMap
    var prepareMessages: HeightMessageMap
    var commitMessages: HeightMessageMap
    var roundChangeMessages: HeightMessageMap

    constructor ()
      ensures Contents() == imap[]
    {
      preprepareMessages, prepareMessages, commitMessages, roundChangeMessages := map[], map[], map[], map[];
    }

    function Value(): Queues
      reads this
    {
      Queues(preprepareMessages, prepareMessages, commitMessages, roundChangeMessages)
    }

    function Rounds(kind: MessageType, height: nat): RoundMessageMap
      reads this
    {
      RoundsIn(Value().Of(kind), height)
    }

    function Bucket(kind: MessageType, view: View): ProtoMessages
      reads this
    {
      BucketIn(Value().Of(kind), view)
    }

    /** The abstract value: one flat map. */
    ghost function Contents(): Entries
      reads this
    {
      Value().Flat()
    }

    method SetMessageMap(kind: MessageType, m: HeightMessageMap)
      modifies this
      ensures Value() == old(Value()).With(kind, m)
    {
      match kind
      case PREPREPARE => preprepareMessages := m;
      case PREPARE => prepareMessages := m;
      case COMMIT => commitMessages := m;
      case ROUND_CHANGE => roundChangeMessages := m;
    }

    /** Replaces one bucket, creating its height and round if need be. */
    method SetBucket(kind: MessageType, view: View, bucket: ProtoMessages)
      modifies this
      ensures Contents() == Replaced(old(Contents()), kind, view, bucket)
    {
      FlatReplaced(Value(), kind, view, bucket);
      SetMessageMap(kind, WithBucket(Value().Of(kind), view, bucket));
    }

    /** A later message of the same sender for the same view replaces the earlier one. */
    method AddMessage(message: Message)
      modifies this
      ensures Contents() == Apply(old(Contents()), Add(message))
    {
      var bucket := Bucket(message.kind, message.view);
      SetBucket(message.kind, message.view, bucket[message.from := message]);
    }

    /** The valid messages of one bucket, of which the invalid ones are removed. */
    method GetValidMessages(view: View, kind: MessageType, isValid: Message -> bool) returns (valid: seq<Message>)
      modifies this
      ensures Lists(valid, old(Bucket(kind, view)), isValid)
      ensures Contents() == Apply(old(Contents()), Fetch(view, kind, isValid))
    {
      hide Apply, Replaced, Lists;
      var messages := Bucket(kind, view);
      ghost var before := Contents();
      var rejected;
      valid, rejected := ListValid(messages, isValid);
      if |rejected| > 0 {
        var kept := DeleteKeys(messages, rejected);
        FetchReplaces(before, messages, kept, view, kind, isValid);
        SetBucket(kind, view, kept);
      } else {
        NothingInvalid(before, messages, view, kind, isValid);
      }
    }

    method PruneByHeight(height: nat)
      modifies this
      ensures Contents() == Apply(old(Contents()), Prune(height))
    {
      hide Pruned;
      var kinds := [PREPREPARE, PREPARE, COMMIT, ROUND_CHANGE];
      ghost var before := Value();
      var i := 0;
      while i < |kinds|
        invariant 0 <= i <= |kinds|
        invariant forall j :: i <= j < |kinds| ==> Value().Of(kinds[j]) == before.Of(kinds[j])
        invariant forall j :: 0 <= j < i ==> Pruned(Value().Of(kinds[j]), before.Of(kinds[j]), height)
      {
        var pruned := PruneMap(Value().Of(kinds[i]), height);
        SetMessageMap(kinds[i], pruned);
        i := i + 1;
      }
      assert kinds[0] == PREPREPARE && kinds[1] == PREPARE && kinds[2] == COMMIT && kinds[3] == ROUND_CHANGE;
      FlatPruned(before, Value(), height);
    }

    /** The valid messages of the highest positive round whose valid messages make
        a certificate, whatever the order in which the maps are visited; nothing
        exactly if there is no such round. */
    method GetExtendedRCC(height: nat, isValid: Message -> bool, isValidRCC: (nat, seq<Message>) -> bool)
        returns (extendedRCC: Option<seq<Message>>, ghost highest: nat)
      requires OrderFree(Rounds(ROUND_CHANGE, height), isValid, isValidRCC)
      ensures extendedRCC.None? <==> forall r: nat :: !HasRCC(Rounds(ROUND_CHANGE, height), isValid, isValidRCC, r)
      ensures extendedRCC.Some? ==>
                && IsHighestRCC(Rounds(ROUND_CHANGE, height), isValid, isValidRCC, highest)
                && Lists(extendedRCC.value, Rounds(ROUND_CHANGE, height)[highest], isValid)
    {
      var roundMessageMap := Rounds(ROUND_CHANGE, height);
      var highestRound: nat := 0;
      extendedRCC := None;
      var rest := roundMessageMap.Keys;
      while rest != {}
        invariant rest <= roundMessageMap.Keys
        invariant extendedRCC.None? ==> highestRound == 0
        invariant extendedRCC.Some? ==> HasRCC(roundMessageMap, isValid, isValidRCC, highestRound)
        invariant extendedRCC.Some? ==> Lists(extendedRCC.value, roundMessageMap[highestRound], isValid)
        invariant forall r: nat :: r !in rest && HasRCC(roundMessageMap, isValid, isValidRCC, r) ==> r <= highestRound
        decreases rest
      {
        var round :| round in rest;
        rest := rest - {round};
        if round <= highestRound {
          continue;
        }
        var validMessages, rejected := ListValid(roundMessageMap[round], isValid);
        if !isValidRCC(round, validMessages) {
          continue;
        }
        highestRound := round;
        extendedRCC := Some(validMessages);
      }
      highest := highestRound;
      assert extendedRCC.Some? ==> HasRCC(Rounds(ROUND_CHANGE, height), isValid, isValidRCC, highest);
    }
  }

  ghost predicate Pruned(m: HeightMessageMap, before: HeightMessageMap, height: nat) {
    forall h :: (h in m <==> h in before && h >= height) && (h in m ==> m[h] == before[h])
  }

  /** Deletes the heights below the bound one by one. */
  method PruneMap(before: HeightMessageMap, height: nat) returns (m: HeightMessageMap)
    ensures Pruned(m, before, height)
  {
    m := before;
    var rest := before.Keys;
    while rest != {}
      invariant rest <= before.Keys
      invariant forall h :: h in m <==> h in before && (h >= height || h in rest)
      invariant forall h :: h in m ==> m[h] == before[h]
      decreases rest
    {
      var h :| h in rest;
      rest := rest - {h};
      if h < height {
        m := m - {h};
      }
    }
  }
}
