/** core/ibft.go: the handlers that work on the state, the queues and the
    network. Each is shown to take the protocol step it is meant to take. */
module Ibft {
  import opened Types
  import opened Quorum
  import opened Certificates
  import opened Proposals
  import opened NodeState
  import opened Protocol
  import opened RoundLoop
  import opened Store

  /** Everything in the queues came from a valid sender and could be presented. */
  ghost predicate StoredOk(P: Params, sent: set<Message>, e: Entries) {
    OwnKeys(e) && forall k :: k in e ==> P.b.validSender(e[k]) && Known(P, sent, e[k])
  }

  /** Accepting a message of a valid sender keeps the queues that way, and so do
      fetching and pruning. */
  lemma StoredOkKept(P: Params, sent: set<Message>, e: Entries, op: Operation)
    requires StoredOk(P, sent, e)
    requires op.Add? ==> P.b.validSender(op.message) && Known(P, sent, op.message)
    ensures StoredOk(P, sent, Apply(e, op))
  {
  }

  /** isValidPrepare and isValidCommit, for the proposal held in the state. */
  function ValidPrepare(b: Backend, proposal: Option<Proposal>): Message -> bool {
    m => b.IsValidProposalHash(proposal, ExtractPrepareHash(m))
  }

  function ValidCommit(b: Backend, proposal: Option<Proposal>): Message -> bool {
    m => b.IsValidProposalHash(proposal, ExtractCommitHash(m))
         && b.validSeal(ExtractCommitHash(m).Content(), ExtractCommittedSeal(m))
  }

  function AnyMessage(): Message -> bool {
    m => true
  }

  /** A bucket of the queues, as a part of the flat map. */
  ghost predicate BucketOf(e: Entries, bucket: ProtoMessages, view: View, kind: MessageType) {
    forall a :: a in bucket ==> Key(kind, view, a) in e && e[Key(kind, view, a)] == bucket[a]
  }

  /** What GetValidMessages lists is what the protocol steps may fetch. */
  lemma ListedIsFetched(P: Params, sent: set<Message>, e: Entries, bucket: ProtoMessages, view: View, kind: MessageType,
                        isValid: Message -> bool, list: seq<Message>)
    requires StoredOk(P, sent, e) && BucketOf(e, bucket, view, kind) && Lists(list, bucket, isValid)
    ensures Fetched(P, sent, list, view, kind)
    ensures forall i :: 0 <= i < |list| ==> isValid(list[i])
  {
    forall a | a in bucket ensures KeyOf(bucket[a]) == Key(kind, view, a) {
      assert Key(kind, view, a) in e;
    }
    ListedDistinct(list, bucket, isValid, view, kind);
    var keys :| ListedAs(list, bucket, isValid, keys);
    forall i | 0 <= i < |list| ensures P.b.validSender(list[i]) && Known(P, sent, list[i]) {
      assert Key(kind, view, keys[i]) in e;
    }
  }

  lemma ListedPrepares(P: Params, sent: set<Message>, st: State, list: seq<Message>)
    requires Fetched(P, sent, list, st.view, PREPARE)
    requires forall i :: 0 <= i < |list| ==> ValidPrepare(P.b, st.GetProposal())(list[i])
    ensures PreparesFor(P, sent, st, list) <==>
              && st.proposalMessage.Some?
              && IsQuorumFor(P.b.powers, PREPARE, Some(st.proposalMessage.value.from), Senders(list))
  {
  }

  lemma ListedCommits(P: Params, sent: set<Message>, st: State, list: seq<Message>)
    requires Fetched(P, sent, list, st.view, COMMIT)
    requires forall i :: 0 <= i < |list| ==> ValidCommit(P.b, st.GetProposal())(list[i])
    ensures CommitsFor(P, sent, st, list) <==> IsQuorum(P.b.powers, Senders(list))
    ensures forall m :: m in list ==> m.kind == COMMIT
  {
  }

  /** isValidMsgFn and isValidRCCFn of handleRoundChangeMessage. */
  ghost predicate ValidRoundChange(b: Backend, view: View, m: Message) {
    && ValidPC(b, ExtractLatestPC(m), m.view.round, view.height)
    && MatchesCertificate(b, ExtractLastPreparedProposal(m), ExtractLatestPC(m))
  }

  ghost predicate ValidRCC(b: Backend, view: View, hasAcceptedProposal: bool, round: nat, msgs: seq<Message>) {
    !(round == view.round && hasAcceptedProposal) && IsQuorum(b.powers, Senders(msgs))
  }

  /** The senders of the stored PREPAREs that name the hash of the proposal. */
  ghost function PrepareSenders(b: Backend, proposal: Option<Proposal>, bucket: ProtoMessages): set<Address> {
    set a | a in bucket && b.IsValidProposalHash(proposal, ExtractPrepareHash(bucket[a]))
  }

  /** The senders of the stored COMMITs that name it and seal it. */
  ghost function CommitSenders(b: Backend, proposal: Option<Proposal>, bucket: ProtoMessages): set<Address> {
    set a | a in bucket && b.IsValidProposalHash(proposal, ExtractCommitHash(bucket[a]))
            && b.validSeal(ExtractCommitHash(bucket[a]).Content(), ExtractCommittedSeal(bucket[a]))
  }

  /** The senders of the stored ROUND_CHANGEs whose certificate, if any, is valid for
      their view and belongs to their proposal. */
  ghost function RoundChangeSenders(b: Backend, bucket: ProtoMessages, view: View): set<Address> {
    set a | a in bucket && UsableRoundChange(b, bucket[a], view)
  }

  /** The round is positive and not the own one with a proposal in hand, and a quorum
      has sent usable ROUND_CHANGEs for it. */
  ghost predicate Certified(b: Backend, rounds: RoundMessageMap, view: View, hasAcceptedProposal: bool, round: nat) {
    && round > 0 && round in rounds && (round == view.round ==> !hasAcceptedProposal)
    && IsQuorum(b.powers, RoundChangeSenders(b, rounds[round], View(view.height, round)))
  }

  /** Of one bucket only the messages of these senders are left. */
  ghost function Kept(e: Entries, kind: MessageType, view: View, senders: set<Address>): Entries {
    imap k: Key | k in e && (k.kind == kind && k.view == view ==> k.from in senders) :: e[k]
  }

  lemma FetchKeeps(e: Entries, bucket: ProtoMessages, view: View, kind: MessageType, isValid: Message -> bool,
                   senders: set<Address>)
    requires forall a :: a in bucket <==> Key(kind, view, a) in e
    requires forall a :: a in bucket ==> bucket[a] == e[Key(kind, view, a)]
    requires forall a :: a in senders <==> a in bucket && isValid(bucket[a])
    ensures Apply(e, Fetch(view, kind, isValid)) == Kept(e, kind, view, senders)
  {
    var x, y := Apply(e, Fetch(view, kind, isValid)), Kept(e, kind, view, senders);
    forall k: Key ensures k in x <==> k in y ensures k in x ==> x[k] == y[k] {
      if k in e && k.kind == kind && k.view == view {
        assert k == Key(kind, view, k.from);
      }
    }
  }

  /** The list holds the messages of these senders, once each. */
  ghost predicate HoldsExactly(list: seq<Message>, bucket: ProtoMessages, senders: set<Address>) {
    && |list| == |senders| && senders <= bucket.Keys
    && (forall m :: m in list ==> m.from in senders && bucket[m.from] == m)
    && (forall a :: a in senders ==> bucket[a] in list)
  }

  /** In queues of own keys, the keys of a bucket are the senders of its messages. */
  lemma KeysAreSenders(P: Params, sent: set<Message>, e: Entries, bucket: ProtoMessages, view: View, kind: MessageType)
    requires StoredOk(P, sent, e) && BucketOf(e, bucket, view, kind)
    ensures forall a :: a in bucket ==>
              bucket[a].from == a && bucket[a].view == view && bucket[a].kind == kind && P.b.validSender(bucket[a])
  {
    forall a | a in bucket ensures KeyOf(bucket[a]) == Key(kind, view, a) && P.b.validSender(bucket[a]) {
      assert Key(kind, view, a) in e;
    }
  }

  lemma ListsExactly(list: seq<Message>, bucket: ProtoMessages, isValid: Message -> bool, senders: set<Address>)
    requires Lists(list, bucket, isValid) && forall a :: a in bucket ==> bucket[a].from == a
    requires forall a :: a in senders <==> a in bucket && isValid(bucket[a])
    ensures HoldsExactly(list, bucket, senders) && Senders(list) == senders
  {
    ListedCount(list, bucket, isValid);
    assert senders == set a | a in bucket && isValid(bucket[a]);
    var keys :| ListedAs(list, bucket, isValid, keys);
    forall m | m in list ensures m.from in senders && bucket[m.from] == m {
      var i :| 0 <= i < |list| && list[i] == m;
      assert keys[i] in bucket;
    }
    forall a | a in senders ensures bucket[a] in list && a in Senders(list) {
      var i :| 0 <= i < |keys| && keys[i] == a;
      assert list[i] == bucket[a];
    }
  }

  /** The tests of handleRoundChangeMessage on stored messages are the protocol's. */
  lemma ValidIsUsable(b: Backend, view: View, m: Message)
    requires IsRoundChangeFor(b, m, m.view) && m.view.height == view.height
    ensures ValidRoundChange(b, view, m) <==> UsableRoundChange(b, m, m.view)
  {
  }

  /** The messages of the highest round for which a certificate can be made, and
      nothing exactly if there is no such round. */
  ghost predicate HighestCertified(b: Backend, rounds: RoundMessageMap, view: View, hasAcceptedProposal: bool,
                                   rcs: Option<seq<Message>>) {
    if rcs.None? then forall r: nat :: !Certified(b, rounds, view, hasAcceptedProposal, r)
    else
      && rcs.value != []
      && var round := rcs.value[0].view.round;
      && Certified(b, rounds, view, hasAcceptedProposal, round)
      && (forall r: nat :: Certified(b, rounds, view, hasAcceptedProposal, r) ==> r <= round)
      && HoldsExactly(rcs.value, rounds[round], RoundChangeSenders(b, rounds[round], View(view.height, round)))
  }

  lemma HighestIsCertified(P: Params, sent: set<Message>, e: Entries, rounds: RoundMessageMap, view: View,
                           hasAcceptedProposal: bool, isValidMsg: Message -> bool,
                           isValidRCC: (nat, seq<Message>) -> bool, rcs: Option<seq<Message>>)
    requires StoredOk(P, sent, e)
    requires forall r :: r in rounds ==> BucketOf(e, rounds[r], View(view.height, r), ROUND_CHANGE)
    requires forall m :: isValidMsg(m) <==> ValidRoundChange(P.b, view, m)
    requires forall r, msgs :: isValidRCC(r, msgs) <==> ValidRCC(P.b, view, hasAcceptedProposal, r, msgs)
    requires rcs.None? ==> forall r: nat :: !HasRCC(rounds, isValidMsg, isValidRCC, r)
    requires rcs.Some? ==>
               && rcs.value != [] && IsHighestRCC(rounds, isValidMsg, isValidRCC, rcs.value[0].view.round)
               && Lists(rcs.value, rounds[rcs.value[0].view.round], isValidMsg)
    ensures HighestCertified(P.b, rounds, view, hasAcceptedProposal, rcs)
  {
    assert rcs.Some? ==> rcs.value[0].view.round in rounds;
    hide StoredOk, BucketOf, ValidRoundChange, ValidRCC, HasRCC, Certified, Lists, HoldsExactly;
    forall r: nat
      ensures HasRCC(rounds, isValidMsg, isValidRCC, r) <==> Certified(P.b, rounds, view, hasAcceptedProposal, r)
    {
      if r in rounds {
        KeysAreSenders(P, sent, e, rounds[r], View(view.height, r), ROUND_CHANGE);
      }
      CertifiedIff(P.b, rounds, view, hasAcceptedProposal, r, isValidMsg, isValidRCC);
    }
    if rcs.Some? {
      var round := rcs.value[0].view.round;
      KeysAreSenders(P, sent, e, rounds[round], View(view.height, round), ROUND_CHANGE);
      StoredUsable(P.b, rounds[round], View(view.height, round), view, isValidMsg);
      ListsExactly(rcs.value, rounds[round], isValidMsg,
                   RoundChangeSenders(P.b, rounds[round], View(view.height, round)));
    }
  }

  lemma StoredUsable(b: Backend, bucket: ProtoMessages, own: View, view: View, isValidMsg: Message -> bool)
    requires forall a :: a in bucket ==> IsRoundChangeFor(b, bucket[a], own)
    requires own.height == view.height && forall m :: isValidMsg(m) <==> ValidRoundChange(b, view, m)
    ensures forall a :: a in RoundChangeSenders(b, bucket, own) <==> a in bucket && isValidMsg(bucket[a])
  {
    forall a | a in bucket ensures a in RoundChangeSenders(b, bucket, own) <==> isValidMsg(bucket[a]) {
      ValidIsUsable(b, view, bucket[a]);
    }
  }

  lemma {:induction false} SomeListing(bucket: ProtoMessages, isValid: Message -> bool, rest: set<Address>)
      returns (list: seq<Message>, keys: seq<Address>)
    requires rest <= bucket.Keys
    ensures |keys| == |list|
    ensures forall i :: 0 <= i < |keys| ==> keys[i] in rest && list[i] == bucket[keys[i]] && isValid(list[i])
    ensures forall i, j :: 0 <= i < j < |keys| ==> keys[i] != keys[j]
    ensures forall a :: a in rest && isValid(bucket[a]) ==> a in keys
    decreases rest
  {
    list, keys := [], [];
    if rest != {} {
      var a := Pick(rest);
      list, keys := SomeListing(bucket, isValid, rest - {a});
      if isValid(bucket[a]) {
        list, keys := list + [bucket[a]], keys + [a];
      }
    }
  }

  /** A certificate can be made for a round exactly if a quorum has sent usable
      ROUND_CHANGEs for it. */
  lemma CertifiedIff(b: Backend, rounds: RoundMessageMap, view: View, hasAcceptedProposal: bool, round: nat,
                     isValidMsg: Message -> bool, isValidRCC: (nat, seq<Message>) -> bool)
    requires forall m :: isValidMsg(m) <==> ValidRoundChange(b, view, m)
    requires forall r, msgs :: isValidRCC(r, msgs) <==> ValidRCC(b, view, hasAcceptedProposal, r, msgs)
    requires round in rounds ==> forall a :: a in rounds[round] ==>
               rounds[round][a].from == a && IsRoundChangeFor(b, rounds[round][a], View(view.height, round))
    ensures HasRCC(rounds, isValidMsg, isValidRCC, round) <==> Certified(b, rounds, view, hasAcceptedProposal, round)
  {
    if round in rounds {
      var bucket, senders := rounds[round], RoundChangeSenders(b, rounds[round], View(view.height, round));
      StoredUsable(b, bucket, View(view.height, round), view, isValidMsg);
      hide ValidRoundChange, UsableRoundChange, IsQuorum;
      forall list | Lists(list, bucket, isValidMsg) ensures Senders(list) == senders {
        ListsExactly(list, bucket, isValidMsg, senders);
      }
      var list, keys := SomeListing(bucket, isValidMsg, bucket.Keys);
      assert ListedAs(list, bucket, isValidMsg, keys);
      assert Lists(list, bucket, isValidMsg);
    }
  }

  /** Not of an earlier height, nor of an earlier round of the same height. */
  predicate NotBefore(view: View, own: View) {
    view.height > own.height || (view.height == own.height && view.round >= own.round)
  }

  class Node {
    const b: Backend
    const id: Address
    const state: StateCell
    const messages: Messages
    const validators: ValidatorManager
    /** What has been multicast, in order. */
    var multicast: seq<Message>
    var inserted: Option<Block>

    constructor (b: Backend, id: Address, height: nat)
      ensures this.b == b && this.id == id && fresh(state) && fresh(messages) && fresh(validators)
      ensures state.Value() == Initial(height) && messages.Contents() == imap[]
      ensures multicast == [] && inserted == None
      ensures forall P: Params, sent :: P.b == b ==> Valid(P, sent)
    {
      this.b := b;
      this.id := id;
      state := new StateCell(height);
      messages := new Messages();
      validators := new ValidatorManager();
      multicast := [];
      inserted := None;
    }

    ghost predicate Valid(P: Params, sent: set<Message>)
      reads this, state, messages, validators
    {
      && P.b == b
      && validators.Valid()
      && (validators.validatorsVotingPower.Some? ==> validators.validatorsVotingPower.value == b.powers)
      && StoredOk(P, sent, messages.Contents())
    }

    /** RunSequence has set the voting powers. */
    predicate Initialised()
      reads validators
    {
      validators.validatorsVotingPower == Some(b.powers)
    }

    /** How RunSequence begins: the state is reset before the voting powers are asked
        for, and without them, or with a total of zero or less, nothing else is done. */
    method BeginSequence(ghost P: Params, ghost sent: set<Message>, height: nat, powers: Option<map<Address, int>>)
        returns (ok: bool)
      requires Valid(P, sent) && (powers.Some? ==> powers.value == b.powers)
      modifies state, validators, messages
      ensures Valid(P, sent) && state.Value() == Initial(height)
      ensures ok <==> powers.Some? && TotalPower(b.powers) > 0
      ensures ok ==> Initialised() && messages.Contents() == Apply(old(messages.Contents()), Operation.Prune(height))
      ensures !ok ==> messages.Contents() == old(messages.Contents())
                      && validators.validatorsVotingPower == old(validators.validatorsVotingPower)
    {
      state.Reset(height);
      if powers.None? {
        return false;
      }
      ok := validators.SetCurrentVotingPower(powers.value);
      if !ok {
        return;
      }
      StoredOkKept(P, sent, messages.Contents(), Operation.Prune(height));
      messages.PruneByHeight(height);
    }

    // ---------- messages coming in ----------

    predicate IsAcceptableMessage(message: Message)
      reads state
    {
      && b.validSender(message)
      && state.view.height <= message.view.height
      && (state.view.height == message.view.height ==> message.view.round >= state.view.round)
    }

    /** What hasQuorumByMsgType asks of the senders of a list of messages. Until
        the voting powers are set, only a PREPREPARE is ever enough. */
    ghost predicate Reached(kind: MessageType, senders: set<Address>)
      reads state, validators
    {
      var proposer := if state.proposalMessage.Some? then Some(state.proposalMessage.value.from) else None;
      if kind == PREPREPARE then senders != {} else
        && validators.validatorsVotingPower.Some?
        && IsQuorumFor(validators.validatorsVotingPower.value, kind, proposer, senders)
    }

    method HasQuorumByMsgType(msgs: seq<Message>, kind: MessageType) returns (ok: bool)
      requires validators.Valid()
      ensures ok <==> Reached(kind, Senders(msgs))
      ensures kind == PREPREPARE ==> (ok <==> msgs != [])
      ensures kind == PREPARE ==>
                (ok <==> && state.proposalMessage.Some? && state.proposalMessage.value.from !in Senders(msgs)
                         && validators.Accepts({state.proposalMessage.value.from} + Senders(msgs)))
      ensures kind == COMMIT || kind == ROUND_CHANGE ==> (ok <==> validators.Accepts(Senders(msgs)))
    {
      match kind
      case PREPREPARE =>
        ok := |msgs| >= 1;
        assert ok ==> msgs[0].from in Senders(msgs);
      case PREPARE => ok := validators.HasPrepareQuorum(state.proposalMessage, msgs);
      case COMMIT =>
        var addresses := ConvertMessageToAddressSet(msgs);
        ok := validators.HasQuorum(addresses);
      case ROUND_CHANGE =>
        var addresses := ConvertMessageToAddressSet(msgs);
        ok := validators.HasQuorum(addresses);
    }

    /** Whether a bucket as it is now has reached its quorum: the test AddMessage
        and subscribe make before they signal. */
    method BucketReached(ghost P: Params, ghost sent: set<Message>, view: View, kind: MessageType) returns (ok: bool)
      requires Valid(P, sent)
      modifies messages
      ensures Valid(P, sent) && messages.Contents() == old(messages.Contents())
      ensures messages.Bucket(kind, view) == old(messages.Bucket(kind, view))
      ensures ok <==> Reached(kind, messages.Bucket(kind, view).Keys)
    {
      hide Apply, Lists;
      ghost var e, bucket := messages.Contents(), messages.Bucket(kind, view);
      NothingInvalid(e, bucket, view, kind, AnyMessage());
      KeysAreSenders(P, sent, e, bucket, view, kind);
      var msgs := messages.GetValidMessages(view, kind, AnyMessage());
      SameBucket(e, bucket, messages.Bucket(kind, view), view, kind);
      ListsExactly(msgs, bucket, AnyMessage(), bucket.Keys);
      ok := HasQuorumByMsgType(msgs, kind);
    }

    lemma SameBucket(e: Entries, before: ProtoMessages, after: ProtoMessages, view: View, kind: MessageType)
      requires forall a :: a in before <==> Key(kind, view, a) in e
      requires forall a :: a in before ==> before[a] == e[Key(kind, view, a)]
      requires forall a :: a in after <==> Key(kind, view, a) in e
      requires forall a :: a in after ==> after[a] == e[Key(kind, view, a)]
      ensures before == after
    {
      assert before.Keys == after.Keys;
    }

    /** AddMessage; a missing message or view is None. The event is signalled for
        a message of the current height whose bucket has a quorum with it. */
    method AddMessage(ghost P: Params, ghost sent: set<Message>, incoming: Option<Message>) returns (signal: bool)
      requires Valid(P, sent) && (incoming.Some? ==> Known(P, sent, incoming.value))
      modifies messages
      ensures Valid(P, sent)
      ensures messages.Contents() ==
              if incoming.Some? && b.validSender(incoming.value) && NotBefore(incoming.value.view, state.view)
              then old(messages.Contents())[KeyOf(incoming.value) := incoming.value] else old(messages.Contents())
      ensures signal <==> && incoming.Some? && b.validSender(incoming.value)
                          && NotBefore(incoming.value.view, state.view)
                          && var m := incoming.value;
                          m.view.height == state.view.height && Reached(m.kind, messages.Bucket(m.kind, m.view).Keys)
    {
      signal := false;
      if incoming.None? {
        return;
      }
      var message := incoming.value;
      if IsAcceptableMessage(message) {
        StoredOkKept(P, sent, messages.Contents(), Add(message));
        messages.AddMessage(message);
        if message.view.height == state.view.height {
          signal := BucketReached(P, sent, message.view, message.kind);
        }
      }
    }

    // ---------- the phases ----------

    /** GetValidMessages, on queues whose messages could all be presented. */
    method FetchValid(ghost P: Params, ghost sent: set<Message>, view: View, kind: MessageType,
                      isValid: Message -> bool)
        returns (list: seq<Message>, ghost senders: set<Address>)
      requires Valid(P, sent)
      modifies messages
      ensures Valid(P, sent)
      ensures forall a :: a in senders <==>
                a in old(messages.Bucket(kind, view)) && isValid(old(messages.Bucket(kind, view))[a])
      ensures HoldsExactly(list, old(messages.Bucket(kind, view)), senders) && Senders(list) == senders
      ensures messages.Contents() == Kept(old(messages.Contents()), kind, view, senders)
      ensures messages.Contents() == Apply(old(messages.Contents()), Fetch(view, kind, isValid))
      ensures Fetched(P, sent, list, view, kind)
      ensures forall i :: 0 <= i < |list| ==> isValid(list[i])
    {
      ghost var e, bucket := messages.Contents(), messages.Bucket(kind, view);
      assert BucketOf(e, bucket, view, kind);
      KeysAreSenders(P, sent, e, bucket, view, kind);
      senders := set a | a in bucket && isValid(bucket[a]);
      FetchKeeps(e, bucket, view, kind, isValid, senders);
      list := messages.GetValidMessages(view, kind, isValid);
      ListsExactly(list, bucket, isValid, senders);
      StoredOkKept(P, sent, e, Fetch(view, kind, isValid));
      ListedIsFetched(P, sent, e, bucket, view, kind, isValid, list);
    }

    /** handlePrePrepare, given its validity test: any one of the valid proposals. */
    method HandlePrePrepare(ghost P: Params, ghost sent: set<Message>, view: View, isValid: Message -> bool)
        returns (proposal: Option<Message>)
      requires Valid(P, sent) && forall m :: isValid(m) <==> ValidPrePrepare(b, id, m, view)
      modifies messages
      ensures Valid(P, sent)
      ensures messages.Contents() == Apply(old(messages.Contents()), Fetch(view, PREPREPARE, isValid))
      ensures proposal.Some? ==> ProposalFor(P, sent, id, proposal.value, view)
      ensures proposal.Some? ==> proposal.value in old(messages.Bucket(PREPREPARE, view)).Values
      ensures proposal.None? ==> forall a :: a in old(messages.Bucket(PREPREPARE, view)) ==>
                !ValidPrePrepare(b, id, old(messages.Bucket(PREPREPARE, view))[a], view)
    {
      var msgs, senders := FetchValid(P, sent, view, PREPREPARE, isValid);
      if |msgs| < 1 {
        return None;
      }
      assert [msgs[0]][0] == msgs[0];
      return Some(msgs[0]);
    }

    /** The message buildProposal makes of the certificate it has waited for, if it
        needs one; `newRaw` is the data the application would build. */
    method BuildProposal(ghost P: Params, view: View, rcs: seq<Message>, newRaw: Bytes, signature: Bytes)
        returns (m: Message)
      requires P.b == b && (view.round > 0 ==> AllReadable(rcs))
      ensures m == ProposedMessage(P, view, Propose(id, rcs, newRaw, signature))
      ensures view.round == 0 ==>
                ExtractProposal(m) == Some(Proposal(newRaw, 0)) && ExtractRoundChangeCertificate(m) == None
      ensures view.round > 0 ==>
                var raw := if Chosen(rcs).0 == Nil then newRaw else Chosen(rcs).0;
                && ExtractProposal(m) == Some(Proposal(raw, view.round))
                && ExtractRoundChangeCertificate(m) == Some(RoundChangeCertificate(rcs))
    {
      if view.round == 0 {
        return BuildPrePrepareMessage(b, id, newRaw, None, view, signature);
      }
      var previousProposal := ChooseProposal(rcs);
      if previousProposal == Nil {
        return BuildPrePrepareMessage(b, id, newRaw, Some(RoundChangeCertificate(rcs)), view, signature);
      }
      return BuildPrePrepareMessage(b, id, previousProposal, Some(RoundChangeCertificate(rcs)), view, signature);
    }

    /** isValidMsgFn of handleRoundChangeMessage. */
    method IsValidRoundChange(view: View, m: Message) returns (ok: bool)
      requires validators.Valid() && Initialised()
      ensures ok <==> ValidRoundChange(b, view, m)
    {
      var proposal, certificate := ExtractLastPreparedProposal(m), ExtractLatestPC(m);
      var valid := CheckPC(b, validators, certificate, m.view.round, view.height);
      if !valid {
        return false;
      }
      ok := ProposalMatchesCertificate(b, proposal, certificate);
    }

    /** isValidRCCFn, given whether a proposal was in hand at the start. */
    method IsValidRCC(view: View, hasAcceptedProposal: bool, round: nat, msgs: seq<Message>) returns (ok: bool)
      requires validators.Valid() && Initialised()
      ensures ok <==> ValidRCC(b, view, hasAcceptedProposal, round, msgs)
    {
      if round == view.round && hasAcceptedProposal {
        return false;
      }
      ok := HasQuorumByMsgType(msgs, ROUND_CHANGE);
    }

    /** handlePrepare: with a quorum of PREPAREs for the accepted proposal, one
        COMMIT is multicast and the lock recorded; otherwise nothing happens. */
    method HandlePrepare(ghost P: Params, ghost sent: set<Message>, view: View, seal: Bytes, signature: Bytes)
        returns (ok: bool, ghost prepares: seq<Message>)
      requires Valid(P, sent) && Initialised() && view == state.view
      modifies messages, state, this`multicast
      ensures Valid(P, sent) && state.view == old(state.view)
      ensures var bucket := old(messages.Bucket(PREPARE, view));
              var senders := PrepareSenders(b, old(state.Value()).GetProposal(), bucket);
              && HoldsExactly(prepares, bucket, senders)
              && messages.Contents() == Kept(old(messages.Contents()), PREPARE, view, senders)
              && (ok <==> && old(state.proposalMessage).Some? && old(state.proposalMessage).value.from !in senders
                          && IsQuorum(b.powers, {old(state.proposalMessage).value.from} + senders))
      ensures ok <==> PreparesFor(P, sent, old(state.Value()), prepares)
      ensures ok ==>
                var lock := PreparedCertificate(old(state.proposalMessage), Some(prepares));
                state.Value() == old(state.Value()).Lock(lock)
      ensures ok ==>
                var commit := BuildCommitMessage(id, old(state.Value()).GetProposalHash(), view, seal, signature);
                multicast == old(multicast) + [commit]
      ensures !ok ==> state.Value() == old(state.Value()) && multicast == old(multicast)
    {
      hide PreparesFor, Fetched, Apply, Lists, StoredOk, HoldsExactly, Kept, IsQuorum;
      hide Messages.Contents, Messages.Bucket;
      var proposal := state.Value().GetProposal();
      ghost var bucket := messages.Bucket(PREPARE, view);
      var msgs, senders := FetchValid(P, sent, view, PREPARE, ValidPrepare(b, proposal));
      assert senders == PrepareSenders(b, proposal, bucket);
      ListedPrepares(P, sent, state.Value(), msgs);
      prepares := msgs;
      ok := HasQuorumByMsgType(msgs, PREPARE);
      if !ok {
        return;
      }
      multicast := multicast + [BuildCommitMessage(id, state.Value().GetProposalHash(), view, seal, signature)];
      state.FinalizePrepare(PreparedCertificate(state.proposalMessage, Some(msgs)), proposal);
    }

    /** handleCommit: with a quorum of sealed COMMITs for the accepted proposal,
        the seals are kept and the phase is fin; otherwise nothing happens. */
    method HandleCommit(ghost P: Params, ghost sent: set<Message>, view: View)
        returns (ok: bool, ghost commits: seq<Message>)
      requires Valid(P, sent) && Initialised() && view == state.view
      modifies messages, state
      ensures Valid(P, sent) && state.view == old(state.view)
      ensures var bucket := old(messages.Bucket(COMMIT, view));
              var senders := CommitSenders(b, old(state.Value()).GetProposal(), bucket);
              && HoldsExactly(commits, bucket, senders)
              && messages.Contents() == Kept(old(messages.Contents()), COMMIT, view, senders)
              && (ok <==> IsQuorum(b.powers, senders))
      ensures ok <==> CommitsFor(P, sent, old(state.Value()), commits)
      ensures ok ==> state.Value() == old(state.Value()).Seal(SealsOf(commits))
      ensures !ok ==> state.Value() == old(state.Value())
    {
      hide CommitsFor, Fetched, Apply, Lists, StoredOk, HoldsExactly, Kept, Messages.Contents, Messages.Bucket;
      var proposal := state.Value().GetProposal();
      ghost var bucket := messages.Bucket(COMMIT, view);
      var msgs, senders := FetchValid(P, sent, view, COMMIT, ValidCommit(b, proposal));
      assert senders == CommitSenders(b, proposal, bucket);
      ListedCommits(P, sent, state.Value(), msgs);
      commits := msgs;
      ok := HasQuorumByMsgType(msgs, COMMIT);
      if !ok {
        return;
      }
      var seals := ExtractCommittedSeals(msgs);
      assert seals.Some?;
      assert seals.value == SealsOf(msgs);
      state.seals := seals.value;
      state.name := Fin;
    }

    lemma VerdictIsOrderFree(view: View, rounds: RoundMessageMap, isValidMsg: Message -> bool,
                             isValidRCC: (nat, seq<Message>) -> bool)
      requires forall r, msgs :: isValidRCC(r, msgs) <==> ValidRCC(b, view, state.Value().GetProposal().Some?, r, msgs)
      ensures OrderFree(rounds, isValidMsg, isValidRCC)
    {
      forall r, x, y | r in rounds && Lists(x, rounds[r], isValidMsg) && Lists(y, rounds[r], isValidMsg)
        ensures isValidRCC(r, x) == isValidRCC(r, y)
      {
        ListedSenders(x, rounds[r], isValidMsg);
        ListedSenders(y, rounds[r], isValidMsg);
        assert isValidRCC(r, x) <==> ValidRCC(b, view, state.Value().GetProposal().Some?, r, x);
        assert isValidRCC(r, y) <==> ValidRCC(b, view, state.Value().GetProposal().Some?, r, y);
      }
    }

    /** handleRoundChangeMessage, given its two tests. It looks for the highest
        round at all, so the certificate is for a round above the view exactly if
        some round above the view has one; otherwise it may be for a lower one. */
    method HandleRoundChangeMessage(ghost P: Params, ghost sent: set<Message>, view: View,
                                    isValidMsg: Message -> bool, isValidRCC: (nat, seq<Message>) -> bool)
        returns (rcs: Option<seq<Message>>)
      requires Valid(P, sent) && Initialised()
      requires forall m :: isValidMsg(m) <==> ValidRoundChange(b, view, m)
      requires forall r, msgs :: isValidRCC(r, msgs) <==> ValidRCC(b, view, state.Value().GetProposal().Some?, r, msgs)
      ensures rcs.Some? ==> RoundChangesFor(P, sent, state.Value().(view := view), rcs.value)
      ensures var rounds, accepted := messages.Rounds(ROUND_CHANGE, view.height), state.Value().GetProposal().Some?;
              HighestCertified(b, rounds, view, accepted, rcs)
      ensures rcs.None? <==>
              forall r: nat :: !HasRCC(messages.Rounds(ROUND_CHANGE, view.height), isValidMsg, isValidRCC, r)
      ensures rcs.Some? ==>
                IsHighestRCC(messages.Rounds(ROUND_CHANGE, view.height), isValidMsg, isValidRCC,
                             rcs.value[0].view.round)
      ensures rcs.Some? ==>
                var rounds, round := messages.Rounds(ROUND_CHANGE, view.height), rcs.value[0].view.round;
                round in rounds && Lists(rcs.value, rounds[round], isValidMsg)
      ensures (rcs.Some? && rcs.value[0].view.round > view.round)
              <==> exists r: nat :: r > view.round
                                    && HasRCC(messages.Rounds(ROUND_CHANGE, view.height), isValidMsg, isValidRCC, r)
    {
      hide Certified, Lists, HoldsExactly;
      ghost var e, rounds := messages.Contents(), messages.Rounds(ROUND_CHANGE, view.height);
      ghost var accepted := state.Value().GetProposal().Some?;
      VerdictIsOrderFree(view, rounds, isValidMsg, isValidRCC);
      ghost var highest;
      rcs, highest := messages.GetExtendedRCC(view.height, isValidMsg, isValidRCC);
      assert rounds == messages.Rounds(ROUND_CHANGE, view.height);
      assert rcs.Some? ==> highest in rounds;
      hide HasRCC;
      assert forall r :: r in rounds ==> BucketOf(e, rounds[r], View(view.height, r), ROUND_CHANGE) by {
        forall r | r in rounds ensures BucketOf(e, rounds[r], View(view.height, r), ROUND_CHANGE) {
          assert rounds[r] == messages.Bucket(ROUND_CHANGE, View(view.height, r));
        }
      }
      hide Messages.Contents, Messages.Bucket, StoredOk, BucketOf, ValidRCC, ValidRoundChange;
      if rcs.Some? {
        FoundIsUsable(P, sent, e, rounds, view, accepted, isValidMsg, isValidRCC, rcs.value, highest);
      }
      HighestIsCertified(P, sent, e, rounds, view, accepted, isValidMsg, isValidRCC, rcs);
    }

    lemma FoundIsUsable(P: Params, sent: set<Message>, e: Entries, rounds: RoundMessageMap, view: View, accepted: bool,
                        isValidMsg: Message -> bool, isValidRCC: (nat, seq<Message>) -> bool, rcs: seq<Message>,
                        highest: nat)
      requires P.b == b && StoredOk(P, sent, e) && TotalPower(b.powers) > 0
      requires HasRCC(rounds, isValidMsg, isValidRCC, highest)
      requires BucketOf(e, rounds[highest], View(view.height, highest), ROUND_CHANGE)
      requires accepted == state.Value().GetProposal().Some?
      requires forall m :: isValidMsg(m) <==> ValidRoundChange(b, view, m)
      requires forall r, msgs :: isValidRCC(r, msgs) <==> ValidRCC(b, view, accepted, r, msgs)
      requires Lists(rcs, rounds[highest], isValidMsg)
      ensures rcs != [] && rcs[0].view.round == highest && RoundChangesFor(P, sent, state.Value().(view := view), rcs)
    {
      var own := View(view.height, highest);
      ListedIsFetched(P, sent, e, rounds[highest], own, ROUND_CHANGE, isValidMsg, rcs);
      CertificateListed(rounds, view, accepted, isValidMsg, isValidRCC, rcs, highest);
      hide StoredOk, BucketOf, HasRCC, Lists, Known;
      assert rcs != [] by {
        assert PowerOf(b.powers, {}) == 0;
        assert Senders([]) == {};
      }
      assert rcs[0].view == own;
      forall i | 0 <= i < |rcs| ensures UsableRoundChange(b, rcs[i], own) {
        assert ValidRoundChange(b, view, rcs[i]);
      }
    }

    lemma CertificateListed(rounds: RoundMessageMap, view: View, accepted: bool, isValidMsg: Message -> bool,
                            isValidRCC: (nat, seq<Message>) -> bool, rcs: seq<Message>, highest: nat)
      requires HasRCC(rounds, isValidMsg, isValidRCC, highest) && Lists(rcs, rounds[highest], isValidMsg)
      requires forall r, msgs :: isValidRCC(r, msgs) <==> ValidRCC(b, view, accepted, r, msgs)
      ensures ValidRCC(b, view, accepted, highest, rcs)
    {
      var list :| Lists(list, rounds[highest], isValidMsg) && isValidRCC(highest, list);
      ListedSenders(list, rounds[highest], isValidMsg);
      ListedSenders(rcs, rounds[highest], isValidMsg);
    }

    // ---------- moving on ----------

    method MoveToNewRound(round: nat)
      modifies state
      ensures state.Value() == old(state.Value()).MoveTo(round)
    {
      state.view := View(state.view.height, round);
      state.roundStarted := false;
      state.proposalMessage := None;
      state.name := NewRound;
    }

    method AcceptProposal(proposal: Message)
      modifies state
      ensures state.Value() == old(state.Value()).Accept(proposal)
    {
      state.proposalMessage := Some(proposal);
      state.name := Prepare;
    }

    method SendPrepareMessage(view: View, signature: Bytes)
      requires state.proposalMessage.Some?
      modifies this`multicast
      ensures multicast == old(multicast) + [BuildPrepareMessage(id, state.Value().GetProposalHash(), view, signature)]
    {
      multicast := multicast + [BuildPrepareMessage(id, state.Value().GetProposalHash(), view, signature)];
    }

    /** The branches of RunSequence, after the barrier: the state moves as module
        RoundLoop says, and the message that goes out is the one it says. */
    method OnNewProposal(view: View, proposal: Message, signature: Bytes)
      modifies state, this`multicast
      ensures state.Value() == Move(old(state.Value()), view, FutureProposal(proposal))
      ensures multicast == old(multicast) + [BuildPrepareMessage(id, ExtractProposalHash(proposal), view, signature)]
    {
      MoveToNewRound(proposal.view.round);
      AcceptProposal(proposal);
      state.roundStarted := true;
      SendPrepareMessage(view, signature);
    }

    method OnRoundCertificate(view: View, rcs: seq<Message>)
      requires rcs != []
      modifies state
      ensures state.Value() == Move(old(state.Value()), view, FutureCertificate(rcs))
    {
      MoveToNewRound(rcs[0].view.round);
    }

    method OnRoundExpired(height: nat, view: View, signature: Bytes)
      modifies state, this`multicast
      ensures state.Value() == Move(old(state.Value()), view, Expired)
      ensures multicast == old(multicast)
                + [BuildRoundChangeMessage(id, old(state.latestPreparedProposal), old(state.latestPC),
                                           View(height, NextRound(view.round)), signature)]
    {
      var newRound := NextRound(view.round);
      MoveToNewRound(newRound);
      multicast := multicast + [BuildRoundChangeMessage(id, state.latestPreparedProposal, state.latestPC,
                                                        View(height, newRound), signature)];
    }

    /** insertBlock: the block is inserted as it stands and older heights pruned. */
    method InsertBlock(ghost P: Params, ghost sent: set<Message>)
      requires Valid(P, sent)
      modifies messages, this`inserted
      ensures Valid(P, sent)
      ensures inserted == Some(Block(state.Value().RawData(), state.view.round, state.seals))
      ensures messages.Contents() == Apply(old(messages.Contents()), Operation.Prune(state.view.height))
    {
      inserted := Some(Block(state.Value().RawData(), state.view.round, state.seals));
      StoredOkKept(P, sent, messages.Contents(), Operation.Prune(state.view.height));
      messages.PruneByHeight(state.view.height);
    }
  }
}
