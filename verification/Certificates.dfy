/** messages/helpers.go and the certificate checks of core/ibft.go: what a
    prepared certificate is, and when it belongs to a proposal. */
module Certificates {
  import opened Types
  import opened Quorum

  // ---------- lists of messages ----------

  method HasUniqueSenders(msgs: seq<Message>) returns (ok: bool)
    ensures ok <==> msgs != [] && DistinctSenders(msgs)
  {
    if |msgs| < 1 {
      return false;
    }
    var senders: set<Address> := {};
    var i := 0;
    while i < |msgs|
      invariant 0 <= i <= |msgs|
      invariant DistinctSenders(msgs[..i])
      invariant forall a :: a in senders <==> exists j :: 0 <= j < i && msgs[j].from == a
    {
      if msgs[i].from in senders {
        return false;
      }
      senders := senders + {msgs[i].from};
      i := i + 1;
    }
    assert msgs[..i] == msgs;
    return true;
  }

  /** The seals of a list of COMMIT messages, in order; any other message is an error. */
  method ExtractCommittedSeals(msgs: seq<Message>) returns (seals: Option<seq<Option<CommittedSeal>>>)
    ensures seals.Some? <==> forall m :: m in msgs ==> m.kind == COMMIT
    ensures seals.Some? ==> |seals.value| == |msgs|
    ensures seals.Some? ==> forall i :: 0 <= i < |msgs| ==> seals.value[i] == ExtractCommittedSeal(msgs[i])
  {
    var acc := [];
    var i := 0;
    while i < |msgs|
      invariant 0 <= i <= |msgs| && |acc| == i
      invariant forall j :: 0 <= j < i ==> msgs[j].kind == COMMIT && acc[j] == ExtractCommittedSeal(msgs[j])
    {
      if msgs[i].kind != COMMIT {
        assert msgs[i] in msgs;
        return None;
      }
      acc := acc + [ExtractCommittedSeal(msgs[i])];
      i := i + 1;
    }
    return Some(acc);
  }

  // ---------- prepared certificates ----------

  function PCMessageHash(m: Message): Bytes {
    if m.kind == PREPREPARE then ExtractProposalHash(m) else ExtractPrepareHash(m)
  }

  /** One height, one round below the limit, only PREPREPARE and PREPARE, one
      sender each. The hashes agree pairwise, except that hashes left nil
      before the first one given are not compared with it. */
  ghost predicate ValidPCMessages(msgs: seq<Message>, height: nat, roundLimit: nat) {
    && msgs != []
    && (forall i :: 0 <= i < |msgs| ==> msgs[i].view == View(height, msgs[0].view.round))
    && msgs[0].view.round < roundLimit
    && (forall i :: 0 <= i < |msgs| ==> msgs[i].kind == PREPREPARE || msgs[i].kind == PREPARE)
    && (forall i, j :: 0 <= i < j < |msgs| && PCMessageHash(msgs[i]) != Nil ==>
          Equal(PCMessageHash(msgs[i]), PCMessageHash(msgs[j])))
    && DistinctSenders(msgs)
  }

  method AreValidPCMessages(msgs: seq<Message>, height: nat, roundLimit: nat) returns (ok: bool)
    ensures ok <==> ValidPCMessages(msgs, height, roundLimit)
  {
    if |msgs| < 1 {
      return false;
    }
    var round := msgs[0].view.round;
    var senders: set<Address> := {};
    var hash := Nil;
    ghost var reference := 0;
    var i := 0;
    while i < |msgs|
      invariant 0 <= i <= |msgs|
      invariant forall j :: 0 <= j < i ==> msgs[j].view == View(height, round) && round < roundLimit
      invariant forall j :: 0 <= j < i ==> msgs[j].kind == PREPREPARE || msgs[j].kind == PREPARE
      invariant forall j, k :: 0 <= j < k < i ==> msgs[j].from != msgs[k].from
      invariant forall a :: a in senders <==> exists j :: 0 <= j < i && msgs[j].from == a
      invariant hash == Nil ==> reference == i
      invariant hash != Nil ==> reference < i && PCMessageHash(msgs[reference]) == hash
      invariant forall j :: 0 <= j < reference ==> PCMessageHash(msgs[j]) == Nil
      invariant forall j :: reference <= j < i ==> Equal(hash, PCMessageHash(msgs[j]))
    {
      var m := msgs[i];
      if m.view.height != height {
        return false;
      }
      if m.view.round != round || m.view.round >= roundLimit {
        return false;
      }
      var known := m.kind == PREPREPARE || m.kind == PREPARE;
      var extracted := if known then PCMessageHash(m) else Nil;
      if hash == Nil {
        hash := extracted;
        reference := if hash == Nil then i + 1 else i;
      }
      if !known || !Equal(hash, extracted) {
        assert known ==> reference < i && PCMessageHash(msgs[reference]) != Nil;
        return false;
      }
      if m.from in senders {
        return false;
      }
      senders := senders + {m.from};
      i := i + 1;
    }
    return true;
  }

  /** When the first hash is given, acceptance is plain pairwise equality. */
  lemma FirstHashGiven(msgs: seq<Message>, height: nat, roundLimit: nat, i: nat)
    requires ValidPCMessages(msgs, height, roundLimit) && i < |msgs|
    requires PCMessageHash(msgs[0]) != Nil
    ensures Equal(PCMessageHash(msgs[0]), PCMessageHash(msgs[i]))
  {
  }

  /** The quirk of the nil reference: a nil hash in front is accepted beside a given one. */
  lemma NilHashIsReplaced(a: Address, b: Address, v: View, h: Bytes)
    requires a != b && h.Content() != []
    ensures var msgs := [Message(v, a, Nil, PREPREPARE, NoPayload), Message(v, b, Nil, PREPARE, PrepareData(h))];
            ValidPCMessages(msgs, v.height, v.round + 1) && !Equal(PCMessageHash(msgs[0]), PCMessageHash(msgs[1]))
  {
  }

  function PCMessages(pc: PreparedCertificate): (msgs: seq<Message>)
    requires pc.proposalMessage.Some? && pc.prepareMessages.Some?
  {
    [pc.proposalMessage.value] + pc.prepareMessages.value
  }

  /** A certificate with a proposal and the PREPAREs for it, by a quorum of
      senders, of which exactly the first is the proposer of the view. */
  ghost predicate ValidPCParts(b: Backend, pc: PreparedCertificate, roundLimit: nat, height: nat) {
    && pc.proposalMessage.Some? && pc.prepareMessages.Some?
    && var proposal, prepares := pc.proposalMessage.value, pc.prepareMessages.value;
    && IsQuorum(b.powers, Senders(PCMessages(pc)))
    && proposal.kind == PREPREPARE
    && (forall i :: 0 <= i < |prepares| ==> prepares[i].kind == PREPARE)
    && ValidPCMessages(PCMessages(pc), height, roundLimit)
    && b.IsProposer(proposal.from, proposal.view)
    && b.validSender(proposal)
    && (forall i :: 0 <= i < |prepares| ==>
          b.validSender(prepares[i]) && !b.IsProposer(prepares[i].from, prepares[i].view))
  }

  /** A certificate that is not set is valid. */
  ghost predicate ValidPC(b: Backend, pc: Option<PreparedCertificate>, roundLimit: nat, height: nat) {
    pc.Some? ==> ValidPCParts(b, pc.value, roundLimit, height)
  }

  method CheckPC(b: Backend, vm: ValidatorManager, pc: Option<PreparedCertificate>, roundLimit: nat, height: nat)
      returns (ok: bool)
    requires vm.Valid() && vm.validatorsVotingPower == Some(b.powers)
    ensures ok <==> ValidPC(b, pc, roundLimit, height)
  {
    if pc.None? {
      return true;
    }
    if pc.value.proposalMessage.None? || pc.value.prepareMessages.None? {
      return false;
    }
    var proposal, prepares := pc.value.proposalMessage.value, pc.value.prepareMessages.value;
    var allMessages := [proposal] + prepares;
    assert allMessages == PCMessages(pc.value);
    var addresses := ConvertMessageToAddressSet(allMessages);
    var quorum := vm.HasQuorum(addresses);
    if !quorum {
      return false;
    }
    if proposal.kind != PREPREPARE {
      return false;
    }
    var i := 0;
    while i < |prepares|
      invariant 0 <= i <= |prepares|
      invariant forall j :: 0 <= j < i ==> prepares[j].kind == PREPARE
    {
      if prepares[i].kind != PREPARE {
        return false;
      }
      i := i + 1;
    }
    var matching := AreValidPCMessages(allMessages, height, roundLimit);
    if !matching {
      return false;
    }
    if !b.IsProposer(proposal.from, proposal.view) {
      return false;
    }
    if !b.validSender(proposal) {
      return false;
    }
    i := 0;
    while i < |prepares|
      invariant 0 <= i <= |prepares|
      invariant forall j :: 0 <= j < i ==> b.validSender(prepares[j])
      invariant forall j :: 0 <= j < i ==> !b.IsProposer(prepares[j].from, prepares[j].view)
    {
      if !b.validSender(prepares[i]) {
        return false;
      }
      if b.IsProposer(prepares[i].from, prepares[i].view) {
        return false;
      }
      i := i + 1;
    }
    return true;
  }

  /** The view round under which a certificate is ranked by validateProposal. */
  function PCRound(pc: PreparedCertificate): nat
    requires pc.proposalMessage.Some?
  {
    pc.proposalMessage.value.view.round
  }

  function PCHash(pc: PreparedCertificate): Bytes
    requires pc.proposalMessage.Some?
  {
    ExtractProposalHash(pc.proposalMessage.value)
  }

  /** What a valid certificate says about each of its messages, provided its
      proposal hash is not empty. */
  lemma ValidPCMember(b: Backend, pc: PreparedCertificate, roundLimit: nat, height: nat, m: Message)
    requires ValidPCParts(b, pc, roundLimit, height) && m in PCMessages(pc)
    ensures m.view == View(height, PCRound(pc)) && PCRound(pc) < roundLimit && b.validSender(m)
    ensures m.kind == PREPREPARE <==> m.from == b.proposer(m.view)
    ensures m.kind == PREPREPARE ==> m == pc.proposalMessage.value
    ensures m.kind == PREPREPARE || m.kind == PREPARE
    ensures PCHash(pc).Content() != [] ==> Equal(PCHash(pc), PCMessageHash(m))
  {
    var msgs := PCMessages(pc);
    var i :| 0 <= i < |msgs| && msgs[i] == m;
    assert i > 0 ==> m == pc.prepareMessages.value[i - 1];
    assert msgs[0] == pc.proposalMessage.value;
  }

  // ---------- certificate and proposal ----------

  /** Both missing, or every hash of the certificate is the hash of the proposal. */
  ghost predicate MatchesCertificate(b: Backend, proposal: Option<Proposal>, pc: Option<PreparedCertificate>) {
    if pc.None? then proposal.None? else
      && pc.value.proposalMessage.Some?
      && b.IsValidProposalHash(proposal, PCHash(pc.value))
      && (pc.value.prepareMessages.Some? ==>
            forall i :: 0 <= i < |pc.value.prepareMessages.value| ==>
              b.IsValidProposalHash(proposal, ExtractPrepareHash(pc.value.prepareMessages.value[i])))
  }

  /** The caller has already run the certificate check, so the proposal message is there. */
  method ProposalMatchesCertificate(b: Backend, proposal: Option<Proposal>, pc: Option<PreparedCertificate>)
      returns (ok: bool)
    requires pc.Some? ==> pc.value.proposalMessage.Some?
    ensures ok <==> MatchesCertificate(b, proposal, pc)
  {
    if proposal.None? && pc.None? {
      return true;
    }
    if pc.None? {
      return false;
    }
    var prepares := if pc.value.prepareMessages.Some? then pc.value.prepareMessages.value else [];
    var hashes := [ExtractProposalHash(pc.value.proposalMessage.value)];
    var i := 0;
    while i < |prepares|
      invariant 0 <= i <= |prepares| && |hashes| == i + 1
      invariant hashes[0] == PCHash(pc.value)
      invariant forall j :: 0 <= j < i ==> hashes[j + 1] == ExtractPrepareHash(prepares[j])
    {
      hashes := hashes + [ExtractPrepareHash(prepares[i])];
      i := i + 1;
    }
    i := 0;
    while i < |hashes|
      invariant 0 <= i <= |hashes|
      invariant forall j :: 0 <= j < i ==> b.IsValidProposalHash(proposal, hashes[j])
    {
      if !b.IsValidProposalHash(proposal, hashes[i]) {
        assert i > 0 ==> hashes[i] == ExtractPrepareHash(prepares[i - 1]);
        return false;
      }
      i := i + 1;
    }
    forall j | 0 <= j < |prepares|
      ensures b.IsValidProposalHash(proposal, ExtractPrepareHash(prepares[j]))
    {
      assert b.IsValidProposalHash(proposal, hashes[j + 1]);
    }
    return true;
  }

  /** Only the round of a certificate decides which limits it meets. */
  lemma ValidPCAnyLimit(b: Backend, pc: PreparedCertificate, limit: nat, limit': nat, height: nat)
    requires ValidPCParts(b, pc, limit, height)
    ensures ValidPCParts(b, pc, limit', height) <==> PCRound(pc) < limit'
  {
    assert PCMessages(pc)[0] == pc.proposalMessage.value;
  }
}
