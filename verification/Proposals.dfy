/** core/ibft.go: how a proposal is built after a round change, how the other
    validators judge it, and when the two agree. */
module Proposals {
  import opened Types
  import opened Quorum
  import opened Certificates

  // ---------- the validator's side ----------

  predicate ValidProposalCommon(b: Backend, msg: Message, view: View) {
    var proposal := ExtractProposal(msg);
    && proposal.Some?
    && proposal.value.round == view.round
    && b.IsProposer(msg.from, view)
    && b.IsValidProposalHash(proposal, ExtractProposalHash(msg))
    && b.validRaw(proposal.value.raw)
  }

  predicate ValidProposal0(b: Backend, id: Address, msg: Message, view: View) {
    msg.view.round == 0 && ValidProposalCommon(b, msg, view) && !b.IsProposer(id, view)
  }

  /** The message carries a certificate that the validator takes into account. */
  ghost predicate HasCertificate(b: Backend, rc: Message, limit: nat, height: nat) {
    ExtractLatestPC(rc).Some? && ValidPCParts(b, ExtractLatestPC(rc).value, limit, height)
  }

  /** The certificate of `rcs[j]` has the highest view round, and is the last such one. */
  ghost predicate IsLastHighest(b: Backend, rcs: seq<Message>, limit: nat, height: nat, j: nat) {
    && j < |rcs| && HasCertificate(b, rcs[j], limit, height)
    && forall k :: 0 <= k < |rcs| && HasCertificate(b, rcs[k], limit, height) ==>
         var rk, rj := PCRound(ExtractLatestPC(rcs[k]).value), PCRound(ExtractLatestPC(rcs[j]).value);
         if k > j then rk < rj else rk <= rj
  }

  /** The proposed data is what the highest certificate, if any, was made for. */
  ghost predicate CarriesHighest(b: Backend, rcs: seq<Message>, limit: nat, height: nat, raw: Bytes) {
    forall j: nat :: IsLastHighest(b, rcs, limit, height, j) ==>
      var pc := ExtractLatestPC(rcs[j]).value;
      b.IsValidProposalHash(Some(Proposal(raw, PCRound(pc))), PCHash(pc))
  }

  predicate IsRoundChangeFor(b: Backend, rc: Message, view: View) {
    rc.kind == ROUND_CHANGE && rc.view == view && b.validSender(rc)
  }

  ghost predicate ValidProposal(b: Backend, id: Address, msg: Message, view: View) {
    && ValidProposalCommon(b, msg, view)
    && ExtractRoundChangeCertificate(msg).Some?
    && var rcs := ExtractRoundChangeCertificate(msg).value.roundChangeMessages;
    && rcs != [] && DistinctSenders(rcs) && IsQuorum(b.powers, Senders(rcs))
    && !b.IsProposer(id, view)
    && (forall i :: 0 <= i < |rcs| ==> IsRoundChangeFor(b, rcs[i], view))
    && CarriesHighest(b, rcs, msg.view.round, view.height, ExtractProposal(msg).value.raw)
  }

  /** handlePrePrepare's validity test. */
  ghost predicate ValidPrePrepare(b: Backend, id: Address, msg: Message, view: View) {
    if view.round == 0 then ValidProposal0(b, id, msg, view) else ValidProposal(b, id, msg, view)
  }

  /** The checks of validateProposalCommon, in its order. */
  method ValidateProposalCommon(b: Backend, msg: Message, view: View) returns (ok: bool)
    ensures ok <==> ValidProposalCommon(b, msg, view)
  {
    var proposal := ExtractProposal(msg);
    if proposal.None? || proposal.value.round != view.round {
      return false;
    }
    if b.proposer(view) != msg.from {
      return false;
    }
    if !b.IsValidProposalHash(proposal, ExtractProposalHash(msg)) {
      return false;
    }
    return b.validRaw(proposal.value.raw);
  }

  method ValidateProposal0(b: Backend, id: Address, msg: Message, view: View) returns (ok: bool)
    ensures ok <==> ValidProposal0(b, id, msg, view)
  {
    if msg.view.round != 0 {
      return false;
    }
    var common := ValidateProposalCommon(b, msg, view);
    if !common {
      return false;
    }
    return b.proposer(view) != id;
  }

  /** isValidPrePrepare of handlePrePrepare. */
  method IsValidPrePrepare(b: Backend, vm: ValidatorManager, id: Address, msg: Message, view: View) returns (ok: bool)
    requires vm.Valid() && vm.validatorsVotingPower == Some(b.powers)
    ensures ok <==> ValidPrePrepare(b, id, msg, view)
  {
    if view.round == 0 {
      ok := ValidateProposal0(b, id, msg, view);
    } else {
      ok := ValidateProposal(b, vm, id, msg, view);
    }
  }

  /** The checks of validateProposal, in its order. A proposal message without
      a proposal, which the program does not survive, is not accepted here. */
  method ValidateProposal(b: Backend, vm: ValidatorManager, id: Address, msg: Message, view: View) returns (ok: bool)
    requires vm.Valid() && vm.validatorsVotingPower == Some(b.powers)
    ensures ok <==> ValidProposal(b, id, msg, view)
  {
    var common := ValidateProposalCommon(b, msg, view);
    if !common {
      return false;
    }
    if ExtractRoundChangeCertificate(msg).None? {
      return false;
    }
    var rcs := ExtractRoundChangeCertificate(msg).value.roundChangeMessages;
    var unique := HasUniqueSenders(rcs);
    if !unique {
      return false;
    }
    var addresses := ConvertMessageToAddressSet(rcs);
    var quorum := vm.HasQuorum(addresses);
    if !quorum {
      return false;
    }
    if b.IsProposer(id, view) {
      return false;
    }
    var i := 0;
    while i < |rcs|
      invariant 0 <= i <= |rcs|
      invariant forall k :: 0 <= k < i ==> IsRoundChangeFor(b, rcs[k], view)
    {
      if rcs[i].kind != ROUND_CHANGE || rcs[i].view.height != view.height
         || rcs[i].view.round != view.round || !b.validSender(rcs[i]) {
        return false;
      }
      i := i + 1;
    }
    ok := MatchesHighest(b, vm, rcs, msg.view.round, view.height, ExtractProposal(msg).value.raw);
  }

  /** `tuples[t]` is the round and hash of the certificate of `rcs[origin[t]]`,
      for every certificate among the first `n` messages, in order. */
  ghost predicate Collected(b: Backend, rcs: seq<Message>, limit: nat, height: nat, n: nat,
                            tuples: seq<(nat, Bytes)>, origin: seq<nat>)
    requires n <= |rcs|
  {
    && |origin| == |tuples|
    && (forall t :: 0 <= t < |origin| ==>
          origin[t] < n && HasCertificate(b, rcs[origin[t]], limit, height)
          && tuples[t] == (PCRound(ExtractLatestPC(rcs[origin[t]]).value),
                           PCHash(ExtractLatestPC(rcs[origin[t]]).value)))
    && (forall t, u :: 0 <= t < u < |origin| ==> origin[t] < origin[u])
    && (forall k :: 0 <= k < n && HasCertificate(b, rcs[k], limit, height) ==> k in origin)
  }

  method CollectCertificates(b: Backend, vm: ValidatorManager, rcs: seq<Message>, limit: nat, height: nat)
      returns (tuples: seq<(nat, Bytes)>, ghost origin: seq<nat>)
    requires vm.Valid() && vm.validatorsVotingPower == Some(b.powers)
    ensures Collected(b, rcs, limit, height, |rcs|, tuples, origin)
  {
    tuples, origin := [], [];
    var i := 0;
    while i < |rcs|
      invariant 0 <= i <= |rcs|
      invariant Collected(b, rcs, limit, height, i, tuples, origin)
    {
      var cert := ExtractLatestPC(rcs[i]);
      var valid := CheckPC(b, vm, cert, limit, height);
      if cert.Some? && valid {
        tuples := tuples + [(PCRound(cert.value), PCHash(cert.value))];
        origin := origin + [i];
      }
      i := i + 1;
    }
  }

  method HighestTuple(tuples: seq<(nat, Bytes)>) returns (maxRound: nat, expected: Bytes, ghost best: nat)
    requires tuples != []
    ensures best < |tuples| && tuples[best] == (maxRound, expected)
    ensures forall t :: 0 <= t < |tuples| ==> if t > best then tuples[t].0 < maxRound else tuples[t].0 <= maxRound
  {
    maxRound, expected, best := 0, Nil, 0;
    var i := 0;
    while i < |tuples|
      invariant 0 <= i <= |tuples|
      invariant i > 0 ==> best < i && tuples[best] == (maxRound, expected)
      invariant i == 0 ==> maxRound == 0
      invariant forall t :: 0 <= t < i ==> if t > best then tuples[t].0 < maxRound else tuples[t].0 <= maxRound
    {
      if tuples[i].0 >= maxRound {
        maxRound, expected, best := tuples[i].0, tuples[i].1, i;
      }
      i := i + 1;
    }
  }

  lemma HighestTupleIsLastHighest(b: Backend, rcs: seq<Message>, limit: nat, height: nat,
                                  tuples: seq<(nat, Bytes)>, origin: seq<nat>, best: nat)
    requires Collected(b, rcs, limit, height, |rcs|, tuples, origin) && best < |tuples|
    requires forall t :: 0 <= t < |tuples| ==>
               if t > best then tuples[t].0 < tuples[best].0 else tuples[t].0 <= tuples[best].0
    ensures IsLastHighest(b, rcs, limit, height, origin[best])
  {
    var j := origin[best];
    forall k | 0 <= k < |rcs| && HasCertificate(b, rcs[k], limit, height)
      ensures var rk := PCRound(ExtractLatestPC(rcs[k]).value);
              if k > j then rk < tuples[best].0 else rk <= tuples[best].0
    {
      var t :| 0 <= t < |origin| && origin[t] == k;
      assert k > j ==> t > best;
    }
  }

  /** The tail of validateProposal: collect the valid certificates, find the
      highest round, compare the hash. */
  method MatchesHighest(b: Backend, vm: ValidatorManager, rcs: seq<Message>, limit: nat, height: nat, raw: Bytes)
      returns (ok: bool)
    requires vm.Valid() && vm.validatorsVotingPower == Some(b.powers)
    ensures ok <==> CarriesHighest(b, rcs, limit, height, raw)
  {
    var tuples, origin := CollectCertificates(b, vm, rcs, limit, height);
    if |tuples| == 0 {
      return true;
    }
    var maxRound, expected, best := HighestTuple(tuples);
    HighestTupleIsLastHighest(b, rcs, limit, height, tuples, origin, best);
    LastHighestIsUnique(b, rcs, limit, height, origin[best]);
    return b.IsValidProposalHash(Some(Proposal(raw, maxRound)), expected);
  }

  lemma LastHighestIsUnique(b: Backend, rcs: seq<Message>, limit: nat, height: nat, j: nat)
    requires IsLastHighest(b, rcs, limit, height, j)
    ensures forall k: nat :: IsLastHighest(b, rcs, limit, height, k) ==> k == j
  {
  }

  /** Some certificate is the last of the highest ones as soon as there is any. */
  lemma {:induction false} LastHighestExists(b: Backend, rcs: seq<Message>, limit: nat, height: nat, i: nat)
      returns (j: nat)
    requires i < |rcs| && HasCertificate(b, rcs[i], limit, height)
    ensures IsLastHighest(b, rcs, limit, height, j)
    ensures PCRound(ExtractLatestPC(rcs[i]).value) <= PCRound(ExtractLatestPC(rcs[j]).value)
  {
    j := i;
    var k := 0;
    while k < |rcs|
      invariant 0 <= k <= |rcs|
      invariant j < |rcs| && HasCertificate(b, rcs[j], limit, height)
      invariant PCRound(ExtractLatestPC(rcs[i]).value) <= PCRound(ExtractLatestPC(rcs[j]).value)
      invariant forall t :: 0 <= t < k && HasCertificate(b, rcs[t], limit, height) ==>
                  var rt, rj := PCRound(ExtractLatestPC(rcs[t]).value), PCRound(ExtractLatestPC(rcs[j]).value);
                  if t > j then rt < rj else rt <= rj
    {
      if HasCertificate(b, rcs[k], limit, height) {
        var rk, rj := PCRound(ExtractLatestPC(rcs[k]).value), PCRound(ExtractLatestPC(rcs[j]).value);
        if rk > rj || (rk == rj && k > j) {
          j := k;
        }
      }
      k := k + 1;
    }
  }

  // ---------- the proposer's side ----------

  /** The builder reads the round embedded in the certificate's proposal, which must be there. */
  predicate Readable(rc: Message) {
    ExtractLatestPC(rc).Some? ==>
      && ExtractLatestPC(rc).value.proposalMessage.Some?
      && ExtractProposal(ExtractLatestPC(rc).value.proposalMessage.value).Some?
  }

  function EmbeddedRound(rc: Message): nat
    requires Readable(rc) && ExtractLatestPC(rc).Some?
  {
    ExtractProposal(ExtractLatestPC(rc).value.proposalMessage.value).value.round
  }

  ghost predicate AllReadable(rcs: seq<Message>) {
    forall i :: 0 <= i < |rcs| ==> Readable(rcs[i])
  }

  /** A certificate with the proposal it was made for. */
  predicate IsCandidate(rc: Message) {
    ExtractLatestPC(rc).Some? && ExtractLastPreparedProposal(rc).Some?
  }

  /** The data buildProposal carries over (nil if none) and the round it was found under. */
  function Chosen(rcs: seq<Message>): (Bytes, nat)
    requires AllReadable(rcs)
  {
    if rcs == [] then (Nil, 0) else
      var (previous, maxRound) := Chosen(rcs[..|rcs| - 1]);
      var rc := rcs[|rcs| - 1];
      if !IsCandidate(rc) || (previous != Nil && EmbeddedRound(rc) <= maxRound) then (previous, maxRound)
      else (ExtractLastPreparedProposal(rc).value.raw, EmbeddedRound(rc))
  }

  method ChooseProposal(rcs: seq<Message>) returns (previous: Bytes)
    requires AllReadable(rcs)
    ensures previous == Chosen(rcs).0
  {
    previous := Nil;
    var maxRound := 0;
    var i := 0;
    while i < |rcs|
      invariant 0 <= i <= |rcs|
      invariant (previous, maxRound) == Chosen(rcs[..i])
    {
      assert rcs[..i + 1][..i] == rcs[..i];
      var latestPC := ExtractLatestPC(rcs[i]);
      if latestPC.Some? {
        var round := ExtractProposal(latestPC.value.proposalMessage.value).value.round;
        if !(previous != Nil && round <= maxRound) {
          var lastPB := ExtractLastPreparedProposal(rcs[i]);
          if lastPB.Some? {
            previous := lastPB.value.raw;
            maxRound := round;
          }
        }
      }
      i := i + 1;
    }
    assert rcs[..i] == rcs;
  }

  /** As long as no prepared data is nil, the builder keeps the first candidate
      with the highest embedded round, and nil when there is no candidate. */
  ghost predicate IsFirstHighest(rcs: seq<Message>, j: nat)
    requires AllReadable(rcs)
  {
    && j < |rcs| && IsCandidate(rcs[j])
    && forall k :: 0 <= k < |rcs| && IsCandidate(rcs[k]) ==>
         if k < j then EmbeddedRound(rcs[k]) < EmbeddedRound(rcs[j]) else EmbeddedRound(rcs[k]) <= EmbeddedRound(rcs[j])
  }

  predicate RawGiven(rc: Message) {
    ExtractLastPreparedProposal(rc).Some? ==> ExtractLastPreparedProposal(rc).value.raw != Nil
  }

  lemma {:induction false} ChosenIsFirstHighest(rcs: seq<Message>) returns (j: nat)
    requires AllReadable(rcs) && forall i :: 0 <= i < |rcs| ==> RawGiven(rcs[i])
    ensures Chosen(rcs).0 == Nil ==> forall i :: 0 <= i < |rcs| ==> !IsCandidate(rcs[i])
    ensures Chosen(rcs).0 != Nil ==>
              && IsFirstHighest(rcs, j)
              && Chosen(rcs) == (ExtractLastPreparedProposal(rcs[j]).value.raw, EmbeddedRound(rcs[j]))
  {
    j := 0;
    if rcs != [] {
      var n := |rcs| - 1;
      var front := rcs[..n];
      var j' := ChosenIsFirstHighest(front);
      var (previous, maxRound) := Chosen(front);
      if !IsCandidate(rcs[n]) || (previous != Nil && EmbeddedRound(rcs[n]) <= maxRound) {
        j := j';
      } else {
        j := n;
      }
      if previous != Nil {
        assert front[j'] == rcs[j'];
      }
      forall k | 0 <= k < |rcs| && IsCandidate(rcs[k])
        ensures Chosen(rcs).0 != Nil
        ensures var ek, ej := EmbeddedRound(rcs[k]), EmbeddedRound(rcs[j]);
                if k < j then ek < ej else ek <= ej
      {
        if k < n {
          assert front[k] == rcs[k];
        }
      }
    }
  }

  /** BuildPrePrepareMessage: the fields it is given, its own hash, a signature. */
  function BuildPrePrepareMessage(b: Backend, id: Address, raw: Bytes, rcc: Option<RoundChangeCertificate>,
                                  view: View, signature: Bytes): Message
  {
    Message(view, id, signature, PREPREPARE,
            PreprepareData(Some(Proposal(raw, view.round)), Bytes.Bytes(b.hash(raw.Content(), view.round)), rcc))
  }

  // ---------- builder and validator ----------

  /** What handleRoundChangeMessage lets through for the proposer's own view. */
  ghost predicate UsableRoundChange(b: Backend, rc: Message, view: View) {
    && IsRoundChangeFor(b, rc, view)
    && ValidPC(b, ExtractLatestPC(rc), rc.view.round, view.height)
    && MatchesCertificate(b, ExtractLastPreparedProposal(rc), ExtractLatestPC(rc))
  }

  ghost predicate UsableRCC(b: Backend, rcs: seq<Message>, view: View) {
    && (forall i :: 0 <= i < |rcs| ==> UsableRoundChange(b, rcs[i], view))
    && rcs != [] && DistinctSenders(rcs) && IsQuorum(b.powers, Senders(rcs))
  }

  /** The data prepared with the last of the highest certificates is the data
      proposed, and was prepared in the round of that certificate. */
  ghost predicate CarriesPrepared(b: Backend, rcs: seq<Message>, view: View, raw: Bytes) {
    forall j: nat :: IsLastHighest(b, rcs, view.round, view.height, j) ==>
      var prepared := ExtractLastPreparedProposal(rcs[j]);
      && prepared.Some?
      && prepared.value.raw.Content() == raw.Content()
      && prepared.value.round == PCRound(ExtractLatestPC(rcs[j]).value)
  }

  /** In round 0 there is no certificate: the others accept what the proposer makes of
      any data exactly if the data is valid. */
  lemma FirstProposalAcceptedIff(b: Backend, view: View, raw: Bytes, signature: Bytes, id: Address)
    requires view.round == 0 && id != b.proposer(view)
    ensures var msg := BuildPrePrepareMessage(b, b.proposer(view), raw, None, view, signature);
            ValidPrePrepare(b, id, msg, view) <==> b.validRaw(raw)
  {
  }

  lemma OwnRoundAcceptedIff(b: Backend, rcs: seq<Message>, view: View, raw: Bytes, signature: Bytes, id: Address)
    requires b.CollisionFree() && UsableRCC(b, rcs, view) && id != b.proposer(view)
    ensures var msg := BuildPrePrepareMessage(b, b.proposer(view), raw, Some(RoundChangeCertificate(rcs)), view,
                                              signature);
            ValidProposal(b, id, msg, view) <==> b.validRaw(raw) && CarriesPrepared(b, rcs, view, raw)
  {
    forall j: nat | IsLastHighest(b, rcs, view.round, view.height, j)
      ensures ExtractLastPreparedProposal(rcs[j]).Some?
      ensures var pc, prepared := ExtractLatestPC(rcs[j]).value, ExtractLastPreparedProposal(rcs[j]).value;
              b.IsValidProposalHash(Some(Proposal(raw, PCRound(pc))), PCHash(pc)) <==>
              prepared.raw.Content() == raw.Content() && prepared.round == PCRound(pc)
    {
      assert UsableRoundChange(b, rcs[j], view);
    }
  }

  lemma OtherRoundRefused(b: Backend, id: Address, msg: Message, view: View)
    requires ExtractRoundChangeCertificate(msg).Some?
    requires var rcs := ExtractRoundChangeCertificate(msg).value.roundChangeMessages; rcs != [] && rcs[0].view != view
    ensures !ValidProposal(b, id, msg, view)
  {
    assert !IsRoundChangeFor(b, ExtractRoundChangeCertificate(msg).value.roundChangeMessages[0], view);
  }

  /** For every usable certificate and any data, the others accept exactly if the
      certificate is of the own round and the data is valid and agrees with the
      highest certificate. */
  lemma ProposalAcceptedIff(b: Backend, rcs: seq<Message>, view: View, raw: Bytes, signature: Bytes, id: Address)
    requires b.CollisionFree() && rcs != [] && UsableRCC(b, rcs, rcs[0].view) && id != b.proposer(view)
    ensures var msg := BuildPrePrepareMessage(b, b.proposer(view), raw, Some(RoundChangeCertificate(rcs)), view,
                                              signature);
            ValidProposal(b, id, msg, view) <==>
              rcs[0].view == view && b.validRaw(raw) && CarriesPrepared(b, rcs, view, raw)
  {
    hide ValidProposal, UsableRCC, CarriesPrepared;
    var msg := BuildPrePrepareMessage(b, b.proposer(view), raw, Some(RoundChangeCertificate(rcs)), view, signature);
    if rcs[0].view == view {
      OwnRoundAcceptedIff(b, rcs, view, raw, signature, id);
    } else {
      OtherRoundRefused(b, id, msg, view);
    }
  }

  /** The data buildProposal proposes on a certificate. */
  function BuiltRaw(rcs: seq<Message>, newRaw: Bytes): Bytes
    requires AllReadable(rcs)
  {
    if Chosen(rcs).0 == Nil then newRaw else Chosen(rcs).0
  }

  /** The first certificate with the highest embedded round and the last one with
      the highest view round were made for the same data, and the latter's data
      was prepared in its round. */
  ghost predicate RanksAgree(b: Backend, rcs: seq<Message>, view: View)
    requires AllReadable(rcs)
  {
    forall f: nat, j: nat :: IsFirstHighest(rcs, f) && IsLastHighest(b, rcs, view.round, view.height, j)
                             && ExtractLastPreparedProposal(rcs[j]).Some? ==>
      var first, last := ExtractLastPreparedProposal(rcs[f]).value, ExtractLastPreparedProposal(rcs[j]).value;
      first.raw.Content() == last.raw.Content() && last.round == PCRound(ExtractLatestPC(rcs[j]).value)
  }

  lemma FirstHighestIsUnique(rcs: seq<Message>, f: nat)
    requires AllReadable(rcs) && IsFirstHighest(rcs, f)
    ensures forall k: nat :: IsFirstHighest(rcs, k) ==> k == f
  {
  }

  /** For every usable certificate with data given in it, the others accept what the
      builder makes of it exactly if the certificate is of the own round, the data is
      valid and the two ways of ranking the certificates lead to the same data. */
  lemma BuiltProposalAcceptedIff(b: Backend, rcs: seq<Message>, view: View, newRaw: Bytes, signature: Bytes,
                                 id: Address)
    requires b.CollisionFree() && rcs != [] && UsableRCC(b, rcs, rcs[0].view) && id != b.proposer(view)
    requires AllReadable(rcs) && forall i :: 0 <= i < |rcs| ==> RawGiven(rcs[i])
    ensures var raw := BuiltRaw(rcs, newRaw);
            var msg := BuildPrePrepareMessage(b, b.proposer(view), raw, Some(RoundChangeCertificate(rcs)), view,
                                              signature);
            ValidProposal(b, id, msg, view) <==> rcs[0].view == view && b.validRaw(raw) && RanksAgree(b, rcs, view)
  {
    hide ValidProposal, ValidPCParts, IsQuorum, DistinctSenders;
    var f := ChosenIsFirstHighest(rcs);
    ProposalAcceptedIff(b, rcs, view, BuiltRaw(rcs, newRaw), signature, id);
    if rcs[0].view != view {
      return;
    }
    if Chosen(rcs).0 != Nil {
      FirstHighestIsUnique(rcs, f);
    }
    forall j: nat | IsLastHighest(b, rcs, view.round, view.height, j) ensures IsCandidate(rcs[j]) {
      assert UsableRoundChange(b, rcs[j], view);
    }
  }

  /** The three rounds of a carried certificate coincide, and its data is given. */
  predicate WellFormedRoundChange(rc: Message)
    requires Readable(rc)
  {
    && RawGiven(rc)
    && (IsCandidate(rc) ==>
          && ExtractLatestPC(rc).value.proposalMessage.Some?
          && PCRound(ExtractLatestPC(rc).value) == EmbeddedRound(rc)
          && ExtractLastPreparedProposal(rc).value.round == EmbeddedRound(rc))
  }

  /** Certificates of one round were made for one hash. */
  ghost predicate OneHashPerRound(rcs: seq<Message>) {
    forall i, j :: 0 <= i < |rcs| && 0 <= j < |rcs| && IsCandidate(rcs[i]) && IsCandidate(rcs[j])
                   && ExtractLatestPC(rcs[i]).value.proposalMessage.Some?
                   && ExtractLatestPC(rcs[j]).value.proposalMessage.Some?
                   && PCRound(ExtractLatestPC(rcs[i]).value) == PCRound(ExtractLatestPC(rcs[j]).value) ==>
      Equal(PCHash(ExtractLatestPC(rcs[i]).value), PCHash(ExtractLatestPC(rcs[j]).value))
  }

  /** First maximum and last maximum lead to the same data. */
  lemma BuilderAgreesWithValidator(b: Backend, rcs: seq<Message>, view: View)
    requires b.CollisionFree() && UsableRCC(b, rcs, view) && OneHashPerRound(rcs)
    requires AllReadable(rcs) && forall i :: 0 <= i < |rcs| ==> WellFormedRoundChange(rcs[i])
    ensures Chosen(rcs).0 == Nil ==> forall raw :: CarriesPrepared(b, rcs, view, raw)
    ensures Chosen(rcs).0 != Nil ==> CarriesPrepared(b, rcs, view, Chosen(rcs).0)
  {
    var f := ChosenIsFirstHighest(rcs);
    forall j: nat | IsLastHighest(b, rcs, view.round, view.height, j)
      ensures IsCandidate(rcs[j])
      ensures Chosen(rcs).0 != Nil ==>
                var prepared := ExtractLastPreparedProposal(rcs[j]).value;
                prepared.raw.Content() == Chosen(rcs).0.Content()
                && prepared.round == PCRound(ExtractLatestPC(rcs[j]).value)
    {
      assert UsableRoundChange(b, rcs[j], view);
      assert WellFormedRoundChange(rcs[j]);
      if Chosen(rcs).0 != Nil {
        assert UsableRoundChange(b, rcs[f], view);
        assert WellFormedRoundChange(rcs[f]);
        assert HasCertificate(b, rcs[f], view.round, view.height);
        assert PCRound(ExtractLatestPC(rcs[f]).value) == PCRound(ExtractLatestPC(rcs[j]).value);
      }
    }
  }

  /** Why the rounds must coincide: the builder goes by the embedded round, the
      validator by the view round, and the two can point at different data. */
  lemma RanksCanDiffer(b: Backend, rcs: seq<Message>, view: View)
    requires |rcs| == 2 && AllReadable(rcs) && IsCandidate(rcs[0]) && IsCandidate(rcs[1])
    requires RawGiven(rcs[0]) && RawGiven(rcs[1])
    requires UsableRCC(b, rcs, view)
    requires EmbeddedRound(rcs[0]) > EmbeddedRound(rcs[1])
    requires PCRound(ExtractLatestPC(rcs[0]).value) < PCRound(ExtractLatestPC(rcs[1]).value)
    requires var first, second := ExtractLastPreparedProposal(rcs[0]).value, ExtractLastPreparedProposal(rcs[1]).value;
             first.raw.Content() != second.raw.Content()
    ensures Chosen(rcs).0 == ExtractLastPreparedProposal(rcs[0]).value.raw
    ensures !CarriesPrepared(b, rcs, view, Chosen(rcs).0)
  {
    hide ValidPCParts, MatchesCertificate, IsQuorum, DistinctSenders;
    var f := ChosenIsFirstHighest(rcs);
    forall i | 0 <= i < 2 ensures HasCertificate(b, rcs[i], view.round, view.height) {
      assert UsableRoundChange(b, rcs[i], view);
    }
    assert IsLastHighest(b, rcs, view.round, view.height, 1);
  }
}
