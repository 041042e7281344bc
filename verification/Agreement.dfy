/** Every step to a higher round keeps the invariant, so the statements of module
    Invariant hold in every upward run. */
module Agreement {
  import opened Types
  import opened Certificates
  import opened Proposals
  import opened NodeState
  import opened Protocol
  import opened Invariant
  import opened Soundness

  // ---------- more messages keep what was established ----------

  lemma JustifiedKept(P: Params, sent: set<Message>, sent': set<Message>, round: nat, raw: Bytes)
    requires Justified(P, sent, round, raw) && sent <= sent'
    ensures Justified(P, sent', round, raw)
  {
    var rcs :| JustifiedBy(P, sent, round, raw, rcs);
    if exists pc :: HighestCertificate(P, sent, round, raw, rcs, pc) {
      var pc :| HighestCertificate(P, sent, round, raw, rcs, pc);
      assert HighestCertificate(P, sent', round, raw, rcs, pc);
    }
    assert JustifiedBy(P, sent', round, raw, rcs);
  }

  lemma MessageKept(P: Params, accepted: map<(Address, nat), Bytes>, accepted': map<(Address, nat), Bytes>,
                    n: Address, st: State, st': State, m: Message)
    requires MessageOk(P, accepted, n, st, m)
    requires forall k :: k in accepted ==> k in accepted' && accepted'[k] == accepted[k]
    requires st.view.round <= st'.view.round
    requires forall r: nat :: r <= st.view.round && LockedFrom(st.latestPC, r) ==> LockedFrom(st'.latestPC, r)
    ensures MessageOk(P, accepted', n, st', m)
  {
  }

  // ---------- the nodes that do not act ----------

  lemma OthersOwnKept(P: Params, g: Global, a: Action, k: Address)
    requires k in g.nodes && OwnOk(P, g, k) && Enabled(P, g, a)
    requires !a.OtherHeights? ==> k != a.node && BuiltBy(P, g, a)
    ensures k in Next(P, g, a).nodes && OwnOk(P, Next(P, g, a), k)
  {
    hide NodeEnabled, NodeNext, Justified, UsableRoundChange, PreparedPair, LockedFrom;
    var g' := Next(P, g, a);
    assert g'.nodes[k] == g.nodes[k];
    forall m | From(P, g'.sent, k, m) ensures From(P, g.sent, k, m) {
    }
    forall m | From(P, g'.sent, k, m) ensures MessageOk(P, g'.accepted, k, g'.nodes[k], m) {
      assert MessageOk(P, g.accepted, k, g.nodes[k], m);
    }
  }

  /** What has been accepted and stays accepted stays justified. */
  lemma JustifiedStays(P: Params, g: Global, a: Action, k: Address)
    requires JustifiedOk(P, g, k) && Enabled(P, g, a) && (a.OtherHeights? || k != a.node)
    ensures JustifiedOk(P, Next(P, g, a), k)
  {
    hide NodeEnabled, NodeNext, Justified;
    var g' := Next(P, g, a);
    forall r: nat | (k, r) in g'.accepted && r > 0 && !P.b.IsProposer(k, P.ViewAt(r))
      ensures Justified(P, g'.sent, r, g'.accepted[(k, r)])
    {
      JustifiedKept(P, g.sent, g'.sent, r, g.accepted[(k, r)]);
    }
  }

  // ---------- the node that acts: its messages ----------

  /** What is sent carries the sender's address and the height. */
  ghost predicate BuiltBy(P: Params, g: Global, a: Action)
    requires Enabled(P, g, a) && !a.OtherHeights?
  {
    var out := Multicast(P, g.nodes[a.node], a);
    out.Some? ==> out.value.from == a.node && out.value.view.height == P.height
  }

  lemma ActorSends(P: Params, g: Global, a: Action)
    requires Sound(P, g) && Enabled(P, g, a) && !a.OtherHeights?
    ensures BuiltBy(P, g, a)
  {
    assert NodeSound(P, g, a.node);
  }

  /** No step forgets or overwrites accepted data. */
  lemma AcceptedGrows(P: Params, g: Global, a: Action)
    requires Enabled(P, g, a) && MovesUp(g, a) && (!a.OtherHeights? ==> InvOf(P, g, a.node))
    ensures forall k :: k in g.accepted ==> k in Next(P, g, a).accepted && Next(P, g, a).accepted[k] == g.accepted[k]
  {
  }

  /** A PREPARE sent on jumping to a future proposal carries the old view with
      the hash of a later round. */
  lemma JumpMessageOk(P: Params, accepted: map<(Address, nat), Bytes>, n: Address, st: State, st': State, m: Message)
    requires ProposalOk(P, st') && st'.proposalMessage == Some(m) && st'.view.round > st.view.round
    ensures forall s :: MessageOk(P, accepted, n, st', BuildPrepareMessage(n, ExtractProposalHash(m), st.view, s))
  {
    assert P.HashFor(st'.view.round, st'.RawData(), ExtractProposalHash(m));
    assert HashForLaterRound(P, st.view.round, ExtractProposalHash(m));
  }

  /** A ROUND_CHANGE reports the recorded lock, so every other node finds it usable. */
  lemma RoundChangeOk(P: Params, accepted: map<(Address, nat), Bytes>, n: Address, st: State, st': State, m: Message)
    requires LockOk(P, st) && LockBelow(st) && st'.view.round > st.view.round
    requires m == BuildRoundChangeMessage(n, st.latestPreparedProposal, st.latestPC, st'.view, m.signature)
    requires st'.view.height == P.height && P.b.validSender(m)
    ensures MessageOk(P, accepted, n, st', m)
  {
    if st.latestPC.Some? {
      ValidPCAnyLimit(P.b, st.latestPC.value, PCRound(st.latestPC.value) + 1, st'.view.round, P.height);
    }
  }

  lemma NewMessageOk(P: Params, g: Global, a: Action)
    requires P.b.CollisionFree() && Enabled(P, g, a) && MovesUp(g, a) && !a.OtherHeights? && InvOf(P, g, a.node)
    requires Multicast(P, g.nodes[a.node], a).Some?
    ensures var g' := Next(P, g, a);
            var m := Multicast(P, g.nodes[a.node], a).value;
            m.from == a.node && m.view.height == P.height && MessageOk(P, g'.accepted, a.node, g'.nodes[a.node], m)
  {
    hide UsableCertificate, ProposalFor, PreparesFor, CommitsFor, LockOk, Justified, MessagesOk, LocksReported, FinalOk;
    var st := g.nodes[a.node];
    var g' := Next(P, g, a);
    var st' := g'.nodes[a.node];
    assert StateOk(P, st) by {
      assert NodeSound(P, g, a.node);
    }
    StateKept(P, g, a);
    if a.JumpToProposal? {
      JumpMessageOk(P, g'.accepted, a.node, st, st', a.proposal);
    } else if a.RoundExpired? {
      RoundChangeOk(P, g'.accepted, a.node, st, st', Multicast(P, st, a).value);
    }
  }

  lemma MessagesKept(P: Params, g: Global, a: Action)
    requires P.b.CollisionFree() && Enabled(P, g, a) && MovesUp(g, a) && !a.OtherHeights? && InvOf(P, g, a.node)
    ensures a.node in Next(P, g, a).nodes && MessagesOk(P, Next(P, g, a), a.node)
  {
    hide ProposalFor, CommitsFor, LockOk, AcceptedOk, LocksReported, FinalOk;
    var st := g.nodes[a.node];
    var g' := Next(P, g, a);
    var st' := g'.nodes[a.node];
    AcceptedGrows(P, g, a);
    var out := Multicast(P, st, a);
    if out.Some? {
      NewMessageOk(P, g, a);
    }
    forall m | From(P, g'.sent, a.node, m) ensures MessageOk(P, g'.accepted, a.node, st', m) {
      if m in g.sent {
        assert From(P, g.sent, a.node, m);
        MessageKept(P, g.accepted, g'.accepted, a.node, st, st', m);
      }
    }
  }

  /** Lock persistence, one step: a COMMIT is sent in the current round, where no
      ROUND_CHANGE above it exists; a ROUND_CHANGE carries the recorded lock,
      which covers every COMMIT sent so far. */
  lemma LocksExtended(P: Params, g: Global, n: Address, out: Message)
    requires n in g.nodes && MessagesOk(P, g, n) && LocksReported(P, g.sent, n)
    requires out.kind == COMMIT ==> out.view.round >= g.nodes[n].view.round
    requires out.kind == ROUND_CHANGE ==> ExtractLatestPC(out) == g.nodes[n].latestPC
    ensures LocksReported(P, g.sent + {out}, n)
  {
    forall c, m | From(P, g.sent + {out}, n, c) && From(P, g.sent + {out}, n, m)
                  && c.kind == COMMIT && m.kind == ROUND_CHANGE && c.view.round < m.view.round
      ensures LockedFrom(ExtractLatestPC(m), c.view.round)
    {
      if c in g.sent {
        assert From(P, g.sent, n, c);
        assert MessageOk(P, g.accepted, n, g.nodes[n], c);
      }
      assert m in g.sent ==> From(P, g.sent, n, m) && MessageOk(P, g.accepted, n, g.nodes[n], m);
    }
  }

  /** A ROUND_CHANGE is for a round above that of every message its sender has sent before. */
  lemma RoundChangeIsAbove(P: Params, g: Global, a: Action, c: Message, m: Message)
    requires InvOf(P, g, m.from) && Enabled(P, g, a) && MovesUpAt(g, a, m.from)
    requires c in g.sent && m !in g.sent && m in Next(P, g, a).sent && c.from == m.from
    requires c.view.height == P.height && m.view.height == P.height && m.kind == ROUND_CHANGE
    ensures c.view.round < m.view.round
  {
    hide NodeEnabled, NodeNext, StateOk, LocksReported, AcceptedOk, FinalOk, UsableRoundChange;
    assert Multicast(P, g.nodes[a.node], a) == Some(m) && a.RoundExpired?;
    ActorSends(P, g, a);
    assert From(P, g.sent, a.node, c);
    assert MessageOk(P, g.accepted, a.node, g.nodes[a.node], c);
  }

  lemma LocksKept(P: Params, g: Global, a: Action)
    requires Enabled(P, g, a) && !a.OtherHeights? && InvOf(P, g, a.node)
    ensures LocksReported(P, Next(P, g, a).sent, a.node)
  {
    var out := Multicast(P, g.nodes[a.node], a);
    if out.Some? {
      LocksExtended(P, g, a.node, out.value);
    }
  }

  // ---------- the node that acts: what it accepts and inserts ----------

  /** What validateProposal lets through is justified: the honest senders of the
      round change report valid certificates, so the highest one it compared
      with is no lower than any of theirs. */
  lemma AcceptedIsJustified(P: Params, g: Global, id: Address, m: Message, view: View)
    requires Inv(P, g) && view.height == P.height && view.round > 0
    requires ProposalFor(P, g.sent, id, m, view)
    ensures ExtractProposal(m).Some? && Justified(P, g.sent, view.round, ExtractProposal(m).value.raw)
  {
    assert [m][0] == m;
    assert ValidProposal(P.b, id, m, view);
    var rcs := ExtractRoundChangeCertificate(m).value.roundChangeMessages;
    var raw := ExtractProposal(m).value.raw;
    forall i | 0 <= i < |rcs|
      ensures IsRoundChangeFor(P.b, rcs[i], view) && KnownRoundChange(P, g.sent, rcs[i])
      ensures HonestCertificate(P, rcs[i]) ==> HasCertificate(P.b, rcs[i], view.round, P.height)
    {
      assert IsRoundChangeFor(P.b, rcs[i], view) && KnownRoundChange(P, g.sent, rcs[i]);
      if HonestCertificate(P, rcs[i]) {
        assert From(P, g.sent, rcs[i].from, rcs[i]);
        assert NodeOk(P, g, rcs[i].from);
        assert MessageOk(P, g.accepted, rcs[i].from, g.nodes[rcs[i].from], rcs[i]);
      }
    }
    if i :| 0 <= i < |rcs| && HonestCertificate(P, rcs[i]) {
      var j := LastHighestExists(P.b, rcs, view.round, P.height, i);
      var pc := ExtractLatestPC(rcs[j]).value;
      assert KnownRoundChange(P, g.sent, rcs[j]);
      assert HighestCertificate(P, g.sent, view.round, raw, rcs, pc);
    }
    assert JustifiedBy(P, g.sent, view.round, raw, rcs);
  }

  lemma NewlyAcceptedJustified(P: Params, g: Global, a: Action)
    requires Inv(P, g) && Enabled(P, g, a) && Accepts(a)
    requires var v := NodeNext(P, g.nodes[a.node], a).view; v.round > 0 && !P.b.IsProposer(a.node, v)
    ensures var st' := NodeNext(P, g.nodes[a.node], a);
            Justified(P, g.sent, st'.view.round, st'.RawData())
  {
    var st' := NodeNext(P, g.nodes[a.node], a);
    assert st'.view.height == P.height by {
      assert NodeOk(P, g, a.node);
    }
    AcceptedIsJustified(P, g, a.node, a.proposal, st'.view);
  }

  /** Rounds of accepted data stay below the node's, and the current one is what it holds. */
  lemma AcceptedMatches(P: Params, g: Global, a: Action)
    requires Enabled(P, g, a) && MovesUp(g, a) && !a.OtherHeights? && InvOf(P, g, a.node)
    ensures a.node in Next(P, g, a).nodes && AcceptedOk(Next(P, g, a), a.node)
    ensures Next(P, g, a).nodes[a.node].view.height == P.height
  {
    hide ProposalFor, PreparesFor, CommitsFor, Justified, LockOk, ProposalOk, MessagesOk, LocksReported, FinalOk;
    assert StateOk(P, g.nodes[a.node]) by {
      assert NodeSound(P, g, a.node);
    }
  }

  lemma AcceptedIsKept(P: Params, g: Global, a: Action)
    requires Inv(P, g) && Enabled(P, g, a) && MovesUp(g, a) && !a.OtherHeights?
    ensures JustifiedOk(P, Next(P, g, a), a.node)
  {
    hide NodeEnabled, Justified, StateOk, MessagesOk, LocksReported, FinalOk, Sound;
    var n := a.node;
    var g' := Next(P, g, a);
    assert JustifiedOk(P, g, n) by {
      assert NodeOk(P, g, n);
    }
    InvOfEach(P, g, n);
    AcceptedMatches(P, g, a);
    AcceptedGrows(P, g, a);
    forall r: nat | (n, r) in g'.accepted && r > 0 && !P.b.IsProposer(n, P.ViewAt(r))
      ensures Justified(P, g'.sent, r, g'.accepted[(n, r)])
    {
      if (n, r) !in g.accepted {
        assert P.ViewAt(r) == g'.nodes[n].view;
        NewlyAcceptedJustified(P, g, a);
      }
      JustifiedKept(P, g.sent, g'.sent, r, g'.accepted[(n, r)]);
    }
  }

  // ---------- every step, every run ----------

  lemma LockStaysBelow(P: Params, g: Global, a: Action)
    requires Enabled(P, g, a) && MovesUp(g, a) && !a.OtherHeights? && InvOf(P, g, a.node)
    ensures LockBelow(NodeNext(P, g.nodes[a.node], a))
  {
    hide LockOk, FinalOk, MessagesOk, LocksReported, AcceptedOk;
    assert NodeSound(P, g, a.node);
  }

  lemma OwnKept(P: Params, g: Global, a: Action)
    requires P.b.CollisionFree() && Enabled(P, g, a) && MovesUp(g, a) && !a.OtherHeights? && InvOf(P, g, a.node)
    ensures a.node in Next(P, g, a).nodes && OwnOk(P, Next(P, g, a), a.node)
  {
    hide InvOf, NodeEnabled, NodeNext, LockBelow, MessagesOk, LocksReported, AcceptedOk;
    LockStaysBelow(P, g, a);
    MessagesKept(P, g, a);
    LocksKept(P, g, a);
    AcceptedMatches(P, g, a);
  }

  lemma SendersKept(P: Params, g: Global, a: Action)
    requires Sound(P, g) && SendersOk(P, g.sent) && Enabled(P, g, a)
    ensures SendersOk(P, Next(P, g, a).sent)
  {
    if !a.OtherHeights? {
      ActorSends(P, g, a);
    }
  }

  /** Every step keeps what holds of a node, if the step is not a move of this node
      to its own or a lower round; other nodes may move where they like. */
  lemma InvOfKept(P: Params, g: Global, a: Action, n: Address)
    requires P.b.CollisionFree() && InvOf(P, g, n) && Enabled(P, g, a) && MovesUpAt(g, a, n)
    ensures InvOf(P, Next(P, g, a), n)
  {
    hide OwnOk, Sound, SendersOk, NodeEnabled, NodeNext, Multicast;
    SoundKept(P, g, a);
    SendersKept(P, g, a);
    if n in g.nodes {
      if !a.OtherHeights? && n == a.node {
        OwnKept(P, g, a);
      } else {
        if !a.OtherHeights? {
          ActorSends(P, g, a);
        }
        OthersOwnKept(P, g, a, n);
      }
    }
  }

  lemma AllJustified(P: Params, g: Global, a: Action, k: Address)
    requires Inv(P, g) && Enabled(P, g, a) && MovesUp(g, a) && k in g.nodes
    ensures JustifiedOk(P, Next(P, g, a), k)
  {
    hide NodeEnabled, NodeNext, NodeSound, OwnOk;
    assert NodeOk(P, g, k);
    if a.OtherHeights? || k != a.node {
      JustifiedStays(P, g, a, k);
    } else {
      AcceptedIsKept(P, g, a);
    }
  }

  lemma InvFromEach(P: Params, g: Global)
    requires Sound(P, g) && SendersOk(P, g.sent)
    requires forall k :: k in g.nodes ==> InvOf(P, g, k) && JustifiedOk(P, g, k)
    ensures Inv(P, g)
  {
    hide NodeSound, OwnOk, JustifiedOk, SendersOk;
    forall k | k in g.nodes ensures NodeOk(P, g, k) {
      assert InvOf(P, g, k) && NodeSound(P, g, k);
    }
  }

  /** Every step to a higher round keeps the invariant. */
  lemma InvKept(P: Params, g: Global, a: Action)
    requires P.b.CollisionFree() && Inv(P, g) && Enabled(P, g, a) && MovesUp(g, a)
    ensures Inv(P, Next(P, g, a))
  {
    hide Next, Enabled, MovesUp, NodeOk, OwnOk, JustifiedOk, NodeSound;
    var g' := Next(P, g, a);
    NodesStay(P, g, a);
    forall k ensures InvOf(P, g', k) {
      InvOfEach(P, g, k);
      InvOfKept(P, g, a, k);
    }
    forall k | k in g'.nodes ensures JustifiedOk(P, g', k) {
      AllJustified(P, g, a, k);
    }
    assert InvOf(P, g', []);
    InvFromEach(P, g');
  }

  lemma NodesStay(P: Params, g: Global, a: Action)
    requires Enabled(P, g, a)
    ensures Next(P, g, a).nodes.Keys == g.nodes.Keys
  {
  }

  lemma {:induction false} RunInvOf(P: Params, states: seq<Global>, steps: seq<Action>, i: nat, n: Address)
    requires P.b.CollisionFree() && Run(P, states, steps) && UpwardAt(states, steps, n) && i < |states|
    ensures InvOf(P, states[i], n)
  {
    hide Next, Enabled, MovesUpAt;
    if i == 0 {
      InitInv(P, states[0]);
      InvOfEach(P, states[0], n);
    } else {
      hide InvOf;
      RunInvOf(P, states, steps, i - 1, n);
      InvOfKept(P, states[i - 1], steps[i - 1], n);
    }
  }

  lemma InitInv(P: Params, g: Global)
    requires Init(P, g)
    ensures Inv(P, g)
  {
  }

  lemma {:induction false} RunInv(P: Params, states: seq<Global>, steps: seq<Action>, i: nat)
    requires P.b.CollisionFree() && Run(P, states, steps) && Upward(states, steps) && i < |states|
    ensures Inv(P, states[i])
  {
    if i == 0 {
      InitInv(P, states[0]);
    } else {
      RunInv(P, states, steps, i - 1);
      InvKept(P, states[i - 1], steps[i - 1]);
    }
  }
}
