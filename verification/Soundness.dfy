/** What every step keeps, whatever rounds the nodes move to and however much
    power is faulty: the phases, the certificates recorded and the blocks inserted. */
module Soundness {
  import opened Types
  import opened Certificates
  import opened Proposals
  import opened NodeState
  import opened Protocol
  import opened Invariant

  lemma CommittedKept(P: Params, sent: set<Message>, sent': set<Message>, round: nat, raw: Bytes)
    requires Committed(P, sent, round, raw) && sent <= sent'
    ensures Committed(P, sent', round, raw)
  {
    var senders :| CommittedBy(P, sent, round, raw, senders);
    forall a | a in senders && a !in P.byzantine
      ensures CommitFrom(P, sent', a, round, raw)
    {
      assert CommitFrom(P, sent, a, round, raw);
    }
    assert CommittedBy(P, sent', round, raw, senders);
  }

  // ---------- the node that acts: its state ----------

  /** A proposal that passed the checks is one the state may hold. */
  lemma ValidProposalIsOk(P: Params, sent: set<Message>, id: Address, m: Message, st: State)
    requires st.view.height == P.height && ProposalFor(P, sent, id, m, st.view)
    requires st.proposalMessage == Some(m)
    ensures ProposalOk(P, st)
  {
    assert [m][0] == m;
    assert ValidProposalCommon(P.b, m, st.view);
  }

  /** Certificates made are certificates accepted: what handlePrepare records
      passes the certificate check for every higher round limit, and the
      proposal recorded with it matches it. */
  lemma MadeCertificateIsValid(P: Params, sent: set<Message>, st: State, prepares: seq<Message>, limit: nat)
    requires StateOk(P, st) && PreparesFor(P, sent, st, prepares)
    requires limit > st.view.round
    ensures var pc := PreparedCertificate(st.proposalMessage, Some(prepares));
            ValidPC(P.b, Some(pc), limit, P.height) && MatchesCertificate(P.b, st.GetProposal(), Some(pc))
            && PCRound(pc) == st.view.round
  {
    var msgs := [st.proposalMessage.value] + prepares;
    assert Senders(msgs) == {st.proposalMessage.value.from} + Senders(prepares) by {
      assert forall m :: m in msgs <==> m == st.proposalMessage.value || m in prepares;
    }
    MadeMessagesMatch(P, sent, st, prepares, limit);
  }

  lemma MadeMessagesMatch(P: Params, sent: set<Message>, st: State, prepares: seq<Message>, limit: nat)
    requires StateOk(P, st) && PreparesFor(P, sent, st, prepares)
    requires limit > st.view.round
    ensures ValidPCMessages([st.proposalMessage.value] + prepares, P.height, limit)
    ensures forall i :: 0 <= i < |prepares| ==> P.b.validSender(prepares[i])
    ensures forall i :: 0 <= i < |prepares| ==> !P.b.IsProposer(prepares[i].from, prepares[i].view)
  {
    var proposal := st.proposalMessage.value;
    var msgs := [proposal] + prepares;
    var hash := P.b.hash(st.RawData().Content(), st.view.round);
    forall i | 0 <= i < |prepares|
      ensures P.b.validSender(prepares[i]) && prepares[i].from != proposal.from
      ensures prepares[i].view == st.view && prepares[i].kind == PREPARE
      ensures ExtractPrepareHash(prepares[i]).Content() == hash
    {
      assert prepares[i] in prepares;
    }
    assert forall i :: 0 < i < |msgs| ==> msgs[i] == prepares[i - 1];
    assert forall i :: 0 <= i < |msgs| ==> PCMessageHash(msgs[i]).Content() == hash;
  }

  lemma LockMade(P: Params, sent: set<Message>, st: State, prepares: seq<Message>)
    requires StateOk(P, st) && PreparesFor(P, sent, st, prepares)
    ensures LockOk(P, st.Lock(PreparedCertificate(st.proposalMessage, Some(prepares))))
  {
    MadeCertificateIsValid(P, sent, st, prepares, st.view.round + 1);
  }

  lemma LockKept(P: Params, g: Global, a: Action)
    requires Sound(P, g) && Enabled(P, g, a) && !a.OtherHeights?
    ensures LockOk(P, NodeNext(P, g.nodes[a.node], a))
  {
    hide ProposalOk, PhaseOk, FinalOk, ProposalFor, CommitsFor, UsableCertificate, ValidPCParts;
    assert StateOk(P, g.nodes[a.node]) by {
      assert NodeSound(P, g, a.node);
    }
    if a.PrepareQuorum? {
      LockMade(P, g.sent, g.nodes[a.node], a.prepares);
    }
  }

  lemma ProposalKept(P: Params, g: Global, a: Action)
    requires Sound(P, g) && Enabled(P, g, a) && !a.OtherHeights?
    ensures ProposalOk(P, NodeNext(P, g.nodes[a.node], a))
  {
    var st := g.nodes[a.node];
    assert StateOk(P, st) by {
      assert NodeSound(P, g, a.node);
    }
    if a.AcceptProposal? || a.JumpToProposal? {
      ValidProposalIsOk(P, g.sent, a.node, a.proposal, NodeNext(P, st, a));
    }
  }

  lemma PhaseKept(P: Params, g: Global, a: Action)
    requires P.b.CollisionFree() && Sound(P, g) && Enabled(P, g, a) && !a.OtherHeights?
    ensures PhaseOk(P, NodeNext(P, g.nodes[a.node], a))
  {
    var st := g.nodes[a.node];
    assert StateOk(P, st) by {
      assert NodeSound(P, g, a.node);
    }
    if a.CommitQuorum? {
      SealsAreValid(P, g.sent, st, a.commits);
    }
  }

  lemma StateKept(P: Params, g: Global, a: Action)
    requires P.b.CollisionFree() && Sound(P, g) && Enabled(P, g, a) && !a.OtherHeights?
    ensures StateOk(P, NodeNext(P, g.nodes[a.node], a))
  {
    LockKept(P, g, a);
    ProposalKept(P, g, a);
    PhaseKept(P, g, a);
    assert NodeSound(P, g, a.node);
  }

  /** The seals taken from a commit quorum make a finality certificate. */
  lemma SealsAreValid(P: Params, sent: set<Message>, st: State, commits: seq<Message>)
    requires P.b.CollisionFree() && StateOk(P, st) && st.proposalMessage.Some? && CommitsFor(P, sent, st, commits)
    ensures SealedBy(P, st.view.round, st.RawData(), SealsOf(commits))
  {
    var seals := SealsOf(commits);
    forall i | 0 <= i < |seals|
      ensures seals[i].Some? && seals[i].value.signer == commits[i].from
      ensures P.b.validSeal(P.b.hash(st.RawData().Content(), st.view.round), seals[i])
    {
      assert P.b.IsValidProposalHash(st.GetProposal(), ExtractCommitHash(commits[i]));
    }
    var signers := set i | 0 <= i < |seals| :: seals[i].value.signer;
    assert signers == Senders(commits) by {
      forall x | x in Senders(commits) ensures x in signers {
        var i :| 0 <= i < |commits| && commits[i].from == x;
        assert seals[i].value.signer == x;
      }
      forall x | x in signers ensures x in Senders(commits) {
        var i :| 0 <= i < |seals| && seals[i].value.signer == x;
        assert commits[i] in commits;
      }
    }
  }

  // ---------- the node that acts: what it inserts ----------

  lemma FinalKept(P: Params, g: Global, a: Action)
    requires Sound(P, g) && Enabled(P, g, a) && !a.OtherHeights?
    ensures a.node in Next(P, g, a).nodes && FinalOk(P, Next(P, g, a), a.node)
  {
    var st := g.nodes[a.node];
    var g' := Next(P, g, a);
    assert NodeSound(P, g, a.node);
    if a.CommitQuorum? {
      CommitsMakeCommitted(P, g, st, a.commits);
    } else if g'.nodes[a.node].name == Fin {
      CommittedKept(P, g.sent, g'.sent, st.view.round, st.RawData());
    }
  }

  lemma CommitsMakeCommitted(P: Params, g: Global, st: State, commits: seq<Message>)
    requires StateOk(P, st) && st.proposalMessage.Some? && CommitsFor(P, g.sent, st, commits)
    ensures Committed(P, g.sent, st.view.round, st.RawData())
  {
    forall a | a in Senders(commits) && a !in P.byzantine
      ensures CommitFrom(P, g.sent, a, st.view.round, st.RawData())
    {
      var i :| 0 <= i < |commits| && commits[i].from == a;
      assert Known(P, g.sent, commits[i]);
    }
    assert CommittedBy(P, g.sent, st.view.round, st.RawData(), Senders(commits));
  }

  // ---------- every step, every run ----------

  lemma OthersSound(P: Params, g: Global, a: Action, k: Address)
    requires Sound(P, g) && Enabled(P, g, a)
    requires k in g.nodes && (a.OtherHeights? || k != a.node)
    ensures k in Next(P, g, a).nodes && NodeSound(P, Next(P, g, a), k)
  {
    hide NodeEnabled, NodeNext, StateOk, Committed, SealedBy;
    var g' := Next(P, g, a);
    assert NodeSound(P, g, k);
    assert g'.nodes[k] == g.nodes[k];
    if g.nodes[k].name == Fin {
      CommittedKept(P, g.sent, g'.sent, g.nodes[k].view.round, g.nodes[k].RawData());
    }
    if k in g.inserted {
      CommittedKept(P, g.sent, g'.sent, g.inserted[k].round, g.inserted[k].raw);
    }
  }

  lemma NodeSoundKept(P: Params, g: Global, a: Action, k: Address)
    requires P.b.CollisionFree() && Sound(P, g) && Enabled(P, g, a) && k in g.nodes
    ensures k in Next(P, g, a).nodes && NodeSound(P, Next(P, g, a), k)
  {
    if a.OtherHeights? || k != a.node {
      OthersSound(P, g, a, k);
    } else {
      StateKept(P, g, a);
      FinalKept(P, g, a);
    }
  }

  /** Every step keeps every honest node sound. */
  lemma SoundKept(P: Params, g: Global, a: Action)
    requires P.b.CollisionFree() && Sound(P, g) && Enabled(P, g, a)
    ensures Sound(P, Next(P, g, a))
  {
    hide NodeEnabled, NodeNext, NodeSound, Multicast;
    var g' := Next(P, g, a);
    assert g'.nodes.Keys == g.nodes.Keys && g'.inserted.Keys <= P.nodes;
    forall k | k in g'.nodes ensures NodeSound(P, g', k) {
      NodeSoundKept(P, g, a, k);
    }
  }

  lemma {:induction false} RunSound(P: Params, states: seq<Global>, steps: seq<Action>, i: nat)
    requires P.b.CollisionFree() && Run(P, states, steps) && i < |states|
    ensures Sound(P, states[i])
  {
    if i > 0 {
      RunSound(P, states, steps, i - 1);
      SoundKept(P, states[i - 1], steps[i - 1]);
    }
  }
}
