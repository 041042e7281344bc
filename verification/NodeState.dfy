/** core/state.go: the state of one node, as a value and as the locked struct
    whose fields the program overwrites. */
module NodeState {
  import opened Types

  datatype StateName = NewRound | Prepare | Commit | Fin

  datatype State = State(
    view: View,
    latestPC: Option<PreparedCertificate>,
    latestPreparedProposal: Option<Proposal>,
    proposalMessage: Option<Message>,
    seals: seq<Option<CommittedSeal>>,
    roundStarted: bool,
    name: StateName)
  {
    function GetProposal(): Option<Proposal> {
      if proposalMessage.Some? then ExtractProposal(proposalMessage.value) else None
    }

    function GetProposalHash(): Bytes
      requires proposalMessage.Some?
    {
      ExtractProposalHash(proposalMessage.value)
    }

    function RawData(): Bytes {
      if GetProposal().Some? then GetProposal().value.raw else Nil
    }

    /** newRound */
    function KickOff(): State {
      if roundStarted then this else this.(name := NewRound, roundStarted := true)
    }

    /** moveToNewRound */
    function MoveTo(round: nat): State {
      this.(view := View(view.height, round), roundStarted := false, proposalMessage := None, name := NewRound)
    }

    /** acceptProposal */
    function Accept(proposal: Message): State {
      this.(proposalMessage := Some(proposal), name := Prepare)
    }

    /** finalizePrepare */
    function Lock(certificate: PreparedCertificate): State {
      this.(latestPC := Some(certificate), latestPreparedProposal := GetProposal(), name := Commit)
    }

    /** setCommittedSeals and the change to fin */
    function Seal(newSeals: seq<Option<CommittedSeal>>): State {
      this.(seals := newSeals, name := Fin)
    }
  }

  /** reset */
  function Initial(height: nat): State {
    State(View(height, 0), None, None, None, [], false, NewRound)
  }

  /** The struct itself. Its lock makes each method one atomic step. */
  class StateCell {
    var view: View
    var latestPC: Option<PreparedCertificate>
    var latestPreparedProposal: Option<Proposal>
    var proposalMessage: Option<Message>
    var seals: seq<Option<CommittedSeal>>
    var roundStarted: bool
    var name: StateName

    function Value(): State
      reads this
    {
      State(view, latestPC, latestPreparedProposal, proposalMessage, seals, roundStarted, name)
    }

    constructor (height: nat)
      ensures Value() == Initial(height)
    {
      view, latestPC, latestPreparedProposal, proposalMessage := View(height, 0), None, None, None;
      seals, roundStarted, name := [], false, NewRound;
    }

    method Reset(height: nat)
      modifies this
      ensures Value() == Initial(height)
    {
      seals := [];
      roundStarted := false;
      name := NewRound;
      proposalMessage := None;
      latestPC := None;
      latestPreparedProposal := None;
      view := View(height, 0);
    }

    method KickOffRound()
      modifies this
      ensures Value() == old(Value().KickOff())
    {
      if !roundStarted {
        name := NewRound;
        roundStarted := true;
      }
    }

    method FinalizePrepare(certificate: PreparedCertificate, prepared: Option<Proposal>)
      requires prepared == Value().GetProposal()
      modifies this
      ensures Value() == old(Value().Lock(certificate))
    {
      latestPC := Some(certificate);
      latestPreparedProposal := prepared;
      name := Commit;
    }
  }
}
