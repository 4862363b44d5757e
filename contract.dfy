/** A contract with a partner and the attachments negotiated under it. */
module Contract {
  import opened Wrappers
  import Decimal

  datatype ContractStatus =
    | NegotiationsInProgress   // 'negotiations-in-progress'
    | Rejected                 // 'rejected'
    | Accepted                 // 'accepted'

  datatype AttachmentStatus =
    | Proposed                 // 'proposed'
    | AcceptedByOneSide        // 'accepted-by-one-side'
    | AcceptedByBothSides      // 'accepted-by-both-side' (sic)
    | Rejected                 // 'rejected'

  /** The status an attachment has after one more acceptance: an attachment
      some side already accepted becomes accepted by both, any other one by
      one side. */
  function AcceptedStatus(s: AttachmentStatus): (r: AttachmentStatus)
    ensures r == AcceptedByBothSides <==> s == AcceptedByOneSide || s == AcceptedByBothSides
    ensures r == AcceptedByOneSide <==> s == Proposed || s == AttachmentStatus.Rejected
  {
    match s
    case AcceptedByOneSide | AcceptedByBothSides => AcceptedByBothSides
    case Proposed | Rejected => AcceptedByOneSide
  }

  /** The number `C/<count>/<partner>` a new contract gets. */
  function ContractNumber(partnerContractsCount: int, partnerName: string): (r: string)
    ensures |r| > |partnerName| + 2 && r[..2] == "C/" && r[|r| - |partnerName| - 1] == '/'
    ensures r[|r| - |partnerName|..] == partnerName
    ensures r[2..|r| - |partnerName| - 1] == Decimal.IntToString(partnerContractsCount)
  {
    "C/" + Decimal.IntToString(partnerContractsCount) + "/" + partnerName
  }

  /** One partner's contracts with different counts get different numbers. */
  lemma ContractNumberInjective(c1: int, c2: int, partnerName: string)
    requires ContractNumber(c1, partnerName) == ContractNumber(c2, partnerName)
    ensures c1 == c2
  {
    Decimal.IntToStringInjective(c1, c2);
  }

  /** Two acceptances take a proposed (or rejected) attachment to accepted by both sides. */
  lemma AcceptTwiceReachesBothSides(s: AttachmentStatus)
    requires s == Proposed || s == AttachmentStatus.Rejected
    ensures AcceptedStatus(s) == AcceptedByOneSide
    ensures AcceptedStatus(AcceptedStatus(s)) == AcceptedByBothSides
  {
  }

  /** Acceptance is idempotent once both sides have accepted, and it never
      leads back to proposed or rejected. */
  lemma AcceptanceStable(s: AttachmentStatus)
    ensures AcceptedStatus(AcceptedByBothSides) == AcceptedByBothSides
    ensures AcceptedStatus(s) != Proposed && AcceptedStatus(s) != AttachmentStatus.Rejected
    ensures AcceptedStatus(AcceptedStatus(s)) == AcceptedByBothSides
  {
  }

  class ContractAttachment {
    const contract: Contract
    const data: string
    const creationDate: int
    var acceptedAt: Option<int>
    var rejectedAt: Option<int>
    var changeDate: Option<int>
    var status: AttachmentStatus

    /** No operation ever records an acceptance, rejection or change date. */
    ghost predicate Valid()
      reads this
    {
      acceptedAt == None && rejectedAt == None && changeDate == None
    }

    /** A new attachment is proposed; `creationDate` stands for the clock. */
    constructor(contract: Contract, data: string, creationDate: int)
      ensures Valid()
      ensures this.contract == contract && this.data == data && this.creationDate == creationDate
      ensures status == Proposed
    {
      this.contract := contract;
      this.data := data;
      this.creationDate := creationDate;
      acceptedAt := None;
      rejectedAt := None;
      changeDate := None;
      status := Proposed;
    }

    /** `reject`: rejected, whatever the status was. */
    method Reject()
      modifies this`status
      ensures status == AttachmentStatus.Rejected
    {
      status := AttachmentStatus.Rejected;
    }

    /** `accept`: one more side accepts. */
    method Accept()
      modifies this`status
      ensures status == AcceptedStatus(old(status))
    {
      if status == AcceptedByOneSide || status == AcceptedByBothSides {
        status := AcceptedByBothSides;
      } else {
        status := AcceptedByOneSide;
      }
    }
  }

  class Contract {
    var attachments: seq<ContractAttachment>
    const partnerName: string
    const subject: string
    const creationDate: int
    var acceptedAt: Option<int>
    var rejectedAt: Option<int>
    var changeDate: Option<int>
    var status: ContractStatus
    const contractNo: string

    /** Every listed attachment belongs to this contract, and no date beyond
        the creation date is ever recorded, here or on an attachment. */
    ghost predicate Valid()
      reads this, attachments
    {
      && acceptedAt == None && rejectedAt == None && changeDate == None
      && forall i :: 0 <= i < |attachments| ==> attachments[i].contract == this && attachments[i].Valid()
    }

    /** A new contract is in negotiation, without attachments, numbered
        after the partner's contract count; `creationDate` stands for the clock. */
    constructor(partnerName: string, subject: string, partnerContractsCount: int, creationDate: int)
      ensures Valid()
      ensures status == NegotiationsInProgress && attachments == []
      ensures this.partnerName == partnerName && this.subject == subject && this.creationDate == creationDate
      ensures contractNo == ContractNumber(partnerContractsCount, partnerName)
    {
      attachments := [];
      this.creationDate := creationDate;
      this.partnerName := partnerName;
      this.subject := subject;
      contractNo := "C/" + Decimal.IntToString(partnerContractsCount) + "/" + partnerName;
      acceptedAt := None;
      rejectedAt := None;
      changeDate := None;
      status := NegotiationsInProgress;
    }

    /** Every attachment of the contract is accepted by both sides. */
    predicate AllAcceptedByBothSides()
      reads this, attachments
    {
      forall i :: 0 <= i < |attachments| ==> attachments[i].status == AcceptedByBothSides
    }

    /** `accept`: accepted when every attachment is accepted by both sides
        (so always when there are none); otherwise refused, status unchanged. */
    method Accept() returns (r: Result<()>)
      modifies this`status
      ensures r.Ok? <==> AllAcceptedByBothSides()
      ensures r.Ok? ==> status == Accepted
      ensures r.Err? ==> r == Err(Runtime("Not all attachments accepted by both sides")) && status == old(status)
    {
      var i := 0;
      while i < |attachments|
        invariant 0 <= i <= |attachments|
        invariant forall j :: 0 <= j < i ==> attachments[j].status == AcceptedByBothSides
      {
        if attachments[i].status != AcceptedByBothSides {
          return Err(Runtime("Not all attachments accepted by both sides"));
        }
        i := i + 1;
      }
      status := Accepted;
      r := Ok(());
    }

    /** `reject`: rejected, whatever the status was. */
    method Reject()
      modifies this`status
      ensures status == ContractStatus.Rejected
    {
      status := ContractStatus.Rejected;
    }

    /** `proposeAttachment`: only while negotiating; appends one new proposed
        attachment with the data, and leaves the earlier ones as they were. */
    method ProposeAttachment(data: string, now: int) returns (r: Result<ContractAttachment>)
      requires Valid()
      modifies this`attachments
      ensures Valid()
      ensures r.Ok? <==> status == NegotiationsInProgress
      ensures r.Ok? ==> fresh(r.value) && attachments == old(attachments) + [r.value]
      ensures r.Ok? ==> r.value.contract == this && r.value.data == data && r.value.status == Proposed
      ensures r.Err? ==> attachments == old(attachments)
      ensures r.Err? ==> r.error == Runtime("Contract must be still in negotiation in order to propose attachment")
    {
      if status != NegotiationsInProgress {
        return Err(Runtime("Contract must be still in negotiation in order to propose attachment"));
      }
      var attachment := new ContractAttachment(this, data, now);
      attachments := attachments + [attachment];
      r := Ok(attachment);
    }
  }

  /** A negotiation: a new contract, one proposed attachment accepted twice,
      then the contract accepted. */
  method Negotiate(partnerName: string, subject: string, data: string, now: int) returns (c: Contract)
    ensures fresh(c) && c.Valid() && c.status == Accepted && |c.attachments| == 1
    ensures c.attachments[0].status == AcceptedByBothSides
  {
    c := new Contract(partnerName, subject, 1, now);
    var proposal := c.ProposeAttachment(data, now);
    var attachment := proposal.value;
    attachment.Accept();
    attachment.Accept();
    var accepted := c.Accept();
    assert accepted.Ok?;
  }
}
