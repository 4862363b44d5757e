/** The contract service: the operations on contracts and attachments that
    go through the two repositories, here maps from id to entity. */
module ContractService {
  import opened Wrappers
  import opened Contract

  /** A set is no larger than a set that includes it. */
  lemma {:induction false} SubsetNoLarger<T>(a: set<T>, b: set<T>)
    requires a <= b
    ensures |a| <= |b|
    decreases b
  {
    if a != {} {
      var x :| x in a;
      SubsetNoLarger(a - {x}, b - {x});
    }
  }

  /** A set included in another of the same size is that set. */
  lemma SubsetOfSameSize<T>(a: set<T>, b: set<T>)
    requires a <= b && |a| == |b|
    ensures a == b
  {
    if a != b {
      var x :| x in b && x !in a;
      SubsetNoLarger(a, b - {x});
    }
  }

  class ContractService {
    var contracts: map<int, Contract>
    var attachments: map<int, ContractAttachment>
    /** The next id either repository hands out on `save`. */
    var nextId: int

    ghost predicate Valid()
      reads this
    {
      && (forall id :: id in contracts ==> id < nextId)
      && (forall id :: id in attachments ==> id < nextId)
    }

    constructor()
      ensures Valid() && contracts == map[] && attachments == map[]
    {
      contracts := map[];
      attachments := map[];
      nextId := 1;
    }

    /** How many stored contracts are with this partner. */
    function PartnerContractsCount(partnerName: string): nat
      reads this
    {
      |set id | id in contracts && contracts[id].partnerName == partnerName|
    }

    /** The ids of the stored attachments that belong to `contract`. */
    function AttachmentsOf(contract: Contract): (ids: set<int>)
      reads this
      ensures forall id :: id in ids <==> id in attachments && attachments[id].contract == contract
    {
      set id | id in attachments && attachments[id].contract == contract
    }

    /** The ids among those that are accepted by both sides. */
    function AcceptedByBothSidesOf(contract: Contract): (ids: set<int>)
      reads this, attachments.Values
      ensures ids <= AttachmentsOf(contract)
      ensures forall id :: id in ids <==> id in AttachmentsOf(contract) && attachments[id].status == AcceptedByBothSides
    {
      set id | id in AttachmentsOf(contract) && attachments[id].status == AcceptedByBothSides
    }

    /** The filtered count equals the full count exactly when every attachment
        of the contract is accepted by both sides. */
    lemma CountsAgree(contract: Contract)
      ensures |AcceptedByBothSidesOf(contract)| == |AttachmentsOf(contract)|
          <==> forall id :: id in AttachmentsOf(contract) ==> attachments[id].status == AcceptedByBothSides
    {
      if |AcceptedByBothSidesOf(contract)| == |AttachmentsOf(contract)| {
        SubsetOfSameSize(AcceptedByBothSidesOf(contract), AttachmentsOf(contract));
      }
      if forall id :: id in AttachmentsOf(contract) ==> attachments[id].status == AcceptedByBothSides {
        assert AcceptedByBothSidesOf(contract) == AttachmentsOf(contract);
      }
    }

    /** `find`: the stored contract, or an error when there is none. */
    function Find(id: int): (r: Result<Contract>)
      reads this
      ensures r.Ok? <==> id in contracts
      ensures r.Ok? ==> r.value == contracts[id]
      ensures r.Err? ==> r.error == InvalidArgument("Contract does not exist")
    {
      if id in contracts then Ok(contracts[id]) else Err(InvalidArgument("Contract does not exist"))
    }

    /** `createContract`: stores a new contract numbered with the partner's
        count of stored contracts plus one, under a new id. */
    method CreateContract(partnerName: string, subject: string, now: int) returns (id: int)
      requires Valid()
      modifies this`contracts, this`nextId
      ensures Valid()
      ensures id !in old(contracts) && id in contracts && contracts == old(contracts)[id := contracts[id]]
      ensures fresh(contracts[id]) && contracts[id].Valid()
      ensures contracts[id].contractNo == ContractNumber(old(PartnerContractsCount(partnerName)) + 1, partnerName)
      ensures contracts[id].partnerName == partnerName && contracts[id].subject == subject
      ensures contracts[id].status == NegotiationsInProgress && contracts[id].attachments == []
    {
      var partnerContractsCount := PartnerContractsCount(partnerName) + 1;
      var contract := new Contract(partnerName, subject, partnerContractsCount, now);
      id := nextId;
      contracts := contracts[id := contract];
      nextId := nextId + 1;
    }

    /** `acceptContract`: accepted when every stored attachment of the
        contract is accepted by both sides; refused otherwise, and for a
        missing contract, with nothing changed. */
    method AcceptContract(id: int) returns (r: Result<()>)
      modifies (if id in contracts then {contracts[id]} else {})`status
      ensures r.Ok? <==> (id in contracts &&
        forall aid :: aid in AttachmentsOf(contracts[id]) ==> attachments[aid].status == AcceptedByBothSides)
      ensures r.Ok? ==> contracts[id].status == Accepted
      ensures r.Err? && id in contracts ==>
        r == Err(Runtime("Not all attachments accepted by both sides")) && contracts[id].status == old(contracts[id].status)
      ensures id !in contracts ==> r == Err(InvalidArgument("Contract does not exist"))
    {
      var found := Find(id);
      if found.Err? {
        return Err(found.error);
      }
      var contract := found.value;
      CountsAgree(contract);
      if |AcceptedByBothSidesOf(contract)| == |AttachmentsOf(contract)| {
        contract.status := Accepted;
        r := Ok(());
      } else {
        r := Err(Runtime("Not all attachments accepted by both sides"));
      }
    }

    /** `rejectContract`: rejected whatever its status; an error for a missing contract. */
    method RejectContract(id: int) returns (r: Result<()>)
      modifies (if id in contracts then {contracts[id]} else {})`status
      ensures r.Ok? <==> id in contracts
      ensures r.Ok? ==> contracts[id].status == ContractStatus.Rejected
      ensures r.Err? ==> r == Err(InvalidArgument("Contract does not exist"))
    {
      var found := Find(id);
      if found.Err? {
        return Err(found.error);
      }
      found.value.status := ContractStatus.Rejected;
      r := Ok(());
    }

    /** `rejectAttachment`: rejected whatever its status. */
    method RejectAttachment(attachmentId: int)
      requires attachmentId in attachments
      modifies {attachments[attachmentId]}`status
      ensures attachments[attachmentId].status == AttachmentStatus.Rejected
    {
      attachments[attachmentId].status := AttachmentStatus.Rejected;
    }

    /** `acceptAttachment`: one more side accepts, by the same rule as the
        attachment's own `accept`. */
    method AcceptAttachment(attachmentId: int)
      requires attachmentId in attachments
      modifies {attachments[attachmentId]}`status
      ensures attachments[attachmentId].status == AcceptedStatus(old(attachments[attachmentId].status))
    {
      var attachment := attachments[attachmentId];
      if attachment.status == AcceptedByOneSide || attachment.status == AcceptedByBothSides {
        attachment.status := AcceptedByBothSides;
      } else {
        attachment.status := AcceptedByOneSide;
      }
    }

    /** `proposeAttachment`: for a contract still in negotiation, stores a new
        proposed attachment with the data under a new id and appends it to the
        contract's list; refused otherwise, with nothing changed. */
    method ProposeAttachment(contractId: int, data: string, now: int) returns (r: Result<int>)
      requires Valid()
      modifies this`attachments, this`nextId
      modifies (if contractId in contracts then {contracts[contractId]} else {})`attachments
      ensures Valid()
      ensures r.Ok? <==> contractId in contracts && contracts[contractId].status == NegotiationsInProgress
      ensures r.Ok? ==>
        r.value !in old(attachments) && r.value in attachments && attachments == old(attachments)[r.value := attachments[r.value]]
      ensures r.Ok? ==>
        fresh(attachments[r.value]) && contracts[contractId].attachments == old(contracts[contractId].attachments) + [attachments[r.value]]
      ensures r.Ok? ==>
        attachments[r.value].contract == contracts[contractId] && attachments[r.value].data == data && attachments[r.value].status == Proposed
      ensures r.Err? ==> attachments == old(attachments)
      ensures r.Err? && contractId in contracts ==>
        r == Err(Runtime("Contract must be still in negotiation in order to propose attachment"))
        && contracts[contractId].attachments == old(contracts[contractId].attachments)
      ensures contractId !in contracts ==> r == Err(InvalidArgument("Contract does not exist"))
    {
      var found := Find(contractId);
      if found.Err? {
        return Err(found.error);
      }
      var contract := found.value;
      if contract.status != NegotiationsInProgress {
        return Err(Runtime("Contract must be still in negotiation in order to propose attachment"));
      }
      var attachment := new ContractAttachment(contract, data, now);
      var attachmentId := nextId;
      attachments := attachments[attachmentId := attachment];
      nextId := nextId + 1;
      contract.attachments := contract.attachments + [attachment];
      r := Ok(attachmentId);
    }

    /** `proposeAttachment` as written: it builds the attachment with
        `new ContractAttachment()` and no arguments, while the constructor
        requires the contract and the data, so PHP raises an
        ArgumentCountError (a TypeError) on every call that gets that far. */
    method ProposeAttachmentAsWritten(contractId: int, data: string) returns (r: Result<int>)
      ensures r.Err?
      ensures r.error.TypeError? <==> contractId in contracts && contracts[contractId].status == NegotiationsInProgress
      ensures contractId !in contracts ==> r == Err(InvalidArgument("Contract does not exist"))
    {
      var found := Find(contractId);
      if found.Err? {
        return Err(found.error);
      }
      if found.value.status != NegotiationsInProgress {
        return Err(Runtime("Contract must be still in negotiation in order to propose attachment"));
      }
      r := Err(TypeError("Too few arguments to function ContractAttachment::__construct(), 0 passed"));
    }

    /** `removeAttachment`: drops the attachment from its repository without
        checking which contract owns it; contracts and their lists stay as
        they were. */
    method RemoveAttachment(contractId: int, attachmentId: int)
      modifies this`attachments
      ensures attachments == old(attachments) - {attachmentId}
    {
      attachments := attachments - {attachmentId};
    }
  }

  /** A removed attachment no longer counts for `acceptContract`, although
      the contract's own list still holds it. */
  lemma RemovedAttachmentNotCounted(s: ContractService, contract: Contract, attachmentId: int)
    requires attachmentId !in s.attachments
    ensures attachmentId !in s.AttachmentsOf(contract)
  {
  }
}
