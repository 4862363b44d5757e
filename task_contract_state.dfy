/** The task-contract state table: the states a task contract can be in and
    the changes between them that the assembler configures, some of them
    allowed only when the offer is cheaper than the assembler's amount. */
module TaskContractState {
  import opened Wrappers
  import P = OfferIsCheaperThan

  datatype TaskState =
    | PreOffer            // 'pre-offer'
    | Discounted          // 'discounted'
    | RejectedByManager   // 'rejected_by_manager'
    | ApprovedByManager   // 'approved_by_manager'
    | RejectedByClient    // 'rejected_by_client'
    | AcceptedByClient    // 'accepted_by_client'
    | Sold                // 'sold'

  /** A `check(...)` on a builder edge; `Always` when there is none. */
  datatype Guard = Always | OfferCheaperThan(amount: int)

  datatype Transition = Transition(from: TaskState, to: TaskState, guard: Guard)

  /** What the state builder produces: a start state and the listed edges. */
  datatype StateConfig = StateConfig(initial: TaskState, transitions: seq<Transition>)

  predicate GuardHolds(guard: Guard, state: P.DocumentState, command: P.ChangeCommand) {
    match guard
    case Always => true
    case OfferCheaperThan(amount) => P.Test(amount, state, command)
  }

  /** A change is allowed when an edge for it is listed and its guard holds. */
  predicate Allowed(config: StateConfig, state: P.DocumentState, command: P.ChangeCommand,
                    from: TaskState, to: TaskState)
  {
    exists i :: 0 <= i < |config.transitions| && config.transitions[i].from == from
      && config.transitions[i].to == to && GuardHolds(config.transitions[i].guard, state, command)
  }

  /** Reference definition of the table, state by state: the unguarded edges,
      and the edges that need a price below `amount`. */
  predicate Step(amount: int, price: int, from: TaskState, to: TaskState) {
    var cheap := price < amount;
    match from
    case PreOffer =>
      to == Discounted || to == RejectedByManager || to == ApprovedByManager
      || (cheap && (to == AcceptedByClient || to == Sold))
    case Discounted =>
      to == RejectedByManager || to == ApprovedByManager
      || (cheap && (to == AcceptedByClient || to == Sold))
    case ApprovedByManager => to == RejectedByClient || to == AcceptedByClient || to == Sold
    case AcceptedByClient => to == Sold
    case RejectedByManager => false
    case RejectedByClient => false
    case Sold => false
  }

  /** `assemble`, returning the configuration its builder calls describe. */
  method Assemble(amount: int) returns (config: StateConfig)
    ensures config.initial == PreOffer
    ensures forall state, command, from, to ::
      Allowed(config, state, command, from, to) <==> Step(amount, state.documentHeader.price, from, to)
  {
    var initial := PreOffer;
    var transitions: seq<Transition> := [];
    // optional
    transitions := transitions + [Transition(PreOffer, Discounted, Always)];
    // final
    transitions := transitions + [Transition(PreOffer, RejectedByManager, Always)];
    transitions := transitions + [Transition(Discounted, RejectedByManager, Always)];

    transitions := transitions + [Transition(PreOffer, ApprovedByManager, Always)];
    transitions := transitions + [Transition(Discounted, ApprovedByManager, Always)];
    // final
    transitions := transitions + [Transition(ApprovedByManager, RejectedByClient, Always)];
    transitions := transitions + [Transition(ApprovedByManager, AcceptedByClient, Always)];

    transitions := transitions + [Transition(ApprovedByManager, Sold, Always)];
    transitions := transitions + [Transition(AcceptedByClient, Sold, Always)];
    // possible only when the offer is cheaper than the amount
    var cheaper := OfferCheaperThan(amount);
    transitions := transitions + [Transition(PreOffer, AcceptedByClient, cheaper)];
    transitions := transitions + [Transition(PreOffer, Sold, cheaper)];
    transitions := transitions + [Transition(Discounted, AcceptedByClient, cheaper)];
    transitions := transitions + [Transition(Discounted, Sold, cheaper)];

    config := StateConfig(initial, transitions);
    assert transitions == ListedEdges(amount);
    forall state, command, from, to
      ensures Allowed(config, state, command, from, to) <==> Step(amount, state.documentHeader.price, from, to)
    {
      if Allowed(config, state, command, from, to) {
        TableAllowsOnlySteps(amount, state, command, from, to);
      }
      if Step(amount, state.documentHeader.price, from, to) {
        TableAllowsEveryStep(amount, state, command, from, to);
      }
    }
  }

  /** The thirteen edges in the order `assemble` lists them, as one value. */
  function ListedEdges(amount: int): seq<Transition> {
    [Transition(PreOffer, Discounted, Always),
     Transition(PreOffer, RejectedByManager, Always),
     Transition(Discounted, RejectedByManager, Always),
     Transition(PreOffer, ApprovedByManager, Always),
     Transition(Discounted, ApprovedByManager, Always),
     Transition(ApprovedByManager, RejectedByClient, Always),
     Transition(ApprovedByManager, AcceptedByClient, Always),
     Transition(ApprovedByManager, Sold, Always),
     Transition(AcceptedByClient, Sold, Always),
     Transition(PreOffer, AcceptedByClient, OfferCheaperThan(amount)),
     Transition(PreOffer, Sold, OfferCheaperThan(amount)),
     Transition(Discounted, AcceptedByClient, OfferCheaperThan(amount)),
     Transition(Discounted, Sold, OfferCheaperThan(amount))]
  }

  /** The listed edges allow only changes of the reference table... */
  lemma TableAllowsOnlySteps(amount: int, state: P.DocumentState,
                             command: P.ChangeCommand, from: TaskState, to: TaskState)
    requires Allowed(StateConfig(PreOffer, ListedEdges(amount)), state, command, from, to)
    ensures Step(amount, state.documentHeader.price, from, to)
  {
    var transitions := ListedEdges(amount);
    var i :| 0 <= i < |transitions| && transitions[i].from == from && transitions[i].to == to
      && GuardHolds(transitions[i].guard, state, command);
    // one case per listed edge
    if i == 0 {} else if i == 1 {} else if i == 2 {} else if i == 3 {}
    else if i == 4 {} else if i == 5 {} else if i == 6 {} else if i == 7 {}
    else if i == 8 {} else if i == 9 {} else if i == 10 {} else if i == 11 {}
    else {}
  }

  /** ... and every change of the reference table. */
  lemma TableAllowsEveryStep(amount: int, state: P.DocumentState,
                              command: P.ChangeCommand, from: TaskState, to: TaskState)
    requires Step(amount, state.documentHeader.price, from, to)
    ensures Allowed(StateConfig(PreOffer, ListedEdges(amount)), state, command, from, to)
  {
    var transitions := ListedEdges(amount);
    var i := match from
      case PreOffer => (match to case Discounted => 0 case RejectedByManager => 1
                          case ApprovedByManager => 3 case AcceptedByClient => 9 case _ => 10)
      case Discounted => (match to case RejectedByManager => 2 case ApprovedByManager => 4
                            case AcceptedByClient => 11 case _ => 12)
      case ApprovedByManager => (match to case RejectedByClient => 5 case AcceptedByClient => 6 case _ => 7)
      case _ => 8;
    assert transitions[i].from == from && transitions[i].to == to
      && GuardHolds(transitions[i].guard, state, command);
  }

  /** `assemble` as written: it makes the builder calls but has no return
      statement, so PHP raises a TypeError for the declared StateConfig result. */
  method AssembleAsWritten(amount: int) returns (r: Result<StateConfig>)
    ensures r.Err? && r.error.TypeError?
  {
    var _ := Assemble(amount);
    r := Err(TypeError("Return value must be of type StateConfig, none returned"));
  }

  // ---------------------------------------------------------------- properties

  /** A run of the contract: starts in pre-offer, each change allowed. */
  predicate IsRun(amount: int, price: int, run: seq<TaskState>) {
    && |run| >= 1
    && run[0] == PreOffer
    && forall i :: 0 <= i < |run| - 1 ==> Step(amount, price, run[i], run[i + 1])
  }

  /** The guarded edges are open exactly when the price is below the amount. */
  lemma GuardedEdges(amount: int, price: int, from: TaskState, to: TaskState)
    requires from == PreOffer || from == Discounted
    requires to == AcceptedByClient || to == Sold
    ensures Step(amount, price, from, to) <==> price < amount
  {
  }

  /** Rejection by either side and a sale end the contract. */
  lemma FinalStates(amount: int, price: int, to: TaskState)
    ensures !Step(amount, price, RejectedByManager, to)
    ensures !Step(amount, price, RejectedByClient, to)
    ensures !Step(amount, price, Sold, to)
  {
  }

  /** Before approval a run not using the guarded edges stays among pre-offer,
      discounted and rejected-by-manager. */
  lemma {:induction false} BeforeApproval(amount: int, price: int, run: seq<TaskState>, k: nat)
    requires price >= amount
    requires IsRun(amount, price, run)
    requires k < |run|
    requires ApprovedByManager !in run[..k + 1]
    ensures run[k] == PreOffer || run[k] == Discounted || run[k] == RejectedByManager
  {
    if k > 0 {
      assert run[..k] == run[..k + 1][..k];
      BeforeApproval(amount, price, run, k - 1);
      assert Step(amount, price, run[k - 1], run[k]);
      assert run[k] in run[..k + 1];
    }
  }

  /** When the offer is not cheaper than the amount, every run that ends in a
      sale goes through approval by the manager. */
  lemma SoldOnlyThroughApproval(amount: int, price: int, run: seq<TaskState>)
    requires price >= amount
    requires IsRun(amount, price, run)
    requires run[|run| - 1] == Sold
    ensures ApprovedByManager in run
  {
    if ApprovedByManager !in run {
      assert run[..|run|] == run;
      BeforeApproval(amount, price, run, |run| - 1);
    }
  }

  /** A cheap offer can be sold straight from pre-offer. */
  lemma CheapOfferSoldDirectly(amount: int, price: int)
    requires price < amount
    ensures IsRun(amount, price, [PreOffer, Sold])
  {
  }

  /** Every state can be reached from pre-offer, whatever the price. */
  lemma EveryStateReachable(amount: int, price: int, s: TaskState)
    ensures exists run :: IsRun(amount, price, run) && run[|run| - 1] == s
  {
    var run := match s
      case PreOffer => [PreOffer]
      case Discounted => [PreOffer, Discounted]
      case RejectedByManager => [PreOffer, RejectedByManager]
      case ApprovedByManager => [PreOffer, ApprovedByManager]
      case RejectedByClient => [PreOffer, ApprovedByManager, RejectedByClient]
      case AcceptedByClient => [PreOffer, ApprovedByManager, AcceptedByClient]
      case Sold => [PreOffer, ApprovedByManager, Sold];
    assert IsRun(amount, price, run) && run[|run| - 1] == s;
  }
}
