/** The state-change predicate OfferIsCheaperThan: a transition guarded by it
    is allowed only while the document's offer price is below a fixed amount. */
module OfferIsCheaperThan {

  /** The parts of the document state the predicate reads. */
  datatype DocumentHeader = DocumentHeader(price: int)
  datatype DocumentState = DocumentState(documentHeader: DocumentHeader)

  /** The command that asks for a state change; the predicate ignores it. */
  datatype ChangeCommand = ChangeCommand(desiredState: string)

  /** `test`: the header price is strictly below `amount`. */
  predicate Test(amount: int, state: DocumentState, command: ChangeCommand) {
    state.documentHeader.price < amount
  }

  // ---------------------------------------------------------------- properties

  /** A price equal to the amount does not pass: the comparison is strict. */
  lemma EqualPriceFails(amount: int, command: ChangeCommand)
    ensures !Test(amount, DocumentState(DocumentHeader(amount)), command)
  {
  }

  lemma CommandIrrelevant(amount: int, state: DocumentState, c1: ChangeCommand, c2: ChangeCommand)
    ensures Test(amount, state, c1) == Test(amount, state, c2)
  {
  }

  /** Raising the amount never turns a passing offer into a failing one. */
  lemma MonotoneInAmount(a: int, b: int, state: DocumentState, command: ChangeCommand)
    requires a <= b
    ensures Test(a, state, command) ==> Test(b, state, command)
  {
  }
}
