/** Status words and the transition graphs of the three aggregates. */
module Status {

  /** Each constructor stands for the word of the same name; `Blank` is the empty word and
      `Other` carries any word the system does not use. */
  datatype Status =
    | Open | Closed | Moving | Locked
    | Draft | Pending | Approved | Executing | Completed | Aborted
    | Confirmed | Failed | Cancelled
    | Removed
    | Blank
    | Other(word: string)

  datatype Kind = GateUnit | OperationDirective | ExecutionConfirmation

  function Targets(kind: Kind, from: Status): set<Status> {
    match kind
    case GateUnit => (
      match from
      case Open => {Moving, Locked}
      case Closed => {Moving, Locked}
      case Moving => {Open, Closed, Locked}
      case Locked => {Closed}
      case _ => {})
    case OperationDirective => (
      match from
      case Draft => {Pending}
      case Pending => {Approved, Aborted}
      case Approved => {Executing, Aborted}
      case Executing => {Completed, Aborted}
      case _ => {})
    case ExecutionConfirmation => (
      match from
      case Pending => {Confirmed, Failed}
      case Failed => {Cancelled}
      case _ => {})
  }

  predicate CanTransition(kind: Kind, from: Status, to: Status) {
    to in Targets(kind, from)
  }

  // ---- The graphs, written out pair by pair ----

  predicate GateEdge(from: Status, to: Status) {
    || (from == Open && (to == Moving || to == Locked))
    || (from == Closed && (to == Moving || to == Locked))
    || (from == Moving && (to == Open || to == Closed || to == Locked))
    || (from == Locked && to == Closed)
  }

  predicate DirectiveEdge(from: Status, to: Status) {
    || (from == Draft && to == Pending)
    || (from == Pending && (to == Approved || to == Aborted))
    || (from == Approved && (to == Executing || to == Aborted))
    || (from == Executing && (to == Completed || to == Aborted))
  }

  predicate ReceiptEdge(from: Status, to: Status) {
    || (from == Pending && (to == Confirmed || to == Failed))
    || (from == Failed && to == Cancelled)
  }

  lemma EdgesWritten(from: Status, to: Status)
    ensures CanTransition(GateUnit, from, to) <==> GateEdge(from, to)
    ensures CanTransition(OperationDirective, from, to) <==> DirectiveEdge(from, to)
    ensures CanTransition(ExecutionConfirmation, from, to) <==> ReceiptEdge(from, to)
  {
    hide Targets;
    GateEdgesWritten(from, to);
    DirectiveEdgesWritten(from, to);
    ReceiptEdgesWritten(from, to);
  }

  lemma GateEdgesWritten(from: Status, to: Status)
    ensures CanTransition(GateUnit, from, to) <==> GateEdge(from, to)
  {
  }

  lemma DirectiveEdgesWritten(from: Status, to: Status)
    ensures CanTransition(OperationDirective, from, to) <==> DirectiveEdge(from, to)
  {
  }

  lemma ReceiptEdgesWritten(from: Status, to: Status)
    ensures CanTransition(ExecutionConfirmation, from, to) <==> ReceiptEdge(from, to)
  {
  }

  lemma AllEdgesWritten()
    ensures forall from, to :: CanTransition(GateUnit, from, to) <==> GateEdge(from, to)
    ensures forall from, to :: CanTransition(OperationDirective, from, to) <==> DirectiveEdge(from, to)
    ensures forall from, to :: CanTransition(ExecutionConfirmation, from, to) <==> ReceiptEdge(from, to)
  {
    hide Targets;
    forall from, to
      ensures CanTransition(GateUnit, from, to) <==> GateEdge(from, to)
      ensures CanTransition(OperationDirective, from, to) <==> DirectiveEdge(from, to)
      ensures CanTransition(ExecutionConfirmation, from, to) <==> ReceiptEdge(from, to)
    {
      EdgesWritten(from, to);
    }
  }

  function Initial(kind: Kind): Status {
    match kind
    case GateUnit => Open
    case OperationDirective => Draft
    case ExecutionConfirmation => Pending
  }
}
