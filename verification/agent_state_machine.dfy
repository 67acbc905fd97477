/** The abstract agent-run machine: five statuses and a table of legal transitions. */
module AgentStateMachine {
  datatype Status = Queued | Running | Succeeded | Failed | Cancelled

  function AllowedFrom(s: Status): set<Status>
  {
    match s
    case Queued => {Running, Failed, Cancelled}
    case Running => {Succeeded, Failed, Cancelled}
    case _ => {}
  }

  predicate IsTerminal(s: Status) { s in {Succeeded, Failed, Cancelled} }

  predicate CanTransition(a: Status, b: Status) { b in AllowedFrom(a) }

  predicate IsCancellable(s: Status) { s in {Queued, Running} }

  /** The three views of the table agree, and the machine is acyclic: no status is ever re-entered. */
  lemma TableIsCoherent(a: Status, b: Status, c: Status)
    ensures IsTerminal(a) <==> AllowedFrom(a) == {}
    ensures IsCancellable(a) <==> CanTransition(a, Cancelled)
    ensures CanTransition(a, b) && CanTransition(b, c) ==> a != c && IsTerminal(c)
  {
    if IsTerminal(a) { assert AllowedFrom(a) == {}; }
    else { assert Failed in AllowedFrom(a); }
  }
}
