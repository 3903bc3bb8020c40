/**
 * Else: the terminal link of the chain and its only exit back to a plain
 * host. The four C# overloads collapse into one operation over awaited values.
 */
module ExecuteElseExtensions {
  import opened Hosting
  import opened ExecuteIfExtensions

  function Else(host: ElseExecuteHost, action: HostAction): (r: Run<Host>)
    // a branch already ran: the wrapped host comes back and the action is not called
    ensures !host.canElseExecute ==> r == Run(Unwrap(host), [])
    // still open: the action is called exactly once, with the wrapper itself
    ensures host.canElseExecute ==> r.calls == [Invoked(Wrapper(host))]
    ensures host.canElseExecute ==> r.value == action(Wrapper(host))
    ensures Evaluations(r.calls) == 0
    ensures Invocations(r.calls) == (if host.canElseExecute then 1 else 0)
  {
    if !host.canElseExecute then Run(Unwrap(host), [])
    else Run(action(Wrapper(host)), [Invoked(Wrapper(host))])
  }

  /** An open Else returns what ExecuteIf with an always-true predicate returns. */
  lemma OpenElseIsUnconditional(host: ElseExecuteHost, action: HostAction)
    requires host.canElseExecute
    ensures Else(host, action).value == ExecuteIf(Wrapper(host), _ => true, action).value
  {
  }

  /** A closed Else returns the same host whatever action it is given. */
  lemma ClosedElseIgnoresAction(host: ElseExecuteHost, a1: HostAction, a2: HostAction)
    requires !host.canElseExecute
    ensures Else(host, a1) == Else(host, a2) && Else(host, a1).value == host.host
  {
  }
}
