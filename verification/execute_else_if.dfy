/**
 * ElseIf: the middle link of the chain. On a wrapper whose flag says no
 * branch has run yet, it behaves as a conditional on the wrapper itself and
 * returns a new wrapper; otherwise it returns the wrapper it was given.
 *
 * The six C# overloads collapse into one operation over awaited values.
 */
module ExecuteElseIfExtensions {
  import opened Hosting
  import opened ExecuteIfExtensions

  function ElseIf(host: ElseExecuteHost, condition: HostPredicate, action: HostAction): (r: Run<ElseExecuteHost>)
    // a branch already ran: the same wrapper comes back and no callback is called
    ensures !host.canElseExecute ==> r == Run(host, [])
    // still open: the predicate is evaluated once, on the wrapper itself, first
    ensures host.canElseExecute ==>
              |r.calls| >= 1 && r.calls[0] == Evaluated(Wrapper(host)) && Evaluations(r.calls) == 1
    // the action runs at most once, exactly when this branch fires
    ensures Invocations(r.calls) == (if host.canElseExecute && condition(Wrapper(host)) then 1 else 0)
    // ... and, like the predicate, it is handed the wrapper itself
    ensures Invoked(Wrapper(host)) in r.calls <==> host.canElseExecute && condition(Wrapper(host))
    // firing wraps the action's result and closes the chain
    ensures host.canElseExecute && condition(Wrapper(host)) ==>
              Unwrap(r.value) == action(Wrapper(host)) && !r.value.canElseExecute
    // not firing wraps the incoming wrapper once more and keeps the chain open
    ensures host.canElseExecute && !condition(Wrapper(host)) ==>
              Unwrap(r.value) == Wrapper(host) && r.value.canElseExecute
    // the flag only moves from true to false
    ensures r.value.canElseExecute ==> host.canElseExecute
  {
    if !host.canElseExecute then Run(host, [])
    else if condition(Wrapper(host)) then
      FiringCalls(Wrapper(host));
      Run(ElseExecuteHost(action(Wrapper(host)), false), [Evaluated(Wrapper(host)), Invoked(Wrapper(host))])
    else
      Run(ElseExecuteHost(Wrapper(host), true), [Evaluated(Wrapper(host))])
  }

  /**
   * On an open wrapper ElseIf is ExecuteIf applied to the wrapper, with the
   * result wrapped again and the flag set to "the predicate failed".
   */
  lemma OpenElseIfIsExecuteIf(host: ElseExecuteHost, condition: HostPredicate, action: HostAction)
    requires host.canElseExecute
    ensures var e := ExecuteIf(Wrapper(host), condition, action);
            ElseIf(host, condition, action)
              == Run(ElseExecuteHost(e.value, !condition(Wrapper(host))), e.calls)
  {
  }

  /** On a closed wrapper neither the predicate nor the action matters. */
  lemma ClosedElseIfIgnoresBranch(host: ElseExecuteHost, p1: HostPredicate, a1: HostAction, p2: HostPredicate, a2: HostAction)
    requires !host.canElseExecute
    ensures ElseIf(host, p1, a1) == ElseIf(host, p2, a2)
  {
  }
}
