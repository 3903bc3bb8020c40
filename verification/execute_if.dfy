/**
 * ExecuteIf: run an action on the host when a condition holds.
 *
 * The six C# overloads (sync or async condition and action, IHost or
 * Task<IHost> receiver) are one operation here: an awaited condition,
 * action or receiver is modelled by its awaited value. ExecuteIf gives back a
 * plain host; it does not start an else chain.
 */
module ExecuteIfExtensions {
  import opened Hosting

  function ExecuteIf(host: Host, condition: HostPredicate, action: HostAction): (r: Run<Host>)
    // the predicate is evaluated exactly once, on the host, before anything else
    ensures |r.calls| >= 1 && r.calls[0] == Evaluated(host) && Evaluations(r.calls) == 1
    // the action runs at most once, and exactly when the predicate holds
    ensures Invocations(r.calls) == (if condition(host) then 1 else 0)
    ensures Invoked(host) in r.calls <==> condition(host)
    // the result is what the action returned, or else the host itself
    ensures condition(host) ==> r.value == action(host)
    ensures !condition(host) ==> r.value == host
  {
    if condition(host) then
      FiringCalls(host);
      Run(action(host), [Evaluated(host), Invoked(host)])
    else Run(host, [Evaluated(host)])
  }

  /** When the predicate fails, the action has no influence at all on the outcome. */
  lemma ActionIrrelevantWhenFalse(host: Host, condition: HostPredicate, a1: HostAction, a2: HostAction)
    requires !condition(host)
    ensures ExecuteIf(host, condition, a1) == ExecuteIf(host, condition, a2) == Run(host, [Evaluated(host)])
  {
  }

  /**
   * Chaining two ExecuteIf calls gives two independent conditionals: the
   * second condition is evaluated on whatever the first step returned, and
   * both actions may run (there is no else-semantics without a wrapper).
   */
  lemma TwoExecuteIfsAreIndependent(host: Host, p1: HostPredicate, a1: HostAction, p2: HostPredicate, a2: HostAction)
    requires p1(host) && p2(a1(host))
    ensures var first := ExecuteIf(host, p1, a1);
            var second := ExecuteIf(first.value, p2, a2);
            Invocations(first.calls + second.calls) == 2 && second.value == a2(a1(host))
  {
    var first := ExecuteIf(host, p1, a1);
    var second := ExecuteIf(first.value, p2, a2);
    InvocationsAppend(first.calls, second.calls);
  }
}
