/**
 * A whole if / else-if / else chain: an ElseExecuteHost threaded through a
 * series of ElseIf links and closed by Else. The lemmas state what the chain
 * guarantees as a whole: the flag only falls, once it has fallen no later
 * predicate is evaluated, at most one ElseIf action runs, and with the Else
 * link exactly one action runs on an open chain.
 */
module ConditionalChain {
  import opened Hosting
  import opened ExecuteElseIfExtensions
  import opened ExecuteElseExtensions

  /** One ElseIf link: its predicate and its action. */
  datatype Branch = Branch(condition: HostPredicate, action: HostAction)

  /** The result of a chain and, per link, the calls that link made (steps[i] for the i-th link). */
  datatype ChainRun<T> = ChainRun(value: T, steps: seq<seq<Call>>)

  /** Number of action invocations over all links. */
  function TotalInvocations(steps: seq<seq<Call>>): nat
  {
    if steps == [] then 0 else Invocations(steps[0]) + TotalInvocations(steps[1..])
  }

  /** `host.ElseIf(b0).ElseIf(b1)...` over `branches`, left to right. */
  function ElseIfs(host: ElseExecuteHost, branches: seq<Branch>): (r: ChainRun<ElseExecuteHost>)
    ensures |r.steps| == |branches|
    decreases |branches|
  {
    if branches == [] then ChainRun(host, [])
    else
      var link := ElseIf(host, branches[0].condition, branches[0].action);
      var rest := ElseIfs(link.value, branches[1..]);
      ChainRun(rest.value, [link.calls] + rest.steps)
  }

  /** `host.ElseIf(b0)...ElseIf(bn).Else(otherwise)`: the chain closed by its only exit. */
  function Chain(host: ElseExecuteHost, branches: seq<Branch>, otherwise: HostAction): (r: ChainRun<Host>)
    ensures |r.steps| == |branches| + 1
  {
    var links := ElseIfs(host, branches);
    var last := Else(links.value, otherwise);
    ChainRun(last.value, links.steps + [last.calls])
  }

  lemma {:induction false} TotalInvocationsAppend(a: seq<seq<Call>>, b: seq<seq<Call>>)
    ensures TotalInvocations(a + b) == TotalInvocations(a) + TotalInvocations(b)
  {
    if a == [] {
      assert a + b == b;
    } else {
      assert (a + b)[0] == a[0] && (a + b)[1..] == a[1..] + b;
      TotalInvocationsAppend(a[1..], b);
    }
  }

  /** A closed wrapper passes through any number of ElseIf links unchanged, and no callback is called. */
  lemma {:induction false} ClosedPassesThrough(host: ElseExecuteHost, branches: seq<Branch>)
    requires !host.canElseExecute
    ensures ElseIfs(host, branches).value == host
    ensures forall i :: 0 <= i < |branches| ==> ElseIfs(host, branches).steps[i] == []
    ensures TotalInvocations(ElseIfs(host, branches).steps) == 0
    decreases |branches|
  {
    if branches != [] {
      ClosedPassesThrough(host, branches[1..]);
    }
  }

  /**
   * The flag only falls, and it falls exactly when one action has run:
   * the links together invoke one action if an open wrapper came out closed,
   * and none otherwise. In particular at most one ElseIf action runs.
   */
  lemma {:induction false} FlagFallsOnceAction(host: ElseExecuteHost, branches: seq<Branch>)
    ensures var r := ElseIfs(host, branches);
            (r.value.canElseExecute ==> host.canElseExecute)
            && TotalInvocations(r.steps) == (if host.canElseExecute && !r.value.canElseExecute then 1 else 0)
            && TotalInvocations(r.steps) <= 1
    decreases |branches|
  {
    if branches != [] {
      var link := ElseIf(host, branches[0].condition, branches[0].action);
      var rest := ElseIfs(link.value, branches[1..]);
      FlagFallsOnceAction(link.value, branches[1..]);
      assert ([link.calls] + rest.steps)[1..] == rest.steps;
    }
  }

  /**
   * Link `i` evaluates its predicate exactly once when no earlier link has
   * invoked an action, and makes no call at all otherwise.
   */
  ghost predicate ShortCircuits(steps: seq<seq<Call>>, i: nat)
    requires i < |steps|
  {
    if TotalInvocations(steps[..i]) == 0 then Evaluations(steps[i]) == 1 else steps[i] == []
  }

  /**
   * Short-circuit: on an open chain, a link evaluates its predicate (once)
   * exactly when no earlier link ran its action; after an action has run,
   * every later link makes no call at all.
   */
  lemma {:induction false} ShortCircuit(host: ElseExecuteHost, branches: seq<Branch>)
    requires host.canElseExecute
    ensures forall i :: 0 <= i < |branches| ==> ShortCircuits(ElseIfs(host, branches).steps, i)
    decreases |branches|
  {
    if branches != [] {
      var link := ElseIf(host, branches[0].condition, branches[0].action);
      var rest := ElseIfs(link.value, branches[1..]);
      var steps := ElseIfs(host, branches).steps;
      assert steps == [link.calls] + rest.steps;
      if link.value.canElseExecute {
        ShortCircuit(link.value, branches[1..]);
      } else {
        ClosedPassesThrough(link.value, branches[1..]);
      }
      forall i | 0 <= i < |steps|
        ensures ShortCircuits(steps, i)
      {
        if i > 0 {
          assert steps[..i] == [link.calls] + rest.steps[..i - 1];
          assert steps[i] == rest.steps[i - 1];
          assert TotalInvocations(steps[..i]) == Invocations(link.calls) + TotalInvocations(rest.steps[..i - 1]) by {
            assert (steps[..i])[0] == link.calls && (steps[..i])[1..] == rest.steps[..i - 1];
          }
          if link.value.canElseExecute {
            assert Invocations(link.calls) == 0;
            assert ShortCircuits(rest.steps, i - 1);
          } else {
            assert Invocations(link.calls) == 1;
            assert rest.steps[i - 1] == [];
          }
        } else {
          assert steps[..i] == [];
        }
      }
    }
  }

  /** Once an action has run, every later link is silent. */
  lemma NothingAfterFiring(host: ElseExecuteHost, branches: seq<Branch>, i: nat, j: nat)
    requires host.canElseExecute
    requires i < j < |branches|
    requires Invocations(ElseIfs(host, branches).steps[i]) > 0
    ensures ElseIfs(host, branches).steps[j] == []
  {
    var steps := ElseIfs(host, branches).steps;
    ShortCircuit(host, branches);
    assert ShortCircuits(steps, j);
    assert steps[..j] == steps[..i] + [steps[i]] + steps[i + 1..j];
    TotalInvocationsAppend(steps[..i] + [steps[i]], steps[i + 1..j]);
    TotalInvocationsAppend(steps[..i], [steps[i]]);
  }

  /**
   * The whole chain runs exactly one action when it starts open, and none
   * when it starts closed; a closed chain returns the host its wrapper carries.
   */
  lemma ExactlyOneAction(host: ElseExecuteHost, branches: seq<Branch>, otherwise: HostAction)
    ensures TotalInvocations(Chain(host, branches, otherwise).steps) == (if host.canElseExecute then 1 else 0)
    ensures !host.canElseExecute ==> Chain(host, branches, otherwise).value == Unwrap(host)
  {
    var links := ElseIfs(host, branches);
    var last := Else(links.value, otherwise);
    FlagFallsOnceAction(host, branches);
    TotalInvocationsAppend(links.steps, [last.calls]);
    assert TotalInvocations([last.calls]) == Invocations(last.calls) by {
      assert [last.calls][1..] == [];
    }
    if !host.canElseExecute {
      ClosedPassesThrough(host, branches);
    }
  }

  /**
   * The chain keeps the runtime host: when every action gives back a host
   * over the same runtime host it was given, so does the chain, although the
   * value it returns may still be a stack of wrappers.
   */
  lemma {:induction false} ElseIfsKeepRuntimeHost(host: ElseExecuteHost, branches: seq<Branch>)
    requires forall i, x :: 0 <= i < |branches| ==> Innermost(branches[i].action(x)) == Innermost(x)
    ensures Innermost(Unwrap(ElseIfs(host, branches).value)) == Innermost(Unwrap(host))
    decreases |branches|
  {
    if branches != [] {
      var link := ElseIf(host, branches[0].condition, branches[0].action);
      forall i, x | 0 <= i < |branches[1..]|
        ensures Innermost(branches[1..][i].action(x)) == Innermost(x)
      {
        assert branches[1..][i] == branches[i + 1];
      }
      ElseIfsKeepRuntimeHost(link.value, branches[1..]);
      assert Innermost(Unwrap(link.value)) == Innermost(Unwrap(host)) by {
        assert Innermost(branches[0].action(Wrapper(host))) == Innermost(Wrapper(host));
      }
    }
  }

  lemma ChainKeepsRuntimeHost(host: ElseExecuteHost, branches: seq<Branch>, otherwise: HostAction)
    requires forall i, x :: 0 <= i < |branches| ==> Innermost(branches[i].action(x)) == Innermost(x)
    requires forall x :: Innermost(otherwise(x)) == Innermost(x)
    ensures Innermost(Chain(host, branches, otherwise).value) == Innermost(Unwrap(host))
  {
    var links := ElseIfs(host, branches);
    ElseIfsKeepRuntimeHost(host, branches);
    if links.value.canElseExecute {
      assert Chain(host, branches, otherwise).value == otherwise(Wrapper(links.value));
      assert Innermost(Wrapper(links.value)) == Innermost(Unwrap(links.value));
    } else {
      assert Chain(host, branches, otherwise).value == Unwrap(links.value);
    }
  }

  /**
   * A fresh chain whose first predicate fails and whose second holds runs
   * exactly the second action, and the Else action not at all. Each
   * predicate and action sees the wrapper of its own link, one layer deeper
   * than the previous one.
   */
  lemma SecondBranchFires(h: Host, first: Branch, second: Branch, otherwise: HostAction)
    requires var w1 := Wrapper(ElseExecuteHost(h, true));
             !first.condition(w1) && second.condition(Wrapper(ElseExecuteHost(w1, true)))
    ensures var w1 := Wrapper(ElseExecuteHost(h, true));
            var w2 := Wrapper(ElseExecuteHost(w1, true));
            Chain(ElseExecuteHost(h, true), [first, second], otherwise)
              == ChainRun(second.action(w2), [[Evaluated(w1)], [Evaluated(w2), Invoked(w2)], []])
  {
    var w1 := Wrapper(ElseExecuteHost(h, true));
    var w2 := Wrapper(ElseExecuteHost(w1, true));
    var closed := ElseExecuteHost(second.action(w2), false);
    assert [first, second][1..] == [second] && [second][1..] == [];
    assert ElseIfs(ElseExecuteHost(w1, true), [second]) == ChainRun(closed, [[Evaluated(w2), Invoked(w2)]]);
    assert ElseIfs(ElseExecuteHost(h, true), [first, second])
        == ChainRun(closed, [[Evaluated(w1)], [Evaluated(w2), Invoked(w2)]]);
  }

  /** A fresh chain whose first predicate holds never evaluates the second predicate. */
  lemma FirstBranchFires(h: Host, first: Branch, second: Branch, otherwise: HostAction)
    requires first.condition(Wrapper(ElseExecuteHost(h, true)))
    ensures var w1 := Wrapper(ElseExecuteHost(h, true));
            Chain(ElseExecuteHost(h, true), [first, second], otherwise)
              == ChainRun(first.action(w1), [[Evaluated(w1), Invoked(w1)], [], []])
  {
    var w1 := Wrapper(ElseExecuteHost(h, true));
    var closed := ElseExecuteHost(first.action(w1), false);
    assert [first, second][1..] == [second] && [second][1..] == [];
    assert ElseIfs(closed, [second]) == ChainRun(closed, [[]]);
    assert ElseIfs(ElseExecuteHost(h, true), [first, second])
        == ChainRun(closed, [[Evaluated(w1), Invoked(w1)], []]);
  }
}
