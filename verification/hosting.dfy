/**
 * The host abstraction shared by the conditional chain and the migration
 * routine, and the ElseExecuteHost wrapper that carries the chain's state.
 *
 * A value of static type IHost is either a host built by the hosting runtime
 * or an ElseExecuteHost seen through its IHost interface. Keeping the wrapper
 * a datatype of its own lets the signatures say what the C# signatures say:
 * ElseIf and Else take a wrapper, ExecuteIf and Else give back a plain IHost.
 */
module Hosting {

  /** Identity of a host created by the hosting runtime. */
  type HostId(==)

  /** The dependency-injection container a host exposes as Services. */
  type ServiceProvider(==)

  datatype Host =
    | RuntimeHost(id: HostId, services: ServiceProvider)
    | Wrapper(wrapper: ElseExecuteHost)

  /**
   * The wrapper. `host` is the private readonly field and `canElseExecute`
   * the get-only property; both are fixed by the constructor and a datatype
   * value cannot change afterwards. `canElseExecute` is true while no branch
   * of the chain has run, so an else may still execute.
   */
  datatype ElseExecuteHost = ElseExecuteHost(host: Host, canElseExecute: bool)

  /** A predicate over the host; an async predicate is modelled by its awaited result. */
  type HostPredicate = Host -> bool

  /** An action on the host; an async action is modelled by its awaited result. */
  type HostAction = Host -> Host

  /** A call into caller-supplied code, with the host it was given. */
  datatype Call = Evaluated(arg: Host) | Invoked(arg: Host)

  /** The value an operation returns, with the calls it made into callbacks, in order. */
  datatype Run<T> = Run(value: T, calls: seq<Call>)

  /** Number of predicate evaluations among `calls`. */
  function Evaluations(calls: seq<Call>): nat
  {
    if calls == [] then 0
    else (if calls[0].Evaluated? then 1 else 0) + Evaluations(calls[1..])
  }

  /** Number of action invocations among `calls`. */
  function Invocations(calls: seq<Call>): nat
  {
    if calls == [] then 0
    else (if calls[0].Invoked? then 1 else 0) + Invocations(calls[1..])
  }

  /** The host the wrapper was built around; removes exactly one layer. */
  function Unwrap(w: ElseExecuteHost): (h: Host)
    ensures ElseExecuteHost(h, w.canElseExecute) == w
  {
    w.host
  }

  /** Number of wrapper layers above the runtime host. */
  function Depth(h: Host): nat
  {
    match h
    case RuntimeHost(_, _) => 0
    case Wrapper(w) => 1 + Depth(w.host)
  }

  /** The runtime host at the bottom of any stack of wrappers. */
  function Innermost(h: Host): (r: Host)
    ensures r.RuntimeHost?
    ensures h.RuntimeHost? ==> r == h
    ensures h.Wrapper? ==> r == Innermost(Unwrap(h.wrapper))
  {
    match h
    case RuntimeHost(_, _) => h
    case Wrapper(w) => Innermost(w.host)
  }

  /**
   * The Services property: a wrapper forwards it to the host it wraps, so
   * every host exposes the container of the runtime host beneath it.
   */
  function Services(h: Host): (p: ServiceProvider)
    ensures p == Innermost(h).services
  {
    match h
    case RuntimeHost(_, services) => services
    case Wrapper(w) => Services(w.host)
  }

  /**
   * The hosts a Dispose, StartAsync or StopAsync call passes through,
   * outermost first. A wrapper does nothing but forward the call to the host
   * it wraps; the runtime host at the end is the one that acts.
   */
  function Receivers(h: Host): (path: seq<Host>)
    ensures |path| == Depth(h) + 1
    ensures path[0] == h && path[|path| - 1] == Innermost(h)
    ensures forall i :: 0 <= i < |path| - 1 ==>
              path[i].Wrapper? && path[i + 1] == Unwrap(path[i].wrapper)
  {
    match h
    case RuntimeHost(_, _) => [h]
    case Wrapper(w) => [h] + Receivers(w.host)
  }

  /** Wrapping keeps what the host exposes: the same Services and the same runtime host. */
  lemma WrappingIsTransparent(h: Host, canElseExecute: bool)
    ensures var w := Wrapper(ElseExecuteHost(h, canElseExecute));
            Services(w) == Services(h) && Innermost(w) == Innermost(h)
            && Receivers(w) == [w] + Receivers(h)
  {
  }

  /** Unwrapping a wrapper around a wrapper yields the inner wrapper, not the runtime host. */
  lemma UnwrapRemovesOneLayer(h: Host, inner: bool, outer: bool)
    ensures var w := Wrapper(ElseExecuteHost(h, inner));
            Unwrap(ElseExecuteHost(w, outer)) == w && w != h
            && Depth(Unwrap(ElseExecuteHost(w, outer))) == Depth(h) + 1
  {
    assert Depth(Wrapper(ElseExecuteHost(h, inner))) == Depth(h) + 1;
  }

  /** A branch that fires makes exactly one evaluation and one invocation. */
  lemma FiringCalls(arg: Host)
    ensures var calls := [Evaluated(arg), Invoked(arg)];
            Evaluations(calls) == 1 && Invocations(calls) == 1 && Invoked(arg) in calls
  {
    var calls := [Evaluated(arg), Invoked(arg)];
    assert calls[1..] == [Invoked(arg)] && calls[1..][1..] == [];
    assert Evaluations(calls[1..]) == 0 && Invocations(calls[1..]) == 1;
  }

  lemma {:induction false} EvaluationsAppend(a: seq<Call>, b: seq<Call>)
    ensures Evaluations(a + b) == Evaluations(a) + Evaluations(b)
  {
    if a != [] {
      assert (a + b)[0] == a[0] && (a + b)[1..] == a[1..] + b;
      EvaluationsAppend(a[1..], b);
    } else {
      assert a + b == b;
    }
  }

  lemma {:induction false} InvocationsAppend(a: seq<Call>, b: seq<Call>)
    ensures Invocations(a + b) == Invocations(a) + Invocations(b)
  {
    if a != [] {
      assert (a + b)[0] == a[0] && (a + b)[1..] == a[1..] + b;
      InvocationsAppend(a[1..], b);
    } else {
      assert a + b == b;
    }
  }
}
