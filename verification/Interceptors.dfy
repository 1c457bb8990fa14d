/** Interceptor chains, client.go and config.go. An interceptor is given what the call works on (context,
    request and reply, or context and unmarshaler, and whatever else it can change), the method's
    description, and the rest of the chain, which it may run any number of times or not at all. */
module Interceptors {
  import opened Types

  /** A call, or the rest of a chain: Invoker on the client, Method on the server. */
  type Invoker<!S> = S -> S

  /** UnaryClientInterceptor or UnaryServerInterceptor. */
  type Interceptor<!S, !I> = (S, I, Invoker<S>) -> S

  /** The closure a chain builder returns: one interceptor around the rest of the chain. */
  function Around<S, I>(first: Interceptor<S, I>, info: I, next: Invoker<S>): Invoker<S> {
    (s: S) => first(s, info, next)
  }

  /** chainUnaryInterceptors and chainUnaryServerInterceptors. */
  function Chain<S, I>(interceptors: seq<Interceptor<S, I>>, info: I, final: Invoker<S>): Invoker<S> {
    if interceptors == [] then final
    else Around(interceptors[0], info, Chain(interceptors[1..], info, final))
  }

  /** What the chain options install for a list that is not empty. */
  function Joined<S, I>(interceptors: seq<Interceptor<S, I>>): Interceptor<S, I>
    requires interceptors != []
  {
    (s: S, info: I, final: Invoker<S>) => interceptors[0](s, info, Chain(interceptors[1..], info, final))
  }

  // ---------------------------------------------------------------- the chain as a fold

  /** The chain built from the inside out: the last interceptor goes around the final call first. */
  function FromInside<S, I>(interceptors: seq<Interceptor<S, I>>, info: I, final: Invoker<S>): Invoker<S> {
    if interceptors == [] then final
    else FromInside(interceptors[..|interceptors| - 1], info, Around(interceptors[|interceptors| - 1], info, final))
  }

  /** A chain put in front of a chain is one chain. */
  lemma {:induction false} ChainAppend<S, I>(xs: seq<Interceptor<S, I>>, ys: seq<Interceptor<S, I>>, info: I, final: Invoker<S>)
    ensures Chain(xs + ys, info, final) == Chain(xs, info, Chain(ys, info, final))
  {
    if xs == [] {
      assert xs + ys == ys;
    } else {
      ChainAppend(xs[1..], ys, info, final);
      assert (xs + ys)[1..] == xs[1..] + ys;
    }
  }

  /** The recursive builders compute the right fold of the list over the final call. */
  lemma {:induction false} ChainIsFold<S, I>(interceptors: seq<Interceptor<S, I>>, info: I, final: Invoker<S>)
    ensures Chain(interceptors, info, final) == FromInside(interceptors, info, final)
    decreases |interceptors|
  {
    if interceptors != [] {
      var (before, last) := (interceptors[..|interceptors| - 1], interceptors[|interceptors| - 1]);
      ChainIsFold(before, info, Around(last, info, final));
      ChainAppend(before, [last], info, final);
      assert interceptors == before + [last];
      assert [last][1..] == [];
    }
  }

  // ---------------------------------------------------------------- the options

  /** The interceptor installed so far; without one, the default runs the call itself. */
  function Run<S, I>(installed: Option<Interceptor<S, I>>, s: S, info: I, final: Invoker<S>): S {
    if installed.Some? then installed.value(s, info, final) else final(s)
  }

  /** What a chain option makes of the interceptor installed so far. */
  function ChainedOnto<S, I>(installed: Option<Interceptor<S, I>>, interceptors: seq<Interceptor<S, I>>): Option<Interceptor<S, I>> {
    if interceptors == [] then installed
    else Some(Joined(if installed.Some? then [installed.value] + interceptors else interceptors))
  }

  /** The chain option runs what was installed before, around the new interceptors in their order, around
      the final call. */
  lemma ChainedRuns<S, I>(installed: Option<Interceptor<S, I>>, interceptors: seq<Interceptor<S, I>>, s: S, info: I, final: Invoker<S>)
    ensures Run(ChainedOnto(installed, interceptors), s, info, final) == Run(installed, s, info, Chain(interceptors, info, final))
  {
    if interceptors != [] && installed.Some? {
      assert ([installed.value] + interceptors)[1..] == interceptors;
    }
  }

  /** The option for xs and then the option for ys behave as one option for xs ++ ys, whatever was
      installed before. */
  lemma TwoChains<S, I>(installed: Option<Interceptor<S, I>>, xs: seq<Interceptor<S, I>>, ys: seq<Interceptor<S, I>>,
                        s: S, info: I, final: Invoker<S>)
    ensures Run(ChainedOnto(ChainedOnto(installed, xs), ys), s, info, final)
         == Run(ChainedOnto(installed, xs + ys), s, info, final)
  {
    ChainedRuns(ChainedOnto(installed, xs), ys, s, info, final);
    ChainedRuns(installed, xs, s, info, Chain(ys, info, final));
    ChainedRuns(installed, xs + ys, s, info, final);
    ChainAppend(xs, ys, info, final);
  }

  /** The client's options; all of them can be applied any number of times. */
  class ClientOptions<S(!new), I(!new)> {
    var interceptor: Option<Interceptor<S, I>>

    constructor ()
      ensures interceptor == None
    {
      interceptor := None;
    }

    method WithUnaryInterceptor(i: Interceptor<S, I>)
      modifies this
      ensures interceptor == Some(i)
    {
      interceptor := Some(i);
    }

    method WithChain(interceptors: seq<Interceptor<S, I>>)
      modifies this
      ensures interceptor == ChainedOnto(old(interceptor), interceptors)
    {
      if interceptors == [] { return; }
      var all := interceptors;
      if interceptor.Some? { all := [interceptor.value] + interceptors; }
      interceptor := Some(Joined(all));
    }
  }

  /** The server's options; the unchained one is refused once anything is installed. */
  class ServerOptions<S(!new), I(!new)> {
    var interceptor: Option<Interceptor<S, I>>

    constructor ()
      ensures interceptor == None
    {
      interceptor := None;
    }

    method WithUnaryInterceptor(i: Interceptor<S, I>) returns (ok: bool)
      modifies this
      ensures ok <==> old(interceptor).None?
      ensures interceptor == if ok then Some(i) else old(interceptor)
    {
      if interceptor.Some? { return false; }
      interceptor := Some(i);
      return true;
    }

    method WithChain(interceptors: seq<Interceptor<S, I>>)
      modifies this
      ensures interceptor == ChainedOnto(old(interceptor), interceptors)
    {
      if interceptors == [] { return; }
      var all := interceptors;
      if interceptor.Some? { all := [interceptor.value] + interceptors; }
      interceptor := Some(Joined(all));
    }
  }

  // ---------------------------------------------------------------- interceptors that pass the call on

  /** Something done before the rest of the chain and something done after it. */
  datatype Step<!S> = Step(before: S -> S, after: S -> S)

  function Passing<S, I>(step: Step<S>): Interceptor<S, I> {
    (s: S, info: I, next: Invoker<S>) => step.after(next(step.before(s)))
  }

  function AllPassing<S, I>(steps: seq<Step<S>>): seq<Interceptor<S, I>> {
    seq(|steps|, i requires 0 <= i < |steps| => Passing<S, I>(steps[i]))
  }

  /** The first parts, in list order. */
  function Befores<S>(steps: seq<Step<S>>, s: S): S {
    if steps == [] then s else Befores(steps[1..], steps[0].before(s))
  }

  /** The second parts, in the opposite order. */
  function Afters<S>(steps: seq<Step<S>>, s: S): S {
    if steps == [] then s else steps[0].after(Afters(steps[1..], s))
  }

  /** Interceptors that pass the call on run in list order around the final call, which is made once. */
  lemma {:induction false} PassingOrder<S, I>(steps: seq<Step<S>>, s: S, info: I, final: Invoker<S>)
    ensures Chain(AllPassing(steps), info, final)(s) == Afters(steps, final(Befores(steps, s)))
  {
    if steps != [] {
      var all: seq<Interceptor<S, I>> := AllPassing(steps);
      assert all[1..] == AllPassing(steps[1..]);
      PassingOrder(steps[1..], steps[0].before(s), info, final);
    }
  }
}
