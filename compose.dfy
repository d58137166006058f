/** Koa-style middleware composition, as `compose` does it in both middleware files
    (packages/core/core/middleware.ts and framework/core/middleware.ts).

    A middleware is a function of the context and a `next` callback. Its body is not
    visible here, so each one is described by what it does with `next`: how many times it
    calls and awaits it, and whether it then returns a response of its own or the one the
    last `next()` resolved to. A rejected `next()` rejects the middleware at that await. */
module Compose {
  import opened Opt
  import opened Http

  const MultipleNext: string := "next() called multiple times"

  /** How a dispatch settles: resolved with a response, resolved with `undefined`
      (a middleware that relays without having called `next`), or rejected. */
  datatype Outcome = Done(response: Response) | Empty | Thrown(message: string)

  datatype Reply = Own(response: Response) | Relay

  /** What one middleware does: calls `next` `calls` times in a row, then replies. */
  datatype Stage = Stage(calls: nat, reply: Reply)

  /** The result of a dispatch: its outcome, the closure's `index` afterwards and the
      positions of the functions that ran, in order (`|stages|` is the terminal `next`). */
  datatype Run = Run(outcome: Outcome, index: int, trace: seq<nat>)

  /** The terminal: the `next` given to the composed function. The framework copy resolves
      to a 404 "Not Found" response when there is none. */
  function TerminalOutcome(terminal: Option<Outcome>): Outcome
  {
    match terminal
    case Some(o) => o
    case None => Done(Plain(404, "Not Found"))
  }

  /** `dispatch(i)` with the closure's index at `index`. */
  function Eval(stages: seq<Stage>, terminal: Option<Outcome>, i: nat, index: int): Run
    requires i <= |stages|
    decreases |stages| - i, 1, 0
  {
    if i <= index then Run(Thrown(MultipleNext), index, [])
    else if i == |stages| then Run(TerminalOutcome(terminal), i, [i])
    else
      var r := CallsFrom(stages, terminal, i, stages[i].calls, i, Empty);
      var out := if r.outcome.Thrown? then r.outcome
                 else match stages[i].reply
                   case Own(resp) => Done(resp)
                   case Relay => r.outcome;
      Run(out, r.index, [i] + r.trace)
  }

  /** Stage `i` calling `next` `k` more times, the last call having settled as `last`;
      a rejection stops the stage. */
  function CallsFrom(stages: seq<Stage>, terminal: Option<Outcome>, i: nat, k: nat, index: int, last: Outcome): Run
    requires i < |stages|
    decreases |stages| - i, 0, k
  {
    if k == 0 || last.Thrown? then Run(last, index, [])
    else
      var first := Eval(stages, terminal, i + 1, index);
      var rest := CallsFrom(stages, terminal, i, k - 1, first.index, first.outcome);
      Run(rest.outcome, rest.index, first.trace + rest.trace)
  }

  /** The whole composed function: `dispatch(0)` on a fresh closure. */
  function Composed(stages: seq<Stage>, terminal: Option<Outcome>): Run
  {
    Eval(stages, terminal, 0, -1)
  }

  /** The closure `compose(middleware)(ctx, next)` creates: the middleware list, the
      terminal and the mutable `index`; `trace` records which functions ran. */
  class Chain {
    const stages: seq<Stage>
    const terminal: Option<Outcome>
    var index: int
    var trace: seq<nat>

    constructor(stages: seq<Stage>, terminal: Option<Outcome>)
      ensures this.stages == stages && this.terminal == terminal
      ensures index == -1 && trace == []
    {
      this.stages := stages;
      this.terminal := terminal;
      index := -1;
      trace := [];
    }

    /** `dispatch(i)`: refuses a position at or below the index, records the position,
        then runs the middleware there (or the terminal past the end) with a `next` that
        dispatches `i + 1`. */
    method Dispatch(i: nat) returns (o: Outcome)
      requires i <= |stages|
      modifies this
      ensures var r := Eval(stages, terminal, i, old(index));
              o == r.outcome && index == r.index && trace == old(trace) + r.trace
      decreases |stages| - i, 1
    {
      if i <= index {
        return Thrown(MultipleNext);
      }
      index := i;
      trace := trace + [i];
      if i == |stages| {
        o := TerminalOutcome(terminal);
        return;
      }
      var stage := stages[i];
      var last := CallNext(i, stage.calls);
      if last.Thrown? {
        o := last;
      } else {
        match stage.reply {
          case Own(resp) => o := Done(resp);
          case Relay => o := last;
        }
      }
    }

    /** The middleware at `i` calling and awaiting `next` `calls` times. */
    method CallNext(i: nat, calls: nat) returns (last: Outcome)
      requires i < |stages|
      modifies this
      ensures var r := CallsFrom(stages, terminal, i, calls, old(index), Empty);
              last == r.outcome && index == r.index && trace == old(trace) + r.trace
      decreases |stages| - i, 0
    {
      ghost var start := trace;
      ghost var acc: seq<nat> := [];
      last := Empty;
      var k: nat := calls;
      while k > 0 && !last.Thrown?
        invariant trace == start + acc
        invariant CallsFrom(stages, terminal, i, calls, old(index), Empty) ==
                  Glue(acc, CallsFrom(stages, terminal, i, k, index, last))
        decreases k
      {
        ghost var before := trace;
        CallsStep(stages, terminal, i, k, index, last);
        last := Dispatch(i + 1);
        ghost var added := trace[|before|..];
        assert trace == before + added;
        GlueGlue(acc, added, CallsFrom(stages, terminal, i, k - 1, index, last));
        acc := acc + added;
        k := k - 1;
      }
      CallsDone(stages, terminal, i, k, index, last);
    }
  }

  /** A run preceded by earlier trace entries. */
  function Glue(acc: seq<nat>, r: Run): Run
  {
    Run(r.outcome, r.index, acc + r.trace)
  }

  lemma GlueGlue(a: seq<nat>, b: seq<nat>, r: Run)
    ensures Glue(a, Glue(b, r)) == Glue(a + b, r)
  {
    assert a + (b + r.trace) == (a + b) + r.trace;
  }

  lemma CallsStep(stages: seq<Stage>, terminal: Option<Outcome>, i: nat, k: nat, index: int, last: Outcome)
    requires i < |stages| && k > 0 && !last.Thrown?
    ensures var first := Eval(stages, terminal, i + 1, index);
            CallsFrom(stages, terminal, i, k, index, last) ==
            Glue(first.trace, CallsFrom(stages, terminal, i, k - 1, first.index, first.outcome))
  {
  }

  lemma CallsDone(stages: seq<Stage>, terminal: Option<Outcome>, i: nat, k: nat, index: int, last: Outcome)
    requires i < |stages| && (k == 0 || last.Thrown?)
    ensures CallsFrom(stages, terminal, i, k, index, last) == Run(last, index, [])
  {
  }

  /** `compose(middleware)(ctx, next)`: a fresh closure dispatching position 0. */
  method RunComposed(stages: seq<Stage>, terminal: Option<Outcome>) returns (o: Outcome, ran: seq<nat>)
    ensures o == Composed(stages, terminal).outcome && ran == Composed(stages, terminal).trace
  {
    var chain := new Chain(stages, terminal);
    o := chain.Dispatch(0);
    ran := chain.trace;
  }

  // ---------------------------------------------------------------------------
  // Properties of composition

  /** With no middleware, `middleware[0] || next` picks the terminal at once. */
  lemma EmptyChainIsTerminal(terminal: Option<Outcome>)
    ensures Composed([], terminal) == Run(TerminalOutcome(terminal), 0, [0])
  {
  }

  /** The first position at or after `i` whose middleware never calls `next`, or the
      terminal's position when every one from `i` on calls it. */
  function Reach(stages: seq<Stage>, i: nat): (m: nat)
    requires i <= |stages|
    ensures i <= m <= |stages|
    ensures m < |stages| ==> stages[m].calls == 0
    ensures forall j :: i <= j < m ==> stages[j].calls > 0
    decreases |stages| - i
  {
    if i == |stages| || stages[i].calls == 0 then i else Reach(stages, i + 1)
  }

  /** `[from, from + 1, ..., from + len - 1]`. */
  function Iota(from: nat, len: nat): (r: seq<nat>)
    ensures |r| == len && forall k :: 0 <= k < len ==> r[k] == from + k
    decreases len
  {
    if len == 0 then [] else [from] + Iota(from + 1, len - 1)
  }

  /** Once the index has passed `i + 1`, every further `next()` of stage `i` is refused
      and nothing runs. */
  lemma {:induction false} CallsAfterFirst(stages: seq<Stage>, terminal: Option<Outcome>, i: nat, k: nat, index: int, last: Outcome)
    requires i < |stages| && index >= i + 1
    ensures CallsFrom(stages, terminal, i, k, index, last) ==
              if k == 0 || last.Thrown? then Run(last, index, []) else Run(Thrown(MultipleNext), index, [])
    decreases k
  {
    if k > 0 && !last.Thrown? {
      CallsAfterFirst(stages, terminal, i, k - 1, index, Thrown(MultipleNext));
    }
  }

  /** Middleware runs in list order, each at most once: a dispatch from `i` runs exactly
      the positions `i` up to the first middleware that does not call `next` (or up to the
      terminal), each once and in order, and leaves the index at the last of them. */
  lemma {:induction false} EvalTrace(stages: seq<Stage>, terminal: Option<Outcome>, i: nat, index: int)
    requires index < i <= |stages|
    ensures Eval(stages, terminal, i, index).trace == Iota(i, Reach(stages, i) - i + 1)
    ensures Eval(stages, terminal, i, index).index == Reach(stages, i)
    decreases |stages| - i
  {
    if i < |stages| {
      var calls := stages[i].calls;
      if calls == 0 {
        assert CallsFrom(stages, terminal, i, 0, i, Empty) == Run(Empty, i, []);
      } else {
        EvalTrace(stages, terminal, i + 1, i);
        var first := Eval(stages, terminal, i + 1, i);
        CallsAfterFirst(stages, terminal, i, calls - 1, first.index, first.outcome);
        assert CallsFrom(stages, terminal, i, calls, i, Empty).trace == first.trace;
        assert [i] + Iota(i + 1, Reach(stages, i + 1) - i) == Iota(i, Reach(stages, i) - i + 1);
      }
    }
  }

  /** The terminal `next` runs exactly when every middleware calls `next`; no position
      ever runs twice. */
  lemma TerminalRunsIff(stages: seq<Stage>, terminal: Option<Outcome>)
    ensures |stages| in Composed(stages, terminal).trace <==> forall j :: 0 <= j < |stages| ==> stages[j].calls > 0
    ensures forall a, b :: 0 <= a < b < |Composed(stages, terminal).trace| ==>
              Composed(stages, terminal).trace[a] < Composed(stages, terminal).trace[b]
  {
    EvalTrace(stages, terminal, 0, -1);
    var t := Composed(stages, terminal).trace;
    assert forall k :: 0 <= k < |t| ==> t[k] == k;
    if |stages| in t {
      var k :| 0 <= k < |t| && t[k] == |stages|;
      assert Reach(stages, 0) == |stages|;
    }
    if forall j :: 0 <= j < |stages| ==> stages[j].calls > 0 {
      assert Reach(stages, 0) == |stages|;
      assert t[|stages|] == |stages|;
    }
  }

  /** A middleware that never calls `next` ends the chain: nothing after it runs and its
      own reply is the result. */
  lemma ShortCircuit(stages: seq<Stage>, terminal: Option<Outcome>, i: nat, index: int)
    requires index < i < |stages| && stages[i].calls == 0
    ensures Eval(stages, terminal, i, index).trace == [i]
    ensures Eval(stages, terminal, i, index).outcome ==
              match stages[i].reply
              case Own(resp) => Done(resp)
              case Relay => Empty
  {
    assert CallsFrom(stages, terminal, i, 0, i, Empty) == Run(Empty, i, []);
  }

  /** A middleware that calls `next` a second time after a downstream that settled
      normally rejects with "next() called multiple times", and the downstream
      positions are not run again. */
  lemma {:induction false} SecondNextRejects(stages: seq<Stage>, terminal: Option<Outcome>, i: nat, index: int)
    requires index < i < |stages| && stages[i].calls >= 2
    requires !Eval(stages, terminal, i + 1, i).outcome.Thrown?
    ensures Eval(stages, terminal, i, index).outcome == Thrown(MultipleNext)
    ensures Eval(stages, terminal, i, index).trace == [i] + Eval(stages, terminal, i + 1, i).trace
  {
    var first := Eval(stages, terminal, i + 1, i);
    EvalTrace(stages, terminal, i + 1, i);
    CallsAfterFirst(stages, terminal, i, stages[i].calls - 1, first.index, first.outcome);
  }

  /** A chain of middleware that each call `next` once and pass its response on returns
      exactly what the terminal returns. */
  lemma {:induction false} RelayChainIsTerminal(stages: seq<Stage>, terminal: Option<Outcome>, i: nat, index: int)
    requires index < i <= |stages|
    requires forall j :: i <= j < |stages| ==> stages[j] == Stage(1, Relay)
    ensures Eval(stages, terminal, i, index).outcome == TerminalOutcome(terminal)
    decreases |stages| - i
  {
    if i < |stages| {
      RelayChainIsTerminal(stages, terminal, i + 1, i);
      var first := Eval(stages, terminal, i + 1, i);
      assert CallsFrom(stages, terminal, i, 1, i, Empty) == Glue(first.trace, CallsFrom(stages, terminal, i, 0, first.index, first.outcome));
    }
  }
}
