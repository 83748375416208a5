/** The generic middleware pipeline engine (src/baseRequestHandler.js).

    A handler owns an ordered list of middleware entries, filled by UseMiddleWare.
    One run copies that list into a queue and consumes it front to back through
    the `next` continuation: Next below is one call of that continuation, and the
    caller invokes the middleware Next hands back (the call at line 160), calling
    Next again when the middleware calls `next()`. */
module BaseRequestHandler {

  /** A value found in the middleware list: a callable middleware, or anything else. */
  datatype Entry<M> = Callable(fn: M) | NotCallable

  /** What one call of the `next` continuation does. */
  datatype NextAction<M> =
    | Halt                 // response already sent, or list exhausted without a callback
    | RunTerminal          // list exhausted, no response sent, callback is a function: run handleRequest
    | Invoke(middleWare: M) // hand the head middleware the request, the response and `next`

  /** The middlewares of a list that a run can invoke, in list order. */
  function Callables<M>(q: seq<Entry<M>>): (r: seq<M>)
    ensures |r| <= |q|
  {
    if q == [] then []
    else if q[0].Callable? then [q[0].fn] + Callables(q[1..])
    else Callables(q[1..])
  }

  lemma {:induction false} CallablesAppend<M>(a: seq<Entry<M>>, b: seq<Entry<M>>)
    ensures Callables(a + b) == Callables(a) + Callables(b)
  {
    if a == [] {
      assert a + b == b;
    } else {
      assert (a + b)[1..] == a[1..] + b;
      CallablesAppend(a[1..], b);
    }
  }

  /** The queue left once the non-callable entries at its head have been taken
      off, each with an implicit `next()` (lines 129-134). */
  function SkipNonCallable<M>(q: seq<Entry<M>>): (r: seq<Entry<M>>)
    ensures |r| <= |q|
    ensures r == [] || r[0].Callable?
    ensures Callables(r) == Callables(q)
  {
    if q == [] || q[0].Callable? then q else SkipNonCallable(q[1..])
  }

  /** Skipping only takes entries off the head: what is left is a suffix of the
      queue, so the order of the remaining middlewares is kept. */
  lemma {:induction false} SkipNonCallableIsSuffix<M>(q: seq<Entry<M>>)
    ensures SkipNonCallable(q) == q[|q| - |SkipNonCallable(q)|..]
  {
    if q != [] && q[0].NotCallable? {
      SkipNonCallableIsSuffix(q[1..]);
      assert q[1..][|q| - 1 - |SkipNonCallable(q)|..] == q[|q| - |SkipNonCallable(q)|..];
    }
  }

  /** The middlewares a run hands the request to when the list's callable
      entries are `c`: each in turn, until one does not call `next`. */
  function RunPrefix<M>(c: seq<M>, callsNext: M -> bool): seq<M>
  {
    if c == [] then []
    else if callsNext(c[0]) then [c[0]] + RunPrefix(c[1..], callsNext)
    else [c[0]]
  }

  /** Every middleware of `c` calls `next`. */
  predicate AllCallNext<M>(c: seq<M>, callsNext: M -> bool) {
    forall i :: 0 <= i < |c| ==> callsNext(c[i])
  }

  /** A run invokes a prefix of the list; all of it when every middleware
      calls `next`; and otherwise it stops at the first one that does not. */
  lemma {:induction false} RunPrefixIsPrefix<M>(c: seq<M>, callsNext: M -> bool)
    ensures RunPrefix(c, callsNext) <= c
    ensures AllCallNext(c, callsNext) ==> RunPrefix(c, callsNext) == c
    ensures !AllCallNext(c, callsNext) ==>
      var r := RunPrefix(c, callsNext);
      r != [] && !callsNext(r[|r| - 1]) && AllCallNext(r[..|r| - 1], callsNext)
  {
    if c != [] {
      var tail := c[1..];
      RunPrefixIsPrefix(tail, callsNext);
      if callsNext(c[0]) {
        var r := RunPrefix(tail, callsNext);
        assert c == [c[0]] + tail;
        if AllCallNext(c, callsNext) {
          forall i | 0 <= i < |tail| ensures callsNext(tail[i]) {
            assert tail[i] == c[i + 1];
          }
        } else {
          var k :| 0 <= k < |c| && !callsNext(c[k]);
          assert !callsNext(tail[k - 1]);
          var whole := [c[0]] + r;
          var front := whole[..|whole| - 1];
          assert front == [c[0]] + r[..|r| - 1];
          forall i | 0 <= i < |front| ensures callsNext(front[i]) {
            if i > 0 { assert front[i] == r[..|r| - 1][i - 1]; }
          }
        }
      } else {
        assert [c[0]][..0] == [];
      }
    }
  }

  /** One step of a run: the middleware `m` at the head of what is left,
      after middlewares that all called `next`. */
  lemma RunPrefixStep<M>(c: seq<M>, done: seq<M>, m: M, rest: seq<M>, callsNext: M -> bool)
    requires c == done + [m] + rest && AllCallNext(done, callsNext)
    requires RunPrefix(c, callsNext) == done + RunPrefix([m] + rest, callsNext)
    ensures callsNext(m) ==>
      RunPrefix(c, callsNext) == (done + [m]) + RunPrefix(rest, callsNext) && AllCallNext(done + [m], callsNext)
    ensures !callsNext(m) ==>
      RunPrefix(c, callsNext) == done + [m] && !AllCallNext(c, callsNext)
  {
    assert ([m] + rest)[1..] == rest;
    if !callsNext(m) {
      assert c[|done|] == m;
    }
  }

  /** The request handler's engine state. The list is per instance: the
      source keeps it on the prototype, shared by every instance. */
  class RequestHandler<M> {
    /** The registered middleware list (line 32). */
    var middleWares: seq<Entry<M>>
    /** Set once a response has been written; stops the pipeline (line 38). */
    var responseIsSent: bool
    /** The copy of the list that the current run consumes (line 106). */
    var queue: seq<Entry<M>>
    /** The list as it was copied when the current run began. */
    ghost var snapshot: seq<Entry<M>>
    /** The middlewares the current run has handed the request to, in order. */
    ghost var invoked: seq<M>
    /** How many times handleRequest has called the route's callback. */
    var callbackCalls: nat

    /** The steps of the current run so far are exactly the callable entries
        of the copied list that are no longer in the queue, in list order. */
    ghost predicate RunValid()
      reads this
    {
      Callables(snapshot) == invoked + Callables(queue)
    }

    /** `initialize` (lines 48-51): a handler starts with the list its route
        declares, no response sent and no run in progress. */
    constructor (declared: seq<Entry<M>>)
      ensures middleWares == declared && !responseIsSent
      ensures queue == [] && snapshot == [] && invoked == [] && callbackCalls == 0
      ensures RunValid()
    {
      middleWares := declared;
      responseIsSent := false;
      queue := [];
      snapshot := [];
      invoked := [];
      callbackCalls := 0;
    }

    /** `useMiddleWare` (lines 86-91): a callable is appended at the end; any
        other value is ignored. Earlier registrations keep their positions. */
    method UseMiddleWare(middleWare: Entry<M>)
      modifies this`middleWares
      ensures middleWare.NotCallable? ==> middleWares == old(middleWares)
      ensures middleWare.Callable? ==> middleWares == old(middleWares) + [middleWare]
      ensures Callables(middleWares) == Callables(old(middleWares)) + Callables([middleWare])
    {
      if middleWare.NotCallable? {
        CallablesAppend(middleWares, []);
        assert middleWares + [] == middleWares;
        return;
      }
      CallablesAppend(middleWares, [middleWare]);
      middleWares := middleWares + [middleWare];
    }

    /** The start of `performHandleRequest` (line 106): the run works on a copy,
        so nothing a run does touches the registered list. */
    method BeginRun()
      modifies this`queue, this`snapshot, this`invoked
      ensures queue == middleWares && snapshot == middleWares && invoked == []
      ensures RunValid()
    {
      queue := middleWares;
      snapshot := middleWares;
      invoked := [];
    }

    /** One call of the `next` continuation (lines 108-160). The recursive
        call after a non-callable entry (line 132) is a round of the loop; its
        repeated check of `responseIsSent` is left out, since nothing can set
        the flag between the two checks. */
    method Next(callbackIsFunction: bool) returns (action: NextAction<M>)
      requires RunValid()
      modifies this`queue, this`invoked
      ensures RunValid()
      ensures old(responseIsSent) ==> action == Halt && queue == old(queue) && invoked == old(invoked)
      ensures !old(responseIsSent) && SkipNonCallable(old(queue)) == [] ==>
                queue == [] && invoked == old(invoked) &&
                action == (if callbackIsFunction then RunTerminal else Halt)
      ensures !old(responseIsSent) && SkipNonCallable(old(queue)) != [] ==>
                var rest := SkipNonCallable(old(queue));
                queue == rest[1..] && action == Invoke(rest[0].fn) && invoked == old(invoked) + [rest[0].fn]
      ensures !old(responseIsSent) && action.Invoke? ==> Callables(old(queue)) == [action.middleWare] + Callables(queue)
      ensures !old(responseIsSent) && !action.Invoke? ==> Callables(old(queue)) == []
    {
      if responseIsSent {
        // lines 116-119: halt silently
        return Halt;
      }
      SkipNonCallables();
      if queue == [] {
        // lines 122-126: list exhausted
        return if callbackIsFunction then RunTerminal else Halt;
      }
      // lines 129 and 160: take the head off the copy and hand it the request
      var head := queue[0];
      ghost var left := Callables(queue[1..]);
      assert Callables(queue) == [head.fn] + left;
      assert invoked + ([head.fn] + left) == (invoked + [head.fn]) + left;
      queue := queue[1..];
      invoked := invoked + [head.fn];
      action := Invoke(head.fn);
    }

    /** Lines 129-134: each entry at the head of the copy that is not
        callable is taken off, and `next` goes on with the rest. */
    method SkipNonCallables()
      modifies this`queue
      ensures queue == SkipNonCallable(old(queue))
    {
      while queue != [] && queue[0].NotCallable?
        invariant SkipNonCallable(queue) == SkipNonCallable(old(queue))
        decreases |queue|
      {
        queue := queue[1..];
      }
    }

    /** `performHandleRequest` (lines 101-164) with the base `handleRequest`,
        where each middleware is known by whether it calls `next`: the run
        hands the request to the callable entries in list order, each at most
        once, until one does not call `next`; none once a response is sent;
        and the callback runs once exactly when every middleware called
        `next`, no response was sent and it is a function. */
    method PerformHandleRequest(callbackIsFunction: bool, callsNext: M -> bool)
      modifies this`queue, this`snapshot, this`invoked, this`callbackCalls
      ensures middleWares == old(middleWares) && snapshot == middleWares
      ensures responseIsSent ==> invoked == [] && callbackCalls == old(callbackCalls)
      ensures !responseIsSent ==> invoked == RunPrefix(Callables(middleWares), callsNext)
      ensures callbackCalls == old(callbackCalls) +
        (if !responseIsSent && callbackIsFunction && AllCallNext(Callables(middleWares), callsNext) then 1 else 0)
    {
      BeginRun();
      ghost var c := Callables(middleWares);
      var running := true;
      while running
        invariant RunValid() && snapshot == middleWares && c == Callables(snapshot)
        invariant responseIsSent ==> invoked == [] && callbackCalls == old(callbackCalls)
        invariant running && !responseIsSent ==>
          && RunPrefix(c, callsNext) == invoked + RunPrefix(Callables(queue), callsNext)
          && AllCallNext(invoked, callsNext) && callbackCalls == old(callbackCalls)
        invariant !running && !responseIsSent ==>
          && invoked == RunPrefix(c, callsNext)
          && callbackCalls == old(callbackCalls) +
               (if callbackIsFunction && AllCallNext(c, callsNext) then 1 else 0)
        decreases |queue|, running
      {
        ghost var done := invoked;
        var action := Next(callbackIsFunction);
        match action
        case Halt =>
          assert !responseIsSent ==> invoked == c && !callbackIsFunction;
          running := false;
        case RunTerminal =>
          assert invoked == c;
          HandleRequest(callbackIsFunction);
          running := false;
        case Invoke(m) =>
          RunPrefixStep(c, done, m, Callables(queue), callsNext);
          running := callsNext(m);
      }
    }

    /** The base `handleRequest` (lines 174-182): calls the callback with the
        request, the response and the handler when it is a function, and
        otherwise only warns. */
    method HandleRequest(callbackIsFunction: bool)
      modifies this`callbackCalls
      ensures callbackIsFunction ==> callbackCalls == old(callbackCalls) + 1
      ensures !callbackIsFunction ==> callbackCalls == old(callbackCalls)
    {
      if callbackIsFunction {
        callbackCalls := callbackCalls + 1;
      }
    }
  }
}
