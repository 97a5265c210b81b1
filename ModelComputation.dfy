/**
 * The sequential model-computation chain of asynchronous completion.
 *
 * Transformations `(model, token) -> model` are enqueued on the UI thread and
 * run one at a time, in enqueue order, each on the previous unit's result.
 * The worker that runs the oldest pending unit is `Step`; task and thread
 * mechanics are replaced by that queue. The null model is `None`.
 */
module ModelComputation {
  import opened Common

  /** What a transformation does when its turn comes: return a model or throw. */
  datatype Outcome<M> = Ok(model: M) | Fail

  /** One enqueued unit of work: its transformation and its `updateUi` flag. */
  datatype WorkItem<!M> = WorkItem(transform: Option<M> -> Outcome<Option<M>>, updateUi: bool)

  /**
   * The abstract state of a chain. `pending` are the units still to run,
   * oldest first (the last one is the tail); `tailResult` is what the last
   * finished unit handed on; the three logs record the calls to `UpdateUi`,
   * to the error handler and to `Dismiss`.
   */
  datatype Chain<!M> = Chain(
    pending: seq<WorkItem<M>>,
    tailResult: Option<M>,
    recent: Option<M>,
    terminated: bool,
    lifetimeCancelled: bool,
    uiCancelled: bool,
    uiPushes: seq<Option<M>>,
    errorReports: nat,
    dismissals: nat)

  /** The chain right after the dummy task: nothing pending, the null model everywhere. */
  function Fresh<M>(lifetimeCancelled: bool): Chain<M>
  {
    Chain([], None, None, false, lifetimeCancelled, false, [], 0, 0)
  }

  /** `RecentModel` agrees with the result the tail hands on. */
  ghost predicate Agrees<M>(c: Chain<M>)
  {
    c.recent == c.tailResult
  }

  /** `Enqueue` on the UI thread: a no-op once stopped; otherwise re-arm UI pushes and append. */
  function AfterEnqueue<M>(c: Chain<M>, item: WorkItem<M>): (r: Chain<M>)
    ensures c.lifetimeCancelled || c.terminated ==> r == c
    ensures !c.lifetimeCancelled && !c.terminated ==>
              && r.pending == c.pending + [item] && !r.uiCancelled
              && r.tailResult == c.tailResult && r.recent == c.recent && r.uiPushes == c.uiPushes
              && !r.terminated && !r.lifetimeCancelled
              && r.errorReports == c.errorReports && r.dismissals == c.dismissals
  {
    if c.lifetimeCancelled || c.terminated then c
    else c.(pending := c.pending + [item], uiCancelled := false)
  }

  /** The oldest pending unit runs to completion. */
  function AfterStep<M>(c: Chain<M>): (r: Chain<M>)
    requires c.pending != []
    ensures r.pending == c.pending[1..]
    ensures r.lifetimeCancelled == c.lifetimeCancelled && r.uiCancelled == c.uiCancelled
    ensures c.terminated ==> r.terminated
    ensures Agrees(c) ==> Agrees(r)
  {
    var item := c.pending[0];
    var rest := c.pending[1..];
    if c.lifetimeCancelled || c.terminated then
      c.(pending := rest)
    else
      match item.transform(c.tailResult)
      case Ok(m) =>
        var push := rest == [] && item.updateUi && !c.uiCancelled;
        c.(pending := rest, tailResult := m, recent := m,
           uiPushes := if push then c.uiPushes + [m] else c.uiPushes)
      case Fail =>
        c.(pending := rest, terminated := true,
           errorReports := c.errorReports + 1, dismissals := c.dismissals + 1)
  }

  function Min(a: nat, b: nat): nat
  {
    if a <= b then a else b
  }

  /** Up to `k` units run, fewer if the chain empties first. */
  function AfterSteps<M>(c: Chain<M>, k: nat): (r: Chain<M>)
    ensures r.pending == c.pending[Min(k, |c.pending|)..]
    ensures r.lifetimeCancelled == c.lifetimeCancelled && r.uiCancelled == c.uiCancelled
    ensures c.terminated ==> r.terminated
    ensures Agrees(c) ==> Agrees(r)
    decreases k
  {
    if k == 0 || c.pending == [] then c else AfterSteps(AfterStep(c), k - 1)
  }

  lemma StepsUnfold<M>(c: Chain<M>, k: nat)
    ensures k > 0 && c.pending != [] ==> AfterSteps(c, k) == AfterSteps(AfterStep(c), k - 1)
    ensures k == 0 || c.pending == [] ==> AfterSteps(c, k) == c
  {
  }

  /** Every pending unit runs. */
  function Drained<M>(c: Chain<M>): (r: Chain<M>)
    ensures r.pending == []
  {
    AfterSteps(c, |c.pending|)
  }

  lemma DrainedUnfolds<M>(c: Chain<M>)
    requires c.pending != []
    ensures Drained(c) == Drained(AfterStep(c))
  {
  }

  /** No unit of `items`, applied in order starting from `m`, throws. */
  predicate FaultFree<M>(m: Option<M>, items: seq<WorkItem<M>>)
    decreases |items|
  {
    items == [] || (items[0].transform(m).Ok? && FaultFree(items[0].transform(m).model, items[1..]))
  }

  /** fN(...f1(m)): the transformations of `items` applied in enqueue order. */
  function Fold<M>(m: Option<M>, items: seq<WorkItem<M>>): Option<M>
    requires FaultFree(m, items)
    decreases |items|
  {
    if items == [] then m else Fold(items[0].transform(m).model, items[1..])
  }

  /** A stopped chain (cancelled or terminated) runs nothing: only `pending` shrinks. */
  lemma {:induction false} StoppedChainRunsNothing<M>(c: Chain<M>, k: nat)
    requires c.lifetimeCancelled || c.terminated
    ensures AfterSteps(c, k) == c.(pending := c.pending[Min(k, |c.pending|)..])
    decreases k
  {
    if k != 0 && c.pending != [] {
      StoppedChainRunsNothing(AfterStep(c), k - 1);
    }
  }

  /** Termination is one-way: neither enqueueing nor running units clears it, and enqueueing is a no-op. */
  lemma {:induction false} TerminationIsPermanent<M>(c: Chain<M>, item: WorkItem<M>, k: nat)
    requires c.terminated
    ensures AfterEnqueue(c, item) == c
    ensures AfterSteps(c, k).terminated
    ensures AfterSteps(c, k).recent == c.recent && AfterSteps(c, k).errorReports == c.errorReports
  {
    StoppedChainRunsNothing(c, k);
  }

  /**
   * Lifetime cancellation freezes the chain: enqueues are no-ops and a full
   * drain keeps the recent model, the pushes and the error logs.
   */
  lemma {:induction false} CancellationFreezesChain<M>(c: Chain<M>, item: WorkItem<M>)
    requires c.lifetimeCancelled
    ensures AfterEnqueue(c, item) == c
    ensures Drained(c) == c.(pending := [])
  {
    StoppedChainRunsNothing(c, |c.pending|);
  }

  /**
   * FIFO: a fault-free drain applies the pending transformations in enqueue
   * order to the tail's result, and `RecentModel` ends as that fold.
   */
  lemma {:induction false} DrainAppliesInOrder<M>(c: Chain<M>)
    requires !c.terminated && !c.lifetimeCancelled
    requires FaultFree(c.tailResult, c.pending)
    ensures Drained(c).tailResult == Fold(c.tailResult, c.pending)
    ensures Drained(c).recent == if c.pending == [] then c.recent else Fold(c.tailResult, c.pending)
    ensures !Drained(c).terminated
    ensures Drained(c).errorReports == c.errorReports && Drained(c).dismissals == c.dismissals
    decreases |c.pending|
  {
    if c.pending != [] {
      var s := AfterStep(c);
      DrainedUnfolds(c);
      DrainAppliesInOrder(s);
    }
  }

  /**
   * The first unit that throws (unit `k`) terminates the chain: exactly one
   * error report and one dismissal, and the result and `RecentModel` freeze
   * at the output of the units before it.
   */
  lemma {:induction false} FaultTerminatesChain<M>(c: Chain<M>, k: nat)
    requires !c.terminated && !c.lifetimeCancelled
    requires k < |c.pending|
    requires FaultFree(c.tailResult, c.pending[..k])
    requires c.pending[k].transform(Fold(c.tailResult, c.pending[..k])).Fail?
    ensures Drained(c).terminated
    ensures Drained(c).errorReports == c.errorReports + 1
    ensures Drained(c).dismissals == c.dismissals + 1
    ensures Drained(c).tailResult == Fold(c.tailResult, c.pending[..k])
    ensures Drained(c).recent == if k == 0 then c.recent else Fold(c.tailResult, c.pending[..k])
    decreases k
  {
    var s := AfterStep(c);
    DrainedUnfolds(c);
    if k == 0 {
      StoppedChainRunsNothing(s, |s.pending|);
    } else {
      assert c.pending[..k][1..] == s.pending[..k - 1];
      FaultTerminatesChain(s, k - 1);
    }
  }

  /**
   * Only the unit that is still the tail may push to the UI: after any number
   * of steps either nothing was pushed, or the chain emptied, UI pushes were
   * not cancelled, the last unit asked for an update, and exactly one push
   * carrying the final result was added.
   */
  lemma {:induction false} OnlyTailPushes<M>(c: Chain<M>, k: nat)
    ensures var r := AfterSteps(c, k);
      || r.uiPushes == c.uiPushes
      || (&& c.pending != [] && r.pending == [] && !c.uiCancelled
          && c.pending[|c.pending| - 1].updateUi
          && r.uiPushes == c.uiPushes + [r.tailResult])
    decreases k
  {
    if k != 0 && c.pending != [] {
      var s := AfterStep(c);
      if |c.pending| == 1 {
        assert AfterSteps(s, k - 1) == s;
      } else {
        assert s.uiPushes == c.uiPushes;
        assert s.pending[|s.pending| - 1] == c.pending[|c.pending| - 1];
        OnlyTailPushes(s, k - 1);
      }
    }
  }

  /** While UI pushes are cancelled (as during `WaitAndGetResult`) no unit pushes. */
  lemma {:induction false} NoPushWhileUiCancelled<M>(c: Chain<M>, k: nat)
    requires c.uiCancelled
    ensures AfterSteps(c, k).uiPushes == c.uiPushes
  {
    OnlyTailPushes(c, k);
  }

  /**
   * Coalescing: a burst of fault-free units whose last one asks for an update
   * yields exactly one UI push, carrying the final model.
   */
  lemma {:induction false} BurstPushesOnce<M>(c: Chain<M>)
    requires !c.terminated && !c.lifetimeCancelled && !c.uiCancelled
    requires c.pending != [] && c.pending[|c.pending| - 1].updateUi
    requires FaultFree(c.tailResult, c.pending)
    ensures Drained(c).uiPushes == c.uiPushes + [Fold(c.tailResult, c.pending)]
    decreases |c.pending|
  {
    var s := AfterStep(c);
    DrainedUnfolds(c);
    if |c.pending| > 1 {
      assert s.pending[|s.pending| - 1] == c.pending[|c.pending| - 1];
      BurstPushesOnce(s);
    }
  }

  /** `Budget(cancelAfter, n)`: how many units finish before the wait's token fires. */
  function Budget(cancelAfter: Option<nat>, n: nat): nat
  {
    match cancelAfter
    case None => n
    case Some(k) => k
  }

  /** The state a wait leaves: UI pushes cancelled, and the units that finish before the token fires run. */
  function WaitState<M>(c: Chain<M>, cancelAfter: Option<nat>): Chain<M>
  {
    AfterSteps(c.(uiCancelled := true), Budget(cancelAfter, |c.pending|))
  }

  /**
   * What `WaitAndGetResult` returns from state `c`. A token that is already
   * cancelled makes `Join` throw at once, so the result is null whatever is
   * pending; otherwise the tail's result if the chain completes before the
   * token fires, and null if it fires first.
   */
  function WaitResult<M>(c: Chain<M>, cancelAfter: Option<nat>): (r: Option<M>)
    ensures cancelAfter == Some(0) ==> r.None?
    ensures cancelAfter.Some? && cancelAfter.value < |c.pending| ==> r.None?
  {
    if cancelAfter == Some(0) then None
    else
      var w := WaitState(c, cancelAfter);
      if w.pending == [] then w.tailResult else None
  }

  /**
   * A wait whose token never fires returns fN(...f1(previous result)) of a
   * fault-free chain, and pushes nothing to the UI.
   */
  lemma WaitReturnsFold<M>(c: Chain<M>)
    requires !c.terminated && !c.lifetimeCancelled
    requires FaultFree(c.tailResult, c.pending)
    ensures WaitResult(c, None) == Fold(c.tailResult, c.pending)
    ensures AfterSteps(c.(uiCancelled := true), |c.pending|).uiPushes == c.uiPushes
  {
    var s := c.(uiCancelled := true);
    DrainAppliesInOrder(s);
    NoPushWhileUiCancelled(s, |s.pending|);
  }

  /**
   * A wait cancels UI pushes only for the units already pending: the next
   * `Enqueue` re-arms them, so a unit asking for an update after a completed
   * wait pushes its model again.
   */
  lemma {:induction false} EnqueueAfterWaitPushesAgain<M>(c: Chain<M>, item: WorkItem<M>)
    requires !c.terminated && !c.lifetimeCancelled
    requires FaultFree(c.tailResult, c.pending)
    requires item.updateUi
    requires item.transform(Fold(c.tailResult, c.pending)).Ok?
    ensures var w := Drained(c.(uiCancelled := true));
      && w.uiPushes == c.uiPushes
      && Drained(AfterEnqueue(w, item)).uiPushes
         == c.uiPushes + [item.transform(Fold(c.tailResult, c.pending)).model]
  {
    var s := c.(uiCancelled := true);
    var w := Drained(s);
    DrainAppliesInOrder(s);
    NoPushWhileUiCancelled(s, |s.pending|);
    var e := AfterEnqueue(w, item);
    assert e.pending == [item];
    assert FaultFree(e.tailResult, e.pending) by {
      assert e.pending[1..] == [];
    }
    BurstPushesOnce(e);
    assert Fold(e.tailResult, e.pending) == item.transform(Fold(c.tailResult, c.pending)).model by {
      assert e.pending[1..] == [];
    }
  }

  /**
   * The chain engine. The fields stand for `_lastJoinableTask` (the pending
   * units and the result the tail hands on), `RecentModel`, `_terminated`,
   * the lifetime token and `_uiCancellation`; the ghost fields log the calls
   * to `UpdateUi`, `HandleException` and `Dismiss`.
   */
  class ModelComputation<M> {
    var pending: seq<WorkItem<M>>
    var tailResult: Option<M>
    var recentModel: Option<M>
    var terminated: bool
    var lifetimeCancelled: bool
    var uiCancelled: bool
    ghost var uiPushes: seq<Option<M>>
    ghost var errorReports: nat
    ghost var dismissals: nat

    ghost function State(): Chain<M>
      reads this
    {
      Chain(pending, tailResult, recentModel, terminated, lifetimeCancelled,
            uiCancelled, uiPushes, errorReports, dismissals)
    }

    ghost predicate Valid()
      reads this
    {
      Agrees(State())
    }

    /** The field initialisation of the constructor: the dummy task and a fresh UI token. */
    constructor Init(lifetimeCancelled: bool)
      ensures Valid() && State() == Fresh(lifetimeCancelled)
    {
      pending := [];
      tailResult := None;
      recentModel := None;
      terminated := false;
      this.lifetimeCancelled := lifetimeCancelled;
      uiCancelled := false;
      uiPushes := [];
      errorReports := 0;
      dismissals := 0;
    }

    /**
     * The constructor: set up the fields, then enqueue the initial
     * transformation with `updateUi = false`. Like `Enqueue`, it throws off
     * the UI thread.
     */
    static method Create(initial: Option<M> -> Outcome<Option<M>>, lifetimeCancelled: bool, onMainThread: bool)
      returns (r: Result<ModelComputation<M>, Exception>)
      ensures !onMainThread ==> r == Failure(InvalidOperation)
      ensures onMainThread ==> && r.Success? && fresh(r.value) && r.value.Valid()
                               && r.value.State() == AfterEnqueue(Fresh(lifetimeCancelled), WorkItem(initial, false))
      ensures onMainThread && !lifetimeCancelled ==> r.Success? && r.value.pending == [WorkItem(initial, false)]
      ensures r.Success? ==> r.value.recentModel == None
    {
      var mc := new ModelComputation.Init(lifetimeCancelled);
      var e := mc.Enqueue(initial, false, onMainThread);
      if e.Failure? {
        return Failure(e.error);
      }
      return Success(mc);
    }

    /** `RecentModel`: the model the last finished unit handed on. */
    function RecentModel(): (r: Option<M>)
      reads this
      ensures Valid() ==> r == tailResult
    {
      recentModel
    }

    /** `Enqueue(transformation, updateUi)`, called on or off the UI thread. */
    method Enqueue(transform: Option<M> -> Outcome<Option<M>>, updateUi: bool, onMainThread: bool)
      returns (r: Result<(), Exception>)
      requires Valid()
      modifies this
      ensures Valid()
      ensures !onMainThread ==> r == Failure(InvalidOperation) && State() == old(State())
      ensures onMainThread ==> r == Success(()) && State() == AfterEnqueue(old(State()), WorkItem(transform, updateUi))
    {
      if !onMainThread {
        return Failure(InvalidOperation);
      }
      if lifetimeCancelled || terminated {
        return Success(());
      }
      if uiCancelled {
        uiCancelled := false;
      }
      pending := pending + [WorkItem(transform, updateUi)];
      return Success(());
    }

    /** The body of the oldest pending unit, run on the worker. */
    method Step()
      requires Valid() && pending != []
      modifies this
      ensures Valid() && State() == AfterStep(old(State()))
    {
      var item := pending[0];
      var isTail := |pending| == 1;
      pending := pending[1..];
      if lifetimeCancelled || terminated {
        return;
      }
      var outcome := item.transform(tailResult);
      match outcome {
        case Ok(m) =>
          recentModel := m;
          tailResult := m;
          if isTail && item.updateUi && !uiCancelled {
            uiPushes := uiPushes + [m];
          }
        case Fail =>
          terminated := true;
          errorReports := errorReports + 1;
          dismissals := dismissals + 1;
      }
    }

    /** The owner cancels the lifetime token. */
    method CancelLifetime()
      modifies this
      ensures State() == old(State()).(lifetimeCancelled := true)
    {
      lifetimeCancelled := true;
    }

    /** The worker finishes up to `budget` units, fewer if the chain empties first. */
    method RunUnits(budget: nat)
      requires Valid()
      modifies this
      ensures Valid() && State() == AfterSteps(old(State()), budget)
    {
      ghost var start := State();
      var left := budget;
      while left > 0 && pending != []
        invariant Valid()
        invariant AfterSteps(State(), left) == AfterSteps(start, budget)
        decreases left
      {
        ghost var before := State();
        Step();
        StepsUnfold(before, left);
        left := left - 1;
      }
      StepsUnfold(State(), left);
    }

    /**
     * `WaitAndGetResult(token)`: cancel UI pushes, then wait for the tail.
     * `cancelAfter == Some(k)` means the token fires once `k` more units have
     * finished; `Some(0)` is a token cancelled before the call, on which
     * `Join` throws at once. The result is the tail's result if the chain
     * completed first, and null if the wait was cancelled.
     */
    method WaitAndGetResult(cancelAfter: Option<nat>) returns (r: Option<M>)
      requires Valid()
      modifies this
      ensures Valid()
      ensures State() == WaitState(old(State()), cancelAfter)
      ensures r == WaitResult(old(State()), cancelAfter)
      ensures cancelAfter == Some(0) ==> r.None?
      ensures uiPushes == old(uiPushes)
    {
      uiCancelled := true;
      ghost var start := State();
      assert start == old(State()).(uiCancelled := true);
      RunUnits(Budget(cancelAfter, |pending|));
      NoPushWhileUiCancelled(start, Budget(cancelAfter, |start.pending|));
      r := if cancelAfter == Some(0) || pending != [] then None else tailResult;
    }
  }

  function StartEmpty(m: Option<seq<char>>): Outcome<Option<seq<char>>>
  {
    Ok(Some([]))
  }

  function AppendA(m: Option<seq<char>>): Outcome<Option<seq<char>>>
  {
    Ok(Some(if m.Some? then m.value + ['a'] else ['a']))
  }

  function AppendB(m: Option<seq<char>>): Outcome<Option<seq<char>>>
  {
    Ok(Some(if m.Some? then m.value + ['b'] else ['b']))
  }

  /**
   * A concrete chain: initial model `[]`, then "append a" and
   * "append b" (the latter asking for an update) drain to `['a','b']` with
   * exactly one UI push carrying it.
   */
  lemma AppendSample()
    ensures var c := Fresh<seq<char>>(false).(pending := [WorkItem(StartEmpty, false), WorkItem(AppendA, false), WorkItem(AppendB, true)]);
      && Drained(c).recent == Some(['a', 'b'])
      && Drained(c).uiPushes == [Some(['a', 'b'])]
  {
    var items := [WorkItem(StartEmpty, false), WorkItem(AppendA, false), WorkItem(AppendB, true)];
    var c := Fresh<seq<char>>(false).(pending := items);
    assert items[1..][1..] == items[2..] && items[2..][1..] == [];
    assert [] + ['a'] == ['a'] && ['a'] + ['b'] == ['a', 'b'];
    assert FaultFree(Some(['a']), items[2..]) && Fold(Some(['a']), items[2..]) == Some(['a', 'b']);
    assert FaultFree(Some([]), items[1..]) && Fold(Some([]), items[1..]) == Some(['a', 'b']);
    assert FaultFree(None, items) && Fold(None, items) == Some(['a', 'b']);
    DrainAppliesInOrder(c);
    BurstPushesOnce(c);
  }

  function StartZero(m: Option<int>): Outcome<Option<int>>
  {
    Ok(Some(0))
  }

  function Double(m: Option<int>): Outcome<Option<int>>
  {
    Ok(if m.Some? then Some(2 * m.value) else None)
  }

  function Increment(m: Option<int>): Outcome<Option<int>>
  {
    Ok(if m.Some? then Some(m.value + 1) else None)
  }

  /**
   * A concrete wait: on initial model 0, `double` then `increment` make the
   * wait return 1; with a token cancelled before the call it returns null.
   */
  lemma WaitSample()
    ensures var c := Fresh<int>(false).(pending := [WorkItem(StartZero, false), WorkItem(Double, false), WorkItem(Increment, false)]);
      && WaitResult(c, None) == Some(1)
      && WaitResult(c, Some(0)) == None
  {
    var items := [WorkItem(StartZero, false), WorkItem(Double, false), WorkItem(Increment, false)];
    var c := Fresh<int>(false).(pending := items);
    assert items[1..][1..] == items[2..] && items[2..][1..] == [];
    assert FaultFree(Some(0), items[2..]) && Fold(Some(0), items[2..]) == Some(1);
    assert FaultFree(Some(0), items[1..]) && Fold(Some(0), items[1..]) == Some(1);
    assert FaultFree(None, items) && Fold(None, items) == Some(1);
    WaitReturnsFold(c);
  }
}
