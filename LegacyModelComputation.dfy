/**
 * The older model-computation chain kept at the bottom of CompletionModel.cs.
 *
 * Each unit is a continuation of the previous task (`ContinueWith` +
 * `Unwrap`); a second chain of "notify" continuations, cancellable through
 * the UI token, publishes `RecentModel` and pushes to the UI. There is no
 * main-thread check, no lifetime check and no termination flag. The worker
 * that finishes the oldest pending unit together with its notify
 * continuation is `Step`.
 */
module LegacyModelComputation {
  import opened Common

  /**
   * What calling a transformation yields: a task that completes with a model,
   * a task that is already faulted when `SafelyInvoke` looks at it, or a task
   * that faults later.
   */
  datatype Outcome<M> = Completed(model: M) | FaultedAtOnce | FaultedLater

  /** The final state of a unit's task. */
  datatype TaskResult<M> = RanToCompletion(value: M) | Faulted

  datatype WorkItem<!M> = WorkItem(transform: Option<M> -> Outcome<Option<M>>, updateUi: bool)

  /**
   * The abstract state: the units still to run, the task result of the last
   * finished unit (`_lastTask`), `RecentModel`, whether the current UI token
   * is cancelled, and the logs of `UpdateUi`, `HandleException` and `Dismiss`.
   */
  datatype Chain<!M> = Chain(
    pending: seq<WorkItem<M>>,
    last: TaskResult<Option<M>>,
    recent: Option<M>,
    uiCancelled: bool,
    uiPushes: seq<Option<M>>,
    errorReports: nat,
    dismissals: nat)

  /** The state the constructor leaves: `_lastTask` is a completed task holding null. */
  function Fresh<M>(): Chain<M>
  {
    Chain([], RanToCompletion(None), None, false, [], 0, 0)
  }

  /** `Enqueue`: chain the unit, and start a new UI round if the old one was cancelled. */
  function AfterEnqueue<M>(c: Chain<M>, item: WorkItem<M>): Chain<M>
  {
    c.(pending := c.pending + [item], uiCancelled := false)
  }

  /**
   * `SafelyInvoke` on the previous task, followed by this unit's notify
   * continuation. Reading `.Result` of a faulted previous task throws inside
   * the continuation, so a faulted chain stays faulted.
   */
  function Invoke<M>(item: WorkItem<M>, previous: TaskResult<Option<M>>): (r: TaskResult<Option<M>>)
    ensures previous.Faulted? ==> r.Faulted?
  {
    match previous
    case Faulted => Faulted
    case RanToCompletion(m) =>
      match item.transform(m)
      case Completed(m') => RanToCompletion(m')
      case FaultedAtOnce => previous
      case FaultedLater => Faulted
  }

  /** Whether `SafelyInvoke` reports an error and dismisses for this unit. */
  predicate ReportsFault<M>(item: WorkItem<M>, previous: TaskResult<Option<M>>)
  {
    previous.RanToCompletion? && item.transform(previous.value).FaultedAtOnce?
  }

  function AfterStep<M>(c: Chain<M>): (r: Chain<M>)
    requires c.pending != []
    ensures r.pending == c.pending[1..] && r.uiCancelled == c.uiCancelled
    ensures c.uiCancelled ==> r.recent == c.recent && r.uiPushes == c.uiPushes
    ensures c.last.Faulted? ==> r.last.Faulted? && r.recent == c.recent && r.errorReports == c.errorReports
    ensures !c.uiCancelled && r.last.RanToCompletion? ==> r.recent == r.last.value
    ensures r.last.Faulted? ==> r.recent == c.recent && r.uiPushes == c.uiPushes
  {
    var item := c.pending[0];
    var rest := c.pending[1..];
    var next := Invoke(item, c.last);
    var reported := ReportsFault(item, c.last);
    var c1 := c.(pending := rest, last := next,
                 errorReports := if reported then c.errorReports + 1 else c.errorReports,
                 dismissals := if reported then c.dismissals + 1 else c.dismissals);
    if c.uiCancelled || next.Faulted? then
      // the notify continuation is cancelled, or runs and skips
      c1
    else
      var push := item.updateUi && rest == [];
      c1.(recent := next.value, uiPushes := if push then c.uiPushes + [next.value] else c.uiPushes)
  }

  function Drained<M>(c: Chain<M>): (r: Chain<M>)
    ensures r.pending == [] && r.uiCancelled == c.uiCancelled
    decreases |c.pending|
  {
    if c.pending == [] then c else Drained(AfterStep(c))
  }

  /** `FaultedAtOnce` keeps the previous model; no unit of `items` faults later. */
  predicate NeverFaultsLater<M>(m: Option<M>, items: seq<WorkItem<M>>)
    decreases |items|
  {
    items == [] ||
    match items[0].transform(m)
    case Completed(m') => NeverFaultsLater(m', items[1..])
    case FaultedAtOnce => NeverFaultsLater(m, items[1..])
    case FaultedLater => false
  }

  /** The model such a chain ends with: completed units apply, immediately faulted ones are skipped. */
  function Fold<M>(m: Option<M>, items: seq<WorkItem<M>>): Option<M>
    requires NeverFaultsLater(m, items)
    decreases |items|
  {
    if items == [] then m
    else match items[0].transform(m)
      case Completed(m') => Fold(m', items[1..])
      case FaultedAtOnce => Fold(m, items[1..])
  }

  /** How many units of such a chain fault immediately. */
  function ImmediateFaults<M>(m: Option<M>, items: seq<WorkItem<M>>): nat
    requires NeverFaultsLater(m, items)
    decreases |items|
  {
    if items == [] then 0
    else match items[0].transform(m)
      case Completed(m') => ImmediateFaults(m', items[1..])
      case FaultedAtOnce => 1 + ImmediateFaults(m, items[1..])
  }

  /**
   * No termination: every immediately faulted unit is reported and dismissed
   * once and skipped, and all later units still run, in order.
   */
  lemma {:induction false} FaultsDoNotStopChain<M>(c: Chain<M>)
    requires c.last.RanToCompletion? && NeverFaultsLater(c.last.value, c.pending)
    ensures Drained(c).last == RanToCompletion(Fold(c.last.value, c.pending))
    ensures Drained(c).errorReports == c.errorReports + ImmediateFaults(c.last.value, c.pending)
    ensures Drained(c).dismissals == c.dismissals + ImmediateFaults(c.last.value, c.pending)
    decreases |c.pending|
  {
    if c.pending != [] {
      FaultsDoNotStopChain(AfterStep(c));
    }
  }

  /**
   * `RecentModel` tracks the latest success: after an uncancelled drain of
   * at least one unit whose chain did not fault, it is `_lastTask`'s result.
   */
  lemma {:induction false} RecentModelTracksLastSuccess<M>(c: Chain<M>)
    requires !c.uiCancelled && c.pending != []
    ensures Drained(c).last.RanToCompletion? ==> Drained(c).recent == Drained(c).last.value
    decreases |c.pending|
  {
    var s := AfterStep(c);
    if s.pending != [] {
      RecentModelTracksLastSuccess(s);
    }
  }

  /**
   * Without a late fault, an uncancelled drain publishes the final model: the
   * `RecentModel` is the fold of the pending transformations.
   */
  lemma PublishedModelIsFold<M>(c: Chain<M>)
    requires !c.uiCancelled && c.pending != []
    requires c.last.RanToCompletion? && NeverFaultsLater(c.last.value, c.pending)
    ensures Drained(c).recent == Fold(c.last.value, c.pending)
  {
    FaultsDoNotStopChain(c);
    RecentModelTracksLastSuccess(c);
  }

  /**
   * A unit whose task faults later poisons the chain: every later result is
   * faulted, nothing further is reported or published, and waiting throws.
   */
  lemma {:induction false} LateFaultPoisonsChain<M>(c: Chain<M>)
    requires c.last.Faulted?
    ensures Drained(c).last.Faulted?
    ensures Drained(c).recent == c.recent && Drained(c).uiPushes == c.uiPushes
    ensures Drained(c).errorReports == c.errorReports && Drained(c).dismissals == c.dismissals
    decreases |c.pending|
  {
    if c.pending != [] {
      LateFaultPoisonsChain(AfterStep(c));
    }
  }

  /**
   * While the UI token is cancelled, notify continuations do not run, so
   * `RecentModel` is not updated and nothing is pushed.
   */
  lemma {:induction false} CancelledRoundPublishesNothing<M>(c: Chain<M>)
    requires c.uiCancelled
    ensures Drained(c).recent == c.recent && Drained(c).uiPushes == c.uiPushes
    decreases |c.pending|
  {
    if c.pending != [] {
      CancelledRoundPublishesNothing(AfterStep(c));
    }
  }

  /**
   * Only the unit that is still `_lastTask` may push: a drain adds no push,
   * or adds one push carrying the final model, for a last unit that asked.
   */
  lemma {:induction false} OnlyTailPushes<M>(c: Chain<M>)
    ensures var r := Drained(c);
      || r.uiPushes == c.uiPushes
      || (&& c.pending != [] && !c.uiCancelled && c.pending[|c.pending| - 1].updateUi
          && r.last.RanToCompletion? && r.uiPushes == c.uiPushes + [r.last.value])
    decreases |c.pending|
  {
    if c.pending != [] {
      var s := AfterStep(c);
      if |c.pending| > 1 {
        assert s.uiPushes == c.uiPushes;
        assert s.pending[|s.pending| - 1] == c.pending[|c.pending| - 1];
        OnlyTailPushes(s);
      }
    }
  }

  function Head(m: Option<int>): Outcome<Option<int>>
  {
    Completed(Some(1))
  }

  /**
   * As written, `RecentModel` can lag what `WaitAndGetResult` returns: the
   * wait cancels the notify continuation that would have published the model.
   */
  lemma RecentModelLagsAfterWait()
    ensures var c := Drained(Fresh<int>().(pending := [WorkItem(Head, false)], uiCancelled := true));
      c.last == RanToCompletion(Some(1)) && c.recent == None
  {
    var c := Fresh<int>().(pending := [WorkItem(Head, false)], uiCancelled := true);
    assert Drained(AfterStep(c)) == AfterStep(c);
  }

  /** The older engine; fields as in the abstract `Chain`. */
  class ModelComputation<M> {
    var pending: seq<WorkItem<M>>
    var last: TaskResult<Option<M>>
    var recentModel: Option<M>
    var uiCancelled: bool
    ghost var uiPushes: seq<Option<M>>
    ghost var errorReports: nat
    ghost var dismissals: nat

    ghost function State(): Chain<M>
      reads this
    {
      Chain(pending, last, recentModel, uiCancelled, uiPushes, errorReports, dismissals)
    }

    constructor ()
      ensures State() == Fresh()
    {
      pending := [];
      last := RanToCompletion(None);
      recentModel := None;
      uiCancelled := false;
      uiPushes := [];
      errorReports := 0;
      dismissals := 0;
    }

    method Enqueue(transform: Option<M> -> Outcome<Option<M>>, updateUi: bool)
      modifies this
      ensures State() == AfterEnqueue(old(State()), WorkItem(transform, updateUi))
    {
      pending := pending + [WorkItem(transform, updateUi)];
      if uiCancelled {
        uiCancelled := false;
      }
    }

    /** The oldest unit's continuation (`SafelyInvoke`) and then its notify continuation. */
    method Step()
      requires pending != []
      modifies this
      ensures State() == AfterStep(old(State()))
    {
      var item := pending[0];
      var isTail := |pending| == 1;
      pending := pending[1..];
      var previous := last;
      match previous {
        case Faulted =>
          last := Faulted;
        case RanToCompletion(m) =>
          var t := item.transform(m);
          match t {
            case Completed(m') => last := RanToCompletion(m');
            case FaultedAtOnce =>
              errorReports := errorReports + 1;
              dismissals := dismissals + 1;
            case FaultedLater => last := Faulted;
          }
      }
      if !uiCancelled && last.RanToCompletion? {
        recentModel := last.value;
        if item.updateUi && isTail {
          uiPushes := uiPushes + [last.value];
        }
      }
    }

    /**
     * `WaitAndGetResult()`: cancel the UI round, wait for `_lastTask`, and
     * return its result; `Wait` on a faulted task throws.
     */
    method WaitAndGetResult() returns (r: Result<Option<M>, Exception>)
      modifies this
      ensures State() == Drained(old(State()).(uiCancelled := true))
      ensures r == if last.Faulted? then Failure(Aggregate) else Success(last.value)
      ensures recentModel == old(recentModel) && uiPushes == old(uiPushes)
    {
      uiCancelled := true;
      ghost var start := State();
      while pending != []
        invariant uiCancelled
        invariant Drained(State()) == Drained(start)
        decreases |pending|
      {
        Step();
      }
      CancelledRoundPublishesNothing(start);
      r := if last.Faulted? then Failure(Aggregate) else Success(last.value);
    }
  }
}
