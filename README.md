# Asynchronous completion core of the Visual Studio editor API, in Dafny

This project models the core of the editor's asynchronous completion.
It proves properties of that model. The modules are:

- **ModelComputation** (`ModelComputation.dfy`). This is the sequential chain that runs the session's model transformations. It covers:
  - strict enqueue order, each unit seeing the previous result;
  - `RecentModel`;
  - UI pushes only from the unit that is still the tail;
  - the one-way termination flag and the resettable UI cancellation;
  - `WaitAndGetResult`.
- **LegacyModelComputation** (`LegacyModelComputation.dfy`). This is the older chain kept at the bottom of `CompletionModel.cs`. It has `SafelyInvoke` and a separate chain of "notify" continuations.
- **CompletionModel** (`CompletionModel.dfy`). This is the immutable completion model: both constructors and every `With*` copy, with its selection coupling rules.
- **AsyncCompletionBroker** (`AsyncCompletionBroker.dfy`). It covers:
  - the provider filters;
  - the per-content-type availability cache;
  - the per-view session registry;
  - the control flow of `TriggerCompletion`;
  - the source loop (first applicable span wins) and the commit-manager loop (in-order commit characters).
- **CompletionAvailability** (`CompletionAvailability.dfy`). This is the availability guard chains, plus the experiment decision with its cached flight answer.
- **CompletionItemWithHighlight**, **BlockTag**, **CompletionUtilities**, **ModernCompletionFeature** and **SuggestionModeSource**. These are the smaller pieces: validating constructors and equality, the `Level` of nested block tags, options that get a default on first read, a memoized feature flag, and a stub completion source.

## How the model is built

Each C# class whose fields change becomes a Dafny `class` with those fields. Each of its methods then states its effect in one of two ways:
- as `State() == F(old(State()))`, where `F` is a pure function over an abstract state datatype;
- or field by field.

The properties are lemmas about those pure functions. Immutable C# values become datatypes with pure functions.

### The chains

Threads, tasks and continuations become a FIFO queue `pending`:
- `Enqueue` appends to it.
- `Step` runs the oldest unit. One step does all of these at once: the transformation, the check "am I still the tail", the update of `RecentModel` and the UI push.
- "Still the tail" means that the unit is the only one pending.
- A transformation is a function from the previous model to `Ok(model)` or `Fail`. The null model is `None`.

Other external inputs become booleans or parameters:
- The main-thread check is a boolean parameter. When it is false, the result is `Failure(InvalidOperation)`.
- Cancellation tokens are boolean fields.
- `UpdateUi`, `HandleException` and `Dismiss` are ghost logs.

`WaitAndGetResult(token)` takes `cancelAfter: Option<nat>`. It means the token fires once that many more units have finished. `Some(0)` stands for a token that was already cancelled when the wait began.

### Behaviours of the code as written that are easy to miss

- **Cancelled wait.** The doc comment of `WaitAndGetResult` (src/Language/Impl/Language/AsyncCompletion/ModelComputation.cs:119-121) says it blocks until all background work has finished. In fact `JoinableTask.Join` checks its token before it looks at the task. So a token that was already cancelled at the call makes the wait return null, even on a finished chain (`WaitResult`). A token that fires later returns null only if the chain has not completed by then. Once the last unit has finished, the wait returns that unit's result.
- **Late legacy faults.** The legacy chain reports an error only when the transformation's task is already faulted when `SafelyInvoke` inspects it. A task that faults later is never reported. It poisons every later unit, because those units read `.Result` of a faulted task. The wait then throws.
- **Legacy `RecentModel`.** This field is written only by the notify continuation. `WaitAndGetResult` cancels that continuation, so `RecentModel` can lag behind the result the wait returns (`LegacyModelComputation.RecentModelLagsAfterWait`).
- **The source loop's out span.** Every queried source writes the out span, including sources that answer false. With no span found, the broker therefore keeps whatever the last queried source wrote, and returns null only when that is `default`.
- **Undefined commit characters.** `GetCommitManagersAndChars` assigns the commit characters only after a non-null manager. With no manager they stay `default(ImmutableArray<char>)`, which the model writes as `None`.

## Model

| member | source | states |
|---|---|---|
| ModelComputation.AfterEnqueue | src/Language/Impl/Language/AsyncCompletion/ModelComputation.cs:74-79 | a stopped chain (lifetime cancelled or terminated) is left exactly as it was; otherwise the unit is appended after the pending ones, UI pushes are re-armed, and results, pushes, flags and logs are kept |
| ModelComputation.AfterStep | src/Language/Impl/Language/AsyncCompletion/ModelComputation.cs:87-113 | one unit runs: the queue loses exactly its head, the cancellation flags are kept, termination is never cleared, and `RecentModel` keeps agreeing with the result handed on |
| ModelComputation.AfterSteps | src/Language/Impl/Language/AsyncCompletion/ModelComputation.cs:81-116 | running up to k units removes exactly that many from the front of the queue, and keeps the flags and the agreement between `RecentModel` and the tail result |
| ModelComputation.Drained | src/Language/Impl/Language/AsyncCompletion/ModelComputation.cs:128 | waiting for the tail leaves nothing pending |
| ModelComputation.StoppedChainRunsNothing | src/Language/Impl/Language/AsyncCompletion/ModelComputation.cs:91-92 | once the lifetime is cancelled or the chain is terminated, units only leave the queue: result, `RecentModel`, pushes and logs stay as they were |
| ModelComputation.TerminationIsPermanent | src/Language/Impl/Language/AsyncCompletion/ModelComputation.cs:74-75 | on a terminated chain `Enqueue` is a no-op, running units never clears the flag, and `RecentModel` and the error log freeze |
| ModelComputation.CancellationFreezesChain | src/Language/Impl/Language/AsyncCompletion/ModelComputation.cs:74-75 | after lifetime cancellation `Enqueue` is a no-op and draining changes nothing but the queue |
| ModelComputation.DrainAppliesInOrder | src/Language/Impl/Language/AsyncCompletion/ModelComputation.cs:81-105 | a fault-free drain yields fN(...f1(previous result)) in enqueue order; `RecentModel` ends as that value; nothing is reported or dismissed |
| ModelComputation.FaultTerminatesChain | src/Language/Impl/Language/AsyncCompletion/ModelComputation.cs:107-113 | the first throwing unit terminates the chain with exactly one error report and one dismissal; the result and `RecentModel` freeze at the output of the units before it |
| ModelComputation.OnlyTailPushes | src/Language/Impl/Language/AsyncCompletion/ModelComputation.cs:98-102 | after any number of steps either nothing was pushed, or the queue emptied, UI pushes were not cancelled, the last unit asked for an update, and exactly one push carrying the final result was added |
| ModelComputation.NoPushWhileUiCancelled | src/Language/Impl/Language/AsyncCompletion/ModelComputation.cs:101 | while UI pushes are cancelled no unit pushes |
| ModelComputation.BurstPushesOnce | src/Language/Impl/Language/AsyncCompletion/ModelComputation.cs:95-102 | a fault-free burst whose last unit asks for an update yields exactly one push, carrying the final model |
| ModelComputation.AppendSample | src/Language/Impl/Language/AsyncCompletion/ModelComputation.cs:81-105 | a concrete chain (initial `[]`, append 'a', append 'b' with update) drains to `['a','b']` with the single push `['a','b']` |
| ModelComputation.WaitResult | src/Language/Impl/Language/AsyncCompletion/ModelComputation.cs:123-134 | an already-cancelled token gives null whatever is pending; a token that fires before the pending units are done gives null |
| ModelComputation.WaitReturnsFold | src/Language/Impl/Language/AsyncCompletion/ModelComputation.cs:123-134 | a wait whose token never fires returns fN(...f1(previous result)) of a fault-free chain and pushes nothing |
| ModelComputation.EnqueueAfterWaitPushesAgain | src/Language/Impl/Language/AsyncCompletion/ModelComputation.cs:77-79 | after a completed wait, which pushed nothing, one enqueued unit that asks for an update pushes its model: the wait did not switch UI pushes off for good |
| ModelComputation.WaitSample | src/Language/Impl/Language/AsyncCompletion/ModelComputation.cs:123-134 | on initial model 0, `double` then `increment` wait to 1; with an already-cancelled token the wait returns null |
| ModelComputation.ModelComputation.Init | src/Language/Impl/Language/AsyncCompletion/ModelComputation.cs:54-56 | the dummy task leaves nothing pending, the null model as result and `RecentModel`, and a fresh UI token |
| ModelComputation.ModelComputation.Create | src/Language/Impl/Language/AsyncCompletion/ModelComputation.cs:40-60 | construction enqueues the initial transformation with `updateUi = false` against the null model (nothing is enqueued if the lifetime is already cancelled); `RecentModel` starts null; off the UI thread it throws |
| ModelComputation.ModelComputation.Enqueue | src/Language/Impl/Language/AsyncCompletion/ModelComputation.cs:67-117 | off the UI thread it throws `InvalidOperationException` and changes nothing; otherwise the new state is `AfterEnqueue` (a no-op when stopped, else re-arm UI pushes and append the unit) |
| ModelComputation.ModelComputation.Step | src/Language/Impl/Language/AsyncCompletion/ModelComputation.cs:83-114 | running the oldest unit produces exactly `AfterStep` of the old state and keeps `RecentModel` equal to the tail result |
| ModelComputation.ModelComputation.RecentModel | src/Language/Impl/Language/AsyncCompletion/ModelComputation.cs:28 | on a consistent chain, the model the last finished unit handed on, which is the result the tail passes to the next unit |
| ModelComputation.ModelComputation.CancelLifetime | src/Language/Impl/Language/AsyncCompletion/ModelComputation.cs:74-92 | cancelling the lifetime token changes that flag only |
| ModelComputation.ModelComputation.WaitAndGetResult | src/Language/Impl/Language/AsyncCompletion/ModelComputation.cs:123-134 | UI pushes are cancelled, the units that finish before the token fires run, no push happens, and the result is `WaitResult`: null on an already-cancelled token or a wait cancelled first, else the tail's result |
| LegacyModelComputation.Invoke | src/Language/Impl/Language/Completion/CompletionModel.cs:399-409 | `SafelyInvoke` on a faulted previous task yields a faulted task |
| LegacyModelComputation.AfterStep | src/Language/Impl/Language/Completion/CompletionModel.cs:419-443 | one unit and its notify continuation: the queue loses its head; in an uncancelled round a unit whose task completed publishes that result as `RecentModel`; a cancelled round publishes and pushes nothing; a faulted chain stays faulted, publishes and reports nothing |
| LegacyModelComputation.Drained | src/Language/Impl/Language/Completion/CompletionModel.cs:458 | waiting for `_lastTask` leaves nothing pending |
| LegacyModelComputation.FaultsDoNotStopChain | src/Language/Impl/Language/Completion/CompletionModel.cs:399-409 | without a termination flag, each immediately faulted unit is reported and dismissed once and skipped (the previous result is kept), and all later units still run in order |
| LegacyModelComputation.RecentModelTracksLastSuccess | src/Language/Impl/Language/Completion/CompletionModel.cs:429-435 | after an uncancelled drain of at least one unit, `RecentModel` is `_lastTask`'s result whenever that task completed |
| LegacyModelComputation.PublishedModelIsFold | src/Language/Impl/Language/Completion/CompletionModel.cs:416-449 | without a late fault, an uncancelled drain publishes the fold of the pending transformations (immediately faulted ones skipped) as `RecentModel` |
| LegacyModelComputation.LateFaultPoisonsChain | src/Language/Impl/Language/Completion/CompletionModel.cs:416-444 | once `_lastTask` is faulted, every later result is faulted, nothing more is reported, published or pushed |
| LegacyModelComputation.CancelledRoundPublishesNothing | src/Language/Impl/Language/Completion/CompletionModel.cs:429-443 | while the UI token is cancelled, notify continuations do not run: `RecentModel` and pushes stay unchanged |
| LegacyModelComputation.OnlyTailPushes | src/Language/Impl/Language/Completion/CompletionModel.cs:436-439 | a drain adds no push, or exactly one push with the final result, for a last unit that asked for it in an uncancelled round |
| LegacyModelComputation.RecentModelLagsAfterWait | src/Language/Impl/Language/Completion/CompletionModel.cs:446-460 | a concrete case where the wait returns a model while `RecentModel` is still null |
| LegacyModelComputation.ModelComputation.constructor | src/Language/Impl/Language/Completion/CompletionModel.cs:381-397 | `_lastTask` starts as a completed task holding null, nothing pending, a fresh UI token |
| LegacyModelComputation.ModelComputation.Enqueue | src/Language/Impl/Language/Completion/CompletionModel.cs:416-444 | the unit is chained after `_lastTask` and a cancelled UI round is restarted |
| LegacyModelComputation.ModelComputation.Step | src/Language/Impl/Language/Completion/CompletionModel.cs:416-449 | the continuation and its notify step produce exactly `AfterStep` of the old state |
| LegacyModelComputation.ModelComputation.WaitAndGetResult | src/Language/Impl/Language/Completion/CompletionModel.cs:455-460 | the UI round is cancelled, the chain drains, `RecentModel` and pushes stay unchanged, and the result is `_lastTask`'s value or an `AggregateException` if it faulted |
| CompletionModel.Initial | src/Language/Impl/Language/Completion/CompletionModel.cs:96-114 | `SelectedIndex = 0`; both suggestion-mode flags equal `useSuggestionMode`; `UniqueItem` null; `ApplicableSpanWasEmpty` false; `PresentedItems` uninitialized; all other arguments stored |
| CompletionModel.Rebuild | src/Language/Impl/Language/Completion/CompletionModel.cs:119-137 | as written, the private constructor is the intended one with the unique item forced to null |
| CompletionModel.RebuildIntended | src/Language/Impl/Language/Completion/CompletionModel.cs:119-137 | every argument, the unique item included, becomes the field of the same name |
| CompletionModel.RebuildFromFieldsLosesOnlyUniqueItem | src/Language/Impl/Language/Completion/CompletionModel.cs:119-137 | rebuilding a model from its own fields gives it back with a null unique item |
| CompletionModel.WithPresentedItems | src/Language/Impl/Language/Completion/CompletionModel.cs:139-158 | only presented items and selected index change (and the unique item is lost) |
| CompletionModel.WithSnapshot | src/Language/Impl/Language/Completion/CompletionModel.cs:160-179 | only the snapshot changes (and the unique item is lost) |
| CompletionModel.WithFilters | src/Language/Impl/Language/Completion/CompletionModel.cs:181-200 | only the filters change (and the unique item is lost) |
| CompletionModel.WithSelectedIndex | src/Language/Impl/Language/Completion/CompletionModel.cs:202-221 | the index is set, soft selection and suggestion-item selection are cleared, nothing else changes (but the unique item) |
| CompletionModel.WithSuggestionItemSelected | src/Language/Impl/Language/Completion/CompletionModel.cs:223-242 | index -1, suggestion item selected, soft selection cleared, nothing else changes (but the unique item) |
| CompletionModel.WithSuggestionModeActive | src/Language/Impl/Language/Completion/CompletionModel.cs:244-263 | suggestion mode shown iff requested; soft selection becomes old-or-new, so enabling forces it and no call clears it |
| CompletionModel.WithSuggestionModeItem | src/Language/Impl/Language/Completion/CompletionModel.cs:265-287 | only the suggestion-mode item changes, null allowed (and the unique item is lost) |
| CompletionModel.WithUniqueItem | src/Language/Impl/Language/Completion/CompletionModel.cs:289-312 | as written, the result is the model with a null unique item, whatever was passed |
| CompletionModel.WithSoftSelection | src/Language/Impl/Language/Completion/CompletionModel.cs:314-333 | only soft selection changes (and the unique item is lost) |
| CompletionModel.WithSnapshotItemsAndFilters | src/Language/Impl/Language/Completion/CompletionModel.cs:335-355 | snapshot, presented items, index, suggestion item and filters are replaced; the passed unique item is lost |
| CompletionModel.WithApplicableSpanEmptyRecord | src/Language/Impl/Language/Completion/CompletionModel.cs:357-376 | only the applicable-span-was-empty record changes (and the unique item is lost) |
| CompletionModel.UniqueItemIsDropped | src/Language/Impl/Language/Completion/CompletionModel.cs:289-355 | a non-null unique item passed to either method is not the result's unique item |
| CompletionModel.WithUniqueItemIntended | src/Language/Impl/Language/Completion/CompletionModel.cs:289-312 | the override is stored and restoring the old one gives back the original model |
| CompletionModel.WithSnapshotItemsAndFiltersIntended | src/Language/Impl/Language/Completion/CompletionModel.cs:335-355 | all six arguments are stored, the unique item included; nothing else changes |
| CompletionModel.UniqueItemIntendedRoundTrip | src/Language/Impl/Language/Completion/CompletionModel.cs:289-312 | set-then-restore of the unique item is the identity, and the intended update differs from the written one only in the unique item |
| CompletionModel.ApplySoftSelection | src/Language/Impl/Language/Completion/CompletionModel.cs:202-333 | for one `With*` call: explicit selection of an item or of the suggestion item clears soft selection, `WithSoftSelection` sets it, and every other call keeps it, except that enabling suggestion mode turns it on |
| CompletionModel.SoftSelectionIsSticky | src/Language/Impl/Language/Completion/CompletionModel.cs:139-376 | over any chain of `With*` calls without explicit selection, soft selection holds at the end iff it held at the start or some call enabled suggestion mode |
| CompletionModel.ExplicitSelectionIsNeverSoft | src/Language/Impl/Language/Completion/CompletionModel.cs:202-242 | after an explicit selection of an item or of the suggestion item, soft selection stays off through any later calls that neither enable suggestion mode nor set soft selection |
| CompletionModel.SoftSelectionStaysOff | src/Language/Impl/Language/Completion/CompletionModel.cs:139-376 | soft selection that is off stays off through any chain of calls that neither enables suggestion mode nor sets soft selection |
| CompletionModel.UpdatesDropUniqueItem | src/Language/Impl/Language/Completion/CompletionModel.cs:119-137 | as written, any non-empty chain of `With*` calls ends with a null unique item |
| AsyncCompletionBroker.FilterProviders | src/Language/Impl/Language/AsyncCompletion/AsyncCompletionBroker.cs:314-332 | a provider is kept iff it declares a content type the content is of and has no roles or shares one with the view; no provider is invented |
| AsyncCompletionBroker.FilterPreservesOrder | src/Language/Impl/Language/AsyncCompletion/AsyncCompletionBroker.cs:314-332 | the filter distributes over concatenation, so the ordered list's order is kept |
| AsyncCompletionBroker.FilterIsIdempotent | src/Language/Impl/Language/AsyncCompletion/AsyncCompletionBroker.cs:314-332 | filtering twice equals filtering once |
| AsyncCompletionBroker.FilteredProvidersImplySupported | src/Language/Impl/Language/AsyncCompletion/AsyncCompletionBroker.cs:81-95 | a view that finds source and item-manager providers through the filters is on supported content |
| AsyncCompletionBroker.SupportedIsFilteredWithoutRoles | src/Language/Impl/Language/AsyncCompletion/AsyncCompletionBroker.cs:81-95 | without role restrictions, support holds iff both filters are non-empty |
| AsyncCompletionBroker.NonNullSources | src/Language/Impl/Language/AsyncCompletion/AsyncCompletionBroker.cs:228-236 | the collected sources are never more than the imports |
| AsyncCompletionBroker.NonNullSourcesMembers | src/Language/Impl/Language/AsyncCompletion/AsyncCompletionBroker.cs:228-236 | every non-null source is collected with its trigger point, nothing else is, and the result is empty iff every source is null |
| AsyncCompletionBroker.SourceCollectionIsInOrder | src/Language/Impl/Language/AsyncCompletion/AsyncCompletionBroker.cs:228-236 | sources are collected in import order: collection distributes over concatenation |
| AsyncCompletionBroker.FirstFound | src/Language/Impl/Language/AsyncCompletion/AsyncCompletionBroker.cs:241-253 | the least index of a non-null source that answers true, or none if there is none |
| AsyncCompletionBroker.FirstSpanWins | src/Language/Impl/Language/AsyncCompletion/AsyncCompletionBroker.cs:241-257 | a span is found iff some non-null source answers true; the span is the one the first such source wrote; exactly the non-null sources up to it are asked |
| AsyncCompletionBroker.GetCompletionSources | src/Language/Impl/Language/AsyncCompletion/AsyncCompletionBroker.cs:208-269 | every non-null source is collected in order, the span is the first one found (mapped to the edit buffer), and the sources queried are those `Queried` names |
| AsyncCompletionBroker.Managers | src/Language/Impl/Language/AsyncCompletion/AsyncCompletionBroker.cs:181-200 | the collected managers are never more than the imports |
| AsyncCompletionBroker.ManagersMembers | src/Language/Impl/Language/AsyncCompletion/AsyncCompletionBroker.cs:181-200 | every non-null manager is collected with its buffer, nothing else is, and the result is empty iff every manager is null |
| AsyncCompletionBroker.CommitCollectionIsInOrder | src/Language/Impl/Language/AsyncCompletion/AsyncCompletionBroker.cs:181-205 | managers and commit characters are in-order concatenations over any split of the imports |
| AsyncCompletionBroker.CommitCharsDistribute | src/Language/Impl/Language/AsyncCompletion/AsyncCompletionBroker.cs:193-199 | commit characters are gathered in import order: their collection distributes over concatenation |
| AsyncCompletionBroker.ManagersDistribute | src/Language/Impl/Language/AsyncCompletion/AsyncCompletionBroker.cs:181-200 | managers are gathered in import order: their collection distributes over concatenation |
| AsyncCompletionBroker.NullManagersAreSkipped | src/Language/Impl/Language/AsyncCompletion/AsyncCompletionBroker.cs:190-191 | a null manager contributes neither a manager nor characters |
| AsyncCompletionBroker.GetCommitManagersAndChars | src/Language/Impl/Language/AsyncCompletion/AsyncCompletionBroker.cs:166-206 | the managers are the non-null ones in order; the characters are their in-order concatenation if there was at least one manager, else never assigned |
| AsyncCompletionBroker.GetItemManager | src/Language/Impl/Language/AsyncCompletion/AsyncCompletionBroker.cs:271-290 | throws `InvalidOperationException` iff no item-manager provider matches; otherwise the first provider's manager |
| AsyncCompletionBroker.GetPresenterProvider | src/Language/Impl/Language/AsyncCompletion/AsyncCompletionBroker.cs:292-312 | null when no presenter provider matches; otherwise the first provider's instance, which is null when instantiating it failed; no later provider is tried |
| AsyncCompletionBroker.Broker.constructor | src/Language/Impl/Language/AsyncCompletion/AsyncCompletionBroker.cs:70 | the providers are fixed, the cache is empty and consistent, no view has a session |
| AsyncCompletionBroker.Broker.IsCompletionActive | src/Language/Impl/Language/AsyncCompletion/AsyncCompletionBroker.cs:76-79 | completion is active in a view iff a session is registered for it |
| AsyncCompletionBroker.Broker.GetSession | src/Language/Impl/Language/AsyncCompletion/AsyncCompletionBroker.cs:97-104 | a session is returned iff completion is active in the view, and it is the registered one |
| AsyncCompletionBroker.Broker.IsCompletionSupported | src/Language/Impl/Language/AsyncCompletion/AsyncCompletionBroker.cs:81-95 | true iff some source provider and some item-manager provider match; a cached answer is returned unchanged; the cache stays consistent |
| AsyncCompletionBroker.Broker.TriggerCompletion | src/Language/Impl/Language/AsyncCompletion/AsyncCompletionBroker.cs:106-144 | existing session first, before the thread check; off the UI thread it throws; no span gives null; no item manager throws; otherwise a session with the computed span, characters, sources and managers is registered and announced |
| AsyncCompletionBroker.Broker.ForgetSession | src/Language/Impl/Language/AsyncCompletion/AsyncCompletionBroker.cs:156-159 | the view's session is removed, so completion is no longer active there |
| CompletionAvailability.UserSetting | src/Editor/Language/Impl/Language/AsyncCompletion/CompletionAvailabilityUtility.cs:90-94 | an undefined setting reads as 0 |
| CompletionAvailability.ExperimentDecision | src/Editor/Language/Impl/Language/AsyncCompletion/CompletionAvailabilityUtility.cs:96-112 | 1 forces the experiment on, -1 off; otherwise the cached flight answer, or the service's answer if none is cached |
| CompletionAvailability.BlockedOnlyRoslynOrRazor | src/Editor/Language/Impl/Language/AsyncCompletion/CompletionAvailabilityUtility.cs:62-63 | only Roslyn or Razor content is held back, only with the experiment off, and never language-server content |
| CompletionAvailability.UserSettingOverridesFlight | src/Editor/Language/Impl/Language/AsyncCompletion/CompletionAvailabilityUtility.cs:90-103 | settings 1 and -1 decide regardless of flight and cache; undefined behaves as 0 |
| CompletionAvailability.CachedFlightIsStable | src/Editor/Language/Impl/Language/AsyncCompletion/CompletionAvailabilityUtility.cs:106-111 | once the flight is cached, later decisions do not depend on the service |
| CompletionAvailability.CompletionAvailabilityUtility.constructor | src/Editor/Language/Impl/Language/AsyncCompletion/CompletionAvailabilityUtility.cs:38-41 | nothing is cached and the flight has not been asked |
| CompletionAvailability.CompletionAvailabilityUtility.IsExperimentEnabled | src/Editor/Language/Impl/Language/AsyncCompletion/CompletionAvailabilityUtility.cs:88-113 | the result is the experiment decision; the flight is asked at most once in the object's life; with a setting other than 1 or -1 the answer ends up cached, and the flight count rises by one exactly when nothing was cached before |
| CompletionAvailability.CompletionAvailabilityUtility.IsAvailable | src/Editor/Language/Impl/Language/AsyncCompletion/CompletionAvailabilityUtility.cs:51-66 | true iff the global cookie is on, the broker has providers and the content is not held back; the experiment is not consulted when an earlier check fails; otherwise, with a setting other than 1 or -1, the decision is cached, so a later call returns the cached answer whatever the flight says |
| CompletionAvailability.CompletionAvailabilityUtility.IsCurrentlyAvailable | src/Editor/Language/Impl/Language/AsyncCompletion/CompletionAvailabilityUtility.cs:73-86 | true iff the view's feature is on and the content is not held back; when the feature is on and the setting is neither 1 nor -1, the decision is cached for later calls, and the flight is asked only if nothing was cached |
| CompletionItemWithHighlight.Create | src/Language/Def/Language/AsyncCompletion/CompletionItemWithHighlight.cs:40-46 | a null item throws `ArgumentNullException` (checked first), an uninitialized span array `ArgumentException`; otherwise both properties are the arguments |
| CompletionItemWithHighlight.CreateUnhighlighted | src/Language/Def/Language/AsyncCompletion/CompletionItemWithHighlight.cs:29-32 | fails only for a null item; the spans are an empty initialized array |
| CompletionItemWithHighlight.EqualsIsEquivalence | src/Language/Def/Language/AsyncCompletion/CompletionItemWithHighlight.cs:48-49 | equality (same item and same span array) is reflexive, symmetric and transitive |
| CompletionItemWithHighlight.UnhighlightedEqualsOnlySharedEmpty | src/Language/Def/Language/AsyncCompletion/CompletionItemWithHighlight.cs:29-32 | an unhighlighted wrapper equals a highlighted one iff both wrap the same item and the latter holds the shared `ImmutableArray.Empty` instance, not just some empty array |
| CompletionItemWithHighlight.EqualsIsByReference | src/Language/Def/Language/AsyncCompletion/CompletionItemWithHighlight.cs:48-49 | equal spans in two distinct arrays do not make equal wrappers |
| BlockTag.NewBlockTag | src/Editor/Text/Def/TextUI/Tags/Legacy/BlockTag.cs:16-28 | `Level` is 0 without a parent and the parent's plus one otherwise; every other property is its argument |
| BlockTag.LevelIsDepth | src/Editor/Text/Def/TextUI/Tags/Legacy/BlockTag.cs:19 | for constructed tags, `Level` is the length of the `Parent` chain |
| BlockTag.NewTagIsConstructed | src/Editor/Text/Def/TextUI/Tags/Legacy/BlockTag.cs:16-28 | building a tag over constructed parents gives a constructed tag |
| CompletionUtilities.AfterRead | src/Language/Impl/Language/AsyncCompletion/CompletionUtilities.cs:54-60 | after a read the key is defined; an undefined key gets the default; other keys are untouched; a defined key leaves the store unchanged |
| CompletionUtilities.ReadReturnsStoredOrDefault | src/Language/Impl/Language/AsyncCompletion/CompletionUtilities.cs:54-74 | a first read returns the default, a later one the stored value; reading twice stores the same as reading once |
| CompletionUtilities.SetThenRead | src/Language/Impl/Language/AsyncCompletion/CompletionUtilities.cs:62-80 | set followed by read returns the value set and leaves the store as set |
| CompletionUtilities.OptionsAreIndependent | src/Language/Impl/Language/AsyncCompletion/CompletionUtilities.cs:29-30 | the two options use distinct keys, so writing or defining one leaves the other as it was |
| CompletionUtilities.GlobalOptions.constructor | src/Language/Impl/Language/AsyncCompletion/CompletionUtilities.cs:56 | the store holds the given values |
| CompletionUtilities.GetSuggestionModeOption | src/Language/Impl/Language/AsyncCompletion/CompletionUtilities.cs:54-60 | defines the option as false if undefined, then returns its value |
| CompletionUtilities.SetSuggestionModeOption | src/Language/Impl/Language/AsyncCompletion/CompletionUtilities.cs:62-66 | writes the option and nothing else |
| CompletionUtilities.GetSuggestionModeInDebuggerCompletionOption | src/Language/Impl/Language/AsyncCompletion/CompletionUtilities.cs:68-74 | defines the debugger option as true if undefined, then returns its value |
| CompletionUtilities.SetSuggestionModeDuringDebuggingOption | src/Language/Impl/Language/AsyncCompletion/CompletionUtilities.cs:76-80 | writes the debugger option and nothing else |
| ModernCompletionFeature.FirstState | src/Language/Impl/Language/AsyncCompletion/ModernCompletionFeature.cs:26-30 | DEBUG builds report true, others the service's answer |
| ModernCompletionFeature.ModernCompletionFeature.constructor | src/Language/Impl/Language/AsyncCompletion/ModernCompletionFeature.cs:12-13 | the static state starts uninitialized |
| ModernCompletionFeature.ModernCompletionFeature.GetFeatureState | src/Language/Impl/Language/AsyncCompletion/ModernCompletionFeature.cs:19-33 | the first call computes and caches the value; later calls return it without asking the service; every call returns the first call's value; DEBUG is always true; the service is asked at most once |
| SuggestionModeSource.Create | src/Language/Impl/Language/AsyncCompletion/SuggestionModeCompletionItemSource.cs:17-20 | null options throw `ArgumentNullException`; otherwise the options are stored |
| SuggestionModeSource.GetCompletionContext | src/Language/Impl/Language/AsyncCompletion/SuggestionModeCompletionItemSource.cs:22-25 | always throws `NotImplementedException` |
| SuggestionModeSource.GetDescription | src/Language/Impl/Language/AsyncCompletion/SuggestionModeCompletionItemSource.cs:27-30 | the tooltip text, for any item |
| SuggestionModeSource.TryGetApplicableSpan | src/Language/Impl/Language/AsyncCompletion/SuggestionModeCompletionItemSource.cs:32-36 | always false with the default span |
| AsyncCompletionBroker.SilentSourcesFindNothing | src/Language/Impl/Language/AsyncCompletion/AsyncCompletionBroker.cs:241-253 | a span loop over sources that all answer false and write the default span finds nothing and keeps the default span |
| AsyncCompletionBroker.SilentSourcesNeverSupplySpan | src/Language/Impl/Language/AsyncCompletion/AsyncCompletionBroker.cs:126-128 | such sources alone never yield an applicable span, so `TriggerCompletion` returns null |

## Left out

- `JoinableTask.Join`, which is not part of this model. The model assumes that `Join` checks its token before it inspects the task, as that method is documented to do.
- Threads, `JoinableTaskFactory`, `Task.Yield`, task schedulers and continuations. They are replaced by the sequential queue and `Step`. Interleavings of `Enqueue` with a running unit are covered only at unit boundaries.
- Cancellation that happens *during* a transformation, surfacing as an exception. The model lets a unit either succeed or throw. A throw terminates the chain, whatever its cause.
- The `await previousTask` in the catch block of `ModelComputation`. It is modelled as handing on the previous result.
- `GuardedOperations` (`InstantiateExtension`, `CallExtensionPoint`, `RaiseEvent`, `HandleException`). An extension is represented by what it returns, and `None` stands for null or a throw. Error reports and raised events are ghost logs.
- MEF composition, `Orderer.Order` and `StableContentTypeComparer`. Providers arrive already ordered. The extra `OrderBy` of the item-manager and presenter providers is not modelled.
- `GetBuffersAndImports` / `GetOrderedBuffersAndImports` and buffer-graph mapping. The imports are inputs, and the mapping to the edit buffer is a function parameter.
- Telemetry, stopwatches, legacy telemetry emulation, `TextView_Closed` wiring, session internals, and the `firstRun` debug assertion of `GetPresenterProvider`.
- `HasCompletionProviders`. It is called by `IsAvailable` but is not part of this model, so it is a boolean input. The global feature cookie, the per-view feature service and the experimentation service are inputs too: their answers are booleans passed per call.
- The string values of `PredefinedCompletionNames.SuggestionModeInCompletionOptionName` and `SuggestionModeInDebuggerCompletionOptionName`, which are not part of this model. Placeholder strings stand in for them; only their distinctness is used.
- `GetBuffersForPoint`, the `EditorOptionDefinition` export classes beyond their default values, and the local/global scopes of the options store. The store is one map of boolean options.
- BlockTag's settable `Span` and `StatementSpan` properties, and subclasses overriding its virtual properties. The tag is an immutable value, and `Parent` is always another `BlockTag`.
- BlockTag.NewBlockTag: `Level` is an unbounded integer; a C# `int` would overflow only beyond 2^31 nesting levels.
- The provider interfaces and `IBraceCompletionAdornmentServiceFactory`. They are declarations without behaviour.

## Findings

| source | as written | input that shows it | evidently intended | confidence | as-written member | corrected member |
|---|---|---|---|---|---|---|
| src/Language/Impl/Language/Completion/CompletionModel.cs:119-137 | the private constructor never assigns `UniqueItem`, so every `With*` result has a null unique item, and `WithUniqueItem(x)` and `WithSnapshotItemsAndFilters(..., uniqueItem: x, ...)` drop `x` | any model and any non-null item `x`: `WithUniqueItem(m, x).UniqueItem` is null | the constructor stores `uniqueItem`, as the documentation of `WithUniqueItem` (lines 289-292) says | not executed | CompletionModel.UniqueItemIsDropped | CompletionModel.WithUniqueItemIntended |
