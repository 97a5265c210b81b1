/**
 * The immutable completion model: every `With*` member returns a copy
 * built by the private constructor, with the named fields replaced and
 * the selection coupling rules applied.
 */
module CompletionModel {
  import opened Common
  import opened CompletionItemWithHighlight

  /** A filter together with whether it is available and whether it is selected. */
  datatype FilterWithState = FilterWithState(filter: Handle, isAvailable: bool, isSelected: bool)

  /** The reason the session was triggered; the model only stores it. */
  type TriggerReason = Handle

  datatype CompletionModel = CompletionModel(
    initialItems: ImmutableArray<CompletionItem>,
    sortedItems: ImmutableArray<CompletionItem>,
    applicableSpan: Handle,
    snapshot: Handle,
    initialTriggerReason: TriggerReason,
    filters: ImmutableArray<FilterWithState>,
    presentedItems: ImmutableArray<CompletionItemWithHighlight>,
    selectedIndex: int,
    useSoftSelection: bool,
    displaySuggestionMode: bool,
    selectSuggestionMode: bool,
    suggestionModeItem: Option<CompletionItem>,
    suggestionModeDescription: string,
    uniqueItem: Option<CompletionItem>,
    applicableSpanWasEmpty: bool)

  /**
   * The public constructor for the initial model. It selects the first item,
   * shows and selects suggestion mode exactly when suggestion mode is used,
   * has no unique item, and never assigns `PresentedItems`, which therefore
   * is the uninitialized array.
   */
  function Initial(initialItems: ImmutableArray<CompletionItem>, sortedItems: ImmutableArray<CompletionItem>,
                   applicableSpan: Handle, initialTriggerReason: TriggerReason, snapshot: Handle,
                   filters: ImmutableArray<FilterWithState>, useSoftSelection: bool, useSuggestionMode: bool,
                   suggestionModeDescription: string, suggestionModeItem: Option<CompletionItem>): (m: CompletionModel)
    ensures m.selectedIndex == 0
    ensures m.displaySuggestionMode == useSuggestionMode && m.selectSuggestionMode == useSuggestionMode
    ensures m.uniqueItem == None && !m.applicableSpanWasEmpty
    ensures m.presentedItems == DefaultArray
    ensures m.initialItems == initialItems && m.sortedItems == sortedItems && m.applicableSpan == applicableSpan
    ensures m.initialTriggerReason == initialTriggerReason && m.snapshot == snapshot && m.filters == filters
    ensures m.useSoftSelection == useSoftSelection
    ensures m.suggestionModeDescription == suggestionModeDescription && m.suggestionModeItem == suggestionModeItem
  {
    CompletionModel(initialItems, sortedItems, applicableSpan, snapshot, initialTriggerReason, filters,
                    DefaultArray, 0, useSoftSelection, useSuggestionMode, useSuggestionMode,
                    suggestionModeItem, suggestionModeDescription, None, false)
  }

  /**
   * The private constructor as written: it stores every argument except
   * `uniqueItem`, which it never assigns, so the field keeps its default null.
   */
  function Rebuild(initialItems: ImmutableArray<CompletionItem>, sortedItems: ImmutableArray<CompletionItem>,
                   applicableSpan: Handle, initialTriggerReason: TriggerReason, snapshot: Handle,
                   filters: ImmutableArray<FilterWithState>, presentedItems: ImmutableArray<CompletionItemWithHighlight>,
                   useSoftSelection: bool, useSuggestionMode: bool, suggestionModeDescription: string,
                   selectedIndex: int, selectSuggestionMode: bool, suggestionModeItem: Option<CompletionItem>,
                   uniqueItem: Option<CompletionItem>, applicableSpanWasEmpty: bool): (m: CompletionModel)
    ensures m.uniqueItem == None
    ensures m == RebuildIntended(initialItems, sortedItems, applicableSpan, initialTriggerReason, snapshot, filters,
                                 presentedItems, useSoftSelection, useSuggestionMode, suggestionModeDescription,
                                 selectedIndex, selectSuggestionMode, suggestionModeItem, None, applicableSpanWasEmpty)
  {
    CompletionModel(initialItems, sortedItems, applicableSpan, snapshot, initialTriggerReason, filters,
                    presentedItems, selectedIndex, useSoftSelection, useSuggestionMode, selectSuggestionMode,
                    suggestionModeItem, suggestionModeDescription, None, applicableSpanWasEmpty)
  }

  /** The private constructor as its callers expect it: every argument is stored, `uniqueItem` included. */
  function RebuildIntended(initialItems: ImmutableArray<CompletionItem>, sortedItems: ImmutableArray<CompletionItem>,
                           applicableSpan: Handle, initialTriggerReason: TriggerReason, snapshot: Handle,
                           filters: ImmutableArray<FilterWithState>, presentedItems: ImmutableArray<CompletionItemWithHighlight>,
                           useSoftSelection: bool, useSuggestionMode: bool, suggestionModeDescription: string,
                           selectedIndex: int, selectSuggestionMode: bool, suggestionModeItem: Option<CompletionItem>,
                           uniqueItem: Option<CompletionItem>, applicableSpanWasEmpty: bool): (m: CompletionModel)
    ensures m.initialItems == initialItems && m.sortedItems == sortedItems && m.applicableSpan == applicableSpan
    ensures m.initialTriggerReason == initialTriggerReason && m.snapshot == snapshot && m.filters == filters
    ensures m.presentedItems == presentedItems && m.useSoftSelection == useSoftSelection
    ensures m.displaySuggestionMode == useSuggestionMode && m.suggestionModeDescription == suggestionModeDescription
    ensures m.selectedIndex == selectedIndex && m.selectSuggestionMode == selectSuggestionMode
    ensures m.suggestionModeItem == suggestionModeItem && m.uniqueItem == uniqueItem
    ensures m.applicableSpanWasEmpty == applicableSpanWasEmpty
  {
    CompletionModel(initialItems, sortedItems, applicableSpan, snapshot, initialTriggerReason, filters,
                    presentedItems, selectedIndex, useSoftSelection, useSuggestionMode, selectSuggestionMode,
                    suggestionModeItem, suggestionModeDescription, uniqueItem, applicableSpanWasEmpty)
  }

  /** Rebuilding a model from its own fields gives it back, unique item aside. */
  lemma RebuildFromFieldsLosesOnlyUniqueItem(m: CompletionModel)
    ensures Rebuild(m.initialItems, m.sortedItems, m.applicableSpan, m.initialTriggerReason, m.snapshot, m.filters,
                    m.presentedItems, m.useSoftSelection, m.displaySuggestionMode, m.suggestionModeDescription,
                    m.selectedIndex, m.selectSuggestionMode, m.suggestionModeItem, m.uniqueItem,
                    m.applicableSpanWasEmpty) == m.(uniqueItem := None)
  {
  }

  function WithPresentedItems(m: CompletionModel, newPresentedItems: ImmutableArray<CompletionItemWithHighlight>,
                              newSelectedIndex: int): (r: CompletionModel)
    ensures r == m.(presentedItems := newPresentedItems, selectedIndex := newSelectedIndex, uniqueItem := None)
  {
    Rebuild(initialItems := m.initialItems, sortedItems := m.sortedItems, applicableSpan := m.applicableSpan,
            initialTriggerReason := m.initialTriggerReason, snapshot := m.snapshot, filters := m.filters,
            presentedItems := newPresentedItems, useSoftSelection := m.useSoftSelection,
            useSuggestionMode := m.displaySuggestionMode, suggestionModeDescription := m.suggestionModeDescription,
            selectedIndex := newSelectedIndex, selectSuggestionMode := m.selectSuggestionMode,
            suggestionModeItem := m.suggestionModeItem, uniqueItem := m.uniqueItem,
            applicableSpanWasEmpty := m.applicableSpanWasEmpty)
  }

  function WithSnapshot(m: CompletionModel, newSnapshot: Handle): (r: CompletionModel)
    ensures r == m.(snapshot := newSnapshot, uniqueItem := None)
  {
    Rebuild(initialItems := m.initialItems, sortedItems := m.sortedItems, applicableSpan := m.applicableSpan,
            initialTriggerReason := m.initialTriggerReason, snapshot := newSnapshot, filters := m.filters,
            presentedItems := m.presentedItems, useSoftSelection := m.useSoftSelection,
            useSuggestionMode := m.displaySuggestionMode, suggestionModeDescription := m.suggestionModeDescription,
            selectedIndex := m.selectedIndex, selectSuggestionMode := m.selectSuggestionMode,
            suggestionModeItem := m.suggestionModeItem, uniqueItem := m.uniqueItem,
            applicableSpanWasEmpty := m.applicableSpanWasEmpty)
  }

  function WithFilters(m: CompletionModel, newFilters: ImmutableArray<FilterWithState>): (r: CompletionModel)
    ensures r == m.(filters := newFilters, uniqueItem := None)
  {
    Rebuild(initialItems := m.initialItems, sortedItems := m.sortedItems, applicableSpan := m.applicableSpan,
            initialTriggerReason := m.initialTriggerReason, snapshot := m.snapshot, filters := newFilters,
            presentedItems := m.presentedItems, useSoftSelection := m.useSoftSelection,
            useSuggestionMode := m.displaySuggestionMode, suggestionModeDescription := m.suggestionModeDescription,
            selectedIndex := m.selectedIndex, selectSuggestionMode := m.selectSuggestionMode,
            suggestionModeItem := m.suggestionModeItem, uniqueItem := m.uniqueItem,
            applicableSpanWasEmpty := m.applicableSpanWasEmpty)
  }

  /** Explicit selection of a regular item: soft selection and suggestion-item selection are cleared. */
  function WithSelectedIndex(m: CompletionModel, newIndex: int): (r: CompletionModel)
    ensures r.selectedIndex == newIndex && !r.useSoftSelection && !r.selectSuggestionMode
    ensures r == m.(selectedIndex := newIndex, useSoftSelection := false, selectSuggestionMode := false,
                    uniqueItem := None)
  {
    Rebuild(initialItems := m.initialItems, sortedItems := m.sortedItems, applicableSpan := m.applicableSpan,
            initialTriggerReason := m.initialTriggerReason, snapshot := m.snapshot, filters := m.filters,
            presentedItems := m.presentedItems, useSoftSelection := false,
            useSuggestionMode := m.displaySuggestionMode, suggestionModeDescription := m.suggestionModeDescription,
            selectedIndex := newIndex, selectSuggestionMode := false,
            suggestionModeItem := m.suggestionModeItem, uniqueItem := m.uniqueItem,
            applicableSpanWasEmpty := m.applicableSpanWasEmpty)
  }

  /** Explicit selection of the suggestion item: no regular item is selected and soft selection is cleared. */
  function WithSuggestionItemSelected(m: CompletionModel): (r: CompletionModel)
    ensures r.selectedIndex == -1 && r.selectSuggestionMode && !r.useSoftSelection
    ensures r == m.(selectedIndex := -1, selectSuggestionMode := true, useSoftSelection := false,
                    uniqueItem := None)
  {
    Rebuild(initialItems := m.initialItems, sortedItems := m.sortedItems, applicableSpan := m.applicableSpan,
            initialTriggerReason := m.initialTriggerReason, snapshot := m.snapshot, filters := m.filters,
            presentedItems := m.presentedItems, useSoftSelection := false,
            useSuggestionMode := m.displaySuggestionMode, suggestionModeDescription := m.suggestionModeDescription,
            selectedIndex := -1, selectSuggestionMode := true,
            suggestionModeItem := m.suggestionModeItem, uniqueItem := m.uniqueItem,
            applicableSpanWasEmpty := m.applicableSpanWasEmpty)
  }

  /**
   * Showing or hiding suggestion mode. Enabling it also enables soft selection;
   * no call clears soft selection.
   */
  function WithSuggestionModeActive(m: CompletionModel, newUseSuggestionMode: bool): (r: CompletionModel)
    ensures r.displaySuggestionMode == newUseSuggestionMode
    ensures newUseSuggestionMode ==> r.useSoftSelection
    ensures m.useSoftSelection ==> r.useSoftSelection
    ensures r.useSoftSelection ==> m.useSoftSelection || newUseSuggestionMode
    ensures r == m.(displaySuggestionMode := newUseSuggestionMode,
                    useSoftSelection := m.useSoftSelection || newUseSuggestionMode, uniqueItem := None)
  {
    Rebuild(initialItems := m.initialItems, sortedItems := m.sortedItems, applicableSpan := m.applicableSpan,
            initialTriggerReason := m.initialTriggerReason, snapshot := m.snapshot, filters := m.filters,
            presentedItems := m.presentedItems, useSoftSelection := m.useSoftSelection || newUseSuggestionMode,
            useSuggestionMode := newUseSuggestionMode, suggestionModeDescription := m.suggestionModeDescription,
            selectedIndex := m.selectedIndex, selectSuggestionMode := m.selectSuggestionMode,
            suggestionModeItem := m.suggestionModeItem, uniqueItem := m.uniqueItem,
            applicableSpanWasEmpty := m.applicableSpanWasEmpty)
  }

  /** A null suggestion-mode item is allowed: the UI then shows the description. */
  function WithSuggestionModeItem(m: CompletionModel, newSuggestionModeItem: Option<CompletionItem>): (r: CompletionModel)
    ensures r == m.(suggestionModeItem := newSuggestionModeItem, uniqueItem := None)
  {
    Rebuild(initialItems := m.initialItems, sortedItems := m.sortedItems, applicableSpan := m.applicableSpan,
            initialTriggerReason := m.initialTriggerReason, snapshot := m.snapshot, filters := m.filters,
            presentedItems := m.presentedItems, useSoftSelection := m.useSoftSelection,
            useSuggestionMode := m.displaySuggestionMode, suggestionModeDescription := m.suggestionModeDescription,
            selectedIndex := m.selectedIndex, selectSuggestionMode := m.selectSuggestionMode,
            suggestionModeItem := newSuggestionModeItem, uniqueItem := m.uniqueItem,
            applicableSpanWasEmpty := m.applicableSpanWasEmpty)
  }

  /** As written: the new unique item is passed to the private constructor, which drops it. */
  function WithUniqueItem(m: CompletionModel, newUniqueItem: Option<CompletionItem>): (r: CompletionModel)
    ensures r == m.(uniqueItem := None)
  {
    Rebuild(initialItems := m.initialItems, sortedItems := m.sortedItems, applicableSpan := m.applicableSpan,
            initialTriggerReason := m.initialTriggerReason, snapshot := m.snapshot, filters := m.filters,
            presentedItems := m.presentedItems, useSoftSelection := m.useSoftSelection,
            useSuggestionMode := m.displaySuggestionMode, suggestionModeDescription := m.suggestionModeDescription,
            selectedIndex := m.selectedIndex, selectSuggestionMode := m.selectSuggestionMode,
            suggestionModeItem := m.suggestionModeItem, uniqueItem := newUniqueItem,
            applicableSpanWasEmpty := m.applicableSpanWasEmpty)
  }

  function WithSoftSelection(m: CompletionModel, newSoftSelection: bool): (r: CompletionModel)
    ensures r == m.(useSoftSelection := newSoftSelection, uniqueItem := None)
  {
    Rebuild(initialItems := m.initialItems, sortedItems := m.sortedItems, applicableSpan := m.applicableSpan,
            initialTriggerReason := m.initialTriggerReason, snapshot := m.snapshot, filters := m.filters,
            presentedItems := m.presentedItems, useSoftSelection := newSoftSelection,
            useSuggestionMode := m.displaySuggestionMode, suggestionModeDescription := m.suggestionModeDescription,
            selectedIndex := m.selectedIndex, selectSuggestionMode := m.selectSuggestionMode,
            suggestionModeItem := m.suggestionModeItem, uniqueItem := m.uniqueItem,
            applicableSpanWasEmpty := m.applicableSpanWasEmpty)
  }

  /** As written: snapshot, presented items, selected index, suggestion item and filters are replaced; the unique item is dropped. */
  function WithSnapshotItemsAndFilters(m: CompletionModel, snapshot: Handle,
                                       presentedItems: ImmutableArray<CompletionItemWithHighlight>, selectedIndex: int,
                                       uniqueItem: Option<CompletionItem>, suggestionModeItem: Option<CompletionItem>,
                                       filters: ImmutableArray<FilterWithState>): (r: CompletionModel)
    ensures r == m.(snapshot := snapshot, presentedItems := presentedItems, selectedIndex := selectedIndex,
                    suggestionModeItem := suggestionModeItem, filters := filters, uniqueItem := None)
  {
    Rebuild(initialItems := m.initialItems, sortedItems := m.sortedItems, applicableSpan := m.applicableSpan,
            initialTriggerReason := m.initialTriggerReason, snapshot := snapshot, filters := filters,
            presentedItems := presentedItems, useSoftSelection := m.useSoftSelection,
            useSuggestionMode := m.displaySuggestionMode, suggestionModeDescription := m.suggestionModeDescription,
            selectedIndex := selectedIndex, selectSuggestionMode := m.selectSuggestionMode,
            suggestionModeItem := suggestionModeItem, uniqueItem := uniqueItem,
            applicableSpanWasEmpty := m.applicableSpanWasEmpty)
  }

  function WithApplicableSpanEmptyRecord(m: CompletionModel, applicableSpanIsEmpty: bool): (r: CompletionModel)
    ensures r == m.(applicableSpanWasEmpty := applicableSpanIsEmpty, uniqueItem := None)
  {
    Rebuild(initialItems := m.initialItems, sortedItems := m.sortedItems, applicableSpan := m.applicableSpan,
            initialTriggerReason := m.initialTriggerReason, snapshot := m.snapshot, filters := m.filters,
            presentedItems := m.presentedItems, useSoftSelection := m.useSoftSelection,
            useSuggestionMode := m.displaySuggestionMode, suggestionModeDescription := m.suggestionModeDescription,
            selectedIndex := m.selectedIndex, selectSuggestionMode := m.selectSuggestionMode,
            suggestionModeItem := m.suggestionModeItem, uniqueItem := m.uniqueItem,
            applicableSpanWasEmpty := applicableSpanIsEmpty)
  }

  /** The discrepancy: a non-null unique item handed to `WithUniqueItem` is not the model's unique item. */
  lemma UniqueItemIsDropped(m: CompletionModel, item: CompletionItem)
    ensures WithUniqueItem(m, Some(item)).uniqueItem != Some(item)
    ensures WithSnapshotItemsAndFilters(m, m.snapshot, m.presentedItems, m.selectedIndex, Some(item),
                                        m.suggestionModeItem, m.filters).uniqueItem != Some(item)
  {
  }

  /** `WithUniqueItem` as documented: the override is stored and nothing else changes. */
  function WithUniqueItemIntended(m: CompletionModel, newUniqueItem: Option<CompletionItem>): (r: CompletionModel)
    ensures r.uniqueItem == newUniqueItem
    ensures r.(uniqueItem := m.uniqueItem) == m
  {
    RebuildIntended(initialItems := m.initialItems, sortedItems := m.sortedItems, applicableSpan := m.applicableSpan,
                    initialTriggerReason := m.initialTriggerReason, snapshot := m.snapshot, filters := m.filters,
                    presentedItems := m.presentedItems, useSoftSelection := m.useSoftSelection,
                    useSuggestionMode := m.displaySuggestionMode, suggestionModeDescription := m.suggestionModeDescription,
                    selectedIndex := m.selectedIndex, selectSuggestionMode := m.selectSuggestionMode,
                    suggestionModeItem := m.suggestionModeItem, uniqueItem := newUniqueItem,
                    applicableSpanWasEmpty := m.applicableSpanWasEmpty)
  }

  /** `WithSnapshotItemsAndFilters` as intended: all six arguments are stored, the unique item included. */
  function WithSnapshotItemsAndFiltersIntended(m: CompletionModel, snapshot: Handle,
                                               presentedItems: ImmutableArray<CompletionItemWithHighlight>,
                                               selectedIndex: int, uniqueItem: Option<CompletionItem>,
                                               suggestionModeItem: Option<CompletionItem>,
                                               filters: ImmutableArray<FilterWithState>): (r: CompletionModel)
    ensures r.uniqueItem == uniqueItem
    ensures r == m.(snapshot := snapshot, presentedItems := presentedItems, selectedIndex := selectedIndex,
                    suggestionModeItem := suggestionModeItem, filters := filters, uniqueItem := uniqueItem)
  {
    RebuildIntended(initialItems := m.initialItems, sortedItems := m.sortedItems, applicableSpan := m.applicableSpan,
                    initialTriggerReason := m.initialTriggerReason, snapshot := snapshot, filters := filters,
                    presentedItems := presentedItems, useSoftSelection := m.useSoftSelection,
                    useSuggestionMode := m.displaySuggestionMode, suggestionModeDescription := m.suggestionModeDescription,
                    selectedIndex := selectedIndex, selectSuggestionMode := m.selectSuggestionMode,
                    suggestionModeItem := suggestionModeItem, uniqueItem := uniqueItem,
                    applicableSpanWasEmpty := m.applicableSpanWasEmpty)
  }

  /**
   * With the corrected constructor, setting a unique item and then setting
   * the old one back returns the original model, and the intended update
   * agrees with the written one on every other field.
   */
  lemma UniqueItemIntendedRoundTrip(m: CompletionModel, u: Option<CompletionItem>)
    ensures WithUniqueItemIntended(WithUniqueItemIntended(m, u), m.uniqueItem) == m
    ensures WithUniqueItemIntended(m, u).(uniqueItem := None) == WithUniqueItem(m, u)
  {
  }

  /** One `With*` call, as a value, so that sequences of updates can be stated. */
  datatype Update =
    | PresentedItems(items: ImmutableArray<CompletionItemWithHighlight>, index: int)
    | Snapshot(snapshot: Handle)
    | Filters(filters: ImmutableArray<FilterWithState>)
    | SelectedIndex(index: int)
    | SuggestionItemSelected
    | SuggestionModeActive(active: bool)
    | SuggestionModeItem(item: Option<CompletionItem>)
    | UniqueItem(item: Option<CompletionItem>)
    | SoftSelection(soft: bool)
    | SnapshotItemsAndFilters(snapshot: Handle, items: ImmutableArray<CompletionItemWithHighlight>, index: int,
                              unique: Option<CompletionItem>, item: Option<CompletionItem>,
                              filters: ImmutableArray<FilterWithState>)
    | ApplicableSpanEmptyRecord(empty: bool)

  /** The `With*` call that `u` stands for. */
  function Apply(m: CompletionModel, u: Update): CompletionModel
  {
    match u
    case PresentedItems(items, index) => WithPresentedItems(m, items, index)
    case Snapshot(h) => WithSnapshot(m, h)
    case Filters(f) => WithFilters(m, f)
    case SelectedIndex(i) => WithSelectedIndex(m, i)
    case SuggestionItemSelected => WithSuggestionItemSelected(m)
    case SuggestionModeActive(b) => WithSuggestionModeActive(m, b)
    case SuggestionModeItem(x) => WithSuggestionModeItem(m, x)
    case UniqueItem(x) => WithUniqueItem(m, x)
    case SoftSelection(b) => WithSoftSelection(m, b)
    case SnapshotItemsAndFilters(h, items, i, x, y, f) => WithSnapshotItemsAndFilters(m, h, items, i, x, y, f)
    case ApplicableSpanEmptyRecord(b) => WithApplicableSpanEmptyRecord(m, b)
  }

  /** The updates of `us` applied in order, as a chain of `With*` calls. */
  function ApplyAll(m: CompletionModel, us: seq<Update>): CompletionModel
    decreases |us|
  {
    if us == [] then m else ApplyAll(Apply(m, us[0]), us[1..])
  }

  /** The updates that set the selection explicitly. */
  predicate SetsSelection(u: Update)
  {
    u.SelectedIndex? || u.SuggestionItemSelected? || u.SoftSelection?
  }

  /** One update and soft selection: what it sets, enables or keeps. */
  lemma ApplySoftSelection(m: CompletionModel, u: Update)
    ensures u.SelectedIndex? || u.SuggestionItemSelected? ==> !Apply(m, u).useSoftSelection
    ensures u.SoftSelection? ==> Apply(m, u).useSoftSelection == u.soft
    ensures !SetsSelection(u) ==>
              (Apply(m, u).useSoftSelection <==> m.useSoftSelection || u == SuggestionModeActive(true))
  {
  }

  /**
   * Soft selection is sticky: without an update that sets the selection,
   * the selection is soft after the updates exactly when it was soft before
   * or some update enabled suggestion mode.
   */
  lemma {:induction false} SoftSelectionIsSticky(m: CompletionModel, us: seq<Update>)
    requires forall k :: 0 <= k < |us| ==> !SetsSelection(us[k])
    ensures ApplyAll(m, us).useSoftSelection <==>
              m.useSoftSelection || exists k :: 0 <= k < |us| && us[k] == SuggestionModeActive(true)
    decreases |us|
  {
    if us != [] {
      var rest := us[1..];
      assert forall k :: 0 <= k < |rest| ==> rest[k] == us[k + 1];
      ApplySoftSelection(m, us[0]);
      SoftSelectionIsSticky(Apply(m, us[0]), rest);
      if exists k :: 0 <= k < |rest| && rest[k] == SuggestionModeActive(true) {
        var k :| 0 <= k < |rest| && rest[k] == SuggestionModeActive(true);
        assert us[k + 1] == SuggestionModeActive(true);
      }
      if exists k :: 0 <= k < |us| && us[k] == SuggestionModeActive(true) {
        var k :| 0 <= k < |us| && us[k] == SuggestionModeActive(true);
        if k > 0 {
          assert rest[k - 1] == SuggestionModeActive(true);
        }
      }
    }
  }

  /**
   * An explicit choice of an item or of the suggestion item ends soft
   * selection for good, unless a later update turns it back on (by enabling
   * suggestion mode or setting soft selection).
   */
  lemma {:induction false} ExplicitSelectionIsNeverSoft(m: CompletionModel, us: seq<Update>, k: nat)
    requires k < |us| && (us[k].SelectedIndex? || us[k].SuggestionItemSelected?)
    requires forall j :: k < j < |us| ==> us[j] != SuggestionModeActive(true) && us[j] != SoftSelection(true)
    ensures !ApplyAll(m, us).useSoftSelection
    decreases |us|
  {
    var rest := us[1..];
    if k == 0 {
      assert forall j :: 0 <= j < |rest| ==> rest[j] == us[j + 1];
      ApplySoftSelection(m, us[0]);
      SoftSelectionStaysOff(Apply(m, us[0]), rest);
    } else {
      assert forall j :: k - 1 < j < |rest| ==> rest[j] == us[j + 1];
      ExplicitSelectionIsNeverSoft(Apply(m, us[0]), rest, k - 1);
    }
  }

  /** Without an update that turns soft selection on, it stays off. */
  lemma {:induction false} SoftSelectionStaysOff(m: CompletionModel, us: seq<Update>)
    requires !m.useSoftSelection
    requires forall j :: 0 <= j < |us| ==> us[j] != SuggestionModeActive(true) && us[j] != SoftSelection(true)
    ensures !ApplyAll(m, us).useSoftSelection
    decreases |us|
  {
    if us != [] {
      var rest := us[1..];
      assert forall j :: 0 <= j < |rest| ==> rest[j] == us[j + 1];
      ApplySoftSelection(m, us[0]);
      SoftSelectionStaysOff(Apply(m, us[0]), rest);
    }
  }

  /**
   * As written, any non-empty chain of `With*` calls ends with a null unique
   * item, whatever the model held and whatever unique item was passed.
   */
  lemma {:induction false} UpdatesDropUniqueItem(m: CompletionModel, us: seq<Update>)
    requires us != []
    ensures ApplyAll(m, us).uniqueItem.None?
    decreases |us|
  {
    if |us| > 1 {
      UpdatesDropUniqueItem(Apply(m, us[0]), us[1..]);
    }
  }
}
