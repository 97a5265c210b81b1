/**
 * The internal source that only supplies the suggestion-mode item's
 * tooltip: it has no completion context and never claims an applicable
 * span.
 */
module SuggestionModeSource {
  import opened Common

  /** `SuggestionItemOptions`: the display text and tooltip of the suggestion item. */
  datatype SuggestionItemOptions = SuggestionItemOptions(displayTextSuggestion: string, toolTipText: string)

  datatype SuggestionModeCompletionItemSource = SuggestionModeCompletionItemSource(options: SuggestionItemOptions)

  /** The constructor rejects null options. */
  function Create(options: Option<SuggestionItemOptions>): (r: Result<SuggestionModeCompletionItemSource, Exception>)
    ensures r.Failure? <==> options.None?
    ensures r.Failure? ==> r.error == ArgumentNull("options")
    ensures r.Success? ==> r.value.options == options.value
  {
    match options
    case None => Failure(ArgumentNull("options"))
    case Some(o) => Success(SuggestionModeCompletionItemSource(o))
  }

  /** `GetCompletionContextAsync` always throws. */
  function GetCompletionContext(source: SuggestionModeCompletionItemSource, triggerLocation: Handle,
                                applicableSpan: SnapshotSpan): (r: Result<Handle, Exception>)
    ensures r == Failure(NotImplemented)
  {
    Failure(NotImplemented)
  }

  /** `GetDescriptionAsync` returns the tooltip for any item. */
  function GetDescription(source: SuggestionModeCompletionItemSource, item: CompletionItem): (r: string)
    ensures r == source.options.toolTipText
  {
    source.options.toolTipText
  }

  /** `TryGetApplicableSpan` always answers false with the default span. */
  function TryGetApplicableSpan(source: SuggestionModeCompletionItemSource, typeChar: char,
                                triggerLocation: Handle): (r: (bool, SnapshotSpan))
    ensures !r.0 && r.1 == DefaultSpan
  {
    (false, DefaultSpan)
  }
}
