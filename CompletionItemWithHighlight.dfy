/**
 * A completion item together with the spans of its display text to
 * highlight: an immutable struct with validating constructors.
 */
module CompletionItemWithHighlight {
  import opened Common

  datatype CompletionItemWithHighlight = CompletionItemWithHighlight(
    completionItem: CompletionItem,
    highlightedSpans: ImmutableArray<Span>)

  /**
   * The two-argument constructor: a null item throws `ArgumentNullException`
   * (checked first), an uninitialized span array `ArgumentException`.
   */
  function Create(completionItem: Option<CompletionItem>, highlightedSpans: ImmutableArray<Span>)
    : (r: Result<CompletionItemWithHighlight, Exception>)
    ensures completionItem.None? ==> r == Failure(ArgumentNull("completionItem"))
    ensures completionItem.Some? && highlightedSpans.DefaultArray? ==> r == Failure(Argument("highlightedSpans"))
    ensures r.Success? <==> completionItem.Some? && highlightedSpans.Array?
    ensures r.Success? ==> r.value.completionItem == completionItem.value && r.value.highlightedSpans == highlightedSpans
  {
    match completionItem
    case None => Failure(ArgumentNull("completionItem"))
    case Some(item) =>
      if highlightedSpans.DefaultArray? then Failure(Argument("highlightedSpans"))
      else Success(CompletionItemWithHighlight(item, highlightedSpans))
  }

  /** The one-argument constructor: no highlighting, the shared empty span array. */
  function CreateUnhighlighted(completionItem: Option<CompletionItem>)
    : (r: Result<CompletionItemWithHighlight, Exception>)
    ensures r.Failure? <==> completionItem.None?
    ensures completionItem.None? ==> r == Failure(ArgumentNull("completionItem"))
    ensures r.Success? ==> r.value.completionItem == completionItem.value
    ensures r.Success? ==> r.value.highlightedSpans.Array? && r.value.highlightedSpans.elements == []
  {
    Create(completionItem, EmptyArray())
  }

  /** `IEquatable.Equals`: the same item and the same span array. */
  predicate Equals(a: CompletionItemWithHighlight, b: CompletionItemWithHighlight)
  {
    a.completionItem == b.completionItem && SameArray(a.highlightedSpans, b.highlightedSpans)
  }

  /** `Equals` is an equivalence relation. */
  lemma EqualsIsEquivalence(a: CompletionItemWithHighlight, b: CompletionItemWithHighlight, c: CompletionItemWithHighlight)
    ensures Equals(a, a)
    ensures Equals(a, b) ==> Equals(b, a)
    ensures Equals(a, b) && Equals(b, c) ==> Equals(a, c)
  {
  }

  /**
   * An unhighlighted wrapper equals a highlighted one exactly when both wrap
   * the same item and the highlighted one was given the shared
   * `ImmutableArray.Empty` itself: another empty array is not enough.
   */
  lemma UnhighlightedEqualsOnlySharedEmpty(item: CompletionItem, other: CompletionItem, spans: ImmutableArray<Span>)
    requires spans.Array?
    ensures CreateUnhighlighted(Some(item)).Success? && Create(Some(other), spans).Success?
    ensures Equals(CreateUnhighlighted(Some(item)).value, Create(Some(other), spans).value)
            <==> item == other && spans.backing == EmptyBacking
  {
  }

  /** Equality compares span arrays by reference: equal spans in two arrays do not make equal wrappers. */
  lemma EqualsIsByReference(item: CompletionItem, spans: seq<Span>, x: Handle, y: Handle)
    requires x != y
    ensures !Equals(CompletionItemWithHighlight(item, Array(x, spans)), CompletionItemWithHighlight(item, Array(y, spans)))
  {
  }
}
