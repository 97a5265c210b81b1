/**
 * Values shared by the completion modules: the usual Option and Result
 * wrappers, the exceptions the core throws, and the editor types that the
 * core only passes around (object references, spans, immutable arrays and
 * content types).
 */
module Common {

  datatype Option<+T> = None | Some(value: T)

  datatype Result<+R, +E> = Success(value: R) | Failure(error: E)

  /** The .NET exceptions raised by the modelled code. */
  datatype Exception =
    | InvalidOperation
    | ArgumentNull(paramName: string)
    | Argument(paramName: string)
    | NotImplemented
    | Aggregate

  /** An editor object compared by reference: equal handles mean the same object. */
  type Handle = nat

  /** A completion item; the core compares items by reference. */
  datatype CompletionItem = CompletionItem(handle: Handle)

  /** A span of characters inside an item's display text. */
  datatype Span = Span(start: nat, length: nat)

  /** A span on a text snapshot; `DefaultSpan` is `default(SnapshotSpan)`. */
  datatype SnapshotSpan = DefaultSpan | SnapshotSpan(snapshot: Handle, start: nat, length: nat)

  /**
   * `ImmutableArray<T>`: a struct around a backing array. `DefaultArray` is the
   * uninitialized value (`IsDefault`); two arrays are `Equals` exactly when they
   * share the backing array.
   */
  datatype ImmutableArray<T> = DefaultArray | Array(backing: Handle, elements: seq<T>)

  /** `ImmutableArray<T>.Empty` is one shared instance. */
  const EmptyBacking: Handle := 0

  function EmptyArray<T>(): (a: ImmutableArray<T>)
    ensures a.Array? && a.elements == []
  {
    Array(EmptyBacking, [])
  }

  /** `ImmutableArray<T>.Equals(other)`: reference equality of the backing arrays. */
  predicate SameArray<T>(a: ImmutableArray<T>, b: ImmutableArray<T>)
  {
    match (a, b)
    case (DefaultArray, DefaultArray) => true
    case (Array(x, _), Array(y, _)) => x == y
    case _ => false
  }

  /**
   * A content type with the names of all its (transitive) base types;
   * `IsOfType` is the registry's subtype test.
   */
  datatype ContentType = ContentType(typeName: string, baseTypes: set<string>)

  predicate IsOfType(ct: ContentType, typeName: string)
  {
    typeName == ct.typeName || typeName in ct.baseTypes
  }
}
