/**
 * The completion broker: which MEF providers apply to a content type and
 * view, which sources and commit managers take part in a new session, the
 * per-content-type availability cache and the per-view session registry.
 *
 * Providers arrive already ordered (`Orderer.Order`); a provider import is
 * represented by its metadata, and instantiating an extension by the value
 * its `GetOrCreate` returns (None when it returned null or threw).
 */
module AsyncCompletionBroker {
  import opened Common

  /** `IOrderableContentTypeAndOptionalTextViewRoleMetadata`: content types and optional view roles. */
  datatype ProviderMetadata = ProviderMetadata(provider: Handle, contentTypes: seq<string>, textViewRoles: Option<set<string>>)

  /** `Metadata.ContentTypes.Any(c => contentType.IsOfType(c))`. */
  predicate MatchesContentType(ct: ContentType, md: ProviderMetadata)
  {
    exists c :: c in md.contentTypes && IsOfType(ct, c)
  }

  /** No declared roles, or the view has at least one of them (`ContainsAny`). */
  predicate MatchesRoles(roles: set<string>, md: ProviderMetadata)
  {
    md.textViewRoles.None? || exists r :: r in md.textViewRoles.value && r in roles
  }

  predicate Passes(ct: ContentType, roles: set<string>, md: ProviderMetadata)
  {
    MatchesContentType(ct, md) && MatchesRoles(roles, md)
  }

  /** The `Get*Providers` filter: `Where` over the ordered providers. */
  function FilterProviders(ordered: seq<ProviderMetadata>, ct: ContentType, roles: set<string>): (r: seq<ProviderMetadata>)
    ensures |r| <= |ordered|
    ensures forall p :: p in r <==> p in ordered && Passes(ct, roles, p)
    decreases |ordered|
  {
    if ordered == [] then []
    else
      assert ordered == [ordered[0]] + ordered[1..];
      (if Passes(ct, roles, ordered[0]) then [ordered[0]] else []) + FilterProviders(ordered[1..], ct, roles)
  }

  /** The filter keeps the providers' order: it distributes over concatenation. */
  lemma {:induction false} FilterPreservesOrder(a: seq<ProviderMetadata>, b: seq<ProviderMetadata>, ct: ContentType, roles: set<string>)
    ensures FilterProviders(a + b, ct, roles) == FilterProviders(a, ct, roles) + FilterProviders(b, ct, roles)
    decreases |a|
  {
    if a == [] {
      assert a + b == b;
    } else {
      assert (a + b)[0] == a[0];
      assert (a + b)[1..] == a[1..] + b;
      FilterPreservesOrder(a[1..], b, ct, roles);
    }
  }

  /** Filtering a filtered list changes nothing. */
  lemma {:induction false} FilterIsIdempotent(ordered: seq<ProviderMetadata>, ct: ContentType, roles: set<string>)
    ensures FilterProviders(FilterProviders(ordered, ct, roles), ct, roles) == FilterProviders(ordered, ct, roles)
    decreases |ordered|
  {
    if ordered != [] {
      var head := if Passes(ct, roles, ordered[0]) then [ordered[0]] else [];
      FilterPreservesOrder(head, FilterProviders(ordered[1..], ct, roles), ct, roles);
      FilterIsIdempotent(ordered[1..], ct, roles);
      if head != [] {
        assert head[1..] == [];
      }
    }
  }

  /**
   * What `IsCompletionSupported` computes: some source provider and some
   * item-manager provider declare a content type that `ct` is of. View roles
   * are not consulted.
   */
  predicate Supported(ct: ContentType, sourceProviders: seq<ProviderMetadata>, itemManagerProviders: seq<ProviderMetadata>)
  {
    && (exists p :: p in sourceProviders && MatchesContentType(ct, p))
    && (exists p :: p in itemManagerProviders && MatchesContentType(ct, p))
  }

  /** A view that finds both kinds of provider through the filters is on supported content. */
  lemma FilteredProvidersImplySupported(ct: ContentType, roles: set<string>,
                                        sourceProviders: seq<ProviderMetadata>, itemManagerProviders: seq<ProviderMetadata>)
    requires FilterProviders(sourceProviders, ct, roles) != []
    requires FilterProviders(itemManagerProviders, ct, roles) != []
    ensures Supported(ct, sourceProviders, itemManagerProviders)
  {
    var p := FilterProviders(sourceProviders, ct, roles)[0];
    var q := FilterProviders(itemManagerProviders, ct, roles)[0];
    assert p in FilterProviders(sourceProviders, ct, roles);
    assert q in FilterProviders(itemManagerProviders, ct, roles);
  }

  /** Without role restrictions, support is exactly having both filters non-empty. */
  lemma SupportedIsFilteredWithoutRoles(ct: ContentType, roles: set<string>,
                                        sourceProviders: seq<ProviderMetadata>, itemManagerProviders: seq<ProviderMetadata>)
    requires forall p :: p in sourceProviders ==> p.textViewRoles.None?
    requires forall p :: p in itemManagerProviders ==> p.textViewRoles.None?
    ensures Supported(ct, sourceProviders, itemManagerProviders)
            <==> FilterProviders(sourceProviders, ct, roles) != [] && FilterProviders(itemManagerProviders, ct, roles) != []
  {
    if Supported(ct, sourceProviders, itemManagerProviders) {
      var p :| p in sourceProviders && MatchesContentType(ct, p);
      var q :| q in itemManagerProviders && MatchesContentType(ct, q);
      assert p in FilterProviders(sourceProviders, ct, roles);
      assert q in FilterProviders(itemManagerProviders, ct, roles);
    } else if FilterProviders(sourceProviders, ct, roles) != [] && FilterProviders(itemManagerProviders, ct, roles) != [] {
      FilteredProvidersImplySupported(ct, roles, sourceProviders, itemManagerProviders);
    }
  }

  // ---------------------------------------------------------------------
  // Completion sources

  /**
   * A completion source and how it answers `TryGetApplicableToSpan`: the
   * returned flag and the span it writes to the out parameter. A call that
   * throws counts as returning false (`valueOnThrow: false`).
   */
  datatype Source = Source(handle: Handle, found: bool, writtenSpan: SnapshotSpan)

  /** One entry of `GetBuffersAndImports`: the trigger point in its buffer and the instantiated source. */
  datatype SourceImport = SourceImport(point: Handle, source: Option<Source>)

  /** The non-null sources, in order, with their trigger points. */
  function NonNullSources(imports: seq<SourceImport>): (r: seq<(Source, Handle)>)
    ensures |r| <= |imports|
    decreases |imports|
  {
    if imports == [] then []
    else (match imports[0].source
          case None => []
          case Some(s) => [(s, imports[0].point)]) + NonNullSources(imports[1..])
  }

  /**
   * `NonNullSources` collects exactly the non-null sources: each of them,
   * with its trigger point, and nothing that is not an import.
   */
  lemma {:induction false} NonNullSourcesMembers(imports: seq<SourceImport>)
    ensures forall i :: 0 <= i < |imports| && imports[i].source.Some? ==>
              (imports[i].source.value, imports[i].point) in NonNullSources(imports)
    ensures forall j :: 0 <= j < |NonNullSources(imports)| ==>
              SourceImport(NonNullSources(imports)[j].1, Some(NonNullSources(imports)[j].0)) in imports
    ensures (forall i :: 0 <= i < |imports| ==> imports[i].source.None?) <==> NonNullSources(imports) == []
    decreases |imports|
  {
    if imports != [] {
      var rest := imports[1..];
      NonNullSourcesMembers(rest);
      assert forall i :: 0 <= i < |rest| ==> rest[i] == imports[i + 1];
      assert forall x :: x in rest ==> x in imports;
    }
  }

  /** The sources are collected in import order: collection distributes over concatenation. */
  lemma {:induction false} SourceCollectionIsInOrder(a: seq<SourceImport>, b: seq<SourceImport>)
    ensures NonNullSources(a + b) == NonNullSources(a) + NonNullSources(b)
    decreases |a|
  {
    if a == [] {
      assert a + b == b;
    } else {
      assert (a + b)[0] == a[0];
      assert (a + b)[1..] == a[1..] + b;
      SourceCollectionIsInOrder(a[1..], b);
    }
  }

  predicate Finds(imp: SourceImport)
  {
    imp.source.Some? && imp.source.value.found
  }

  /** The index of the first non-null source whose answer is true. */
  function FirstFound(imports: seq<SourceImport>): (r: Option<nat>)
    ensures r.Some? ==> r.value < |imports| && Finds(imports[r.value])
    ensures r.Some? ==> forall j :: 0 <= j < r.value ==> !Finds(imports[j])
    ensures r.None? ==> forall j :: 0 <= j < |imports| ==> !Finds(imports[j])
    decreases |imports|
  {
    if imports == [] then None
    else if Finds(imports[0]) then Some(0)
    else match FirstFound(imports[1..])
      case None => None
      case Some(i) => Some(i + 1)
  }

  /** How far the loop queries spans: through the first finder, or through everything. */
  function QueryLimit(imports: seq<SourceImport>): nat
  {
    match FirstFound(imports)
    case None => |imports|
    case Some(i) => i + 1
  }

  /**
   * The `applicableToSpanExists` loop: a non-null source is queried only while
   * no span has been found, and every queried source writes the out span.
   */
  function SpanSearch(imports: seq<SourceImport>, exists_: bool, span: SnapshotSpan): (r: (bool, SnapshotSpan))
    decreases |imports|
  {
    if imports == [] then (exists_, span)
    else match imports[0].source
      case None => SpanSearch(imports[1..], exists_, span)
      case Some(s) =>
        if exists_ then SpanSearch(imports[1..], true, span)
        else SpanSearch(imports[1..], s.found, s.writtenSpan)
  }

  /** The sources whose `TryGetApplicableToSpan` the loop calls, in order. */
  function Queried(imports: seq<SourceImport>, exists_: bool): seq<(Source, Handle)>
    decreases |imports|
  {
    if imports == [] then []
    else match imports[0].source
      case None => Queried(imports[1..], exists_)
      case Some(s) =>
        if exists_ then Queried(imports[1..], true)
        else [(s, imports[0].point)] + Queried(imports[1..], s.found)
  }

  /** The span `GetCompletionSources` hands back: mapped to the edit buffer if one was found. */
  function ApplicableSpan(imports: seq<SourceImport>, mapToEditBuffer: SnapshotSpan -> SnapshotSpan): SnapshotSpan
  {
    var (found, span) := SpanSearch(imports, false, DefaultSpan);
    if found then mapToEditBuffer(span) else span
  }

  lemma {:induction false} FoundSpanIsFinal(imports: seq<SourceImport>, span: SnapshotSpan)
    ensures SpanSearch(imports, true, span) == (true, span)
    ensures Queried(imports, true) == []
    decreases |imports|
  {
    if imports != [] {
      FoundSpanIsFinal(imports[1..], span);
    }
  }

  /**
   * First span wins: a span is found exactly when some non-null source
   * answers true, the span used is the one the first such source wrote, and
   * no source after it is asked.
   */
  lemma {:induction false} FirstSpanWins(imports: seq<SourceImport>, span: SnapshotSpan)
    ensures SpanSearch(imports, false, span).0 <==> FirstFound(imports).Some?
    ensures FirstFound(imports).Some? ==>
              SpanSearch(imports, false, span).1 == imports[FirstFound(imports).value].source.value.writtenSpan
    ensures Queried(imports, false) == NonNullSources(imports[..QueryLimit(imports)])
    decreases |imports|
  {
    if imports != [] {
      var rest := imports[1..];
      FirstSpanWins(rest, span);
      assert imports[..QueryLimit(imports)][1..] == rest[..QueryLimit(imports) - 1];
      match imports[0].source {
        case None =>
        case Some(s) =>
          if s.found {
            FoundSpanIsFinal(rest, s.writtenSpan);
            assert imports[..1][1..] == [];
          } else {
            FirstSpanWins(rest, s.writtenSpan);
          }
      }
    }
  }

  /** Every non-null source in `imports` answers false and writes the default span. */
  predicate AllSilent(imports: seq<SourceImport>)
  {
    forall i :: 0 <= i < |imports| && imports[i].source.Some? ==>
      !imports[i].source.value.found && imports[i].source.value.writtenSpan == DefaultSpan
  }

  /** A span loop over sources that all answer false with the default span keeps the default span. */
  lemma {:induction false} SilentSourcesFindNothing(imports: seq<SourceImport>)
    requires AllSilent(imports)
    ensures SpanSearch(imports, false, DefaultSpan) == (false, DefaultSpan)
    decreases |imports|
  {
    if imports != [] {
      assert AllSilent(imports[1..]) by {
        forall i | 0 <= i < |imports[1..]|
          ensures imports[1..][i] == imports[i + 1]
        {
        }
      }
      SilentSourcesFindNothing(imports[1..]);
    }
  }

  /**
   * Such sources alone never yield an applicable span: the broker sees the
   * default span, and `TriggerCompletion` returns null.
   */
  lemma SilentSourcesNeverSupplySpan(imports: seq<SourceImport>, mapToEditBuffer: SnapshotSpan -> SnapshotSpan)
    requires AllSilent(imports)
    ensures ApplicableSpan(imports, mapToEditBuffer) == DefaultSpan
    ensures FirstFound(imports).None?
  {
    SilentSourcesFindNothing(imports);
    FirstSpanWins(imports, DefaultSpan);
  }

  /** One iteration of the source loop, as the specification functions `NonNullSources`, `SpanSearch` and `Queried` see it. */
  lemma SourcesStep(imports: seq<SourceImport>, i: nat, exists_: bool, span: SnapshotSpan)
    requires i < |imports|
    ensures imports[i].source.None? ==>
              && NonNullSources(imports[i..]) == NonNullSources(imports[i + 1..])
              && SpanSearch(imports[i..], exists_, span) == SpanSearch(imports[i + 1..], exists_, span)
              && Queried(imports[i..], exists_) == Queried(imports[i + 1..], exists_)
    ensures imports[i].source.Some? ==>
              var s := imports[i].source.value;
              && NonNullSources(imports[i..]) == [(s, imports[i].point)] + NonNullSources(imports[i + 1..])
              && (exists_ ==> SpanSearch(imports[i..], exists_, span) == SpanSearch(imports[i + 1..], true, span)
                              && Queried(imports[i..], exists_) == Queried(imports[i + 1..], true))
              && (!exists_ ==> SpanSearch(imports[i..], exists_, span) == SpanSearch(imports[i + 1..], s.found, s.writtenSpan)
                               && Queried(imports[i..], exists_) == [(s, imports[i].point)] + Queried(imports[i + 1..], s.found))
  {
    assert imports[i..][0] == imports[i];
    assert imports[i..][1..] == imports[i + 1..];
  }

  /** `GetCompletionSources`: every non-null source is collected; the span is the first one found. */
  method GetCompletionSources(imports: seq<SourceImport>, mapToEditBuffer: SnapshotSpan -> SnapshotSpan)
    returns (sourcesWithLocations: seq<(Source, Handle)>, applicableToSpan: SnapshotSpan, ghost queried: seq<(Source, Handle)>)
    ensures sourcesWithLocations == NonNullSources(imports)
    ensures applicableToSpan == ApplicableSpan(imports, mapToEditBuffer)
    ensures queried == Queried(imports, false)
  {
    var builder := [];
    var span := DefaultSpan;
    var exists_ := false;
    queried := [];
    var i := 0;
    while i < |imports|
      invariant 0 <= i <= |imports|
      invariant builder + NonNullSources(imports[i..]) == NonNullSources(imports)
      invariant SpanSearch(imports[i..], exists_, span) == SpanSearch(imports, false, DefaultSpan)
      invariant queried + Queried(imports[i..], exists_) == Queried(imports, false)
    {
      SourcesStep(imports, i, exists_, span);
      match imports[i].source {
        case None =>
        case Some(s) =>
          builder := builder + [(s, imports[i].point)];
          if !exists_ {
            queried := queried + [(s, imports[i].point)];
            span := s.writtenSpan;
            exists_ := s.found;
          }
      }
      i := i + 1;
    }
    assert imports[i..] == [];
    if exists_ {
      span := mapToEditBuffer(span);
    }
    sourcesWithLocations := builder;
    applicableToSpan := span;
  }

  // ---------------------------------------------------------------------
  // Commit managers

  /** A commit manager and its `PotentialCommitCharacters`; None when reading them throws. */
  datatype CommitManager = CommitManager(handle: Handle, potentialCommitCharacters: Option<seq<char>>)

  datatype CommitImport = CommitImport(buffer: Handle, manager: Option<CommitManager>)

  /** The non-null managers, in order, with their buffers. */
  function Managers(imports: seq<CommitImport>): (r: seq<(CommitManager, Handle)>)
    ensures |r| <= |imports|
    decreases |imports|
  {
    if imports == [] then []
    else (match imports[0].manager
          case None => []
          case Some(m) => [(m, imports[0].buffer)]) + Managers(imports[1..])
  }

  /**
   * `Managers` collects exactly the non-null managers: each of them, with
   * its buffer, and nothing that is not an import.
   */
  lemma {:induction false} ManagersMembers(imports: seq<CommitImport>)
    ensures forall i :: 0 <= i < |imports| && imports[i].manager.Some? ==>
              (imports[i].manager.value, imports[i].buffer) in Managers(imports)
    ensures forall j :: 0 <= j < |Managers(imports)| ==>
              CommitImport(Managers(imports)[j].1, Some(Managers(imports)[j].0)) in imports
    ensures (forall i :: 0 <= i < |imports| ==> imports[i].manager.None?) <==> Managers(imports) == []
    decreases |imports|
  {
    if imports != [] {
      var rest := imports[1..];
      ManagersMembers(rest);
      assert forall i :: 0 <= i < |rest| ==> rest[i] == imports[i + 1];
      assert forall x :: x in rest ==> x in imports;
    }
  }

  /** The characters of every non-null manager whose characters could be read, in order. */
  function CommitChars(imports: seq<CommitImport>): seq<char>
    decreases |imports|
  {
    if imports == [] then []
    else (match imports[0].manager
          case Some(CommitManager(_, Some(chars))) => chars
          case _ => []) + CommitChars(imports[1..])
  }

  /** Collection is compositional: in-order concatenation over any split of the imports. */
  lemma {:induction false} CommitCollectionIsInOrder(a: seq<CommitImport>, b: seq<CommitImport>)
    ensures CommitChars(a + b) == CommitChars(a) + CommitChars(b)
    ensures Managers(a + b) == Managers(a) + Managers(b)
  {
    CommitCharsDistribute(a, b);
    ManagersDistribute(a, b);
  }

  lemma {:induction false} CommitCharsDistribute(a: seq<CommitImport>, b: seq<CommitImport>)
    ensures CommitChars(a + b) == CommitChars(a) + CommitChars(b)
    decreases |a|
  {
    if a == [] {
      assert a + b == b;
    } else {
      assert (a + b)[0] == a[0];
      assert (a + b)[1..] == a[1..] + b;
      CommitCharsDistribute(a[1..], b);
    }
  }

  lemma {:induction false} ManagersDistribute(a: seq<CommitImport>, b: seq<CommitImport>)
    ensures Managers(a + b) == Managers(a) + Managers(b)
    decreases |a|
  {
    if a == [] {
      assert a + b == b;
    } else {
      assert (a + b)[0] == a[0];
      assert (a + b)[1..] == a[1..] + b;
      ManagersDistribute(a[1..], b);
    }
  }

  /** Null managers contribute neither a manager nor characters. */
  lemma NullManagersAreSkipped(a: seq<CommitImport>, b: seq<CommitImport>, buffer: Handle)
    ensures CommitChars(a + [CommitImport(buffer, None)] + b) == CommitChars(a + b)
    ensures Managers(a + [CommitImport(buffer, None)] + b) == Managers(a + b)
  {
    CommitCollectionIsInOrder(a + [CommitImport(buffer, None)], b);
    CommitCollectionIsInOrder(a, [CommitImport(buffer, None)]);
    CommitCollectionIsInOrder(a, b);
  }

  /**
   * `GetCommitManagersAndChars`. The out array is assigned only after a
   * non-null manager, so with none it stays `default` (None here).
   */
  method GetCommitManagersAndChars(imports: seq<CommitImport>)
    returns (managersWithBuffers: seq<(CommitManager, Handle)>, potentialCommitChars: Option<seq<char>>)
    ensures managersWithBuffers == Managers(imports)
    ensures potentialCommitChars == if managersWithBuffers == [] then None else Some(CommitChars(imports))
  {
    var builder := [];
    managersWithBuffers := [];
    potentialCommitChars := None;
    var i := 0;
    while i < |imports|
      invariant 0 <= i <= |imports|
      invariant managersWithBuffers + Managers(imports[i..]) == Managers(imports)
      invariant builder + CommitChars(imports[i..]) == CommitChars(imports)
      invariant potentialCommitChars == if managersWithBuffers == [] then None else Some(builder)
      invariant managersWithBuffers == [] ==> builder == []
    {
      assert imports[i..][1..] == imports[i + 1..];
      match imports[i].manager {
        case None =>
        case Some(m) =>
          if m.potentialCommitCharacters.Some? {
            builder := builder + m.potentialCommitCharacters.value;
          }
          managersWithBuffers := managersWithBuffers + [(m, imports[i].buffer)];
          potentialCommitChars := Some(builder);
      }
      i := i + 1;
    }
    assert imports[i..] == [];
    assert builder == CommitChars(imports);
    assert managersWithBuffers == Managers(imports);
  }

  // ---------------------------------------------------------------------
  // Item manager and presenter

  /**
   * `GetItemManager` over the ordered item-manager providers (each given by
   * what its `GetOrCreate` returns): none at all throws, otherwise the first
   * provider's manager is used, even if it is null.
   */
  function GetItemManager(orderedManagers: seq<Option<Handle>>): (r: Result<Option<Handle>, Exception>)
    ensures r.Failure? <==> orderedManagers == []
    ensures r.Failure? ==> r.error == InvalidOperation
    ensures r.Success? ==> r.value == orderedManagers[0]
  {
    if orderedManagers == [] then Failure(InvalidOperation) else Success(orderedManagers[0])
  }

  /**
   * `GetPresenterProvider` over the ordered presenter providers (each given
   * by what `InstantiateExtension` returns): null when there is none,
   * otherwise the first one's instance, which is null when instantiating it
   * failed. Later providers are never tried.
   */
  function GetPresenterProvider(orderedPresenters: seq<Option<Handle>>): (r: Option<Handle>)
    ensures orderedPresenters == [] ==> r.None?
    ensures orderedPresenters != [] ==> r == orderedPresenters[0]
    ensures r.Some? ==> orderedPresenters != [] && orderedPresenters[0] == r
  {
    if orderedPresenters == [] then None else orderedPresenters[0]
  }

  // ---------------------------------------------------------------------
  // The broker

  /** What a new `AsyncCompletionSession` is built from. */
  datatype Session = Session(
    view: Handle,
    applicableToSpan: SnapshotSpan,
    potentialCommitChars: Option<seq<char>>,
    sources: seq<(Source, Handle)>,
    managers: seq<(CommitManager, Handle)>,
    itemManager: Option<Handle>,
    presenterProvider: Option<Handle>)

  /**
   * The broker. `sessions` stands for the `IAsyncCompletionSession` entry of
   * each view's property bag; `triggered` logs the `CompletionTriggered` events.
   */
  class Broker {
    const sourceProviders: seq<ProviderMetadata>
    const itemManagerProviders: seq<ProviderMetadata>
    var featureAvailabilityByContentType: map<ContentType, bool>
    var sessions: map<Handle, Session>
    ghost var triggered: seq<Session>

    /** Every cached answer is the one computed from the (fixed) providers. */
    ghost predicate Valid()
      reads this
    {
      forall ct :: ct in featureAvailabilityByContentType ==>
        featureAvailabilityByContentType[ct] == Supported(ct, sourceProviders, itemManagerProviders)
    }

    constructor (sourceProviders: seq<ProviderMetadata>, itemManagerProviders: seq<ProviderMetadata>)
      ensures Valid()
      ensures this.sourceProviders == sourceProviders && this.itemManagerProviders == itemManagerProviders
      ensures featureAvailabilityByContentType == map[] && sessions == map[] && triggered == []
    {
      this.sourceProviders := sourceProviders;
      this.itemManagerProviders := itemManagerProviders;
      featureAvailabilityByContentType := map[];
      sessions := map[];
      triggered := [];
    }

    /** `IsCompletionActive`: whether a session is registered on the view, so that `GetSession` finds one. */
    predicate IsCompletionActive(view: Handle): (r: bool)
      reads this
      ensures r <==> view in sessions.Keys
    {
      view in sessions
    }

    /** `GetSession`: the view's session, present exactly when completion is active. */
    function GetSession(view: Handle): (r: Option<Session>)
      reads this
      ensures r.Some? <==> IsCompletionActive(view)
      ensures r.Some? ==> r.value == sessions[view]
    {
      if view in sessions then Some(sessions[view]) else None
    }

    /** `IsCompletionSupported`: the first answer per content type is cached and returned unchanged later. */
    method IsCompletionSupported(ct: ContentType) returns (r: bool)
      requires Valid()
      modifies this
      ensures Valid()
      ensures r == Supported(ct, sourceProviders, itemManagerProviders)
      ensures ct in old(featureAvailabilityByContentType) ==>
                r == old(featureAvailabilityByContentType)[ct]
                && featureAvailabilityByContentType == old(featureAvailabilityByContentType)
      ensures featureAvailabilityByContentType == old(featureAvailabilityByContentType)[ct := r]
      ensures sessions == old(sessions) && triggered == old(triggered)
    {
      if ct in featureAvailabilityByContentType {
        r := featureAvailabilityByContentType[ct];
        return;
      }
      var anySource := exists p :: p in sourceProviders && MatchesContentType(ct, p);
      var anyItemManager := exists p :: p in itemManagerProviders && MatchesContentType(ct, p);
      r := anySource && anyItemManager;
      featureAvailabilityByContentType := featureAvailabilityByContentType[ct := r];
    }

    /**
     * `TriggerCompletion`, control flow only. An existing session is returned
     * before the thread check; off the main thread it throws; without an
     * applicable span it returns null; without an item-manager provider it
     * throws; otherwise it registers and announces a new session.
     */
    method TriggerCompletion(view: Handle, onMainThread: bool, commitImports: seq<CommitImport>,
                             sourceImports: seq<SourceImport>, mapToEditBuffer: SnapshotSpan -> SnapshotSpan,
                             orderedManagers: seq<Option<Handle>>, orderedPresenters: seq<Option<Handle>>)
      returns (r: Result<Option<Session>, Exception>)
      modifies this
      ensures featureAvailabilityByContentType == old(featureAvailabilityByContentType)
      ensures old(view in sessions) ==>
                r == Success(Some(old(sessions)[view])) && sessions == old(sessions) && triggered == old(triggered)
      ensures !old(view in sessions) && !onMainThread ==>
                r == Failure(InvalidOperation) && sessions == old(sessions) && triggered == old(triggered)
      ensures !old(view in sessions) && onMainThread && ApplicableSpan(sourceImports, mapToEditBuffer) == DefaultSpan ==>
                r == Success(None) && sessions == old(sessions) && triggered == old(triggered)
      ensures !old(view in sessions) && onMainThread && ApplicableSpan(sourceImports, mapToEditBuffer) != DefaultSpan
              && orderedManagers == [] ==>
                r == Failure(InvalidOperation) && sessions == old(sessions) && triggered == old(triggered)
      ensures !old(view in sessions) && onMainThread && ApplicableSpan(sourceImports, mapToEditBuffer) != DefaultSpan
              && orderedManagers != [] ==>
                var s := Session(view, ApplicableSpan(sourceImports, mapToEditBuffer),
                                 if Managers(commitImports) == [] then None else Some(CommitChars(commitImports)),
                                 NonNullSources(sourceImports), Managers(commitImports), orderedManagers[0],
                                 GetPresenterProvider(orderedPresenters));
                r == Success(Some(s)) && sessions == old(sessions)[view := s] && triggered == old(triggered) + [s]
      ensures r.Success? && r.value.Some? ==> IsCompletionActive(view) && sessions[view] == r.value.value
    {
      var existing := GetSession(view);
      if existing.Some? {
        return Success(existing);
      }
      if !onMainThread {
        return Failure(InvalidOperation);
      }
      var managers, chars := GetCommitManagersAndChars(commitImports);
      var sources, span, _ := GetCompletionSources(sourceImports, mapToEditBuffer);
      if span == DefaultSpan {
        return Success(None);
      }
      var itemManager := GetItemManager(orderedManagers);
      if itemManager.Failure? {
        return Failure(itemManager.error);
      }
      var presenter := GetPresenterProvider(orderedPresenters);
      var session := Session(view, span, chars, sources, managers, itemManager.value, presenter);
      sessions := sessions[view := session];
      triggered := triggered + [session];
      r := Success(Some(session));
    }

    /** `ForgetSession`: the view's entry is removed, so completion is no longer active there. */
    method ForgetSession(session: Session)
      modifies this
      ensures sessions == old(sessions) - {session.view}
      ensures !IsCompletionActive(session.view)
      ensures featureAvailabilityByContentType == old(featureAvailabilityByContentType) && triggered == old(triggered)
    {
      sessions := sessions - {session.view};
    }
  }
}
