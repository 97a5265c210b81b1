/**
 * Whether modern completion is on for a content type or a view: guard
 * chains over the global feature cookie, the broker's providers, a
 * per-view feature service and the completion experiment, whose flight
 * answer is fetched once and cached.
 */
module CompletionAvailability {
  import opened Common

  const CompletionFlightName: string := "CompletionAPI"
  const RoslynLanguagesContentType: string := "Roslyn Languages"
  const RazorContentType: string := "Razor"
  const LanguageServerContentType: string := "code-languageserver-preview"

  /** The global `UseAsyncCompletion` setting; an undefined option reads as 0. */
  function UserSetting(defined: Option<int>): (s: int)
    ensures defined.None? ==> s == 0
    ensures defined.Some? ==> s == defined.value
  {
    match defined
    case None => 0
    case Some(v) => v
  }

  /**
   * The experiment decision: 1 forces it on, -1 forces it off; any other
   * setting uses the cached flight answer, or the service's answer when
   * nothing is cached yet.
   */
  function ExperimentDecision(setting: int, cached: Option<bool>, flight: bool): (r: bool)
    ensures setting == 1 ==> r
    ensures setting == -1 ==> !r
    ensures setting != 1 && setting != -1 && cached.Some? ==> r == cached.value
    ensures setting != 1 && setting != -1 && cached.None? ==> r == flight
  {
    if setting == 1 then true
    else if setting == -1 then false
    else if cached.Some? then cached.value
    else flight
  }

  /**
   * The content-type rule shared by both checks: Roslyn and Razor content
   * is held back unless the experiment is on or the content is the
   * language-server type.
   */
  predicate Blocked(ct: ContentType, experimentEnabled: bool)
  {
    && !experimentEnabled
    && !IsOfType(ct, LanguageServerContentType)
    && (IsOfType(ct, RoslynLanguagesContentType) || IsOfType(ct, RazorContentType))
  }

  /** Only Roslyn or Razor content can be held back, and never while the experiment is on. */
  lemma BlockedOnlyRoslynOrRazor(ct: ContentType, experimentEnabled: bool)
    ensures Blocked(ct, experimentEnabled) ==>
              !experimentEnabled && (IsOfType(ct, RoslynLanguagesContentType) || IsOfType(ct, RazorContentType))
    ensures IsOfType(ct, LanguageServerContentType) ==> !Blocked(ct, experimentEnabled)
    ensures !IsOfType(ct, RoslynLanguagesContentType) && !IsOfType(ct, RazorContentType) ==> !Blocked(ct, experimentEnabled)
  {
  }

  /** A user setting of 1 or -1 decides regardless of the flight and of what is cached. */
  lemma UserSettingOverridesFlight(cached: Option<bool>, flight: bool, ct: ContentType)
    ensures ExperimentDecision(1, cached, flight) && !Blocked(ct, ExperimentDecision(1, cached, flight))
    ensures !ExperimentDecision(-1, cached, flight)
    ensures ExperimentDecision(UserSetting(None), cached, flight) == ExperimentDecision(0, cached, flight)
  {
  }

  class CompletionAvailabilityUtility {
    var treatmentFlightDataInitialized: bool
    var treatmentFlightEnabled: bool
    /** How many times `IsCachedFlightEnabled` has been asked. */
    ghost var flightQueries: nat

    ghost predicate Valid()
      reads this
    {
      flightQueries == if treatmentFlightDataInitialized then 1 else 0
    }

    /** The cached flight answer, if any. */
    function Cached(): Option<bool>
      reads this
    {
      if treatmentFlightDataInitialized then Some(treatmentFlightEnabled) else None
    }

    constructor ()
      ensures Valid() && Cached() == None
    {
      treatmentFlightDataInitialized := false;
      treatmentFlightEnabled := false;
      flightQueries := 0;
    }

    /**
     * `IsExperimentEnabled`, given the defined user setting (if any) and what
     * the experimentation service would answer. The flight is queried at most
     * once over the object's lifetime.
     */
    method IsExperimentEnabled(setting: Option<int>, flight: bool) returns (r: bool)
      requires Valid()
      modifies this
      ensures Valid() && flightQueries <= 1
      ensures r == ExperimentDecision(UserSetting(setting), old(Cached()), flight)
      ensures UserSetting(setting) != 1 && UserSetting(setting) != -1 ==> Cached() == Some(r)
      ensures UserSetting(setting) == 1 || UserSetting(setting) == -1 || old(Cached()).Some? ==>
                Cached() == old(Cached()) && flightQueries == old(flightQueries)
      ensures flightQueries ==
                if UserSetting(setting) != 1 && UserSetting(setting) != -1 && old(Cached()).None?
                then old(flightQueries) + 1 else old(flightQueries)
    {
      var userSetting := 0;
      if setting.Some? {
        userSetting := setting.value;
      }
      if userSetting == 1 {
        return true;
      } else if userSetting == -1 {
        return false;
      }
      if treatmentFlightDataInitialized {
        return treatmentFlightEnabled;
      }
      treatmentFlightEnabled := flight;
      flightQueries := flightQueries + 1;
      treatmentFlightDataInitialized := true;
      r := treatmentFlightEnabled;
    }

    /**
     * `IsAvailable`: the global cookie, then the broker's providers, then the
     * content-type rule. The experiment is consulted only when the first two
     * checks pass.
     */
    method IsAvailable(ct: ContentType, cookieEnabled: bool, hasCompletionProviders: bool,
                       setting: Option<int>, flight: bool) returns (r: bool)
      requires Valid()
      modifies this
      ensures Valid()
      ensures r <==> cookieEnabled && hasCompletionProviders
                     && !Blocked(ct, ExperimentDecision(UserSetting(setting), old(Cached()), flight))
      ensures Cached() ==
                if cookieEnabled && hasCompletionProviders && UserSetting(setting) != 1 && UserSetting(setting) != -1
                then Some(ExperimentDecision(UserSetting(setting), old(Cached()), flight))
                else old(Cached())
      ensures flightQueries ==
                if cookieEnabled && hasCompletionProviders && UserSetting(setting) != 1 && UserSetting(setting) != -1
                   && old(Cached()).None?
                then old(flightQueries) + 1 else old(flightQueries)
    {
      if !cookieEnabled {
        return false;
      }
      if !hasCompletionProviders {
        return false;
      }
      var experiment := IsExperimentEnabled(setting, flight);
      if !experiment && !IsOfType(ct, LanguageServerContentType)
         && (IsOfType(ct, RoslynLanguagesContentType) || IsOfType(ct, RazorContentType)) {
        return false;
      }
      r := true;
    }

    /** `IsCurrentlyAvailable`: the view's feature service in place of the cookie and providers. */
    method IsCurrentlyAvailable(viewFeatureEnabled: bool, contentTypeToCheckBlacklist: ContentType,
                                setting: Option<int>, flight: bool) returns (r: bool)
      requires Valid()
      modifies this
      ensures Valid()
      ensures r <==> viewFeatureEnabled
                     && !Blocked(contentTypeToCheckBlacklist, ExperimentDecision(UserSetting(setting), old(Cached()), flight))
      ensures Cached() ==
                if viewFeatureEnabled && UserSetting(setting) != 1 && UserSetting(setting) != -1
                then Some(ExperimentDecision(UserSetting(setting), old(Cached()), flight))
                else old(Cached())
      ensures flightQueries ==
                if viewFeatureEnabled && UserSetting(setting) != 1 && UserSetting(setting) != -1 && old(Cached()).None?
                then old(flightQueries) + 1 else old(flightQueries)
    {
      if !viewFeatureEnabled {
        return false;
      }
      var experiment := IsExperimentEnabled(setting, flight);
      if !experiment && !IsOfType(contentTypeToCheckBlacklist, LanguageServerContentType)
         && (IsOfType(contentTypeToCheckBlacklist, RoslynLanguagesContentType)
             || IsOfType(contentTypeToCheckBlacklist, RazorContentType)) {
        return false;
      }
      r := true;
    }
  }

  /**
   * Once the flight answer is cached, neither check depends on the flight any
   * more: with setting 0, two calls agree whatever the service would say.
   */
  lemma CachedFlightIsStable(cached: bool, flight1: bool, flight2: bool, ct: ContentType)
    ensures ExperimentDecision(0, Some(cached), flight1) == ExperimentDecision(0, Some(cached), flight2) == cached
    ensures Blocked(ct, ExperimentDecision(0, Some(cached), flight1)) == Blocked(ct, ExperimentDecision(0, Some(cached), flight2))
  {
  }
}
