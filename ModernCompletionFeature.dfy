/**
 * `ModernCompletionFeature.GetFeatureState`: the treatment flight is read
 * once (or forced on in DEBUG builds) and then served from static fields.
 * The static fields become the fields of one object; the build flavour is
 * a constant of that object.
 */
module ModernCompletionFeature {

  const TreatmentFlightName: string := "CompletionAPI"

  /** The first value a fresh feature state reports: DEBUG builds always say true. */
  function FirstState(debugBuild: bool, flight: bool): (r: bool)
    ensures debugBuild ==> r
    ensures !debugBuild ==> r == flight
  {
    debugBuild || flight
  }

  class ModernCompletionFeature {
    const debugBuild: bool
    var initialized: bool
    var treatmentFlightEnabled: bool
    /** How many times the experimentation service has been asked. */
    ghost var serviceQueries: nat
    /** The value the first call returned. */
    ghost var firstAnswer: bool

    ghost predicate Valid()
      reads this
    {
      && serviceQueries <= 1
      && (!initialized ==> serviceQueries == 0)
      && (debugBuild ==> serviceQueries == 0)
      && (initialized ==> firstAnswer == treatmentFlightEnabled)
      && (initialized && debugBuild ==> treatmentFlightEnabled)
    }

    constructor (debugBuild: bool)
      ensures Valid() && !initialized && this.debugBuild == debugBuild
    {
      this.debugBuild := debugBuild;
      initialized := false;
      treatmentFlightEnabled := false;
      serviceQueries := 0;
      firstAnswer := false;
    }

    /**
     * `GetFeatureState`, given what the service's `IsCachedFlightEnabled`
     * would answer now. Every call returns what the first call returned.
     */
    method GetFeatureState(flight: bool) returns (r: bool)
      requires Valid()
      modifies this
      ensures Valid() && initialized
      ensures r == firstAnswer
      ensures old(initialized) ==> r == old(treatmentFlightEnabled) && firstAnswer == old(firstAnswer)
                                   && serviceQueries == old(serviceQueries)
      ensures !old(initialized) ==> r == FirstState(debugBuild, flight)
      ensures debugBuild ==> r
    {
      if initialized {
        return treatmentFlightEnabled;
      }
      if debugBuild {
        treatmentFlightEnabled := true;
      } else {
        treatmentFlightEnabled := flight;
        serviceQueries := serviceQueries + 1;
      }
      initialized := true;
      firstAnswer := treatmentFlightEnabled;
      r := treatmentFlightEnabled;
    }
  }
}
