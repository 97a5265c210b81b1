/**
 * The two suggestion-mode editor options, read and written through the
 * global editor options. Reading an undefined option first defines it with
 * its default.
 */
module CompletionUtilities {

  /**
   * The option names. Their string values come from `PredefinedCompletionNames`,
   * which is not part of this model; the model only relies on them being different.
   */
  const SuggestionModeOptionName: string := "SuggestionModeInCompletionOptionName"
  const SuggestionModeInDebuggerOptionName: string := "SuggestionModeInDebuggerCompletionOptionName"

  const UseSuggestionModeDefaultValue: bool := false
  const UseSuggestionModeInDebuggerCompletionDefaultValue: bool := true

  /** The global options store, as far as boolean options go. */
  class GlobalOptions {
    var values: map<string, bool>

    constructor (values: map<string, bool>)
      ensures this.values == values
    {
      this.values := values;
    }
  }

  /** The store after a read of `key`: an undefined key is defined with `default`. */
  function AfterRead(values: map<string, bool>, key: string, default: bool): (r: map<string, bool>)
    ensures key in r
    ensures key in values ==> r == values
    ensures key !in values ==> r[key] == default
    ensures forall k :: k != key ==> (k in r <==> k in values)
    ensures forall k :: k != key && k in values ==> r[k] == values[k]
  {
    if key in values then values else values[key := default]
  }

  /** The value a read of `key` returns. */
  function Read(values: map<string, bool>, key: string, default: bool): bool
  {
    AfterRead(values, key, default)[key]
  }

  /** A first read defines and returns the default; a later read returns the stored value. */
  lemma ReadReturnsStoredOrDefault(values: map<string, bool>, key: string, default: bool)
    ensures key !in values ==> Read(values, key, default) == default
    ensures key in values ==> Read(values, key, default) == values[key]
    ensures AfterRead(AfterRead(values, key, default), key, default) == AfterRead(values, key, default)
  {
  }

  /** Setting an option and reading it back yields the value set, and the read leaves the store as set. */
  lemma SetThenRead(values: map<string, bool>, key: string, value: bool, default: bool)
    ensures Read(values[key := value], key, default) == value
    ensures AfterRead(values[key := value], key, default) == values[key := value]
  {
  }

  /** The two options use different keys: writing or defining one leaves the other as it was. */
  lemma OptionsAreIndependent(values: map<string, bool>, value: bool)
    ensures Read(values[SuggestionModeOptionName := value], SuggestionModeInDebuggerOptionName,
                 UseSuggestionModeInDebuggerCompletionDefaultValue)
            == Read(values, SuggestionModeInDebuggerOptionName, UseSuggestionModeInDebuggerCompletionDefaultValue)
    ensures Read(values[SuggestionModeInDebuggerOptionName := value], SuggestionModeOptionName, UseSuggestionModeDefaultValue)
            == Read(values, SuggestionModeOptionName, UseSuggestionModeDefaultValue)
    ensures var v := AfterRead(values, SuggestionModeOptionName, UseSuggestionModeDefaultValue);
            SuggestionModeInDebuggerOptionName in v <==> SuggestionModeInDebuggerOptionName in values
  {
  }

  /** `GetSuggestionModeOption`: defined as false on first read. */
  method GetSuggestionModeOption(options: GlobalOptions) returns (r: bool)
    modifies options
    ensures options.values == AfterRead(old(options.values), SuggestionModeOptionName, UseSuggestionModeDefaultValue)
    ensures r == Read(old(options.values), SuggestionModeOptionName, UseSuggestionModeDefaultValue)
    ensures SuggestionModeOptionName !in old(options.values) ==> !r
  {
    if SuggestionModeOptionName !in options.values {
      options.values := options.values[SuggestionModeOptionName := UseSuggestionModeDefaultValue];
    }
    r := options.values[SuggestionModeOptionName];
  }

  method SetSuggestionModeOption(options: GlobalOptions, value: bool)
    modifies options
    ensures options.values == old(options.values)[SuggestionModeOptionName := value]
  {
    options.values := options.values[SuggestionModeOptionName := value];
  }

  /** `GetSuggestionModeInDebuggerCompletionOption`: defined as true on first read. */
  method GetSuggestionModeInDebuggerCompletionOption(options: GlobalOptions) returns (r: bool)
    modifies options
    ensures options.values == AfterRead(old(options.values), SuggestionModeInDebuggerOptionName,
                                        UseSuggestionModeInDebuggerCompletionDefaultValue)
    ensures r == Read(old(options.values), SuggestionModeInDebuggerOptionName,
                      UseSuggestionModeInDebuggerCompletionDefaultValue)
    ensures SuggestionModeInDebuggerOptionName !in old(options.values) ==> r
  {
    if SuggestionModeInDebuggerOptionName !in options.values {
      options.values := options.values[SuggestionModeInDebuggerOptionName := UseSuggestionModeInDebuggerCompletionDefaultValue];
    }
    r := options.values[SuggestionModeInDebuggerOptionName];
  }

  method SetSuggestionModeDuringDebuggingOption(options: GlobalOptions, value: bool)
    modifies options
    ensures options.values == old(options.values)[SuggestionModeInDebuggerOptionName := value]
  {
    options.values := options.values[SuggestionModeInDebuggerOptionName := value];
  }
}
