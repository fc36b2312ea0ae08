/**
 * The application context (packages/core/src/context.tsx): the settings state the
 * provider holds, the unit converters derived from it, and the lookup of the context.
 */
module AppContext {
  import opened Wrappers
  import opened Db

  /** Pounds per kilogram. */
  const LB_PER_KG: real := 2.20462

  /** A stored (kilogram) weight as shown in `unit`. */
  function ToDisplayWeight(unit: WeightUnit, valueKg: real): (r: real)
    ensures unit == Kg ==> r == valueKg
    ensures unit == Lb ==> r == valueKg * LB_PER_KG
  {
    if unit == Kg then valueKg else valueKg * LB_PER_KG
  }

  /** A weight entered in `unit` as stored, in kilograms. */
  function ToStorageWeight(unit: WeightUnit, value: real): (r: real)
    ensures unit == Kg ==> r == value
    ensures unit == Lb ==> r == value / LB_PER_KG
  {
    if unit == Kg then value else value / LB_PER_KG
  }

  /** Over the reals the two conversions are inverse to each other, for both units. */
  lemma ConversionRoundTrip(unit: WeightUnit, x: real)
    ensures ToStorageWeight(unit, ToDisplayWeight(unit, x)) == x
    ensures ToDisplayWeight(unit, ToStorageWeight(unit, x)) == x
  {
    if unit == Lb {
      assert x * LB_PER_KG / LB_PER_KG == x;
      assert x / LB_PER_KG * LB_PER_KG == x;
    }
  }

  /** Both conversions keep order and sign, so a non-negative weight stays non-negative. */
  lemma ConversionMonotone(unit: WeightUnit, x: real, y: real)
    requires x <= y
    ensures ToDisplayWeight(unit, x) <= ToDisplayWeight(unit, y)
    ensures ToStorageWeight(unit, x) <= ToStorageWeight(unit, y)
    ensures x >= 0.0 ==> ToDisplayWeight(unit, x) >= 0.0 && ToStorageWeight(unit, x) >= 0.0
  {
  }

  /** The initial settings state: the given settings, or the defaults when none are given. */
  function InitialSettings(initialSettings: Option<Settings>): (r: Settings)
    ensures initialSettings.Some? ==> r == initialSettings.value
    ensures initialSettings.None? ==> r == DEFAULT_SETTINGS
  {
    initialSettings.GetOr(DEFAULT_SETTINGS)
  }

  /**
   * `AppProvider`'s state. `forwarded` records, in order, every value handed to the
   * `onSettingsChange` callback, which exists when `hasOnSettingsChange` holds.
   */
  class AppProvider {
    var settingsState: Settings
    const hasOnSettingsChange: bool
    var forwarded: seq<Settings>

    constructor (initialSettings: Option<Settings>, hasOnSettingsChange: bool)
      ensures settingsState == InitialSettings(initialSettings)
      ensures this.hasOnSettingsChange == hasOnSettingsChange && forwarded == []
      ensures WeightUnitNow() == (if initialSettings.Some? then initialSettings.value.units else Kg)
    {
      settingsState := InitialSettings(initialSettings);
      this.hasOnSettingsChange := hasOnSettingsChange;
      forwarded := [];
    }

    /** Replaces the whole settings state and passes the same value to the callback, if any. */
    method SetSettings(next: Settings)
      modifies this
      ensures settingsState == next && WeightUnitNow() == next.units
      ensures forwarded == if hasOnSettingsChange then old(forwarded) + [next] else old(forwarded)
    {
      settingsState := next;
      if hasOnSettingsChange {
        forwarded := forwarded + [next];
      }
    }

    /** `units.weightUnit`: always the unit of the current settings. */
    function WeightUnitNow(): (u: WeightUnit)
      reads this
      ensures u == settingsState.units
    {
      settingsState.units
    }

    /**
     * `units.toDisplayWeight` for the current settings: the shown value stores back as the
     * stored one, and a non-negative weight shows non-negative.
     */
    function DisplayWeight(valueKg: real): (r: real)
      reads this
      ensures ToStorageWeight(WeightUnitNow(), r) == valueKg
      ensures valueKg >= 0.0 ==> r >= 0.0
    {
      ConversionRoundTrip(settingsState.units, valueKg);
      ToDisplayWeight(settingsState.units, valueKg)
    }

    /**
     * `units.toStorageWeight` for the current settings: the stored value shows back as the
     * entered one, and a non-negative entry stores non-negative.
     */
    function StorageWeight(value: real): (r: real)
      reads this
      ensures ToDisplayWeight(WeightUnitNow(), r) == value
      ensures value >= 0.0 ==> r >= 0.0
    {
      ConversionRoundTrip(settingsState.units, value);
      ToStorageWeight(settingsState.units, value)
    }
  }

  /** Through one provider, storing a shown weight and showing a stored weight both give the value back. */
  lemma ProviderRoundTrip(p: AppProvider, x: real)
    ensures p.StorageWeight(p.DisplayWeight(x)) == x
    ensures p.DisplayWeight(p.StorageWeight(x)) == x
  {
    ConversionRoundTrip(p.settingsState.units, x);
  }

  const USE_APP_ERROR: string := "useApp must be used within AppProvider"

  /** `useApp`: the enclosing provider's context, or an error when there is no provider. */
  function UseApp(provider: Option<AppProvider>): (r: Result<AppProvider, string>)
    ensures provider.None? <==> r.Failure?
    ensures r.Failure? ==> r.error == USE_APP_ERROR
    ensures r.Success? ==> r.value == provider.value
  {
    match provider
    case None => Result.Failure(USE_APP_ERROR)
    case Some(p) => Success(p)
  }
}
