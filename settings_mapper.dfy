/**
 * `SettingsMapper.getSettings`: flattens a props object into a grid-engine
 * settings object. The entries of a truthy `settings` prop are copied
 * first; then every other top-level prop except `children` is copied over
 * them.
 */
module SettingsMapper {
  import opened JsValues

  /** The two top-level props the second loop skips. */
  const Skipped: set<string> := {"settings", "children"}

  /** The entries the first loop copies: those of `properties.settings`, when truthy. */
  function NestedSettings(properties: map<string, Value>): map<string, Value> {
    var nested := Lookup(properties, "settings");
    if Truthy(nested) then OwnProps(nested) else map[]
  }

  /**
   * The settings object `getSettings` builds, defined key by key: a key
   * copied by the second loop takes the top-level value, any other key the
   * value from `settings`.
   */
  function MappedSettings(properties: map<string, Value>): map<string, Value> {
    var nested := NestedSettings(properties);
    map k | k in nested.Keys + (properties.Keys - Skipped) ::
      if k in properties && k !in Skipped then properties[k] else nested[k]
  }

  /** `getSettings` as the source writes it: two `for…in` loops filling a fresh object. */
  method GetSettings(properties: map<string, Value>) returns (newSettings: map<string, Value>)
    ensures newSettings == MappedSettings(properties)
  {
    newSettings := map[];
    ghost var nested := NestedSettings(properties);
    if Truthy(Lookup(properties, "settings")) {
      var settings := OwnProps(Lookup(properties, "settings"));
      var pending := settings.Keys;
      while pending != {}
        invariant pending <= settings.Keys
        invariant newSettings.Keys == settings.Keys - pending
        invariant forall k | k in newSettings :: newSettings[k] == settings[k]
        decreases pending
      {
        var key :| key in pending;
        newSettings := newSettings[key := settings[key]];
        pending := pending - {key};
      }
    }
    assert newSettings == nested;
    var pending := properties.Keys;
    while pending != {}
      invariant pending <= properties.Keys
      invariant newSettings.Keys == nested.Keys + (properties.Keys - pending - Skipped)
      invariant forall k | k in newSettings ::
                  newSettings[k] == if k in properties && k !in pending && k !in Skipped
                                    then properties[k] else nested[k]
      decreases pending
    {
      var key :| key in pending;
      if key != "settings" && key != "children" {
        newSettings := newSettings[key := properties[key]];
      }
      pending := pending - {key};
    }
  }

  /** Setting a top-level prop other than `settings` and `children` sets the same key of the result. */
  lemma MappedSettingsUpdate(properties: map<string, Value>, key: string, v: Value)
    requires key !in Skipped
    ensures MappedSettings(properties[key := v]) == MappedSettings(properties)[key := v]
  {
    assert NestedSettings(properties[key := v]) == NestedSettings(properties);
  }

  /**
   * What `getSettings` promises: every top-level prop other than `settings`
   * and `children` is in the result with its own value, overriding an entry
   * of the same name in `settings`; an entry only in `settings` (or named
   * `settings` or `children` there, since only the second loop filters) keeps
   * the nested value; and nothing else is in the result.
   */
  lemma MappedSettingsPrecedence(properties: map<string, Value>)
    ensures var r := MappedSettings(properties);
      && r.Keys == NestedSettings(properties).Keys + (properties.Keys - Skipped)
      && (forall k | k in properties && k !in Skipped :: r[k] == properties[k])
      && (forall k | k in NestedSettings(properties) && (k !in properties || k in Skipped) ::
            r[k] == NestedSettings(properties)[k])
  {
  }

  /** A falsy or absent `settings` prop contributes nothing. */
  lemma FalsySettingsIgnored(properties: map<string, Value>)
    requires !Truthy(Lookup(properties, "settings"))
    ensures MappedSettings(properties) == properties - Skipped
  {
  }
}
