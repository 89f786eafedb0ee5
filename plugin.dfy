/**
  The plugin object: the settings it snapshots when it is constructed, the
  activation and deactivation hooks that reset or remove the stored record,
  and the validation of a submitted settings form (`sanitize_basic`), whose
  result WordPress stores as the new record.
 */
module Plugin {
  import opened Php
  import opened Foreign
  import opened Settings
  import Credentials

  /** PHP's `empty($input[$field])`: a missing field is empty too. */
  predicate MissingField(input: Record, field: string)
    ensures field !in input ==> MissingField(input, field)
    ensures field in input && |input[field]| >= 2 ==> !MissingField(input, field)
    ensures field in input && |input[field]| < 2 ==> (MissingField(input, field) <==> input[field] in {"", "0"})
  {
    field !in input || Empty(input[field])
  }

  class MailchimpPlugin {
    /** The host's option table, shared with every other reader of the options. */
    const store: OptionStore
    const host: Host
    /** `$this->settings`: `get_settings()` as it was when the object was built. */
    const settings: Record

    ghost predicate Valid() {
      "key" in settings && "list_id" in settings
    }

    constructor (store: OptionStore, host: Host)
      ensures this.store == store && this.host == host
      ensures settings == GetSettings(store.options)
      ensures Valid()
    {
      this.store := store;
      this.host := host;
      this.settings := GetSettings(store.options);
    }

    /** `activate`: the stored record becomes the defaults, so the settings read back are the defaults. */
    method Activate()
      modifies store
      ensures store.options == old(store.options)[OptionName := Defaults()]
      ensures GetSettings(store.options) == Defaults()
    {
      store.UpdateOption(OptionName, Defaults());
      GetSettingsOfDefaults(store.options);
    }

    /** `deactivate`: the stored record is removed, so the settings read back are the defaults. */
    method Deactivate()
      modifies store
      ensures store.options == old(store.options) - {OptionName}
      ensures GetSettings(store.options) == Defaults()
    {
      store.DeleteOption(OptionName);
      GetSettingsOfDefaults(store.options);
    }

    /**
      `sanitize_basic`: validates a submitted form, returning the fields to
      store and the fields flagged by `add_settings_error`. A missing key
      stops at once with nothing kept. A key that is still the masked
      display form (it holds a `*` after `esc_attr`) is replaced by the
      stored key. A missing list id stops with only the key kept.
     */
    method SanitizeBasic(input: Record) returns (sanitized: Record, errors: seq<string>)
      requires Valid()
      ensures MissingField(input, "key") ==> sanitized == map[] && errors == ["key"]
      ensures !MissingField(input, "key") ==>
                && "key" in sanitized
                && sanitized["key"] == (if Credentials.IsKeyObfuscated(host.escAttr(input["key"]))
                                        then settings["key"]
                                        else host.sanitizeTextField(input["key"]))
      ensures !MissingField(input, "key") && EscAttrKeepsStars(host) ==>
                && ('*' in input["key"] ==> sanitized["key"] == settings["key"])
                && ('*' !in input["key"] ==> sanitized["key"] == host.sanitizeTextField(input["key"]))
      ensures !MissingField(input, "key") && MissingField(input, "list_id") ==>
                sanitized.Keys == {"key"} && errors == ["list_id"]
      ensures !MissingField(input, "key") && !MissingField(input, "list_id") ==>
                sanitized.Keys == {"key", "list_id"} && sanitized["list_id"] == host.sanitizeTextField(input["list_id"])
      ensures errors == [] <==> sanitized.Keys == {"key", "list_id"}
      ensures |errors| <= 1
      ensures sanitized.Keys <= {"key", "list_id"}
      ensures "list_id" in sanitized ==> "key" in sanitized
    {
      sanitized := map[];
      errors := [];

      if MissingField(input, "key") {
        errors := errors + ["key"];
        return;
      }

      if Credentials.IsKeyObfuscated(host.escAttr(input["key"])) {
        sanitized := sanitized["key" := settings["key"]];
      } else {
        sanitized := sanitized["key" := host.sanitizeTextField(input["key"])];
      }

      if MissingField(input, "list_id") {
        errors := errors + ["list_id"];
        return;
      }

      sanitized := sanitized["list_id" := host.sanitizeTextField(input["list_id"])];
    }

    /**
      A form submission: `register_setting` makes `sanitize_basic` the
      sanitizer of the option, and WordPress stores what it returns as the
      whole record. So a submission without a list id stores a record
      without one, and the list id read back is the default "".
     */
    method SubmitSettings(input: Record) returns (stored: Record, errors: seq<string>)
      requires Valid()
      modifies store
      ensures store.options == old(store.options)[OptionName := stored]
      ensures MissingField(input, "key") ==> stored == map[] && errors == ["key"]
      ensures MissingField(input, "key") ==> GetSettings(store.options) == Defaults()
      ensures !MissingField(input, "key") ==>
                && "key" in stored
                && stored["key"] == (if Credentials.IsKeyObfuscated(host.escAttr(input["key"]))
                                     then settings["key"]
                                     else host.sanitizeTextField(input["key"]))
                && GetSettings(store.options)["key"] == stored["key"]
      ensures !MissingField(input, "key") && EscAttrKeepsStars(host) && '*' in input["key"] ==>
                GetSettings(store.options)["key"] == settings["key"]
      ensures !MissingField(input, "key") && MissingField(input, "list_id") ==>
                stored.Keys == {"key"} && errors == ["list_id"] && GetSettings(store.options)["list_id"] == ""
      ensures !MissingField(input, "key") && !MissingField(input, "list_id") ==>
                && stored.Keys == {"key", "list_id"} && errors == []
                && GetSettings(store.options)["list_id"] == host.sanitizeTextField(input["list_id"])
    {
      stored, errors := SanitizeBasic(input);
      store.UpdateOption(OptionName, stored);
    }
  }
}
