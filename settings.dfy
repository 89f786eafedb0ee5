/**
  The plugin's persisted configuration: one record `{key, list_id}` kept in
  the host's option table under a single option name, read back merged over
  the defaults (`get_settings`).
 */
module Settings {

  /** One stored option value: a PHP array with string keys and string values. */
  type Record = map<string, string>

  /** The host's option table: option name to stored record. */
  type Options = map<string, Record>

  const OptionName := "unofficial_mailchimp_api_settings"

  /** `$settings_default`: both fields present and empty. */
  function Defaults(): (d: Record)
    ensures d.Keys == {"key", "list_id"}
    ensures d["key"] == "" && d["list_id"] == ""
  {
    map["key" := "", "list_id" := ""]
  }

  /** `get_option($name, $default)`: the stored record, or the default when there is none. */
  function GetOption(options: Options, name: string, default: Record): (r: Record)
    ensures name in options ==> r == options[name]
    ensures name !in options ==> r == default
  {
    if name in options then options[name] else default
  }

  /**
    `get_settings`: `array_merge` of the defaults with the stored record, the
    stored entries winning. Both fields are always there; a field the record
    lacks is "", and every stored entry is kept.
   */
  function GetSettings(options: Options): (s: Record)
    ensures "key" in s && "list_id" in s
    ensures s.Keys == GetOption(options, OptionName, map[]).Keys + {"key", "list_id"}
    ensures forall k :: k in GetOption(options, OptionName, map[]) ==>
              s[k] == GetOption(options, OptionName, map[])[k]
    ensures forall k :: k in Defaults() && k !in GetOption(options, OptionName, map[]) ==> s[k] == ""
  {
    Defaults() + GetOption(options, OptionName, map[])
  }

  /** With no record stored, or the defaults stored, the settings are the defaults. */
  lemma GetSettingsOfDefaults(options: Options)
    requires OptionName !in options || options[OptionName] == Defaults()
    ensures GetSettings(options) == Defaults()
  {
  }

  /** The host's option table, which `update_option` and `delete_option` change in place. */
  class OptionStore {
    var options: Options

    constructor (initial: Options)
      ensures options == initial
    {
      options := initial;
    }

    /** `update_option`: the named record is replaced as a whole. */
    method UpdateOption(name: string, value: Record)
      modifies this
      ensures options == old(options)[name := value]
    {
      options := options[name := value];
    }

    /** `delete_option`: the named record is gone. */
    method DeleteOption(name: string)
      modifies this
      ensures options == old(options) - {name}
    {
      options := options - {name};
    }
  }
}
