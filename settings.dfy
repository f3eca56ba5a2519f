/** The Settings table of the journal database: text values under text keys,
    where saving a key inserts it or overwrites its value. */
module Settings {
  import opened Wrappers

  class SettingsStore {
    var values: map<string, string>

    constructor (initial: map<string, string>)
      ensures values == initial
    {
      values := initial;
    }

    /** `GetSettingAsync`: the stored value, or None (null) for a missing key. */
    method Get(key: string) returns (value: Option<string>)
      ensures value.Some? <==> key in values
      ensures value.Some? ==> value.value == values[key]
    {
      if key in values {
        value := Some(values[key]);
      } else {
        value := None;
      }
    }

    /** `SaveSettingAsync`: insert, or update on a key conflict. */
    method Save(key: string, value: string)
      modifies this
      ensures values == old(values)[key := value]
    {
      values := values[key := value];
    }
  }
}
