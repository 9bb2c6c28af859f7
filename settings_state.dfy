/** The client-side caches of server settings: the global, user, plugin and machine
    stores. Each holds the fetched settings list and a key -> value lookup built from
    it, and answers raw and boolean setting queries from the lookup. */
module SettingsState {
  import opened Wrappers

  /** One setting as the server returns it. */
  datatype Setting = Setting(key: string, value: string, configType: string)

  /** Which of the four stores: the plugin and machine stores are created per plugin
      and per machine (and config type). */
  datatype StoreKind = GlobalStore | UserStore | PluginStore(plugin: string)
                     | MachineStore(machine: string, configType: string)

  /** The outcome of the GET request for the settings list. */
  datatype FetchOutcome = Fetched(data: seq<Setting>) | FetchFailed

  /** What `isSet` hands to `isTrue`: a looked-up string, or the caller's boolean default. */
  datatype Flag = FlagString(s: string) | FlagBool(b: bool)

  /** The lookup `generate_lookup` builds: each key mapped to the value of the LAST
      setting in the list with that key. */
  function LookupOf(data: seq<Setting>): map<string, string>
    decreases |data|
  {
    if data == [] then map[]
    else LookupOf(data[..|data| - 1])[data[|data| - 1].key := data[|data| - 1].value]
  }

  /** `generate_lookup`: fills a fresh dictionary setting by setting. */
  method GenerateLookup(data: seq<Setting>) returns (lookup: map<string, string>)
    ensures lookup == LookupOf(data)
  {
    lookup := map[];
    for i := 0 to |data|
      invariant lookup == LookupOf(data[..i])
    {
      assert data[..i + 1][..i] == data[..i];
      lookup := lookup[data[i].key := data[i].value];
    }
    assert data[..|data|] == data;
  }

  /** The lookup's keys are exactly the keys of the settings in the list. */
  lemma {:induction false} LookupKeys(data: seq<Setting>)
    ensures LookupOf(data).Keys == set s | s in data :: s.key
    decreases |data|
  {
    if data != [] {
      var init := data[..|data| - 1];
      LookupKeys(init);
      assert data == init + [data[|data| - 1]];
      assert forall s :: s in data <==> s in init || s == data[|data| - 1];
    }
  }

  /** When a key repeats, the value of the later setting wins: the lookup holds the
      value of the last setting carrying that key. */
  lemma {:induction false} LastWriteWins(data: seq<Setting>, i: nat)
    requires i < |data|
    requires forall j :: i < j < |data| ==> data[j].key != data[i].key
    ensures data[i].key in LookupOf(data) && LookupOf(data)[data[i].key] == data[i].value
    decreases |data|
  {
    if i < |data| - 1 {
      LastWriteWins(data[..|data| - 1], i);
    }
  }

  /** The machine store keeps only the settings of its config type, in order. */
  function OfConfigType(data: seq<Setting>, configType: string): seq<Setting>
    decreases |data|
  {
    if data == [] then []
    else if data[0].configType == configType then [data[0]] + OfConfigType(data[1..], configType)
    else OfConfigType(data[1..], configType)
  }

  lemma {:induction false} OfConfigTypeSpec(data: seq<Setting>, configType: string)
    ensures forall s :: s in OfConfigType(data, configType) <==> s in data && s.configType == configType
    decreases |data|
  {
    if data != [] {
      OfConfigTypeSpec(data[1..], configType);
      assert forall s :: s in data <==> s == data[0] || s in data[1..];
    }
  }

  /** What a store keeps from a successful fetch. */
  function Kept(kind: StoreKind, data: seq<Setting>): seq<Setting> {
    match kind
    case MachineStore(_, configType) => OfConfigType(data, configType)
    case _ => data
  }

  /** Only the global and user stores check for a login before fetching. */
  predicate ChecksLogin(kind: StoreKind) {
    kind.GlobalStore? || kind.UserStore?
  }

  /** A settings store: the fetched list and the lookup derived from it. */
  class SettingsStore {
    const kind: StoreKind
    var settings: seq<Setting>
    var lookup: map<string, string>

    /** The lookup is always the one generated from the stored list. */
    ghost predicate Valid()
      reads this
    {
      lookup == LookupOf(settings)
    }

    constructor (kind: StoreKind)
      ensures this.kind == kind && settings == [] && lookup == map[] && Valid()
    {
      this.kind := kind;
      settings := [];
      lookup := map[];
    }

    /** `fetchSettings`: without a login the global and user stores do nothing; a
        successful response replaces the list and the lookup in one update; a failed
        request leaves both as they were. */
    method FetchSettings(loggedIn: bool, outcome: FetchOutcome)
      requires Valid()
      modifies this
      ensures Valid()
      ensures ChecksLogin(kind) && !loggedIn ==> settings == old(settings) && lookup == old(lookup)
      ensures outcome.FetchFailed? ==> settings == old(settings) && lookup == old(lookup)
      ensures (loggedIn || !ChecksLogin(kind)) && outcome.Fetched? ==>
        settings == Kept(kind, outcome.data) && lookup == LookupOf(settings)
    {
      if ChecksLogin(kind) && !loggedIn {
        return;
      }
      match outcome {
        case Fetched(data) =>
          var kept := Kept(kind, data);
          var newLookup := GenerateLookup(kept);
          settings, lookup := kept, newLookup;
        case FetchFailed =>
      }
    }

    /** `getSetting`: the looked-up value, else the caller's default, else ''. */
    function GetSetting(key: string, default: Option<string>): (r: string)
      reads this
      ensures key in lookup ==> r == lookup[key]
      ensures key !in lookup ==> r == default.GetOr("")
    {
      if key in lookup then lookup[key] else default.GetOr("")
    }

    /** `isSet`: `isTrue` applied to the looked-up value, else to the boolean default,
        else to the string 'false'. */
    function IsSet(key: string, default: Option<bool>, isTrue: Flag -> bool): (r: bool)
      reads this
      ensures key in lookup ==> r == isTrue(FlagString(lookup[key]))
      ensures key !in lookup && default.Some? ==> r == isTrue(FlagBool(default.value))
      ensures key !in lookup && default.None? ==> r == isTrue(FlagString("false"))
    {
      if key in lookup then isTrue(FlagString(lookup[key]))
      else if default.Some? then isTrue(FlagBool(default.value))
      else isTrue(FlagString("false"))
    }
  }

  /** The setting at position i is the last one with that key. */
  predicate LastWithKey(data: seq<Setting>, i: nat, key: string)
    requires i < |data|
  {
    data[i].key == key && forall j :: i < j < |data| ==> data[j].key != key
  }

  /** What `getSetting` answers once a fetch has filled the store (or at any time,
      since every method keeps `Valid`): the value of the last stored setting with
      that key, and for a key no stored setting carries, the caller's default or ''. */
  lemma GetAfterFetch(store: SettingsStore, key: string, default: Option<string>)
    requires store.Valid()
    ensures forall i :: 0 <= i < |store.settings| && LastWithKey(store.settings, i, key) ==>
      store.GetSetting(key, default) == store.settings[i].value
    ensures (forall s :: s in store.settings ==> s.key != key) ==>
      store.GetSetting(key, default) == default.GetOr("")
  {
    LookupKeys(store.settings);
    forall i | 0 <= i < |store.settings| && LastWithKey(store.settings, i, key)
      ensures store.GetSetting(key, default) == store.settings[i].value
    {
      LastWriteWins(store.settings, i);
    }
  }

  /** The machine store's lookup has exactly the keys of the settings of its config type. */
  lemma MachineLookupKeys(data: seq<Setting>, machine: string, configType: string)
    ensures LookupOf(Kept(MachineStore(machine, configType), data)).Keys ==
      set s | s in data && s.configType == configType :: s.key
  {
    OfConfigTypeSpec(data, configType);
    LookupKeys(OfConfigType(data, configType));
  }
}
