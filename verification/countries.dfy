/**
 * The editable country list of the tracker. The list operations are shared
 * by both hooks: adding skips a code that is already present, removing drops
 * every entry with the code, updating merges fields into the entries with
 * the code. `CountriesHook` keeps the list in the browser's local storage;
 * `CountriesLocalHook` keeps it, in local mode, as the `countries` entry of
 * the backend's `app_config` table and otherwise in local storage. Stored
 * lists are modelled after JSON decoding.
 */
module Countries {
  import opened Wrappers
  import opened Storage
  import opened Tracker

  // ---------------------------------------------------------------------------
  // The list operations

  predicate HasCode(list: seq<CountryConfig>, code: string) {
    exists i :: 0 <= i < |list| && list[i].code == code
  }

  /** Appends `c` unless an entry already has its code (exact comparison). */
  function AddCountry(list: seq<CountryConfig>, c: CountryConfig): (r: seq<CountryConfig>)
    ensures list <= r && |r| <= |list| + 1
    ensures HasCode(r, c.code)
    ensures |r| == |list| + 1 <==> !HasCode(list, c.code)
    ensures |r| == |list| + 1 ==> r[|list|] == c
  {
    if HasCode(list, c.code) then list
    else
      var r := list + [c];
      assert r[|list|].code == c.code;
      r
  }

  /** Adding keeps the codes of a list distinct. */
  lemma AddKeepsCodesDistinct(list: seq<CountryConfig>, c: CountryConfig)
    requires DistinctCodes(list)
    ensures DistinctCodes(AddCountry(list, c))
  {
    var r := AddCountry(list, c);
    if |r| == |list| + 1 {
      forall i | 0 <= i < |list|
        ensures r[i].code != r[|list|].code
      {
        assert r[i] == list[i];
      }
    }
  }

  /** Drops every entry with the code, keeping the others in order. */
  function RemoveCountry(list: seq<CountryConfig>, code: string): (r: seq<CountryConfig>)
    ensures !HasCode(r, code)
    ensures forall c :: c in r <==> c in list && c.code != code
  {
    var r := Filter(list, (c: CountryConfig) => c.code != code);
    assert forall i :: 0 <= i < |r| ==> r[i] in r;
    r
  }

  /** Removal distributes over concatenation, so the kept entries stay in their order. */
  lemma RemoveCountryConcat(a: seq<CountryConfig>, b: seq<CountryConfig>, code: string)
    ensures RemoveCountry(a + b, code) == RemoveCountry(a, code) + RemoveCountry(b, code)
  {
    FilterConcat(a, b, (c: CountryConfig) => c.code != code);
  }

  /** Removing twice is removing once. */
  lemma RemoveCountryIdempotent(list: seq<CountryConfig>, code: string)
    ensures RemoveCountry(RemoveCountry(list, code), code) == RemoveCountry(list, code)
  {
    FilterIdempotent(list, (c: CountryConfig) => c.code != code);
  }

  /** Removing a code keeps the codes of a list distinct. */
  lemma {:induction false} RemoveKeepsCodesDistinct(list: seq<CountryConfig>, code: string)
    requires DistinctCodes(list)
    ensures DistinctCodes(RemoveCountry(list, code))
    decreases |list|
  {
    if |list| > 0 {
      assert list == [list[0]] + list[1..];
      RemoveCountryConcat([list[0]], list[1..], code);
      RemoveKeepsCodesDistinct(list[1..], code);
      var rest := RemoveCountry(list[1..], code);
      if list[0].code != code {
        forall j | 0 <= j < |rest|
          ensures rest[j].code != list[0].code
        {
          assert rest[j] in rest;
          var k :| 0 <= k < |list[1..]| && list[1..][k] == rest[j];
          assert list[k + 1] == rest[j];
        }
        assert RemoveCountry(list, code) == [list[0]] + rest;
      } else {
        assert RemoveCountry(list, code) == rest;
      }
    }
  }

  /** The fields an update sets (`Partial<CountryConfig>`); absent fields are kept. */
  datatype CountryUpdate = CountryUpdate(code: Option<string>, name: Option<string>, segments: Option<seq<Segment>>)

  /** `{ ...c, ...updates }`. */
  function Merge(c: CountryConfig, u: CountryUpdate): CountryConfig {
    CountryConfig(u.code.GetOr(c.code), u.name.GetOr(c.name), u.segments.GetOr(c.segments))
  }

  /** Merges `u` into the entries with the code; the length and every other entry are unchanged. */
  function UpdateCountry(list: seq<CountryConfig>, code: string, u: CountryUpdate): (r: seq<CountryConfig>)
    ensures |r| == |list|
    ensures forall i :: 0 <= i < |list| && list[i].code != code ==> r[i] == list[i]
  {
    seq(|list|, i requires 0 <= i < |list| => if list[i].code == code then Merge(list[i], u) else list[i])
  }

  /**
   * An update that leaves the code alone keeps every code in place (so
   * distinct codes stay distinct) and sets the updated fields on the
   * matching entries; an empty update changes nothing.
   */
  lemma UpdateCountryEffect(list: seq<CountryConfig>, code: string, u: CountryUpdate)
    requires u.code.None?
    ensures var r := UpdateCountry(list, code, u);
            (forall i :: 0 <= i < |list| ==> r[i].code == list[i].code) &&
            (DistinctCodes(list) ==> DistinctCodes(r)) &&
            (forall i :: 0 <= i < |list| && list[i].code == code ==>
               (u.name.Some? ==> r[i].name == u.name.value) && (u.segments.Some? ==> r[i].segments == u.segments.value)) &&
            (u == CountryUpdate(None, None, None) ==> r == list)
  {
    var r := UpdateCountry(list, code, u);
    assert forall i :: 0 <= i < |list| ==> r[i].code == list[i].code;
  }

  // ---------------------------------------------------------------------------
  // The browser-storage hook (`useCountries`)

  /** The country list held in page state and in local storage under `ml-workflow-countries`. */
  class CountriesHook {
    var countries: seq<CountryConfig>
    var stored: Option<seq<CountryConfig>>

    /** Page state and local storage hold the same list. */
    predicate Synced()
      reads this
    {
      stored == Some(countries)
    }

    /** The initial load: the stored list if there is one, else the defaults, which are then stored. */
    constructor Load(storage: Option<seq<CountryConfig>>)
      ensures storage.Some? ==> countries == storage.value
      ensures storage.None? ==> countries == DefaultCountries
      ensures Synced()
    {
      if storage.Some? {
        countries := storage.value;
        stored := storage;
      } else {
        countries := DefaultCountries;
        stored := Some(DefaultCountries);
      }
    }

    /** Sets the page state, then writes the same list to local storage. */
    method Save(list: seq<CountryConfig>)
      modifies this
      ensures countries == list && Synced()
    {
      countries := list;
      stored := Some(list);
    }

    method Add(c: CountryConfig)
      modifies this
      ensures countries == AddCountry(old(countries), c)
      ensures HasCode(old(countries), c.code) ==> stored == old(stored)
      ensures !HasCode(old(countries), c.code) ==> Synced()
    {
      var exists_ := exists i :: 0 <= i < |countries| && countries[i].code == c.code;
      if exists_ {
        return;
      }
      Save(countries + [c]);
    }

    method Remove(code: string)
      modifies this
      ensures countries == RemoveCountry(old(countries), code) && Synced()
    {
      Save(Filter(countries, (c: CountryConfig) => c.code != code));
    }

    method Update(code: string, u: CountryUpdate)
      modifies this
      ensures countries == UpdateCountry(old(countries), code, u) && Synced()
    {
      var updated := seq(|countries|, i requires 0 <= i < |countries| reads this =>
        if countries[i].code == code then Merge(countries[i], u) else countries[i]);
      Save(updated);
    }
  }

  // ---------------------------------------------------------------------------
  // The backend-or-browser hook (`useCountriesLocal`)

  /** The value of an `app_config` entry, decoded: a country list, or text that does not decode to one. */
  datatype ConfigValue = CountryList(list: seq<CountryConfig>) | Undecodable(text: string)

  /** An entry of the backend's `app_config` table; an empty id is a missing one. */
  datatype ConfigEntry = ConfigEntry(id: string, key: string, value: ConfigValue)

  /** The position of the first entry with the key (`data.find(c => c.key === key)`). */
  function FirstWithKey(config: seq<ConfigEntry>, key: string): (r: Option<nat>)
    ensures r.Some? ==> r.value < |config| && config[r.value].key == key
    ensures r.Some? ==> forall j :: 0 <= j < r.value ==> config[j].key != key
    ensures r.None? ==> forall j :: 0 <= j < |config| ==> config[j].key != key
    decreases |config|
  {
    if |config| == 0 then None
    else if config[0].key == key then Some(0)
    else match FirstWithKey(config[1..], key)
      case None => None
      case Some(k) => Some(k + 1)
  }

  /** The position of the first entry with the id (the backend's `findIndex`). */
  function FirstWithId(config: seq<ConfigEntry>, id: string): (r: Option<nat>)
    ensures r.Some? ==> r.value < |config| && config[r.value].id == id
    ensures r.Some? ==> forall j :: 0 <= j < r.value ==> config[j].id != id
    ensures r.None? ==> forall j :: 0 <= j < |config| ==> config[j].id != id
    decreases |config|
  {
    if |config| == 0 then None
    else if config[0].id == id then Some(0)
    else match FirstWithId(config[1..], id)
      case None => None
      case Some(k) => Some(k + 1)
  }

  /**
   * The country list and the table after `fetchCountries` when the backend
   * answers: the first `countries` entry's list if it decodes, the defaults
   * otherwise; the table gains an entry only when it had none.
   */
  function Fetched(config: seq<ConfigEntry>, newId: string): (r: (seq<CountryConfig>, seq<ConfigEntry>))
    ensures FirstWithKey(r.1, "countries").Some?
    ensures FirstWithKey(config, "countries").Some? ==> r.1 == config
    ensures FirstWithKey(config, "countries").None? ==>
              r.1 == config + [ConfigEntry(newId, "countries", CountryList(DefaultCountries))]
    ensures var i := FirstWithKey(r.1, "countries").value;
            r.0 == if r.1[i].value.CountryList? then r.1[i].value.list else DefaultCountries
  {
    match FirstWithKey(config, "countries")
    case Some(i) =>
      (if config[i].value.CountryList? then config[i].value.list else DefaultCountries, config)
    case None =>
      FirstWithKeyAppended(config, ConfigEntry(newId, "countries", CountryList(DefaultCountries)), "countries");
      (DefaultCountries, config + [ConfigEntry(newId, "countries", CountryList(DefaultCountries))])
  }

  /** Fetching twice is fetching once: the second fetch posts nothing and reads the same list. */
  lemma FetchIdempotent(config: seq<ConfigEntry>, newId: string, laterId: string)
    ensures Fetched(Fetched(config, newId).1, laterId) == Fetched(config, newId)
  {
  }

  /**
   * The table after `saveCountries` when the backend answers: PATCH of the
   * existing entry if it has an id, else POST. Either one entry's value
   * changes, ids and keys staying in place, or a `countries` entry holding
   * the list is appended.
   */
  function Saved(config: seq<ConfigEntry>, list: seq<CountryConfig>, newId: string): (r: seq<ConfigEntry>)
    ensures |r| == |config| || r == config + [ConfigEntry(newId, "countries", CountryList(list))]
    ensures |r| == |config| ==>
              && (forall i :: 0 <= i < |r| ==> r[i].id == config[i].id && r[i].key == config[i].key)
              && (forall i, j :: 0 <= i < j < |r| && r[i] != config[i] ==> r[j] == config[j])
  {
    var existing := FirstWithKey(config, "countries");
    if existing.Some? && config[existing.value].id != "" then
      match FirstWithId(config, config[existing.value].id)
      case Some(j) => config[j := config[j].(value := CountryList(list))]
      case None => config
    else config + [ConfigEntry(newId, "countries", CountryList(list))]
  }

  /** Entry ids are unique and non-empty, as the backend generates them. */
  predicate WellKeyed(config: seq<ConfigEntry>) {
    (forall i :: 0 <= i < |config| ==> config[i].id != "") &&
    (forall i, j :: 0 <= i < j < |config| ==> config[i].id != config[j].id)
  }

  /** A fetch after a save reads back the saved list, whether the save patched or created the entry. */
  lemma SaveThenFetch(config: seq<ConfigEntry>, list: seq<CountryConfig>, newId: string, laterId: string)
    requires WellKeyed(config)
    ensures Fetched(Saved(config, list, newId), laterId).0 == list
    ensures Fetched(Saved(config, list, newId), laterId).1 == Saved(config, list, newId)
  {
    var saved := Saved(config, list, newId);
    var existing := FirstWithKey(config, "countries");
    if existing.Some? {
      var i := existing.value;
      var found := FirstWithId(config, config[i].id);
      assert found == Some(i);
      assert saved == config[i := config[i].(value := CountryList(list))];
      assert FirstWithKey(saved, "countries") == Some(i) by {
        FirstWithKeyUnchanged(config, saved, "countries", i);
      }
    } else {
      assert saved == config + [ConfigEntry(newId, "countries", CountryList(list))];
      FirstWithKeyAppended(config, ConfigEntry(newId, "countries", CountryList(list)), "countries");
    }
  }

  lemma FirstWithKeyUnchanged(a: seq<ConfigEntry>, b: seq<ConfigEntry>, key: string, i: nat)
    requires |a| == |b| && i < |a| && a[i].key == key && b[i].key == key
    requires forall j :: 0 <= j < i ==> a[j].key != key && b[j].key == a[j].key
    ensures FirstWithKey(b, key) == Some(i)
  {
  }

  lemma FirstWithKeyAppended(config: seq<ConfigEntry>, e: ConfigEntry, key: string)
    requires FirstWithKey(config, key).None? && e.key == key
    ensures FirstWithKey(config + [e], key) == Some(|config|)
    decreases |config|
  {
    if |config| > 0 {
      assert (config + [e])[1..] == config[1..] + [e];
      FirstWithKeyAppended(config[1..], e, key);
    }
  }

  /** The hook's state: the page list, local storage and, in local mode, the backend's `app_config` table. */
  class CountriesLocalHook {
    const localMode: bool
    var countries: seq<CountryConfig>
    var stored: Option<seq<CountryConfig>>
    var config: seq<ConfigEntry>

    /**
     * The mount effect: in local mode a fetch from the backend; otherwise the
     * stored list, or the defaults, which are then stored.
     */
    constructor Mount(localMode: bool, storage: Option<seq<CountryConfig>>, config: seq<ConfigEntry>,
                      reachable: bool, newId: string)
      ensures this.localMode == localMode
      ensures localMode && reachable ==> (countries, this.config) == Fetched(config, newId) && stored == storage
      ensures localMode && !reachable ==> countries == DefaultCountries && this.config == config && stored == storage
      ensures !localMode ==> this.config == config
      ensures !localMode && storage.Some? ==> countries == storage.value && stored == storage
      ensures !localMode && storage.None? ==> countries == DefaultCountries && stored == Some(DefaultCountries)
    {
      this.localMode := localMode;
      this.config := config;
      stored := storage;
      countries := [];
      new;
      if localMode {
        Fetch(reachable, newId);
      } else if storage.Some? {
        countries := storage.value;
      } else {
        countries := DefaultCountries;
        stored := Some(DefaultCountries);
      }
    }

    /**
     * `fetchCountries`: the `countries` entry if there is one (defaults if it
     * does not decode); without one, the defaults are posted and used; when
     * the backend cannot be reached or answers with an error, the defaults.
     */
    method Fetch(reachable: bool, newId: string)
      modifies this
      ensures reachable ==> (countries, config) == Fetched(old(config), newId)
      ensures !reachable ==> countries == DefaultCountries && config == old(config)
      ensures stored == old(stored)
    {
      if !reachable {
        countries := DefaultCountries;
        return;
      }
      var found := FirstWithKey(config, "countries");
      if found.Some? {
        var entry := config[found.value];
        if entry.value.CountryList? {
          countries := entry.value.list;
        } else {
          countries := DefaultCountries;
        }
      } else {
        config := config + [ConfigEntry(newId, "countries", CountryList(DefaultCountries))];
        countries := DefaultCountries;
      }
    }

    /**
     * `saveCountries`: the page state is set first; then the list goes to
     * the backend in local mode (lost when it cannot be reached) and to
     * local storage otherwise.
     */
    method Save(list: seq<CountryConfig>, reachable: bool, newId: string)
      modifies this
      ensures countries == list
      ensures localMode && reachable ==> config == Saved(old(config), list, newId) && stored == old(stored)
      ensures localMode && !reachable ==> config == old(config) && stored == old(stored)
      ensures !localMode ==> stored == Some(list) && config == old(config)
    {
      countries := list;
      if localMode {
        if reachable {
          var existing := FirstWithKey(config, "countries");
          if existing.Some? && config[existing.value].id != "" {
            var target := FirstWithId(config, config[existing.value].id);
            if target.Some? {
              var j := target.value;
              config := config[j := config[j].(value := CountryList(list))];
            }
          } else {
            config := config + [ConfigEntry(newId, "countries", CountryList(list))];
          }
        }
      } else {
        stored := Some(list);
      }
    }

    method Add(c: CountryConfig, reachable: bool, newId: string)
      modifies this
      ensures countries == AddCountry(old(countries), c)
      ensures HasCode(old(countries), c.code) ==> config == old(config) && stored == old(stored)
      ensures !HasCode(old(countries), c.code) && localMode && reachable ==> config == Saved(old(config), countries, newId) && stored == old(stored)
      ensures !HasCode(old(countries), c.code) && localMode && !reachable ==> config == old(config) && stored == old(stored)
      ensures !HasCode(old(countries), c.code) && !localMode ==> stored == Some(countries) && config == old(config)
    {
      var exists_ := exists i :: 0 <= i < |countries| && countries[i].code == c.code;
      if exists_ {
        return;
      }
      Save(countries + [c], reachable, newId);
    }

    method Remove(code: string, reachable: bool, newId: string)
      modifies this
      ensures countries == RemoveCountry(old(countries), code)
      ensures localMode && reachable ==> config == Saved(old(config), countries, newId) && stored == old(stored)
      ensures localMode && !reachable ==> config == old(config) && stored == old(stored)
      ensures !localMode ==> stored == Some(countries) && config == old(config)
    {
      Save(Filter(countries, (c: CountryConfig) => c.code != code), reachable, newId);
    }

    method Update(code: string, u: CountryUpdate, reachable: bool, newId: string)
      modifies this
      ensures countries == UpdateCountry(old(countries), code, u)
      ensures localMode && reachable ==> config == Saved(old(config), countries, newId) && stored == old(stored)
      ensures localMode && !reachable ==> config == old(config) && stored == old(stored)
      ensures !localMode ==> stored == Some(countries) && config == old(config)
    {
      var updated := seq(|countries|, i requires 0 <= i < |countries| reads this =>
        if countries[i].code == code then Merge(countries[i], u) else countries[i]);
      Save(updated, reachable, newId);
    }
  }
}
