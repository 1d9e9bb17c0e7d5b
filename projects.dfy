/**
 * The project configuration the gateway reads (its own code for projects is not
 * part of this model): provider credentials, limit settings, tiers and the
 * per-project feature switches. Strings that may be unset are "" when unset,
 * which is how the code tests them (`project.baseUrl || …`).
 */
module Projects {

  import opened Wrappers
  import opened Json

  /** One entry of `providerKeys`; `baseUrl` is "" when not configured. */
  datatype ProviderKey = ProviderKey(apiKey: string, baseUrl: string)

  /** The limits of one tier: `requestLimit`, `tokenLimit`, `customResponse`. */
  datatype TierConfig = TierConfig(requestLimit: Option<int>, tokenLimit: Option<int>, customResponse: Option<Json>)

  datatype Project = Project(
    id: string,
    /** `providerKeys` in `Object.keys` order; empty when unset. */
    providerKeys: seq<(string, ProviderKey)>,
    /** The legacy single-provider configuration. */
    provider: string,
    openaiApiKey: string,
    baseUrl: string,
    limitType: string,
    limitPeriod: string,
    dailyRequestLimit: Option<int>,
    dailyTokenLimit: Option<int>,
    /** `tiers` in `Object.keys` order; `None` when the project has none. */
    tiers: Option<seq<(string, TierConfig)>>,
    limitExceededResponse: string,
    sessionLimitsEnabled: bool,
    anonymizationEnabled: bool,
    securityEnabled: bool,
    securityMode: string)

  /** A configuration object read from the database: no key appears twice. */
  predicate DistinctKeys<V>(entries: seq<(string, V)>) {
    forall i, j :: 0 <= i < j < |entries| ==> entries[i].0 != entries[j].0
  }

  /** The project's keyed records are objects, so their keys are distinct. */
  predicate WellFormedProject(project: Project) {
    DistinctKeys(project.providerKeys) && (project.tiers.Some? ==> DistinctKeys(project.tiers.value))
  }

  /**
   * The members every plain object inherits from `Object.prototype`: reading one
   * of these names from a record without an own entry of that name yields the
   * inherited member, not `undefined`.
   */
  predicate InheritedName(name: string) {
    name == "constructor" || name == "__proto__" || name == "hasOwnProperty" || name == "isPrototypeOf"
    || name == "propertyIsEnumerable" || name == "toString" || name == "toLocaleString" || name == "valueOf"
    || name == "__defineGetter__" || name == "__defineSetter__" || name == "__lookupGetter__" || name == "__lookupSetter__"
  }

  /** The own entry of `record[key]` on an object given by its entries (first entry of that key). */
  function Lookup<V>(entries: seq<(string, V)>, key: string): (r: Option<V>)
    ensures r.Some? <==> exists k :: 0 <= k < |entries| && entries[k].0 == key
    ensures r.Some? ==> exists k :: 0 <= k < |entries| && entries[k] == (key, r.value)
  {
    if |entries| == 0 then None
    else if entries[0].0 == key then Some(entries[0].1)
    else
      var r := Lookup(entries[1..], key);
      assert forall k :: 0 <= k < |entries| - 1 ==> entries[1..][k] == entries[k + 1];
      r
  }

  /** With distinct keys, the lookup of an entry's key finds that entry. */
  lemma {:induction false} LookupDistinct<V>(entries: seq<(string, V)>, k: int)
    requires DistinctKeys(entries) && 0 <= k < |entries|
    ensures Lookup(entries, entries[k].0) == Some(entries[k].1)
    decreases k
  {
    if k > 0 {
      assert entries[0].0 != entries[k].0;
      assert DistinctKeys(entries[1..]) by {
        forall i, j | 0 <= i < j < |entries| - 1 ensures entries[1..][i].0 != entries[1..][j].0 {
          assert entries[1..][i] == entries[i + 1] && entries[1..][j] == entries[j + 1];
        }
      }
      assert entries[1..][k - 1] == entries[k];
      LookupDistinct(entries[1..], k - 1);
    }
  }
}
