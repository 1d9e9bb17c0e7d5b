/**
 * Per-identity limit overrides (identity-limits/identity-limits.service.ts): a
 * table keyed by (projectId, identity) with create-or-merge, update, delete and
 * bulk upsert. The repository is modelled as a map the service updates in place.
 */
module IdentityLimits {

  import opened Wrappers
  import opened Json

  /** A property of a request body: absent (`undefined`), `null`, or a value. */
  datatype Field<+T> = Undefined | Null | Defined(value: T)

  /** `a ?? b`: `b` when `a` is `null` or `undefined`. */
  function Coalesced<T>(a: Field<T>, b: Field<T>): (r: Field<T>)
    ensures a.Defined? ==> r == a
    ensures !a.Defined? ==> r == b
  {
    if a.Defined? then a else b
  }

  /** The table's key. */
  datatype Key = Key(projectId: string, identity: string)

  /** One stored override. */
  datatype IdentityLimit = IdentityLimit(
    projectId: string,
    identity: string,
    requestLimit: Field<int>,
    tokenLimit: Field<int>,
    customResponse: Field<Json>,
    metadata: Field<Json>,
    enabled: Field<bool>)

  /** The body of a create-or-merge. */
  datatype CreateDto = CreateDto(
    identity: string,
    requestLimit: Field<int>,
    tokenLimit: Field<int>,
    customResponse: Field<Json>,
    metadata: Field<Json>,
    enabled: Field<bool>)

  /** The body of an update: absent properties are `Undefined`. */
  datatype UpdateDto = UpdateDto(
    requestLimit: Field<int>,
    tokenLimit: Field<int>,
    customResponse: Field<Json>,
    metadata: Field<Json>,
    enabled: Field<bool>)

  /** The NotFound raised for a missing record, with its message. */
  datatype NotFound = NotFound(message: string)

  function NoLimits(identity: string): string {
    "No limits found for identity: " + identity
  }

  type Table = map<Key, IdentityLimit>

  /** A record is stored under its own project and identity. */
  ghost predicate WellKeyed(table: Table) {
    forall k :: k in table ==> table[k].projectId == k.projectId && table[k].identity == k.identity
  }

  /**
   * The record `upsert` saves: over an existing record every field is `dto ?? old`;
   * a new record takes the dto's fields as given and `enabled` defaults to true.
   */
  function Upserted(existing: Option<IdentityLimit>, projectId: string, dto: CreateDto): (r: IdentityLimit)
    requires existing.Some? ==> existing.value.projectId == projectId && existing.value.identity == dto.identity
    ensures r.projectId == projectId && r.identity == dto.identity
    ensures existing.Some? ==>
      && r.requestLimit == Coalesced(dto.requestLimit, existing.value.requestLimit)
      && r.tokenLimit == Coalesced(dto.tokenLimit, existing.value.tokenLimit)
      && r.customResponse == Coalesced(dto.customResponse, existing.value.customResponse)
      && r.metadata == Coalesced(dto.metadata, existing.value.metadata)
      && r.enabled == Coalesced(dto.enabled, existing.value.enabled)
    ensures existing.None? ==>
      && r.requestLimit == dto.requestLimit && r.tokenLimit == dto.tokenLimit
      && r.customResponse == dto.customResponse && r.metadata == dto.metadata
      && r.enabled == Coalesced(dto.enabled, Defined(true))
  {
    match existing
    case Some(prior) =>
      prior.(requestLimit := Coalesced(dto.requestLimit, prior.requestLimit),
             tokenLimit := Coalesced(dto.tokenLimit, prior.tokenLimit),
             customResponse := Coalesced(dto.customResponse, prior.customResponse),
             metadata := Coalesced(dto.metadata, prior.metadata),
             enabled := Coalesced(dto.enabled, prior.enabled))
    case None =>
      IdentityLimit(projectId, dto.identity, dto.requestLimit, dto.tokenLimit, dto.customResponse, dto.metadata,
                    Coalesced(dto.enabled, Defined(true)))
  }

  /** `Object.assign(existing, dto)` for a body of the declared properties: each one it carries, `null` included, is copied. */
  function Assigned(existing: IdentityLimit, dto: UpdateDto): (r: IdentityLimit)
    ensures r.projectId == existing.projectId && r.identity == existing.identity
    ensures dto.requestLimit != Undefined ==> r.requestLimit == dto.requestLimit
    ensures dto.requestLimit == Undefined ==> r.requestLimit == existing.requestLimit
    ensures dto.tokenLimit != Undefined ==> r.tokenLimit == dto.tokenLimit
    ensures dto.tokenLimit == Undefined ==> r.tokenLimit == existing.tokenLimit
    ensures dto.customResponse != Undefined ==> r.customResponse == dto.customResponse
    ensures dto.customResponse == Undefined ==> r.customResponse == existing.customResponse
    ensures dto.metadata != Undefined ==> r.metadata == dto.metadata
    ensures dto.metadata == Undefined ==> r.metadata == existing.metadata
    ensures dto.enabled != Undefined ==> r.enabled == dto.enabled
    ensures dto.enabled == Undefined ==> r.enabled == existing.enabled
  {
    existing.(requestLimit := if dto.requestLimit.Undefined? then existing.requestLimit else dto.requestLimit,
              tokenLimit := if dto.tokenLimit.Undefined? then existing.tokenLimit else dto.tokenLimit,
              customResponse := if dto.customResponse.Undefined? then existing.customResponse else dto.customResponse,
              metadata := if dto.metadata.Undefined? then existing.metadata else dto.metadata,
              enabled := if dto.enabled.Undefined? then existing.enabled else dto.enabled)
  }

  /** The table after `upsert`: the one key is (re)written and no other changes. */
  function UpsertTable(table: Table, projectId: string, dto: CreateDto): (r: Table)
    requires WellKeyed(table)
    ensures WellKeyed(r)
    ensures r.Keys == table.Keys + {Key(projectId, dto.identity)}
    ensures forall k :: k in table && k != Key(projectId, dto.identity) ==> r[k] == table[k]
  {
    var key := Key(projectId, dto.identity);
    table[key := Upserted(if key in table then Some(table[key]) else None, projectId, dto)]
  }

  /** The results and the table after upserting `items` one after another. */
  function BulkUpserted(table: Table, projectId: string, items: seq<CreateDto>): (r: (seq<IdentityLimit>, Table))
    requires WellKeyed(table)
    ensures WellKeyed(r.1)
    ensures |r.0| == |items|
    ensures forall k :: 0 <= k < |items| ==> r.0[k].projectId == projectId && r.0[k].identity == items[k].identity
    decreases |items|
  {
    if |items| == 0 then ([], table)
    else
      var front := BulkUpserted(table, projectId, items[..|items| - 1]);
      var last := items[|items| - 1];
      var key := Key(projectId, last.identity);
      var record := Upserted(if key in front.1 then Some(front.1[key]) else None, projectId, last);
      (front.0 + [record], UpsertTable(front.1, projectId, last))
  }

  /** `listForProject`'s paging: `take = limit || 100`, `skip = offset || 0`. */
  function Paging(limit: Option<int>, offset: Option<int>): (r: (int, int))
    ensures limit.None? || limit == Some(0) ==> r.0 == 100
    ensures offset.None? ==> r.1 == 0
    ensures limit.Some? && limit.value != 0 ==> r.0 == limit.value
    ensures offset.Some? ==> r.1 == offset.value
  {
    (if limit.Some? && limit.value != 0 then limit.value else 100,
     if offset.Some? && offset.value != 0 then offset.value else 0)
  }

  /** The keys of one project's records. */
  function ProjectKeys(table: Table, projectId: string): (keys: set<Key>)
    ensures forall k :: k in keys <==> k in table && k.projectId == projectId
  {
    set k | k in table && k.projectId == projectId
  }

  /** `listForProject`'s `total`: the number of the project's records. */
  function Total(table: Table, projectId: string): (n: nat)
    ensures n <= |table.Keys|
  {
    SubsetCard(ProjectKeys(table, projectId), table.Keys);
    |ProjectKeys(table, projectId)|
  }

  lemma SubsetCard<T>(a: set<T>, b: set<T>)
    requires a <= b
    ensures |a| <= |b|
  {
    if a != {} {
      var x :| x in a;
      SubsetCard(a - {x}, b - {x});
    }
  }

  class IdentityLimitsService {

    var table: Table

    constructor()
      ensures table == map[]
    {
      table := map[];
    }

    ghost predicate Valid()
      reads this
    {
      WellKeyed(table)
    }

    /** `getForIdentity`: the record for the key, or null. */
    function GetForIdentity(projectId: string, identity: string): (r: Option<IdentityLimit>)
      reads this
      ensures r.Some? <==> Key(projectId, identity) in table
      ensures r.Some? ==> r.value == table[Key(projectId, identity)]
    {
      var key := Key(projectId, identity);
      if key in table then Some(table[key]) else None
    }

    /** `isEnabled`: `limit?.enabled ?? true`, so only a record explicitly disabled turns the identity off. */
    function IsEnabled(projectId: string, identity: string): (r: bool)
      reads this
      ensures r <==> !(Key(projectId, identity) in table && table[Key(projectId, identity)].enabled == Defined(false))
      ensures Key(projectId, identity) in table && table[Key(projectId, identity)].enabled.Defined?
              ==> r == table[Key(projectId, identity)].enabled.value
    {
      match GetForIdentity(projectId, identity)
      case None => true
      case Some(limit) => if limit.enabled.Defined? then limit.enabled.value else true
    }

    /** `upsert`: create the record, or merge the dto over it with `??`. */
    method Upsert(projectId: string, dto: CreateDto) returns (r: IdentityLimit)
      requires Valid()
      modifies this
      ensures Valid()
      ensures table == UpsertTable(old(table), projectId, dto)
      ensures r == table[Key(projectId, dto.identity)]
    {
      var existing := GetForIdentity(projectId, dto.identity);
      r := Upserted(existing, projectId, dto);
      table := table[Key(projectId, dto.identity) := r];
    }

    /** `update`: NotFound for a missing record, else `Object.assign` of the dto. */
    method Update(projectId: string, identity: string, dto: UpdateDto) returns (r: Result<IdentityLimit, NotFound>)
      requires Valid()
      modifies this
      ensures Valid()
      ensures Key(projectId, identity) !in old(table) ==> r == Err(NotFound(NoLimits(identity))) && table == old(table)
      ensures Key(projectId, identity) in old(table) ==>
        var updated := Assigned(old(table)[Key(projectId, identity)], dto);
        r == Ok(updated) && table == old(table)[Key(projectId, identity) := updated]
    {
      var existing := GetForIdentity(projectId, identity);
      if existing.None? {
        return Err(NotFound(NoLimits(identity)));
      }
      var updated := Assigned(existing.value, dto);
      table := table[Key(projectId, identity) := updated];
      r := Ok(updated);
    }

    /** `delete`: NotFound when no row was affected. */
    method Delete(projectId: string, identity: string) returns (r: Result<(), NotFound>)
      requires Valid()
      modifies this
      ensures Valid()
      ensures table == old(table) - {Key(projectId, identity)}
      ensures r.Err? <==> Key(projectId, identity) !in old(table)
      ensures r.Err? ==> r.error == NotFound(NoLimits(identity))
    {
      var key := Key(projectId, identity);
      var affected := if key in table then 1 else 0;
      table := table - {key};
      if affected == 0 {
        return Err(NotFound(NoLimits(identity)));
      }
      r := Ok(());
    }

    /** `bulkUpsert`: the items are upserted in order, one result each. */
    method BulkUpsert(projectId: string, items: seq<CreateDto>) returns (results: seq<IdentityLimit>)
      requires Valid()
      modifies this
      ensures Valid()
      ensures (results, table) == BulkUpserted(old(table), projectId, items)
    {
      results := [];
      var i := 0;
      while i < |items|
        invariant 0 <= i <= |items|
        invariant Valid()
        invariant (results, table) == BulkUpserted(old(table), projectId, items[..i])
      {
        assert items[..i + 1][..i] == items[..i];
        var result := Upsert(projectId, items[i]);
        results := results + [result];
        i := i + 1;
      }
      assert items[..i] == items;
    }
  }

  // ---------------------------------------------------------------------------
  // Properties.

  /** Upserting the same body twice stores what upserting it once stores. */
  lemma UpsertIdempotent(table: Table, projectId: string, dto: CreateDto)
    requires WellKeyed(table)
    ensures UpsertTable(UpsertTable(table, projectId, dto), projectId, dto) == UpsertTable(table, projectId, dto)
  {
  }

  /** An upsert cannot clear a limit: a limit already set stays set, to the new value when one is given. */
  lemma UpsertCannotClearLimits(table: Table, projectId: string, dto: CreateDto)
    requires WellKeyed(table)
    requires Key(projectId, dto.identity) in table
    ensures var before := table[Key(projectId, dto.identity)];
            var after := UpsertTable(table, projectId, dto)[Key(projectId, dto.identity)];
            && (before.requestLimit.Defined? ==> after.requestLimit.Defined?)
            && (before.tokenLimit.Defined? ==> after.tokenLimit.Defined?)
            && (before.enabled.Defined? ==> after.enabled.Defined?)
  {
  }

  /** `update` with an explicit null does clear a limit. */
  lemma UpdateCanClearLimit(existing: IdentityLimit, dto: UpdateDto)
    requires dto.requestLimit == Null
    ensures Assigned(existing, dto).requestLimit == Null
  {
  }

  /** A new record is enabled unless the body says `enabled: false`. */
  lemma NewRecordEnabledByDefault(table: Table, projectId: string, dto: CreateDto)
    requires WellKeyed(table)
    requires Key(projectId, dto.identity) !in table
    ensures var r := UpsertTable(table, projectId, dto)[Key(projectId, dto.identity)];
            r.enabled == (if dto.enabled.Defined? then dto.enabled else Defined(true))
  {
  }

  /** A new identity adds one to the project's total; an existing one leaves it unchanged. */
  lemma UpsertTotal(table: Table, projectId: string, dto: CreateDto)
    requires WellKeyed(table)
    ensures Total(UpsertTable(table, projectId, dto), projectId)
         == Total(table, projectId) + (if Key(projectId, dto.identity) in table then 0 else 1)
  {
    var key := Key(projectId, dto.identity);
    var after := UpsertTable(table, projectId, dto);
    assert after == table[key := after[key]];
    CountAfterStore(table, projectId, key, after[key]);
  }

  /** Storing a record of the project under a key adds that key to the project's count unless it was there. */
  lemma CountAfterStore(table: Table, projectId: string, key: Key, record: IdentityLimit)
    requires key.projectId == projectId
    ensures Total(table[key := record], projectId) == Total(table, projectId) + (if key in table then 0 else 1)
  {
    var before := ProjectKeys(table, projectId);
    assert ProjectKeys(table[key := record], projectId) == before + {key};
    if key in table {
      assert key in before;
    }
  }

  /** Bulk upsert of one item is a single upsert. */
  lemma BulkOfOne(table: Table, projectId: string, dto: CreateDto)
    requires WellKeyed(table)
    ensures BulkUpserted(table, projectId, [dto]).1 == UpsertTable(table, projectId, dto)
  {
    assert [dto][..0] == [];
  }

  /** Identities the bulk items do not name keep their records. */
  lemma {:induction false} BulkLeavesOthers(table: Table, projectId: string, items: seq<CreateDto>, key: Key)
    requires WellKeyed(table)
    requires key in table
    requires key.projectId != projectId || forall k :: 0 <= k < |items| ==> items[k].identity != key.identity
    ensures key in BulkUpserted(table, projectId, items).1
    ensures BulkUpserted(table, projectId, items).1[key] == table[key]
    decreases |items|
  {
    if |items| > 0 {
      BulkLeavesOthers(table, projectId, items[..|items| - 1], key);
    }
  }

  /** After a bulk upsert every named identity has a record. */
  lemma {:induction false} BulkStoresEveryItem(table: Table, projectId: string, items: seq<CreateDto>, k: int)
    requires WellKeyed(table)
    requires 0 <= k < |items|
    ensures Key(projectId, items[k].identity) in BulkUpserted(table, projectId, items).1
    decreases |items|
  {
    if k < |items| - 1 {
      BulkStoresEveryItem(table, projectId, items[..|items| - 1], k);
    }
  }
}
