/**
 * The storage-configuration registry of s3.go: per-user `S3Config` records
 * kept in the embedded key-value store under `user_config_{user}_{id}`,
 * listed in key order, with the default-configuration bookkeeping, the
 * configuration handlers, the redacted list view and the CSV row mapping of
 * the bulk import/export handlers.
 *
 * The store is the class `ConfigStore`; its contents at any moment are the
 * value `Db`, on which the effect of every handler is stated as a function.
 */
module Registry {
  import opened Outcomes
  import opened Text
  import KeyOrder

  /** One backend binding of one user (s3.go:22-36). */
  datatype S3Config = S3Config(
    id: string,
    userId: string,
    name: string,
    accessKey: string,
    secretKey: string,
    region: string,
    bucketName: string,
    endpointUrl: string,
    useSsl: bool,
    storageType: string,
    isDefault: bool,
    createdAt: string,
    updatedAt: string)

  /** The `error` or `message` of a handler's JSON reply. */
  datatype Msg =
    | ConfigFound
    | ConfigNotFound
    | InvalidConfigData
    | ClientCreateFailed
    | StorageUnreachable(err: string)
    | CannotDeleteLast
    | ConfigDeleted
    | ConfigCreated
    | ConfigUpdated
    | NotAuthenticated
    | UsernameRequired
    | MinioFailed(err: string)
    | MinioConfigured
    | Forbidden
    | Recovered

  /** The text each reply carries on the wire. */
  function MsgText(m: Msg): string {
    match m
    case ConfigFound => ""
    case ConfigNotFound => "Configuration not found"
    case InvalidConfigData => "Invalid configuration data"
    case ClientCreateFailed => "Failed to create storage client"
    case StorageUnreachable(e) => "Failed to connect to storage: " + e
    case CannotDeleteLast => "Cannot delete the last configuration"
    case ConfigDeleted => "Configuration deleted successfully"
    case ConfigCreated => "Configuration created successfully"
    case ConfigUpdated => "Configuration updated successfully"
    case NotAuthenticated => "User not authenticated"
    case UsernameRequired => "Username is required"
    case MinioFailed(e) => "Failed to create MinIO configuration: " + e
    case MinioConfigured => "MinIO configuration created successfully"
    case Forbidden => "Forbidden"
    case Recovered => ""
  }

  /** An HTTP status and the message of the JSON reply. */
  datatype Reply = Reply(status: int, msg: Msg)

  /** What creating a backend client and listing one object reported.
      `ClientFailed` is a failed session: `createS3Client` returns nil for a
      `minio` configuration and panics (`session.Must`) for any other. */
  datatype Probe = ClientFailed | ConnectFailed(err: string) | Connected

  function ConfigPrefix(userId: string): string {
    "user_config_" + userId + "_"
  }

  function ConfigKey(userId: string, id: string): string {
    ConfigPrefix(userId) + id
  }

  /** The key `saveConfig` writes a record under: taken from the record itself. */
  function KeyOf(c: S3Config): string {
    ConfigKey(c.userId, c.id)
  }

  lemma ConfigKeyInjective(userId: string, a: string, b: string)
    requires ConfigKey(userId, a) == ConfigKey(userId, b)
    ensures a == b
  {
    var p := ConfigPrefix(userId);
    assert a == (p + a)[|p|..] && b == (p + b)[|p|..];
  }

  // ------------------------------------------------------------- the store

  /** The configuration keyspace: its keys in iteration order and the record
      stored under each. */
  datatype Db = Db(keys: seq<string>, records: map<string, S3Config>)

  /** Keys are listed once each, in order, and every record sits under the
      key `saveConfig` computes from it. */
  ghost predicate WellFormed(db: Db) {
    && KeyOrder.Sorted(db.keys)
    && (forall k :: k in db.keys ==> k in db.records)
    && (forall k :: k in db.records ==> k in db.keys)
    && (forall k :: k in db.records ==> KeyOf(db.records[k]) == k)
  }

  /** The keys of `ks` that start with `prefix`, in order: what a prefix
      iteration (`Seek(prefix)` while `ValidForPrefix(prefix)`) visits. */
  function Scan(ks: seq<string>, prefix: string): (r: seq<string>)
    ensures forall k :: k in r <==> k in ks && HasPrefix(k, prefix)
    ensures |r| <= |ks|
  {
    if |ks| == 0 then []
    else
      var last := ks[|ks| - 1];
      assert forall k :: k in ks <==> k in ks[..|ks| - 1] || k == last by {
        assert ks == ks[..|ks| - 1] + [last];
      }
      Scan(ks[..|ks| - 1], prefix) + (if HasPrefix(last, prefix) then [last] else [])
  }

  lemma {:induction false} ScanSorted(ks: seq<string>, prefix: string)
    requires KeyOrder.Sorted(ks)
    ensures KeyOrder.Sorted(Scan(ks, prefix))
    decreases |ks|
  {
    if |ks| > 0 {
      var init := ks[..|ks| - 1];
      var last := ks[|ks| - 1];
      ScanSorted(init, prefix);
      var s := Scan(init, prefix);
      if HasPrefix(last, prefix) {
        var r := s + [last];
        forall i, j | 0 <= i < j < |r| ensures KeyOrder.Less(r[i], r[j]) {
          if j == |r| - 1 {
            assert r[i] in init;
            var m :| 0 <= m < |init| && init[m] == r[i];
          }
        }
      }
    }
  }

  function UserKeys(db: Db, userId: string): seq<string> {
    Scan(db.keys, ConfigPrefix(userId))
  }

  lemma ScanSnoc(ks: seq<string>, k: string, prefix: string)
    ensures Scan(ks + [k], prefix) == Scan(ks, prefix) + (if HasPrefix(k, prefix) then [k] else [])
  {
    assert (ks + [k])[..|ks|] == ks;
  }

  /** The records stored under the keys `ks`, in the same order. */
  function Project(recs: map<string, S3Config>, ks: seq<string>): (r: seq<S3Config>)
    requires forall k :: k in ks ==> k in recs
    ensures |r| == |ks|
    ensures forall i :: 0 <= i < |r| ==> r[i] == recs[ks[i]]
  {
    if |ks| == 0 then []
    else Project(recs, ks[..|ks| - 1]) + [recs[ks[|ks| - 1]]]
  }

  lemma ProjectSnoc(recs: map<string, S3Config>, ks: seq<string>, k: string)
    requires forall x :: x in ks ==> x in recs
    requires k in recs
    ensures Project(recs, ks + [k]) == Project(recs, ks) + [recs[k]]
  {
    assert (ks + [k])[..|ks|] == ks;
  }

  /** One step of a prefix iteration: the next key is kept when it carries
      the prefix. */
  lemma ProjectScanStep(recs: map<string, S3Config>, ks: seq<string>, i: nat, prefix: string)
    requires i < |ks| && forall k :: k in ks ==> k in recs
    ensures forall k :: k in Scan(ks[..i], prefix) ==> k in recs
    ensures forall k :: k in Scan(ks[..i + 1], prefix) ==> k in recs
    ensures Project(recs, Scan(ks[..i + 1], prefix)) ==
              Project(recs, Scan(ks[..i], prefix)) + (if HasPrefix(ks[i], prefix) then [recs[ks[i]]] else [])
  {
    assert ks[..i + 1] == ks[..i] + [ks[i]];
    ScanSnoc(ks[..i], ks[i], prefix);
    if HasPrefix(ks[i], prefix) {
      ProjectSnoc(recs, Scan(ks[..i], prefix), ks[i]);
    }
  }

  /** `getUserConfigs`: the records under the user's prefix, in key order. */
  function Listing(db: Db, userId: string): (r: seq<S3Config>)
    requires WellFormed(db)
    ensures |r| == |UserKeys(db, userId)|
    ensures forall i :: 0 <= i < |r| ==> UserKeys(db, userId)[i] in db.records
    ensures forall i :: 0 <= i < |r| ==> r[i] == db.records[UserKeys(db, userId)[i]]
  {
    Project(db.records, UserKeys(db, userId))
  }

  /** The listed configs that really belong to the user: the listing with
      the records of users whose name extends `userId` with `_` dropped. */
  function OwnedOnly(configs: seq<S3Config>, userId: string): (r: seq<S3Config>)
    ensures forall c :: c in r <==> c in configs && c.userId == userId
  {
    if |configs| == 0 then []
    else (if configs[0].userId == userId then [configs[0]] else []) + OwnedOnly(configs[1..], userId)
  }

  function OwnedConfigs(db: Db, userId: string): seq<S3Config>
    requires WellFormed(db)
  {
    OwnedOnly(Listing(db, userId), userId)
  }

  /** The set of keys under the user's prefix, and those holding a default. */
  function OwnKeys(db: Db, userId: string): set<string> {
    set k | k in db.records && HasPrefix(k, ConfigPrefix(userId))
  }

  function DefaultKeys(db: Db, userId: string): set<string> {
    set k | k in db.records && HasPrefix(k, ConfigPrefix(userId)) && db.records[k].isDefault
  }

  /** The one-default rule the delete handler's promotion (s3.go:175-181)
      works to keep: a user with configurations has exactly one default
      among them. */
  predicate OneDefault(db: Db, userId: string) {
    OwnKeys(db, userId) != {} ==> |DefaultKeys(db, userId)| == 1
  }

  /** Every record under the user's prefix really belongs to the user. This
      fails when another user's name extends the user's with `_` (see
      `ListingCrossesUsers`). */
  ghost predicate Owned(db: Db, userId: string) {
    forall k :: k in db.records && HasPrefix(k, ConfigPrefix(userId)) ==> db.records[k].userId == userId
  }

  /** `saveConfig`: stamps `UpdatedAt` (and an empty `CreatedAt`) with the
      current time and writes the record under its own key. */
  function Stamp(c: S3Config, now: string): S3Config {
    c.(updatedAt := now, createdAt := if c.createdAt == "" then now else c.createdAt)
  }

  function Put(db: Db, c: S3Config, now: string): (r: Db)
    requires WellFormed(db)
    ensures WellFormed(r)
    ensures r.records == db.records[KeyOf(c) := Stamp(c, now)]
    ensures KeyOf(c) in db.records ==> r.keys == db.keys
  {
    Db(KeyOrder.Insert(db.keys, KeyOf(c)), db.records[KeyOf(c) := Stamp(c, now)])
  }

  /** `deleteConfig`: removes one key; deleting an absent key is no error. */
  function Del(db: Db, k: string): (r: Db)
    requires WellFormed(db)
    ensures WellFormed(r)
    ensures r.records == db.records - {k}
  {
    Db(KeyOrder.Remove(db.keys, k), db.records - {k})
  }

  // ------------------------------------------------------- listing searches

  /** The index of the first listed config with the given id. */
  function FirstWithId(configs: seq<S3Config>, id: string): (r: Option<nat>)
    ensures r.Some? ==> r.value < |configs| && configs[r.value].id == id
    ensures forall j :: 0 <= j < |configs| && (r.None? || j < r.value) ==> configs[j].id != id
  {
    if |configs| == 0 then None
    else if configs[0].id == id then Some(0)
    else match FirstWithId(configs[1..], id)
      case None => None
      case Some(i) => Some(i + 1)
  }

  /** The index of the first listed config whose id differs from `id`. */
  function FirstOtherThan(configs: seq<S3Config>, id: string): (r: Option<nat>)
    ensures r.Some? ==> r.value < |configs| && configs[r.value].id != id
    ensures forall j :: 0 <= j < |configs| && (r.None? || j < r.value) ==> configs[j].id == id
  {
    if |configs| == 0 then None
    else if configs[0].id != id then Some(0)
    else match FirstOtherThan(configs[1..], id)
      case None => None
      case Some(i) => Some(i + 1)
  }

  /** The index of the first listed config flagged as default. */
  function FirstDefault(configs: seq<S3Config>): (r: Option<nat>)
    ensures r.Some? ==> r.value < |configs| && configs[r.value].isDefault
    ensures forall j :: 0 <= j < |configs| && (r.None? || j < r.value) ==> !configs[j].isDefault
  {
    if |configs| == 0 then None
    else if configs[0].isDefault then Some(0)
    else match FirstDefault(configs[1..])
      case None => None
      case Some(i) => Some(i + 1)
  }

  predicate HasDefaultWithId(configs: seq<S3Config>, id: string) {
    exists j :: 0 <= j < |configs| && configs[j].id == id && configs[j].isDefault
  }

  /** `getDefaultConfig` (s3.go:233-251). */
  function DefaultConfig(configs: seq<S3Config>): (r: Result<S3Config>)
    ensures r.Err? <==> |configs| == 0
    ensures r.Err? ==> r.msg == "no configurations found"
    ensures r.Ok? ==> r.value in configs
    ensures (exists c :: c in configs && c.isDefault) ==>
              r.Ok? && r.value.isDefault
              && exists i :: 0 <= i < |configs| && configs[i] == r.value
                   && forall j :: 0 <= j < i ==> !configs[j].isDefault
    ensures |configs| > 0 && (forall c :: c in configs ==> !c.isDefault) ==> r == Ok(configs[0])
  {
    match FirstDefault(configs)
    case Some(i) => Ok(configs[i])
    case None => if |configs| > 0 then Ok(configs[0]) else Err("no configurations found")
  }

  // ------------------------------------------------- default bookkeeping

  /** Phase one of `setDefaultConfig`: each listed default, in listing
      order, is saved again with the flag cleared. */
  function ClearDefaults(recs: map<string, S3Config>, ks: seq<string>, now: string): map<string, S3Config>
    requires forall k :: k in ks ==> k in recs
  {
    if |ks| == 0 then recs
    else
      var last := ks[|ks| - 1];
      var before := ClearDefaults(recs, ks[..|ks| - 1], now);
      if recs[last].isDefault then before[last := Stamp(recs[last].(isDefault := false), now)] else before
  }

  lemma ClearDefaultsSnoc(recs: map<string, S3Config>, ks: seq<string>, i: nat, now: string)
    requires i < |ks| && forall k :: k in ks ==> k in recs
    ensures forall k :: k in ks[..i] ==> k in recs
    ensures ClearDefaults(recs, ks[..i + 1], now) ==
              if recs[ks[i]].isDefault
              then ClearDefaults(recs, ks[..i], now)[ks[i] := Stamp(recs[ks[i]].(isDefault := false), now)]
              else ClearDefaults(recs, ks[..i], now)
  {
    assert ks[..i + 1][..i] == ks[..i];
  }

  /** After phase one exactly the listed defaults are rewritten, each with
      its flag off, and no key is added or dropped. */
  lemma {:induction false} ClearDefaultsEffect(recs: map<string, S3Config>, ks: seq<string>, now: string)
    requires forall k :: k in ks ==> k in recs
    ensures ClearDefaults(recs, ks, now).Keys == recs.Keys
    ensures forall k :: k in recs ==>
              ClearDefaults(recs, ks, now)[k] ==
                if k in ks && recs[k].isDefault then Stamp(recs[k].(isDefault := false), now) else recs[k]
    decreases |ks|
  {
    if |ks| > 0 {
      var init, last := ks[..|ks| - 1], ks[|ks| - 1];
      assert ks == init + [last];
      ClearDefaultsEffect(recs, init, now);
      var before := ClearDefaults(recs, init, now);
      forall k | k in recs
        ensures ClearDefaults(recs, ks, now)[k] ==
                  if k in ks && recs[k].isDefault then Stamp(recs[k].(isDefault := false), now) else recs[k]
      {
        if k != last {
          assert k in ks <==> k in init;
          assert ClearDefaults(recs, ks, now)[k] == before[k];
        }
      }
    }
  }

  /** `setDefaultConfig` (s3.go:207-231): clear every default in the user's
      listing, then flag the first listed config with the given id. */
  function SetDefault(db: Db, userId: string, id: string, now: string): (r: Db)
    requires WellFormed(db)
    ensures r.keys == db.keys
  {
    var ks := UserKeys(db, userId);
    var configs := Listing(db, userId);
    var cleared := ClearDefaults(db.records, ks, now);
    match FirstWithId(configs, id)
    case None => Db(db.keys, cleared)
    case Some(i) => Db(db.keys, cleared[ks[i] := Stamp(configs[i].(isDefault := true), now)])
  }

  lemma SetDefaultFound(db: Db, userId: string, id: string, now: string, i: nat)
    requires WellFormed(db) && FirstWithId(Listing(db, userId), id) == Some(i)
    ensures i < |UserKeys(db, userId)|
    ensures SetDefault(db, userId, id, now) ==
              Db(db.keys, ClearDefaults(db.records, UserKeys(db, userId), now)[UserKeys(db, userId)[i] :=
                   Stamp(Listing(db, userId)[i].(isDefault := true), now)])
  {
  }

  lemma SetDefaultNotFound(db: Db, userId: string, id: string, now: string)
    requires WellFormed(db) && FirstWithId(Listing(db, userId), id) == None
    ensures SetDefault(db, userId, id, now) == Db(db.keys, ClearDefaults(db.records, UserKeys(db, userId), now))
  {
  }

  /** The re-defaulting step of the delete logic: the first config of the
      earlier listing `configs` whose id differs from the deleted one becomes
      the default. */
  function PromoteFirstOtherEffect(db: Db, userId: string, configs: seq<S3Config>, id: string, now: string): Db
    requires WellFormed(db)
  {
    match FirstOtherThan(configs, id)
    case None => db
    case Some(j) => SetDefault(db, userId, configs[j].id, now)
  }

  /** `DeleteConfig` (s3.go:146-184). */
  function DeleteConfigEffect(db: Db, userId: string, id: string, now: string): (Reply, Db)
    requires WellFormed(db)
  {
    var configs := Listing(db, userId);
    if |configs| <= 1 then (Reply(400, CannotDeleteLast), db)
    else
      var db1 := Del(db, ConfigKey(userId, id));
      var db2 := if HasDefaultWithId(configs, id) then PromoteFirstOtherEffect(db1, userId, configs, id, now) else db1;
      (Reply(200, ConfigDeleted), db2)
  }

  /** The record an update stores: identity, ownership, creation time and the
      default flag come from the stored record, the rest from the request. */
  function Merge(existing: S3Config, request: S3Config): S3Config {
    request.(id := existing.id, userId := existing.userId,
             createdAt := existing.createdAt, isDefault := existing.isDefault)
  }

  /** The reply to a failed probe of a configuration of `storageType`; the
      panic of a non-`minio` session is answered 500 with an empty body by
      the router's recovery middleware. */
  function ProbeFailure(p: Probe, storageType: string): Reply
    requires !p.Connected?
  {
    match p
    case ClientFailed => if storageType == "minio" then Reply(400, ClientCreateFailed) else Reply(500, Recovered)
    case ConnectFailed(e) => Reply(400, StorageUnreachable(e))
  }

  /** `CreateConfig` (s3.go:782-826). */
  function CreateConfigEffect(db: Db, userId: string, request: Option<S3Config>, newId: string,
                              probe: Probe, now: string): (Reply, Db)
    requires WellFormed(db)
  {
    if request.None? then (Reply(400, InvalidConfigData), db)
    else
      var c := request.value.(id := newId, userId := userId);
      if !probe.Connected? then (ProbeFailure(probe, c.storageType), db)
      else
        var c' := if |Listing(db, userId)| == 0 then c.(isDefault := true) else c;
        (Reply(201, ConfigCreated), Put(db, c', now))
  }

  /** `UpdateConfig` as written (s3.go:828-907): after saving the merged
      record it runs a copy of the delete handler on the same id. */
  function UpdateConfigAsWrittenEffect(db: Db, userId: string, id: string, request: Option<S3Config>,
                                       probe: Probe, now: string): (Reply, Db)
    requires WellFormed(db)
  {
    var k := ConfigKey(userId, id);
    if k !in db.records then (Reply(404, ConfigNotFound), db)
    else if request.None? then (Reply(400, InvalidConfigData), db)
    else if !probe.Connected? then (ProbeFailure(probe, request.value.storageType), db)
    else
      var db1 := Put(db, Merge(db.records[k], request.value), now);
      var saved := db1.records[k];
      var configs := Listing(db1, userId);
      if |configs| <= 1 then (Reply(400, CannotDeleteLast), db1)
      else
        var db2 := Del(db1, k);
        var db3 := if saved.isDefault then PromoteFirstOtherEffect(db2, userId, configs, id, now) else db2;
        (Reply(200, ConfigDeleted), db3)
  }

  /** `UpdateConfig` as its comment at s3.go:844 and its failure message
      "Failed to update configuration" (s3.go:867) intend: stop after the
      merged record is saved. */
  function UpdateConfigEffect(db: Db, userId: string, id: string, request: Option<S3Config>,
                              probe: Probe, now: string): (Reply, Db)
    requires WellFormed(db)
  {
    var k := ConfigKey(userId, id);
    if k !in db.records then (Reply(404, ConfigNotFound), db)
    else if request.None? then (Reply(400, InvalidConfigData), db)
    else if !probe.Connected? then (ProbeFailure(probe, request.value.storageType), db)
    else (Reply(200, ConfigUpdated), Put(db, Merge(db.records[k], request.value), now))
  }

  /** `AutoConfigureMinIO` (s3.go:911-945): `provisioned` is what
      `CreateMinIOUserAndBucket` returned. */
  function AutoConfigureEffect(db: Db, userId: string, username: Option<string>,
                               provisioned: Result<S3Config>, now: string): (Reply, Db)
    requires WellFormed(db)
  {
    if userId == "" then (Reply(401, NotAuthenticated), db)
    else if username.None? || username.value == "" then (Reply(400, UsernameRequired), db)
    else if provisioned.Err? then (Reply(500, MinioFailed(provisioned.msg)), db)
    else (Reply(200, MinioConfigured), Put(db, provisioned.value, now))
  }

  // ------------------------------------------------------ read-only views

  /** The `GetConfigs` list entry: no secret key, a masked access key. */
  datatype ConfigView = ConfigView(
    id: string,
    name: string,
    region: string,
    bucketName: string,
    accessKey: string,
    endpointUrl: string,
    useSsl: bool,
    storageType: string,
    isDefault: bool,
    createdAt: string,
    updatedAt: string)

  function Redact(c: S3Config): (v: ConfigView)
    ensures 4 <= |v.accessKey| <= 8 && v.accessKey[|v.accessKey| - 4..] == "****"
    ensures HasPrefix(c.accessKey, v.accessKey[..|v.accessKey| - 4])
    ensures |c.accessKey| >= 4 ==> |v.accessKey| == 8
    ensures v.id == c.id && v.name == c.name && v.region == c.region && v.bucketName == c.bucketName
    ensures v.endpointUrl == c.endpointUrl && v.useSsl == c.useSsl && v.storageType == c.storageType
    ensures v.isDefault == c.isDefault && v.createdAt == c.createdAt && v.updatedAt == c.updatedAt
  {
    var n := if |c.accessKey| < 4 then |c.accessKey| else 4;
    ConfigView(c.id, c.name, c.region, c.bucketName, c.accessKey[..n] + "****", c.endpointUrl,
               c.useSsl, c.storageType, c.isDefault, c.createdAt, c.updatedAt)
  }

  /** `GetConfigs` (s3.go:738-763). */
  function ConfigViews(db: Db, userId: string): (vs: seq<ConfigView>)
    requires WellFormed(db)
    ensures |vs| == |Listing(db, userId)|
    ensures forall i :: 0 <= i < |vs| ==> vs[i] == Redact(Listing(db, userId)[i])
  {
    var configs := Listing(db, userId);
    seq(|configs|, i requires 0 <= i < |configs| => Redact(configs[i]))
  }

  /** `GetConfigByID` (s3.go:766-780): the lookup is under the caller's own
      prefix; the full record, secret included, goes to its owner or to an
      administrator. */
  function ConfigById(db: Db, caller: string, isAdmin: bool, id: string): (Reply, Option<S3Config>) {
    var k := ConfigKey(caller, id);
    if k !in db.records then (Reply(404, ConfigNotFound), None)
    else if db.records[k].userId != caller && !isAdmin then (Reply(403, Forbidden), None)
    else (Reply(200, ConfigFound), Some(db.records[k]))
  }

  /** How the transfer handlers pick a configuration: the one named by the
      `config_id` query value, else the user's default. */
  function ResolveConfig(db: Db, userId: string, configId: string): (r: Result<S3Config>)
    requires WellFormed(db)
    ensures configId != "" ==>
              (r.Ok? <==> ConfigKey(userId, configId) in db.records)
              && (r.Ok? ==> r.value == db.records[ConfigKey(userId, configId)])
    ensures configId == "" ==> (r.Ok? <==> |Listing(db, userId)| > 0)
  {
    if configId != "" then
      var k := ConfigKey(userId, configId);
      if k in db.records then Ok(db.records[k]) else Err("Key not found")
    else DefaultConfig(Listing(db, userId))
  }

  // ---------------------------------------------------------- CSV rows

  const CsvHeader: seq<string> := ["id", "user_id", "name", "access_key", "secret_key", "region",
    "bucket_name", "endpoint_url", "use_ssl", "storage_type", "is_default", "created_at", "updated_at"]

  /** One data row of `ExportConfigsHandler` (s3.go:656-670). */
  function ExportRow(c: S3Config): (row: seq<string>)
    ensures |row| == |CsvHeader|
  {
    [c.id, c.userId, c.name, c.accessKey, c.secretKey, c.region, c.bucketName, c.endpointUrl,
     FormatBool(c.useSsl), c.storageType, FormatBool(c.isDefault), c.createdAt, c.updatedAt]
  }

  /** One row read back by `ImportConfigsHandler` (s3.go:718-723). */
  function ImportRow(row: seq<string>): S3Config
    requires |row| >= 13
  {
    S3Config(row[0], row[1], row[2], row[3], row[4], row[5], row[6], row[7],
             row[8] == "true", row[9], row[10] == "true", row[11], row[12])
  }

  /** The configs of the data rows (header excluded), short rows skipped. */
  function ImportRows(rows: seq<seq<string>>): seq<S3Config> {
    if |rows| == 0 then []
    else
      var last := rows[|rows| - 1];
      ImportRows(rows[..|rows| - 1]) + (if |last| < 13 then [] else [ImportRow(last)])
  }

  /** The whole CSV branch of `ImportConfigsHandler` (s3.go:704-725). */
  function ImportCsv(records: CsvRecords): Result<seq<S3Config>> {
    if |records| < 2 then Err("Invalid CSV") else Ok(ImportRows(records[1..]))
  }

  /** The CSV document `ExportConfigsHandler` writes for a list of configs. */
  function ExportCsv(configs: seq<S3Config>): (records: CsvRecords)
    ensures |records| == |configs| + 1 && records[0] == CsvHeader
  {
    [CsvHeader] + seq(|configs|, i requires 0 <= i < |configs| => ExportRow(configs[i]))
  }

  // ------------------------------------------------------------ the class

  class ConfigStore {
    var keys: seq<string>
    var records: map<string, S3Config>

    function State(): Db
      reads this
    {
      Db(keys, records)
    }

    ghost predicate Valid()
      reads this
    {
      WellFormed(State())
    }

    constructor ()
      ensures Valid() && State() == Db([], map[])
    {
      keys := [];
      records := map[];
    }

    /** `getUserConfigs` (s3.go:77-104). */
    method GetUserConfigs(userId: string) returns (configs: seq<S3Config>)
      requires Valid()
      ensures configs == Listing(State(), userId)
    {
      var prefix := ConfigPrefix(userId);
      configs := [];
      var i := 0;
      while i < |keys|
        invariant 0 <= i <= |keys|
        invariant forall k :: k in Scan(keys[..i], prefix) ==> k in records
        invariant configs == Project(records, Scan(keys[..i], prefix))
      {
        ProjectScanStep(records, keys, i, prefix);
        if HasPrefix(keys[i], prefix) {
          configs := configs + [records[keys[i]]];
        }
        i := i + 1;
      }
      assert keys[..|keys|] == keys;
    }

    /** `saveConfig` (s3.go:128-143). */
    method SaveConfig(c: S3Config, now: string)
      requires Valid()
      modifies this
      ensures Valid() && State() == Put(old(State()), c, now)
    {
      var stamped := c.(updatedAt := now);
      if stamped.createdAt == "" {
        stamped := stamped.(createdAt := stamped.updatedAt);
      }
      var k := ConfigKey(stamped.userId, stamped.id);
      keys := KeyOrder.Insert(keys, k);
      records := records[k := stamped];
    }

    /** `deleteConfig` (s3.go:199-204). */
    method DeleteKey(userId: string, id: string)
      requires Valid()
      modifies this
      ensures Valid() && State() == Del(old(State()), ConfigKey(userId, id))
    {
      var k := ConfigKey(userId, id);
      keys := KeyOrder.Remove(keys, k);
      records := records - {k};
    }

    /** Phase one of `setDefaultConfig` (s3.go:212-220): save every listed
        default with its flag cleared. */
    method ClearListedDefaults(configs: seq<S3Config>, ghost ks: seq<string>, now: string)
      requires Valid()
      requires |configs| == |ks|
      requires forall j :: 0 <= j < |ks| ==> ks[j] in records && configs[j] == records[ks[j]] && KeyOf(configs[j]) == ks[j]
      modifies this
      ensures Valid() && keys == old(keys)
      ensures records == ClearDefaults(old(records), ks, now)
    {
      ghost var r0 := records;
      var i := 0;
      while i < |configs|
        invariant 0 <= i <= |configs|
        invariant Valid() && keys == old(keys)
        invariant records == ClearDefaults(r0, ks[..i], now)
      {
        ClearDefaultsSnoc(r0, ks, i, now);
        assert ks[i] in keys;
        if configs[i].isDefault {
          SaveConfig(configs[i].(isDefault := false), now);
        }
        i := i + 1;
      }
      assert ks[..|configs|] == ks;
    }

    /** Phase two of `setDefaultConfig` (s3.go:222-229): save the first
        listed config with the id flagged as default, then stop. */
    method FlagFirstWithId(configs: seq<S3Config>, ghost ks: seq<string>, id: string, now: string)
      requires Valid()
      requires |configs| == |ks|
      requires forall j :: 0 <= j < |ks| ==> ks[j] in records && KeyOf(configs[j]) == ks[j]
      modifies this
      ensures Valid() && keys == old(keys)
      ensures FirstWithId(configs, id).None? ==> records == old(records)
      ensures FirstWithId(configs, id).Some? ==>
                var i := FirstWithId(configs, id).value;
                records == old(records)[ks[i] := Stamp(configs[i].(isDefault := true), now)]
    {
      var i := 0;
      while i < |configs|
        invariant 0 <= i <= |configs|
        invariant forall j :: 0 <= j < i ==> configs[j].id != id
      {
        if configs[i].id == id {
          assert FirstWithId(configs, id) == Some(i);
          SaveConfig(configs[i].(isDefault := true), now);
          return;
        }
        i := i + 1;
      }
    }

    /** `setDefaultConfig` (s3.go:207-231): two passes over one listing. */
    method SetDefaultConfig(userId: string, id: string, now: string)
      requires Valid()
      modifies this
      ensures Valid() && State() == SetDefault(old(State()), userId, id, now)
    {
      ghost var d0 := State();
      ghost var ks := UserKeys(d0, userId);
      var configs := GetUserConfigs(userId);
      ClearListedDefaults(configs, ks, now);
      ClearDefaultsEffect(d0.records, ks, now);
      FlagFirstWithId(configs, ks, id, now);
      match FirstWithId(configs, id)
      case None =>
        SetDefaultNotFound(d0, userId, id, now);
      case Some(i) =>
        SetDefaultFound(d0, userId, id, now, i);
    }

    /** The scan in `DeleteConfig` (s3.go:165-171) for whether the deleted
        id was flagged as default in the listing taken before the delete. */
    method ListsDefaultWithId(configs: seq<S3Config>, id: string) returns (found: bool)
      ensures found <==> HasDefaultWithId(configs, id)
    {
      found := false;
      var i := 0;
      while i < |configs|
        invariant 0 <= i <= |configs|
        invariant forall j :: 0 <= j < i ==> !(configs[j].id == id && configs[j].isDefault)
      {
        if configs[i].id == id && configs[i].isDefault {
          found := true;
          break;
        }
        i := i + 1;
      }
    }

    /** The re-defaulting step of the delete logic (s3.go:174-181, repeated
        at s3.go:892-899): make the first listed config with another id the
        default. */
    method PromoteFirstOther(userId: string, configs: seq<S3Config>, id: string, now: string)
      requires Valid()
      modifies this
      ensures Valid()
      ensures State() == PromoteFirstOtherEffect(old(State()), userId, configs, id, now)
    {
      var i := 0;
      while i < |configs|
        invariant 0 <= i <= |configs|
        invariant forall j :: 0 <= j < i ==> configs[j].id == id
      {
        if configs[i].id != id {
          assert FirstOtherThan(configs, id) == Some(i);
          SetDefaultConfig(userId, configs[i].id, now);
          return;
        }
        i := i + 1;
      }
    }

    /** `DeleteConfig` (s3.go:146-184). */
    method DeleteConfig(userId: string, id: string, now: string) returns (reply: Reply)
      requires Valid()
      modifies this
      ensures Valid()
      ensures (reply, State()) == DeleteConfigEffect(old(State()), userId, id, now)
    {
      var configs := GetUserConfigs(userId);
      if |configs| <= 1 {
        return Reply(400, CannotDeleteLast);
      }
      DeleteKey(userId, id);
      var deletedWasDefault := ListsDefaultWithId(configs, id);
      if deletedWasDefault && |configs| > 1 {
        PromoteFirstOther(userId, configs, id, now);
      }
      reply := Reply(200, ConfigDeleted);
    }

    /** `CreateConfig` (s3.go:782-826). */
    method CreateConfig(userId: string, request: Option<S3Config>, newId: string, probe: Probe, now: string)
      returns (reply: Reply)
      requires Valid()
      modifies this
      ensures Valid()
      ensures (reply, State()) == CreateConfigEffect(old(State()), userId, request, newId, probe, now)
    {
      if request.None? {
        return Reply(400, InvalidConfigData);
      }
      var c := request.value.(id := newId, userId := userId);
      if probe.ClientFailed? {
        return if c.storageType == "minio" then Reply(400, ClientCreateFailed) else Reply(500, Recovered);
      }
      if probe.ConnectFailed? {
        return Reply(400, StorageUnreachable(probe.err));
      }
      var existing := GetUserConfigs(userId);
      if |existing| == 0 {
        c := c.(isDefault := true);
      }
      SaveConfig(c, now);
      reply := Reply(201, ConfigCreated);
    }

    /** `UpdateConfig` as written (s3.go:828-907). */
    method UpdateConfigAsWritten(userId: string, id: string, request: Option<S3Config>, probe: Probe, now: string)
      returns (reply: Reply)
      requires Valid()
      modifies this
      ensures Valid()
      ensures (reply, State()) == UpdateConfigAsWrittenEffect(old(State()), userId, id, request, probe, now)
    {
      var k := ConfigKey(userId, id);
      if k !in records {
        return Reply(404, ConfigNotFound);
      }
      var existing := records[k];
      if request.None? {
        return Reply(400, InvalidConfigData);
      }
      var update := request.value.(id := existing.id, userId := existing.userId,
                                   createdAt := existing.createdAt, isDefault := existing.isDefault);
      if probe.ClientFailed? {
        return if update.storageType == "minio" then Reply(400, ClientCreateFailed) else Reply(500, Recovered);
      }
      if probe.ConnectFailed? {
        return Reply(400, StorageUnreachable(probe.err));
      }
      SaveConfig(update, now);
      // The re-read of the record just saved always finds it.
      var saved := records[k];
      var configs := GetUserConfigs(userId);
      if |configs| <= 1 {
        return Reply(400, CannotDeleteLast);
      }
      DeleteKey(userId, id);
      if saved.isDefault && |configs| > 1 {
        PromoteFirstOther(userId, configs, id, now);
      }
      reply := Reply(200, ConfigDeleted);
    }

    /** `UpdateConfig` without the copied delete logic. */
    method UpdateConfig(userId: string, id: string, request: Option<S3Config>, probe: Probe, now: string)
      returns (reply: Reply)
      requires Valid()
      modifies this
      ensures Valid()
      ensures (reply, State()) == UpdateConfigEffect(old(State()), userId, id, request, probe, now)
    {
      var k := ConfigKey(userId, id);
      if k !in records {
        return Reply(404, ConfigNotFound);
      }
      var existing := records[k];
      if request.None? {
        return Reply(400, InvalidConfigData);
      }
      var update := request.value.(id := existing.id, userId := existing.userId,
                                   createdAt := existing.createdAt, isDefault := existing.isDefault);
      if probe.ClientFailed? {
        return if update.storageType == "minio" then Reply(400, ClientCreateFailed) else Reply(500, Recovered);
      }
      if probe.ConnectFailed? {
        return Reply(400, StorageUnreachable(probe.err));
      }
      SaveConfig(update, now);
      reply := Reply(200, ConfigUpdated);
    }

    /** `AutoConfigureMinIO` (s3.go:911-945). */
    method AutoConfigureMinIO(userId: string, username: Option<string>, provisioned: Result<S3Config>, now: string)
      returns (reply: Reply)
      requires Valid()
      modifies this
      ensures Valid()
      ensures (reply, State()) == AutoConfigureEffect(old(State()), userId, username, provisioned, now)
    {
      if userId == "" {
        return Reply(401, NotAuthenticated);
      }
      if username.None? || username.value == "" {
        return Reply(400, UsernameRequired);
      }
      if provisioned.Err? {
        return Reply(500, MinioFailed(provisioned.msg));
      }
      SaveConfig(provisioned.value, now);
      reply := Reply(200, MinioConfigured);
    }
  }
}
