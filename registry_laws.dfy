/**
 * What the registry handlers do to the default-configuration invariant and
 * to the records they touch, stated over the store value `Db`.
 */
module RegistryLaws {
  import opened Outcomes
  import opened Text
  import KeyOrder
  import opened Registry
  import MinioAdmin

  // --------------------------------------------------------------- helpers

  lemma KeyHasPrefix(userId: string, id: string)
    ensures HasPrefix(ConfigKey(userId, id), ConfigPrefix(userId))
  {
    var p := ConfigPrefix(userId);
    assert (p + id)[..|p|] == p;
  }

  /** The keys a prefix iteration visits are exactly the stored keys under
      the prefix. */
  lemma UserKeysAreOwnKeys(db: Db, userId: string)
    requires WellFormed(db)
    ensures forall k :: k in UserKeys(db, userId) <==> k in OwnKeys(db, userId)
    ensures |Listing(db, userId)| == 0 <==> OwnKeys(db, userId) == {}
  {
    if OwnKeys(db, userId) != {} {
      var k :| k in OwnKeys(db, userId);
      assert k in UserKeys(db, userId);
    }
    if |Listing(db, userId)| > 0 {
      assert UserKeys(db, userId)[0] in OwnKeys(db, userId);
    }
  }

  /** Under `Owned`, a key under the user's prefix is the key of its own id. */
  lemma OwnedKey(db: Db, userId: string, k: string)
    requires WellFormed(db) && Owned(db, userId)
    requires k in db.records && HasPrefix(k, ConfigPrefix(userId))
    ensures k == ConfigKey(userId, db.records[k].id)
  {
  }

  /** The records of a listing are distinct keys, so under `Owned` two listed
      configs never share an id. */
  lemma OwnedListingIds(db: Db, userId: string, i: nat, j: nat)
    requires WellFormed(db) && Owned(db, userId)
    requires i < j < |Listing(db, userId)|
    ensures Listing(db, userId)[i].id != Listing(db, userId)[j].id
  {
    var ks := UserKeys(db, userId);
    ScanSorted(db.keys, ConfigPrefix(userId));
    OwnedKey(db, userId, ks[i]);
    OwnedKey(db, userId, ks[j]);
    if Listing(db, userId)[i].id == Listing(db, userId)[j].id {
      KeyOrder.SortedDistinct(ks, i, j);
    }
  }

  /** Two records agree on every setting: they differ at most in the
      default flag and the two timestamps. */
  predicate SameSettings(a: S3Config, b: S3Config) {
    a.(isDefault := b.isDefault, createdAt := b.createdAt, updatedAt := b.updatedAt) == b
  }

  // --------------------------------------------------------- setDefault

  /** The key `setDefaultConfig` flags: that of the first listed config with
      the id, if there is one. */
  function TargetKey(db: Db, userId: string, id: string): Option<string>
    requires WellFormed(db)
  {
    match FirstWithId(Listing(db, userId), id)
    case None => None
    case Some(i) => Some(UserKeys(db, userId)[i])
  }

  lemma SetDefaultKeys(db: Db, userId: string, id: string, now: string)
    requires WellFormed(db)
    ensures SetDefault(db, userId, id, now).records.Keys == db.records.Keys
  {
    ClearDefaultsEffect(db.records, UserKeys(db, userId), now);
    match FirstWithId(Listing(db, userId), id)
    case None =>
      SetDefaultNotFound(db, userId, id, now);
    case Some(i) =>
      SetDefaultFound(db, userId, id, now, i);
  }

  /** What `setDefaultConfig` leaves under one key: the same settings; under
      the user's prefix the flag is on exactly at the target; elsewhere the
      record is untouched. */
  lemma SetDefaultAt(db: Db, userId: string, id: string, now: string, k: string)
    requires WellFormed(db) && k in db.records
    ensures k in SetDefault(db, userId, id, now).records
    ensures SameSettings(db.records[k], SetDefault(db, userId, id, now).records[k])
    ensures HasPrefix(k, ConfigPrefix(userId)) ==>
              (SetDefault(db, userId, id, now).records[k].isDefault <==> TargetKey(db, userId, id) == Some(k))
    ensures !HasPrefix(k, ConfigPrefix(userId)) ==> SetDefault(db, userId, id, now).records[k] == db.records[k]
  {
    ClearedAt(db, userId, now, k);
    match FirstWithId(Listing(db, userId), id)
    case None =>
      SetDefaultNotFound(db, userId, id, now);
    case Some(i) =>
      SetDefaultFound(db, userId, id, now, i);
      TargetAt(db, userId, i, now, k);
  }

  /** Phase one of `setDefaultConfig` at one key: under the user's prefix
      the flag is off, elsewhere the record is untouched. */
  lemma ClearedAt(db: Db, userId: string, now: string, k: string)
    requires WellFormed(db) && k in db.records
    ensures k in ClearDefaults(db.records, UserKeys(db, userId), now)
    ensures SameSettings(db.records[k], ClearDefaults(db.records, UserKeys(db, userId), now)[k])
    ensures HasPrefix(k, ConfigPrefix(userId)) ==> !ClearDefaults(db.records, UserKeys(db, userId), now)[k].isDefault
    ensures !HasPrefix(k, ConfigPrefix(userId)) ==> ClearDefaults(db.records, UserKeys(db, userId), now)[k] == db.records[k]
  {
    var ks := UserKeys(db, userId);
    ClearDefaultsEffect(db.records, ks, now);
    assert k in ks <==> HasPrefix(k, ConfigPrefix(userId));
  }

  /** Flagging listed config `i` changes only its own key's flag. */
  lemma TargetAt(db: Db, userId: string, i: nat, now: string, k: string)
    requires WellFormed(db) && k in db.records && i < |Listing(db, userId)|
    ensures k == UserKeys(db, userId)[i] ==>
              SameSettings(db.records[k], Stamp(Listing(db, userId)[i].(isDefault := true), now))
  {
  }

  lemma SetDefaultWellFormed(db: Db, userId: string, id: string, now: string)
    requires WellFormed(db)
    ensures WellFormed(SetDefault(db, userId, id, now))
  {
    SetDefaultKeys(db, userId, id, now);
    forall k | k in db.records
      ensures KeyOf(SetDefault(db, userId, id, now).records[k]) == k
    {
      SetDefaultAt(db, userId, id, now, k);
    }
  }

  /** Set-level reading of a store whose flags under the prefix are on
      exactly at `target`. */
  lemma DefaultKeysFromFlags(db: Db, r: Db, userId: string, target: Option<string>)
    requires r.records.Keys == db.records.Keys
    requires forall k :: k in db.records && HasPrefix(k, ConfigPrefix(userId)) ==>
               (r.records[k].isDefault <==> target == Some(k))
    requires target.Some? ==> target.value in db.records && HasPrefix(target.value, ConfigPrefix(userId))
    ensures OwnKeys(r, userId) == OwnKeys(db, userId)
    ensures DefaultKeys(r, userId) == if target.None? then {} else {target.value}
  {
  }

  /** `setDefaultConfig` leaves exactly one default under the user's prefix,
      the first listed config with the id; with an unknown id it leaves none. */
  lemma SetDefaultFlags(db: Db, userId: string, id: string, now: string)
    requires WellFormed(db)
    ensures OwnKeys(SetDefault(db, userId, id, now), userId) == OwnKeys(db, userId)
    ensures TargetKey(db, userId, id).None? ==> DefaultKeys(SetDefault(db, userId, id, now), userId) == {}
    ensures TargetKey(db, userId, id).Some? ==>
              DefaultKeys(SetDefault(db, userId, id, now), userId) == {TargetKey(db, userId, id).value}
  {
    var r := SetDefault(db, userId, id, now);
    var target := TargetKey(db, userId, id);
    SetDefaultKeys(db, userId, id, now);
    forall k | k in db.records && HasPrefix(k, ConfigPrefix(userId))
      ensures r.records[k].isDefault <==> target == Some(k)
    {
      SetDefaultAt(db, userId, id, now, k);
    }
    if target.Some? {
      var i := FirstWithId(Listing(db, userId), id).value;
      assert UserKeys(db, userId)[i] in UserKeys(db, userId);
    }
    DefaultKeysFromFlags(db, r, userId, target);
  }

  /** `setDefaultConfig` changes no setting of any record, and no record
      outside the user's prefix at all. */
  lemma SetDefaultOnlyFlags(db: Db, userId: string, id: string, now: string)
    requires WellFormed(db)
    ensures SetDefault(db, userId, id, now).records.Keys == db.records.Keys
    ensures forall k :: k in db.records ==> SameSettings(db.records[k], SetDefault(db, userId, id, now).records[k])
    ensures forall k :: k in db.records && !HasPrefix(k, ConfigPrefix(userId)) ==>
              SetDefault(db, userId, id, now).records[k] == db.records[k]
  {
    SetDefaultKeys(db, userId, id, now);
    forall k | k in db.records
      ensures SameSettings(db.records[k], SetDefault(db, userId, id, now).records[k])
      ensures !HasPrefix(k, ConfigPrefix(userId)) ==> SetDefault(db, userId, id, now).records[k] == db.records[k]
    {
      SetDefaultAt(db, userId, id, now, k);
    }
  }

  // -------------------------------------------------------- DeleteConfig

  /** Deleting the default of a user with several configurations makes the
      first listed other configuration the only default. */
  lemma DeletePromotesFirstOther(db: Db, userId: string, id: string, now: string)
    requires WellFormed(db) && Owned(db, userId)
    requires |Listing(db, userId)| >= 2 && ConfigKey(userId, id) in DefaultKeys(db, userId)
    ensures FirstOtherThan(Listing(db, userId), id).Some?
    ensures DeleteConfigEffect(db, userId, id, now).0 == Reply(200, ConfigDeleted)
    ensures ConfigKey(userId, id) !in DeleteConfigEffect(db, userId, id, now).1.records
    ensures DefaultKeys(DeleteConfigEffect(db, userId, id, now).1, userId) ==
              {UserKeys(db, userId)[FirstOtherThan(Listing(db, userId), id).value]}
  {
    var configs := Listing(db, userId);
    var ks := UserKeys(db, userId);
    var key := ConfigKey(userId, id);
    UserKeysAreOwnKeys(db, userId);
    assert key in ks;
    var m :| 0 <= m < |ks| && ks[m] == key;
    OwnedKey(db, userId, key);
    ConfigKeyInjective(userId, configs[m].id, id);
    assert HasDefaultWithId(configs, id);
    if configs[0].id == id && configs[1].id == id {
      OwnedListingIds(db, userId, 0, 1);
    }
    var j := FirstOtherThan(configs, id).value;
    var cid := configs[j].id;
    var other := ks[j];
    OwnedKey(db, userId, other);
    if other == key {
      ConfigKeyInjective(userId, cid, id);
    }
    var db1 := Del(db, key);
    assert Owned(db1, userId);
    assert other == ConfigKey(userId, cid) && other in db1.records;
    PromoteTarget(db1, userId, cid, now);
  }

  /** Flagging the id of an owned record makes its key the only default. */
  lemma PromoteTarget(db: Db, userId: string, cid: string, now: string)
    requires WellFormed(db) && Owned(db, userId) && ConfigKey(userId, cid) in db.records
    ensures DefaultKeys(SetDefault(db, userId, cid, now), userId) == {ConfigKey(userId, cid)}
    ensures SetDefault(db, userId, cid, now).records.Keys == db.records.Keys
  {
    var other := ConfigKey(userId, cid);
    KeyHasPrefix(userId, cid);
    OwnedKey(db, userId, other);
    ConfigKeyInjective(userId, db.records[other].id, cid);
    UserKeysAreOwnKeys(db, userId);
    assert other in OwnKeys(db, userId);
    var ks := UserKeys(db, userId);
    var n :| 0 <= n < |ks| && ks[n] == other;
    assert Listing(db, userId)[n].id == cid;
    var p := FirstWithId(Listing(db, userId), cid).value;
    OwnedKey(db, userId, ks[p]);
    SetDefaultFlags(db, userId, cid, now);
    SetDefaultKeys(db, userId, cid, now);
  }

  lemma DelKeys(db: Db, key: string, userId: string)
    requires WellFormed(db)
    ensures OwnKeys(Del(db, key), userId) == OwnKeys(db, userId) - {key}
    ensures DefaultKeys(Del(db, key), userId) == DefaultKeys(db, userId) - {key}
  {
  }

  /** Deleting a configuration that is not the default deletes that key and
      nothing else. */
  lemma DeleteNonDefault(db: Db, userId: string, id: string, now: string)
    requires WellFormed(db) && Owned(db, userId)
    requires |Listing(db, userId)| >= 2 && ConfigKey(userId, id) !in DefaultKeys(db, userId)
    ensures DeleteConfigEffect(db, userId, id, now) ==
              (Reply(200, ConfigDeleted), Del(db, ConfigKey(userId, id)))
  {
    var configs := Listing(db, userId);
    UserKeysAreOwnKeys(db, userId);
    forall m | 0 <= m < |configs| && configs[m].id == id
      ensures !configs[m].isDefault
    {
      OwnedKey(db, userId, UserKeys(db, userId)[m]);
    }
  }

  /** Deleting a configuration keeps "exactly one default" for users whose
      prefix holds only their own records. */
  lemma DeletePreservesOneDefault(db: Db, userId: string, id: string, now: string)
    requires WellFormed(db) && Owned(db, userId) && OneDefault(db, userId)
    ensures OneDefault(DeleteConfigEffect(db, userId, id, now).1, userId)
    ensures |Listing(db, userId)| <= 1 ==>
              DeleteConfigEffect(db, userId, id, now) == (Reply(400, CannotDeleteLast), db)
  {
    var key := ConfigKey(userId, id);
    if |Listing(db, userId)| > 1 {
      if key in DefaultKeys(db, userId) {
        DeletePromotesFirstOther(db, userId, id, now);
      } else {
        DeleteNonDefaultKeepsOne(db, userId, id, now);
      }
    }
  }

  lemma DeleteNonDefaultKeepsOne(db: Db, userId: string, id: string, now: string)
    requires WellFormed(db) && Owned(db, userId) && OneDefault(db, userId)
    requires |Listing(db, userId)| > 1 && ConfigKey(userId, id) !in DefaultKeys(db, userId)
    ensures OneDefault(DeleteConfigEffect(db, userId, id, now).1, userId)
  {
    var key := ConfigKey(userId, id);
    DeleteNonDefault(db, userId, id, now);
    DelKeys(db, key, userId);
    UserKeysAreOwnKeys(db, userId);
  }

  // -------------------------------------------------------- CreateConfig

  lemma PutKeys(db: Db, c: S3Config, now: string, userId: string)
    requires WellFormed(db) && HasPrefix(KeyOf(c), ConfigPrefix(userId))
    ensures OwnKeys(Put(db, c, now), userId) == OwnKeys(db, userId) + {KeyOf(c)}
    ensures DefaultKeys(Put(db, c, now), userId) ==
              (DefaultKeys(db, userId) - {KeyOf(c)}) + (if c.isDefault then {KeyOf(c)} else {})
  {
    var r := Put(db, c, now);
    forall k ensures k in OwnKeys(r, userId) <==> k in OwnKeys(db, userId) + {KeyOf(c)} {
      assert k in r.records <==> k in db.records || k == KeyOf(c);
    }
    forall k ensures k in DefaultKeys(r, userId) <==>
                       k in (DefaultKeys(db, userId) - {KeyOf(c)}) + (if c.isDefault then {KeyOf(c)} else {})
    {
      if k == KeyOf(c) {
        assert r.records[k].isDefault == c.isDefault;
      } else if k in r.records {
        assert r.records[k] == db.records[k];
      }
    }
  }

  /** The first configuration a user creates becomes the default. */
  lemma CreateFirstIsDefault(db: Db, userId: string, request: S3Config, newId: string, now: string)
    requires WellFormed(db) && OwnKeys(db, userId) == {}
    ensures CreateConfigEffect(db, userId, Some(request), newId, Connected, now).0.status == 201
    ensures DefaultKeys(CreateConfigEffect(db, userId, Some(request), newId, Connected, now).1, userId)
              == {ConfigKey(userId, newId)}
    ensures OneDefault(CreateConfigEffect(db, userId, Some(request), newId, Connected, now).1, userId)
  {
    UserKeysAreOwnKeys(db, userId);
    KeyHasPrefix(userId, newId);
    PutKeys(db, request.(id := newId, userId := userId, isDefault := true), now, userId);
  }

  /** A failed session is refused with 400 only for a `minio` configuration;
      for any other type it is the recovered panic, 500. Either way nothing
      is stored, on create as on update. */
  lemma ClientFailureByType(db: Db, userId: string, id: string, request: S3Config, newId: string, now: string)
    requires WellFormed(db)
    ensures var (reply, after) := CreateConfigEffect(db, userId, Some(request), newId, ClientFailed, now);
            && after == db
            && (reply.status == 400 <==> request.storageType == "minio")
            && (reply.status == 500 <==> request.storageType != "minio")
    ensures var (reply, after) := UpdateConfigEffect(db, userId, id, Some(request), ClientFailed, now);
            && after == db
            && (ConfigKey(userId, id) in db.records ==>
                  (reply.status == 400 <==> request.storageType == "minio")
                  && (reply.status == 500 <==> request.storageType != "minio"))
  {
  }

  /** A later configuration keeps the request's flag and settings, under the
      generated id and the caller's user id. */
  lemma CreateKeepsRequest(db: Db, userId: string, request: S3Config, newId: string, now: string)
    requires WellFormed(db) && OwnKeys(db, userId) != {}
    ensures var r := CreateConfigEffect(db, userId, Some(request), newId, Connected, now).1;
              && ConfigKey(userId, newId) in r.records
              && r.records[ConfigKey(userId, newId)].isDefault == request.isDefault
              && SameSettings(request.(id := newId, userId := userId), r.records[ConfigKey(userId, newId)])
              && r.records[ConfigKey(userId, newId)].updatedAt == now
  {
    UserKeysAreOwnKeys(db, userId);
  }

  /** Creating a non-default configuration under a fresh id keeps "exactly
      one default". */
  lemma CreateUnflaggedKeepsOneDefault(db: Db, userId: string, request: S3Config, newId: string, now: string)
    requires WellFormed(db) && OneDefault(db, userId)
    requires !request.isDefault && ConfigKey(userId, newId) !in db.records
    ensures OneDefault(CreateConfigEffect(db, userId, Some(request), newId, Connected, now).1, userId)
  {
    UserKeysAreOwnKeys(db, userId);
    KeyHasPrefix(userId, newId);
    if OwnKeys(db, userId) == {} {
      CreateFirstIsDefault(db, userId, request, newId, now);
    } else {
      PutKeys(db, request.(id := newId, userId := userId), now, userId);
    }
  }

  /** Creating a configuration flagged as default next to an existing
      default leaves two defaults: the handler does not clear the others. */
  lemma CreateFlaggedBreaksOneDefault(db: Db, userId: string, request: S3Config, newId: string, now: string)
    requires WellFormed(db) && OneDefault(db, userId) && OwnKeys(db, userId) != {}
    requires request.isDefault && ConfigKey(userId, newId) !in db.records
    ensures |DefaultKeys(CreateConfigEffect(db, userId, Some(request), newId, Connected, now).1, userId)| == 2
    ensures !OneDefault(CreateConfigEffect(db, userId, Some(request), newId, Connected, now).1, userId)
  {
    UserKeysAreOwnKeys(db, userId);
    var c := request.(id := newId, userId := userId);
    assert CreateConfigEffect(db, userId, Some(request), newId, Connected, now) == (Reply(201, ConfigCreated), Put(db, c, now));
    KeyHasPrefix(userId, newId);
    AddDefault(db, c, now, userId);
  }

  // -------------------------------------------------------- UpdateConfig

  /** The corrected update rewrites the record in place: identity, owner,
      creation time and flag are kept, every setting comes from the request,
      and the defaults are untouched. */
  lemma UpdateRewritesInPlace(db: Db, userId: string, id: string, request: S3Config, now: string)
    requires WellFormed(db) && ConfigKey(userId, id) in db.records
    ensures var (reply, r) := UpdateConfigEffect(db, userId, id, Some(request), Connected, now);
              var before := db.records[ConfigKey(userId, id)];
              var after := r.records[ConfigKey(userId, id)];
              && reply == Reply(200, ConfigUpdated)
              && r.keys == db.keys && r.records.Keys == db.records.Keys
              && after.id == before.id && after.userId == before.userId && after.isDefault == before.isDefault
              && (before.createdAt != "" ==> after.createdAt == before.createdAt)
              && after.updatedAt == now
              && SameSettings(request.(id := before.id, userId := before.userId), after)
              && (forall k :: k in db.records && k != ConfigKey(userId, id) ==> r.records[k] == db.records[k])
              && DefaultKeys(r, userId) == DefaultKeys(db, userId)
              && OwnKeys(r, userId) == OwnKeys(db, userId)
  {
    var key := ConfigKey(userId, id);
    KeyHasPrefix(userId, id);
    PutKeys(db, Merge(db.records[key], request), now, userId);
  }

  lemma UpdatePreservesOneDefault(db: Db, userId: string, id: string, request: Option<S3Config>, probe: Probe, now: string)
    requires WellFormed(db) && OneDefault(db, userId)
    ensures OneDefault(UpdateConfigEffect(db, userId, id, request, probe, now).1, userId)
  {
    if ConfigKey(userId, id) in db.records && request.Some? && probe.Connected? {
      UpdateRewritesInPlace(db, userId, id, request.value, now);
    }
  }

  /** The update handler as written deletes the configuration it was asked
      to update whenever the user has another one... */
  lemma UpdateAsWrittenDeletesTarget(db: Db, userId: string, id: string, request: S3Config, now: string)
    requires WellFormed(db) && ConfigKey(userId, id) in db.records && |Listing(db, userId)| >= 2
    ensures UpdateConfigAsWrittenEffect(db, userId, id, Some(request), Connected, now).0 ==
              Reply(200, ConfigDeleted)
    ensures ConfigKey(userId, id) !in UpdateConfigAsWrittenEffect(db, userId, id, Some(request), Connected, now).1.records
  {
    var key := ConfigKey(userId, id);
    var merged := Merge(db.records[key], request);
    assert KeyOf(merged) == key;
    var db1 := Put(db, merged, now);
    assert db1.keys == db.keys;
    assert |Listing(db1, userId)| == |Listing(db, userId)|;
    var db2 := Del(db1, key);
    assert key !in db2.records;
    PromoteKeepsKeys(db2, userId, Listing(db1, userId), id, now);
  }

  lemma PromoteKeepsKeys(db: Db, userId: string, configs: seq<S3Config>, id: string, now: string)
    requires WellFormed(db)
    ensures PromoteFirstOtherEffect(db, userId, configs, id, now).records.Keys == db.records.Keys
  {
    match FirstOtherThan(configs, id)
    case None =>
    case Some(j) =>
      SetDefaultKeys(db, userId, configs[j].id, now);
  }

  /** ...and, for a user's only configuration, saves the update but answers
      400 "Cannot delete the last configuration". */
  lemma UpdateAsWrittenRejectsLast(db: Db, userId: string, id: string, request: S3Config, now: string)
    requires WellFormed(db) && ConfigKey(userId, id) in db.records && |Listing(db, userId)| == 1
    ensures UpdateConfigAsWrittenEffect(db, userId, id, Some(request), Connected, now) ==
              (Reply(400, CannotDeleteLast),
               UpdateConfigEffect(db, userId, id, Some(request), Connected, now).1)
  {
    var db1 := Put(db, Merge(db.records[ConfigKey(userId, id)], request), now);
    assert UserKeys(db1, userId) == UserKeys(db, userId);
  }

  // ------------------------------------------------- AutoConfigureMinIO

  /** Auto-configuration stores a second default next to an existing one:
      it does not clear the others. */
  lemma AutoConfigureAddsDefault(db: Db, userId: string, username: string, c: S3Config, now: string)
    requires WellFormed(db) && userId != "" && username != ""
    requires c.userId == userId && c.isDefault && KeyOf(c) !in db.records
    ensures AutoConfigureEffect(db, userId, Some(username), Ok(c), now).0.status == 200
    ensures DefaultKeys(AutoConfigureEffect(db, userId, Some(username), Ok(c), now).1, userId)
              == DefaultKeys(db, userId) + {KeyOf(c)}
    ensures DefaultKeys(db, userId) != {} ==>
              !OneDefault(AutoConfigureEffect(db, userId, Some(username), Ok(c), now).1, userId)
  {
    var r := Put(db, c, now);
    assert AutoConfigureEffect(db, userId, Some(username), Ok(c), now) == (Reply(200, MinioConfigured), r);
    KeyHasPrefix(userId, c.id);
    AddDefault(db, c, now, userId);
  }

  /** The configuration the MinIO provisioning returns is such a default:
      saving it adds its key to the user's defaults, next to any default the
      user already had. */
  lemma ProvisionedAddsDefault(db: Db, userId: string, username: string, env: map<string, string>,
                               secret: string, id: string, created: string, now: string)
    requires WellFormed(db) && userId != "" && username != ""
    requires ConfigKey(userId, id) !in db.records
    ensures var c := MinioAdmin.Provisioned(username, userId, env, secret, id, created);
            var after := AutoConfigureEffect(db, userId, Some(username), Ok(c), now);
            && after.0.status == 200
            && DefaultKeys(after.1, userId) == DefaultKeys(db, userId) + {ConfigKey(userId, id)}
            && (DefaultKeys(db, userId) != {} ==> !OneDefault(after.1, userId))
  {
    var c := MinioAdmin.Provisioned(username, userId, env, secret, id, created);
    MinioAdmin.ProvisionedMatchesScript(username, userId, env, secret, id, created);
    AutoConfigureAddsDefault(db, userId, username, c, now);
  }

  /** Storing a fresh default under the user's prefix adds exactly its key
      to the defaults, so any earlier default makes two. */
  lemma AddDefault(db: Db, c: S3Config, now: string, userId: string)
    requires WellFormed(db) && HasPrefix(KeyOf(c), ConfigPrefix(userId))
    requires c.isDefault && KeyOf(c) !in db.records
    ensures DefaultKeys(Put(db, c, now), userId) == DefaultKeys(db, userId) + {KeyOf(c)}
    ensures DefaultKeys(db, userId) != {} ==> !OneDefault(Put(db, c, now), userId)
  {
    PutKeys(db, c, now, userId);
    var after := DefaultKeys(Put(db, c, now), userId);
    assert after == DefaultKeys(db, userId) + {KeyOf(c)};
    if DefaultKeys(db, userId) != {} {
      TwoDefaults(Put(db, c, now), userId, DefaultKeys(db, userId), KeyOf(c));
    }
  }

  lemma TwoDefaults(r: Db, userId: string, before: set<string>, k: string)
    requires DefaultKeys(r, userId) == before + {k} && k !in before && before != {}
    ensures !OneDefault(r, userId)
  {
    var d :| d in before;
    TwoMembers(DefaultKeys(r, userId), d, k);
    assert k in OwnKeys(r, userId);
  }

  lemma TwoMembers(a: set<string>, x: string, y: string)
    requires x in a && y in a && x != y
    ensures |a| >= 2
  {
    assert a == {x, y} + (a - {x, y});
  }

  // ------------------------------------------------------ GetConfigByID

  /** Who gets a record from `GetConfigByID`: its owner or an administrator;
      a refusal is only possible when another user's records sit under the
      caller's prefix. */
  lemma ConfigByIdAccess(db: Db, caller: string, isAdmin: bool, id: string)
    requires WellFormed(db)
    ensures var (reply, found) := ConfigById(db, caller, isAdmin, id);
              && (reply.status == 200 <==> found.Some?)
              && (reply.status == 404 <==> ConfigKey(caller, id) !in db.records)
              && (found.Some? ==> found.value == db.records[ConfigKey(caller, id)]
                                  && (found.value.userId == caller || isAdmin))
              && (reply.status == 403 ==> !Owned(db, caller))
              && (Owned(db, caller) && ConfigKey(caller, id) in db.records ==> reply.status == 200)
  {
    KeyHasPrefix(caller, id);
  }

  // ------------------------------------------------- prefix collisions

  /** Listing user "a" also lists the configs of user "a_b", and fetching
      one of them by id from user "a" is refused with 403. */
  lemma ListingCrossesUsers()
    ensures && WellFormed(Crossing)
            && Listing(Crossing, "a") == [Intruder] && Intruder.userId != "a"
            && ConfigById(Crossing, "a", false, "b_1").0 == Reply(403, Forbidden)
            && OwnedConfigs(Crossing, "a") == []
  {
    CrossingListed();
    var listed := Listing(Crossing, "a");
    assert OwnedOnly(listed, "a") == [] + OwnedOnly(listed[1..], "a");
  }

  /** A config of user "a_b" with id "1", stored alone. */
  const Intruder := S3Config("1", "a_b", "n", "AKIA", "s", "r", "b", "e", false, "minio", true, "t", "t")
  const Crossing := Db([KeyOf(Intruder)], map[KeyOf(Intruder) := Intruder])

  lemma CrossingKey()
    ensures KeyOf(Intruder) == ConfigKey("a", "b_1")
    ensures HasPrefix(KeyOf(Intruder), ConfigPrefix("a"))
  {
    assert KeyOf(Intruder) == "user_config_a_b_1";
    KeyHasPrefix("a", "b_1");
  }

  lemma CrossingListed()
    ensures WellFormed(Crossing) && KeyOf(Intruder) == ConfigKey("a", "b_1")
    ensures Listing(Crossing, "a") == [Intruder]
  {
    CrossingKey();
    var k := KeyOf(Intruder);
    ScanSnoc([], k, ConfigPrefix("a"));
    assert [] + [k] == [k];
    assert UserKeys(Crossing, "a") == [k];
  }

  /** User "a" setting some id of theirs as default clears the only default
      of user "a_b", whose config lies under "a"'s prefix: "a_b" is left
      with a configuration and no default. */
  lemma SetDefaultCrossesUsers()
    ensures WellFormed(Crossing) && OneDefault(Crossing, "a_b")
    ensures var r := SetDefault(Crossing, "a", "x", "t");
            && OwnKeys(r, "a_b") == {KeyOf(Intruder)}
            && DefaultKeys(r, "a_b") == {}
            && !OneDefault(r, "a_b")
  {
    CrossingListed();
    var k := KeyOf(Intruder);
    assert k == "user_config_a_b_1";
    assert HasPrefix(k, ConfigPrefix("a_b"));
    assert OwnKeys(Crossing, "a_b") == {k};
    assert DefaultKeys(Crossing, "a_b") == {k};
    assert FirstWithId(Listing(Crossing, "a"), "x") == None;
    SetDefaultNotFound(Crossing, "a", "x", "t");
    var r := SetDefault(Crossing, "a", "x", "t");
    assert ClearDefaults(Crossing.records, [k], "t") == Crossing.records[k := Stamp(Intruder.(isDefault := false), "t")];
    assert r.records == map[k := Stamp(Intruder.(isDefault := false), "t")];
    assert OwnKeys(r, "a_b") == {k};
    assert DefaultKeys(r, "a_b") == {};
  }

  /** The corrected listing holds exactly the user's own configs, and agrees
      with the prefix listing when no other user's records share the prefix. */
  lemma OwnedConfigsExact(db: Db, userId: string)
    requires WellFormed(db)
    ensures forall c :: c in OwnedConfigs(db, userId) <==> c in db.records.Values && c.userId == userId
    ensures Owned(db, userId) ==> OwnedConfigs(db, userId) == Listing(db, userId)
  {
    var configs := Listing(db, userId);
    UserKeysAreOwnKeys(db, userId);
    forall c | c in db.records.Values && c.userId == userId
      ensures c in configs
    {
      var k :| k in db.records && db.records[k] == c;
      KeyHasPrefix(userId, c.id);
      assert k in UserKeys(db, userId);
      var i :| 0 <= i < |UserKeys(db, userId)| && UserKeys(db, userId)[i] == k;
      assert configs[i] == c;
    }
    forall c | c in configs ensures c in db.records.Values {
      var i :| 0 <= i < |configs| && configs[i] == c;
      assert UserKeys(db, userId)[i] in db.records;
    }
    if Owned(db, userId) {
      OwnedOnlyAll(configs, userId);
    }
  }

  lemma {:induction false} OwnedOnlyAll(configs: seq<S3Config>, userId: string)
    requires forall i :: 0 <= i < |configs| ==> configs[i].userId == userId
    ensures OwnedOnly(configs, userId) == configs
    decreases |configs|
  {
    if |configs| > 0 {
      OwnedOnlyAll(configs[1..], userId);
    }
  }

  // ---------------------------------------------------------- CSV rows

  lemma ImportRowOfExportRow(c: S3Config)
    ensures ImportRow(ExportRow(c)) == c
  {
  }

  lemma {:induction false} ImportRowsOfExport(configs: seq<S3Config>)
    ensures ImportRows(ExportCsv(configs)[1..]) == configs
    decreases |configs|
  {
    var rows := ExportCsv(configs)[1..];
    if |configs| > 0 {
      var init := configs[..|configs| - 1];
      ImportRowsOfExport(init);
      assert rows[..|rows| - 1] == ExportCsv(init)[1..];
      ImportRowOfExportRow(configs[|configs| - 1]);
    }
  }

  /** Importing an export gives back the exported configs, except that an
      export of no configs (a header alone) is refused as "Invalid CSV". */
  lemma ImportOfExport(configs: seq<S3Config>)
    ensures ImportCsv(ExportCsv(configs)) == if |configs| == 0 then Err("Invalid CSV") else Ok(configs)
  {
    ImportRowsOfExport(configs);
  }

  /** Rows of one width are imported all or none: every row when it has the
      13 fields a config needs, none otherwise. */
  lemma {:induction false} UniformImportRows(rows: seq<seq<string>>, n: nat)
    requires forall i :: 0 <= i < |rows| ==> |rows[i]| == n
    ensures n >= 13 ==> |ImportRows(rows)| == |rows|
    ensures n < 13 ==> ImportRows(rows) == []
  {
    if |rows| > 0 {
      UniformImportRows(rows[..|rows| - 1], n);
    }
  }

  /** Since the CSV reader accepts only records as wide as the header, an
      import of two or more records yields a config for every data row when
      the header has at least 13 fields, and no config at all otherwise. */
  lemma ImportAllOrNothing(records: CsvRecords)
    requires |records| >= 2
    ensures |records[0]| >= 13 ==> ImportCsv(records).Ok? && |ImportCsv(records).value| == |records| - 1
    ensures |records[0]| < 13 ==> ImportCsv(records) == Ok([])
  {
    UniformImportRows(records[1..], |records[0]|);
  }
}
