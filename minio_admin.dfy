/**
 * MinIO auto-provisioning of minio_admin.go: the admin and default-bucket
 * settings read from the environment, the names derived from a user id,
 * the random secret and record id, and the sequence of admin and storage
 * calls `CreateMinIOUserAndBucket` issues before it returns the storage
 * configuration it built.
 *
 * The MinIO servers are not modelled: each call that can end the procedure
 * has a supplied fault, and the calls whose errors are only logged are
 * recorded in the call sequence without an outcome. `math/rand` is a
 * supplied sequence of draws.
 */
module MinioAdmin {
  import opened Outcomes
  import opened Text
  import Configuration
  import Registry

  /** `getEnvWithDefault` (minio_admin.go:47-52). */
  function GetEnvWithDefault(env: map<string, string>, key: string, fallback: string): (r: string)
    ensures Configuration.Getenv(env, key) != "" ==> r == Configuration.Getenv(env, key)
    ensures Configuration.Getenv(env, key) == "" ==> r == fallback
  {
    var value := Configuration.Getenv(env, key);
    if value != "" then value else fallback
  }

  /** `getMinIOAdminConfig` (minio_admin.go:30-36). */
  function AdminSettings(env: map<string, string>): Configuration.MinioAdminConfig {
    Configuration.MinioAdminConfig(
      GetEnvWithDefault(env, "MINIO_ADMIN_URL", "http://localhost:9000"),
      GetEnvWithDefault(env, "MINIO_ADMIN_ACCESS_KEY", "minioadmin"),
      GetEnvWithDefault(env, "MINIO_ADMIN_SECRET_KEY", "minioadmin"))
  }

  /** `getMinIODefaultConfig` (minio_admin.go:38-45). */
  function BucketSettings(env: map<string, string>): Configuration.MinioDefaultConfig {
    Configuration.MinioDefaultConfig(
      GetEnvWithDefault(env, "MINIO_DEFAULT_ENDPOINT", "localhost:9000"),
      GetEnvWithDefault(env, "MINIO_DEFAULT_BUCKET", "s3manager-default"),
      GetEnvWithDefault(env, "MINIO_DEFAULT_REGION", "us-east-1"),
      GetEnvWithDefault(env, "MINIO_DEFAULT_SSL", "false") == "true")
  }

  /** SSL is on exactly when the variable is the word `true`; unset, it is off. */
  lemma SslFlag(env: map<string, string>)
    ensures BucketSettings(env).ssl <==> Configuration.Getenv(env, "MINIO_DEFAULT_SSL") == "true"
  {
    if Configuration.Getenv(env, "MINIO_DEFAULT_SSL") == "" {
      assert GetEnvWithDefault(env, "MINIO_DEFAULT_SSL", "false") == "false";
    }
  }

  /** The unset environment gives the built-in admin and bucket settings. */
  lemma BuiltInSettings()
    ensures AdminSettings(map[]) == Configuration.MinioAdminConfig("http://localhost:9000", "minioadmin", "minioadmin")
    ensures BucketSettings(map[]) == Configuration.MinioDefaultConfig("localhost:9000", "s3manager-default", "us-east-1", false)
  {
  }

  // ------------------------------------------------------------------- names

  /** The admin endpoint: a leading `http://` removed, then a leading
      `https://` (minio_admin.go:64-65). */
  function AdminHost(url: string): string {
    TrimPrefix(TrimPrefix(url, "http://"), "https://")
  }

  lemma AdminHostStripsScheme(host: string)
    requires !HasPrefix(host, "http://") && !HasPrefix(host, "https://")
    ensures AdminHost(host) == host
    ensures AdminHost("http://" + host) == host
    ensures AdminHost("https://" + host) == host
  {
    assert ("http://" + host)[..7] == "http://";
    assert ("http://" + host)[7..] == host;
    assert ("https://" + host)[..8] == "https://";
    assert ("https://" + host)[8..] == host;
    assert ("https://" + host)[4] != "http://"[4];
  }

  /** The part of the user id the names carry: its first 8 characters, or
      all of it when it is shorter (minio_admin.go:84-87). */
  function Suffix(userId: string): (r: string)
    ensures |r| <= 8 && HasPrefix(userId, r)
    ensures |userId| <= 8 ==> r == userId
    ensures |userId| > 8 ==> |r| == 8
  {
    if |userId| > 8 then userId[..8] else userId
  }

  function AccessKeyFor(userId: string): string {
    "s3mgr_" + Suffix(userId)
  }

  function BucketFor(userId: string): string {
    "s3mgr-" + Suffix(userId)
  }

  function PolicyNameFor(userId: string): string {
    "s3mgr-policy-" + Suffix(userId)
  }

  /** Two user ids get the same access key, bucket and policy exactly when
      their first 8 characters (or the whole ids, when shorter) agree. */
  lemma NamesShared(a: string, b: string)
    ensures AccessKeyFor(a) == AccessKeyFor(b) <==> Suffix(a) == Suffix(b)
    ensures BucketFor(a) == BucketFor(b) <==> Suffix(a) == Suffix(b)
    ensures PolicyNameFor(a) == PolicyNameFor(b) <==> Suffix(a) == Suffix(b)
  {
    if AccessKeyFor(a) == AccessKeyFor(b) {
      assert Suffix(a) == AccessKeyFor(a)[6..];
      assert Suffix(b) == AccessKeyFor(b)[6..];
    }
    if BucketFor(a) == BucketFor(b) {
      assert Suffix(a) == BucketFor(a)[6..];
      assert Suffix(b) == BucketFor(b)[6..];
    }
    if PolicyNameFor(a) == PolicyNameFor(b) {
      assert Suffix(a) == PolicyNameFor(a)[13..];
      assert Suffix(b) == PolicyNameFor(b)[13..];
    }
  }

  /** So two users whose ids share their first 8 characters are handed the
      same MinIO account and bucket. */
  lemma LongIdsCollide()
    ensures BucketFor("platform-alice") == BucketFor("platform-bob")
    ensures AccessKeyFor("platform-alice") == AccessKeyFor("platform-bob")
  {
    assert Suffix("platform-alice") == "platform";
    assert Suffix("platform-bob") == "platform";
  }

  /** The policy attached to the user: object read, write, delete and
      listing on the user's bucket and on every object in it
      (minio_admin.go:99-117). */
  datatype Policy = Policy(version: string, effect: string, actions: seq<string>, resources: seq<string>)

  function BucketPolicy(bucket: string): (p: Policy)
    ensures forall r :: r in p.resources ==> HasPrefix(r, "arn:aws:s3:::" + bucket)
  {
    var arn := "arn:aws:s3:::" + bucket;
    assert HasPrefix(arn + "/*", arn) by {
      assert (arn + "/*")[..|arn|] == arn;
    }
    Policy("2012-10-17", "Allow",
           ["s3:GetObject", "s3:PutObject", "s3:DeleteObject", "s3:ListBucket"],
           [arn, arn + "/*"])
  }

  // ----------------------------------------------------------------- random

  const Charset: string := "abcdefghijklmnopqrstuvwxyzABCDEFGHIJKLMNOPQRSTUVWXYZ0123456789"

  /** Each draw is what `rand.Intn(len(charset))` returned: an index into
      the 62-character charset. */
  predicate Draws(ds: seq<int>) {
    forall i :: 0 <= i < |ds| ==> 0 <= ds[i] < |Charset|
  }

  /** The text the first `length` draws pick from the charset. */
  function Picked(draws: seq<int>, length: nat): (s: string)
    requires |draws| >= length && Draws(draws)
    ensures |s| == length && forall c :: c in s ==> c in Charset
  {
    seq(length, i requires 0 <= i < length => Charset[draws[i]])
  }

  /** `generateRandomString` (minio_admin.go:193-200): a byte buffer of the
      requested length filled one draw at a time. */
  method GenerateRandomString(length: nat, draws: seq<int>) returns (s: string)
    requires |draws| >= length && Draws(draws)
    ensures s == Picked(draws, length)
    ensures |s| == length && forall c :: c in s ==> c in Charset
  {
    var b := new char[length];
    for i := 0 to length
      invariant forall j :: 0 <= j < i ==> b[j] == Charset[draws[j]]
    {
      b[i] := Charset[draws[i]];
    }
    s := b[..];
  }

  /** The lower-case hexadecimal spelling `fmt.Sprintf("%x", n)` gives a
      natural number. */
  function Hex(n: nat): (h: string)
    ensures |h| > 0 && forall c :: c in h ==> c in "0123456789abcdef"
  {
    var d := ["0123456789abcdef"[n % 16]];
    if n < 16 then d else Hex(n / 16) + d
  }

  /** The number a hexadecimal spelling denotes. */
  function HexValue(h: string): nat
    requires forall c :: c in h ==> c in "0123456789abcdef"
  {
    if |h| == 0 then 0
    else
      assert forall c :: c in h[..|h| - 1] ==> c in h;
      HexDigit(h[|h| - 1]) + 16 * HexValue(h[..|h| - 1])
  }

  function HexDigit(c: char): nat
    requires c in "0123456789abcdef"
  {
    if '0' <= c <= '9' then c as int - '0' as int else c as int - 'a' as int + 10
  }

  lemma {:induction false} HexValueOfHex(n: nat)
    ensures HexValue(Hex(n)) == n
    decreases n
  {
    var d := ["0123456789abcdef"[n % 16]];
    assert HexDigit(d[0]) == n % 16;
    if n >= 16 {
      HexValueOfHex(n / 16);
      var h := Hex(n / 16) + d;
      assert h[..|h| - 1] == Hex(n / 16);
    }
  }

  /** `generateID` (minio_admin.go:202-204): distinct draws of `rand.Int63`
      give distinct record ids. */
  lemma IdsDistinct(a: nat, b: nat)
    requires a != b
    ensures Hex(a) != Hex(b)
  {
    HexValueOfHex(a);
    HexValueOfHex(b);
  }

  // -------------------------------------------------------------- provision

  /** A call to the MinIO admin API or the S3 API. */
  datatype Call =
    | NewAdminClient(endpoint: string, accessKey: string, secretKey: string, secure: bool)
    | ServerInfo
    | AddUser(accessKey: string, secretKey: string)
    | AddCannedPolicy(name: string, policy: Policy)
    | SetPolicy(name: string, user: string)
    | NewS3Client(endpoint: string, accessKey: string, secretKey: string, secure: bool)
    | MakeBucket(bucket: string, region: string)

  /** The errors of the four steps that end the procedure when they fail;
      `None` where the step succeeds. */
  datatype Faults = Faults(
    adminClient: Option<string>,
    serverInfo: Option<string>,
    adminS3Client: Option<string>,
    userS3Client: Option<string>)

  /** Every call `CreateMinIOUserAndBucket` makes when nothing fails, in
      order (minio_admin.go:66-162); probing whether the bucket exists,
      which changes nothing, is not listed. */
  function Script(env: map<string, string>, userId: string, secret: string): (calls: seq<Call>)
    ensures |calls| == 8
  {
    AdminCalls(env) + GrantCalls(userId, secret) + BucketCalls(env, userId, secret)
  }

  /** Reaching the admin API (minio_admin.go:66-79). */
  function AdminCalls(env: map<string, string>): seq<Call>
  {
    var admin := AdminSettings(env);
    [NewAdminClient(AdminHost(admin.url), admin.accessKey, admin.secretKey, false), ServerInfo]
  }

  /** Creating the user, its policy and the attachment (minio_admin.go:89-125). */
  function GrantCalls(userId: string, secret: string): seq<Call>
  {
    [ AddUser(AccessKeyFor(userId), secret),
      AddCannedPolicy(PolicyNameFor(userId), BucketPolicy(BucketFor(userId))),
      SetPolicy(PolicyNameFor(userId), AccessKeyFor(userId)) ]
  }

  /** Making the bucket as the administrator, then reaching it as the new
      user (minio_admin.go:127-162). */
  function BucketCalls(env: map<string, string>, userId: string, secret: string): seq<Call>
  {
    var admin := AdminSettings(env);
    var bucket := BucketSettings(env);
    [ NewS3Client(bucket.endpoint, admin.accessKey, admin.secretKey, bucket.ssl),
      MakeBucket(BucketFor(userId), bucket.region),
      NewS3Client(bucket.endpoint, AccessKeyFor(userId), secret, bucket.ssl) ]
  }

  /** The admin API is always reached without TLS, whatever scheme the
      configured URL names. */
  lemma AdminClientInsecure(env: map<string, string>, userId: string, secret: string)
    ensures Script(env, userId, secret)[0].secure == false
    ensures HasPrefix(AdminSettings(env).url, "https://") ==>
              Script(env, userId, secret)[0].endpoint == AdminSettings(env).url[8..]
  {
    var admin := AdminSettings(env);
    var url := admin.url;
    assert Script(env, userId, secret)[0]
        == NewAdminClient(AdminHost(url), admin.accessKey, admin.secretKey, false);
    if HasPrefix(url, "https://") {
      HttpsNotHttp(url);
    }
  }

  lemma HttpsNotHttp(url: string)
    requires HasPrefix(url, "https://")
    ensures AdminHost(url) == url[8..]
  {
    assert url[4] == 's';
    assert !HasPrefix(url, "http://");
  }

  /** The storage configuration the procedure returns (minio_admin.go:173-187):
      a default MinIO binding of the user to its own bucket, with the
      credentials created for it; both timestamps are the same supplied
      instant. */
  function Provisioned(username: string, userId: string, env: map<string, string>,
                       secret: string, id: string, now: string): Registry.S3Config
  {
    var bucket := BucketSettings(env);
    Registry.S3Config(
      id := id,
      userId := userId,
      name := "MinIO Default (" + username + ")",
      accessKey := AccessKeyFor(userId),
      secretKey := secret,
      region := bucket.region,
      bucketName := BucketFor(userId),
      endpointUrl := bucket.endpoint,
      useSsl := bucket.ssl,
      storageType := "minio",
      isDefault := true,
      createdAt := now,
      updatedAt := now)
  }

  /** The returned record is the binding the calls provisioned: its
      credentials are the MinIO user created, the attached policy covers its
      bucket, the bucket made is its bucket in its region, and the client
      that checks the user's access uses its endpoint, credentials and SSL
      flag. */
  lemma ProvisionedMatchesScript(username: string, userId: string, env: map<string, string>,
                                 secret: string, id: string, now: string)
    ensures var c := Provisioned(username, userId, env, secret, id, now);
            var calls := Script(env, userId, secret);
            && calls[2] == AddUser(c.accessKey, c.secretKey)
            && calls[3].policy == BucketPolicy(c.bucketName)
            && calls[4] == SetPolicy(calls[3].name, c.accessKey)
            && calls[6] == MakeBucket(c.bucketName, c.region)
            && calls[7] == NewS3Client(c.endpointUrl, c.accessKey, c.secretKey, c.useSsl)
            && c.storageType == "minio" && c.isDefault && c.userId == userId
  {
  }

  /** Where the procedure gives up: the error it returns and how many calls
      it had issued by then. */
  datatype Stop = Stop(msg: string, issued: nat)

  /** The first failing step that ends the procedure (minio_admin.go:67-70,
      75-79, 135-137, 160-162), if any. */
  function FirstFault(f: Faults): (s: Option<Stop>)
    ensures s.None? <==> f == Faults(None, None, None, None)
    ensures s.Some? ==> s.value.issued in {1, 2, 6, 8}
  {
    if f.adminClient.Some? then Some(Stop("failed to create MinIO admin client: " + f.adminClient.value, 1))
    else if f.serverInfo.Some? then Some(Stop("failed to connect to MinIO admin API: " + f.serverInfo.value, 2))
    else if f.adminS3Client.Some? then Some(Stop("failed to create admin S3 client: " + f.adminS3Client.value, 6))
    else if f.userS3Client.Some? then Some(Stop("failed to create user S3 client: " + f.userS3Client.value, 8))
    else None
  }

  /** The call prefixes at which the procedure can stop, phase by phase. */
  lemma ScriptPhases(env: map<string, string>, userId: string, secret: string)
    ensures Script(env, userId, secret)[..1] == AdminCalls(env)[..1]
    ensures Script(env, userId, secret)[..2] == AdminCalls(env)
    ensures Script(env, userId, secret)[..6] ==
              AdminCalls(env) + GrantCalls(userId, secret) + BucketCalls(env, userId, secret)[..1]
  {
    var a, g, b := AdminCalls(env), GrantCalls(userId, secret), BucketCalls(env, userId, secret);
    assert Script(env, userId, secret) == a + g + b;
    assert |a| == 2 && |g| == 3 && |b| == 3;
    assert (a + g + b)[..6] == a + g + b[..1];
  }

  /** `CreateMinIOUserAndBucket` (minio_admin.go:55-190). */
  method CreateMinIOUserAndBucket(username: string, userId: string, env: map<string, string>,
                                  faults: Faults, secretDraws: seq<int>, idDraw: nat, now: string)
    returns (r: Result<Registry.S3Config>, calls: seq<Call>)
    requires |secretDraws| >= 32 && Draws(secretDraws)
    ensures FirstFault(faults).Some? ==>
              && r == Err(FirstFault(faults).value.msg)
              && calls == Script(env, userId, Picked(secretDraws, 32))[..FirstFault(faults).value.issued]
    ensures FirstFault(faults).None? ==>
              && r == Ok(Provisioned(username, userId, env, Picked(secretDraws, 32), Hex(idDraw), now))
              && calls == Script(env, userId, Picked(secretDraws, 32))
  {
    var secret := GenerateRandomString(32, secretDraws);
    r, calls := Provision(username, userId, env, faults, secret, Hex(idDraw), now);
  }

  /** The provisioning calls once the secret and the record id are drawn
      (minio_admin.go:66-187). */
  method Provision(username: string, userId: string, env: map<string, string>,
                   faults: Faults, secret: string, id: string, now: string)
    returns (r: Result<Registry.S3Config>, calls: seq<Call>)
    ensures FirstFault(faults).Some? ==>
              && r == Err(FirstFault(faults).value.msg)
              && calls == Script(env, userId, secret)[..FirstFault(faults).value.issued]
    ensures FirstFault(faults).None? ==>
              && r == Ok(Provisioned(username, userId, env, secret, id, now))
              && calls == Script(env, userId, secret)
  {
    var err, connected := ConnectAdmin(env, faults);
    calls := connected;
    ScriptPhases(env, userId, secret);
    if err.Some? {
      return Err(err.value), calls;
    }
    var granted := Grant(userId, secret);
    calls := calls + granted;
    var bucketErr, bucketCalls := ProvisionBucket(env, userId, secret, faults);
    calls := calls + bucketCalls;
    if bucketErr.Some? {
      return Err(bucketErr.value), calls;
    }
    r := Ok(Provisioned(username, userId, env, secret, id, now));
  }

  /** Creates the admin client and checks the server answers; the admin
      client is never built with TLS (minio_admin.go:66-79). */
  method ConnectAdmin(env: map<string, string>, faults: Faults)
    returns (err: Option<string>, calls: seq<Call>)
    ensures faults.adminClient.Some? || faults.serverInfo.Some? ==>
              && FirstFault(faults).Some?
              && err == Some(FirstFault(faults).value.msg)
              && calls == AdminCalls(env)[..FirstFault(faults).value.issued]
    ensures faults.adminClient.None? && faults.serverInfo.None? ==>
              err == None && calls == AdminCalls(env)
  {
    var admin := AdminSettings(env);
    calls := [NewAdminClient(AdminHost(admin.url), admin.accessKey, admin.secretKey, false)];
    if faults.adminClient.Some? {
      return Some("failed to create MinIO admin client: " + faults.adminClient.value), calls;
    }
    calls := calls + [ServerInfo];
    if faults.serverInfo.Some? {
      return Some("failed to connect to MinIO admin API: " + faults.serverInfo.value), calls;
    }
    err := None;
  }

  /** Creates the MinIO user, its bucket policy and attaches one to the
      other (minio_admin.go:89-125). */
  method Grant(userId: string, secret: string) returns (calls: seq<Call>)
    ensures |calls| == 3
    ensures calls[0].AddUser? && calls[0].accessKey == AccessKeyFor(userId) && calls[0].secretKey == secret
    ensures calls == GrantCalls(userId, secret)
  {
    var accessKey := AccessKeyFor(userId);
    var policyName := PolicyNameFor(userId);
    calls := [AddUser(accessKey, secret)];
    calls := calls + [AddCannedPolicy(policyName, BucketPolicy(BucketFor(userId)))];
    calls := calls + [SetPolicy(policyName, accessKey)];
  }

  /** Makes the user's bucket with an admin S3 client, then opens a client
      with the user's own credentials (minio_admin.go:127-162). */
  method ProvisionBucket(env: map<string, string>, userId: string, secret: string, faults: Faults)
    returns (err: Option<string>, calls: seq<Call>)
    requires faults.adminClient.None? && faults.serverInfo.None?
    ensures faults.adminS3Client.Some? || faults.userS3Client.Some? ==>
              && FirstFault(faults).Some?
              && err == Some(FirstFault(faults).value.msg)
              && calls == BucketCalls(env, userId, secret)[..FirstFault(faults).value.issued - 5]
    ensures faults.adminS3Client.None? && faults.userS3Client.None? ==>
              err == None && calls == BucketCalls(env, userId, secret)
  {
    var admin := AdminSettings(env);
    var bucket := BucketSettings(env);
    calls := [NewS3Client(bucket.endpoint, admin.accessKey, admin.secretKey, bucket.ssl)];
    if faults.adminS3Client.Some? {
      return Some("failed to create admin S3 client: " + faults.adminS3Client.value), calls;
    }
    calls := calls + [MakeBucket(BucketFor(userId), bucket.region)];
    calls := calls + [NewS3Client(bucket.endpoint, AccessKeyFor(userId), secret, bucket.ssl)];
    if faults.userS3Client.Some? {
      return Some("failed to create user S3 client: " + faults.userS3Client.value), calls;
    }
    err := None;
  }
}
