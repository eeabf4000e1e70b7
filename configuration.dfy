/**
 * Application settings of config/config.go: the YAML file's values, the
 * defaults `setDefaults` fills into zero-valued fields, the environment
 * variables `overrideWithEnv` lets win, and the order `LoadConfig` applies
 * them in before publishing the result as `AppConfig`.
 *
 * Reading the file and decoding its YAML are supplied as a `Source`; the
 * environment is a map from variable name to value, in which a missing
 * variable reads as the empty string, as `os.Getenv` reports it.
 */
module Configuration {
  import opened Outcomes
  import opened Text

  /** `logger.LogConfig` (logger/logger.go:20-29). */
  datatype LogConfig = LogConfig(
    level: string,
    file: string,
    maxSize: int,
    maxBackups: int,
    maxAge: int,
    compress: bool,
    console: bool,
    format: string)

  datatype ServerConfig = ServerConfig(port: int, host: string, readTimeout: int, writeTimeout: int)

  datatype DatabaseConfig = DatabaseConfig(path: string)

  datatype JwtConfig = JwtConfig(secret: string, expiryHours: int)

  datatype MinioAdminConfig = MinioAdminConfig(url: string, accessKey: string, secretKey: string)

  datatype MinioDefaultConfig = MinioDefaultConfig(endpoint: string, bucket: string, region: string, ssl: bool)

  /** The value of a `Config` (config/config.go:12-48). */
  datatype Settings = Settings(
    logging: LogConfig,
    server: ServerConfig,
    database: DatabaseConfig,
    jwt: JwtConfig,
    minioAdmin: MinioAdminConfig,
    minioDefault: MinioDefaultConfig)

  /** The settings of an empty YAML document: every field its zero value. */
  const Empty: Settings :=
    Settings(
      LogConfig("", "", 0, 0, 0, false, false, ""),
      ServerConfig(0, "", 0, 0),
      DatabaseConfig(""),
      JwtConfig("", 0),
      MinioAdminConfig("", "", ""),
      MinioDefaultConfig("", "", "", false))

  // ---------------------------------------------------------------- defaults

  /** Every field `setDefaults` has a default for holds a non-zero value. */
  predicate Complete(s: Settings) {
    && s.logging.level != ""
    && s.logging.file != ""
    && s.logging.maxSize != 0
    && s.logging.maxBackups != 0
    && s.logging.maxAge != 0
    && s.logging.format != ""
    && s.server.port != 0
    && s.server.host != ""
    && s.server.readTimeout != 0
    && s.server.writeTimeout != 0
    && s.database.path != ""
    && s.jwt.expiryHours != 0
  }

  /** `d` agrees with `s` on every field `s` has set, and on every field
      without a default (the JWT secret, the compress and console flags and
      both MinIO sections) whether set or not. */
  predicate Keeps(s: Settings, d: Settings) {
    && (s.logging.level == "" || d.logging.level == s.logging.level)
    && (s.logging.file == "" || d.logging.file == s.logging.file)
    && (s.logging.maxSize == 0 || d.logging.maxSize == s.logging.maxSize)
    && (s.logging.maxBackups == 0 || d.logging.maxBackups == s.logging.maxBackups)
    && (s.logging.maxAge == 0 || d.logging.maxAge == s.logging.maxAge)
    && (s.logging.format == "" || d.logging.format == s.logging.format)
    && (s.server.port == 0 || d.server.port == s.server.port)
    && (s.server.host == "" || d.server.host == s.server.host)
    && (s.server.readTimeout == 0 || d.server.readTimeout == s.server.readTimeout)
    && (s.server.writeTimeout == 0 || d.server.writeTimeout == s.server.writeTimeout)
    && (s.database.path == "" || d.database.path == s.database.path)
    && (s.jwt.expiryHours == 0 || d.jwt.expiryHours == s.jwt.expiryHours)
    && d.jwt.secret == s.jwt.secret
    && d.logging.compress == s.logging.compress
    && d.logging.console == s.logging.console
    && d.minioAdmin == s.minioAdmin
    && d.minioDefault == s.minioDefault
  }

  function OrText(v: string, fallback: string): string {
    if v == "" then fallback else v
  }

  function OrNumber(v: int, fallback: int): int {
    if v == 0 then fallback else v
  }

  function DefaultedLogging(lg: LogConfig): LogConfig {
    lg.(level := OrText(lg.level, "info"),
        file := OrText(lg.file, "logs/s3mgr.log"),
        maxSize := OrNumber(lg.maxSize, 100),
        maxBackups := OrNumber(lg.maxBackups, 30),
        maxAge := OrNumber(lg.maxAge, 30),
        format := OrText(lg.format, "json"))
  }

  function DefaultedServer(sv: ServerConfig): ServerConfig {
    sv.(port := OrNumber(sv.port, 8081),
        host := OrText(sv.host, "0.0.0.0"),
        readTimeout := OrNumber(sv.readTimeout, 30),
        writeTimeout := OrNumber(sv.writeTimeout, 30))
  }

  /** `setDefaults` (config/config.go:91-135) as a function of the value. */
  function Defaulted(s: Settings): (d: Settings)
    ensures Complete(d) && Keeps(s, d)
  {
    Settings(
      DefaultedLogging(s.logging),
      DefaultedServer(s.server),
      s.database.(path := OrText(s.database.path, "s3mgr.db")),
      s.jwt.(expiryHours := OrNumber(s.jwt.expiryHours, 24)),
      s.minioAdmin,
      s.minioDefault)
  }

  /** The defaults themselves, as an empty file receives them. */
  lemma DefaultsOfEmpty()
    ensures Defaulted(Empty) == Settings(
              LogConfig("info", "logs/s3mgr.log", 100, 30, 30, false, false, "json"),
              ServerConfig(8081, "0.0.0.0", 30, 30),
              DatabaseConfig("s3mgr.db"),
              JwtConfig("", 24),
              MinioAdminConfig("", "", ""),
              MinioDefaultConfig("", "", "", false))
  {
  }

  /** Settings that already have every defaulted field are left alone, and
      only those: defaulting is idempotent. */
  lemma DefaultsFixComplete(s: Settings)
    ensures Defaulted(s) == s <==> Complete(s)
    ensures Defaulted(Defaulted(s)) == Defaulted(s)
  {
    if Complete(s) {
      assert Keeps(s, Defaulted(s));
    }
  }

  // ------------------------------------------------------------ environment

  /** `os.Getenv`: a variable that is not set reads as empty. */
  function Getenv(env: map<string, string>, name: string): string {
    if name in env then env[name] else ""
  }

  function OverriddenLogging(lg: LogConfig, env: map<string, string>): LogConfig {
    lg.(level := OrText(Getenv(env, "LOG_LEVEL"), lg.level),
        file := OrText(Getenv(env, "LOG_FILE"), lg.file))
  }

  /** `SERVER_PORT` is read with `Sscanf("%d")`, which leaves the port as it
      was when no number can be read. */
  function OverriddenPort(port: int, env: map<string, string>): int {
    if Getenv(env, "SERVER_PORT") != "" then ScanInt(Getenv(env, "SERVER_PORT"), port) else port
  }

  function OverriddenAdmin(ma: MinioAdminConfig, env: map<string, string>): MinioAdminConfig {
    MinioAdminConfig(OrText(Getenv(env, "MINIO_ADMIN_URL"), ma.url),
                     OrText(Getenv(env, "MINIO_ADMIN_ACCESS_KEY"), ma.accessKey),
                     OrText(Getenv(env, "MINIO_ADMIN_SECRET_KEY"), ma.secretKey))
  }

  function OverriddenBucket(md: MinioDefaultConfig, env: map<string, string>): MinioDefaultConfig {
    md.(endpoint := OrText(Getenv(env, "MINIO_DEFAULT_ENDPOINT"), md.endpoint),
        bucket := OrText(Getenv(env, "MINIO_DEFAULT_BUCKET"), md.bucket),
        region := OrText(Getenv(env, "MINIO_DEFAULT_REGION"), md.region))
  }

  /** `overrideWithEnv` (config/config.go:137-169) as a function of the
      value: a non-empty variable replaces its field. */
  function Overridden(s: Settings, env: map<string, string>): Settings {
    Settings(
      OverriddenLogging(s.logging, env),
      s.server.(port := OverriddenPort(s.server.port, env)),
      s.database,
      s.jwt.(secret := OrText(Getenv(env, "JWT_SECRET"), s.jwt.secret)),
      OverriddenAdmin(s.minioAdmin, env),
      OverriddenBucket(s.minioDefault, env))
  }

  /** The fields without a variable are never touched: the logging limits,
      format and flags, the host and timeouts, the database, the token
      lifetime and the default bucket's SSL flag. */
  lemma OverrideFrame(s: Settings, env: map<string, string>)
    ensures var o := Overridden(s, env);
            && o.logging.(level := s.logging.level, file := s.logging.file) == s.logging
            && o.server.(port := s.server.port) == s.server
            && o.database == s.database
            && o.jwt.expiryHours == s.jwt.expiryHours
            && o.minioDefault.ssl == s.minioDefault.ssl
  {
  }

  /** With no variable set nothing changes. */
  lemma OverrideUnset(s: Settings)
    ensures Overridden(s, map[]) == s
  {
  }

  /** Applying the same environment twice changes nothing more than once. */
  lemma OverrideIdempotent(s: Settings, env: map<string, string>)
    ensures Overridden(Overridden(s, env), env) == Overridden(s, env)
  {
    PortIdempotent(s.server.port, env);
  }

  /** A second `Sscanf` of the same text reads the same number, or fails
      again and keeps it. */
  lemma PortIdempotent(port: int, env: map<string, string>)
    ensures OverriddenPort(OverriddenPort(port, env), env) == OverriddenPort(port, env)
  {
    var p := Getenv(env, "SERVER_PORT");
    if p != "" {
      var once := ScanInt(p, port);
      if once != port {
        assert ScanInt(p, once) == once;
      }
    }
  }

  /** `SERVER_PORT` holding a decimal number sets the port to it. */
  lemma PortFromEnv(s: Settings, env: map<string, string>, n: int)
    requires InInt64(n)
    requires Getenv(env, "SERVER_PORT") == FormatInt(n)
    ensures Overridden(s, env).server.port == n
  {
    ScanIntFormatInt(n, "", s.server.port);
    assert FormatInt(n) + "" == FormatInt(n);
  }

  // ---------------------------------------------------------------- loading

  /** `loadFromFile`'s view of the file: it could not be read, its YAML could
      not be decoded, or it decoded to these settings. */
  datatype Source = Unreadable(err: string) | Unparsable(err: string) | Parsed(settings: Settings)

  /** What `LoadConfig` publishes: defaults first, then the environment
      (config/config.go:62-68, 86). */
  function Loaded(s: Settings, env: map<string, string>): Settings {
    Overridden(Defaulted(s), env)
  }

  /** Because the environment is applied after the defaults, a set variable
      wins over a default and over the file; a field whose variable is unset
      keeps the file's value or its default. */
  lemma EnvWins(s: Settings, env: map<string, string>)
    ensures Getenv(env, "LOG_LEVEL") != "" ==> Loaded(s, env).logging.level == Getenv(env, "LOG_LEVEL")
    ensures Getenv(env, "LOG_LEVEL") == "" ==> Loaded(s, env).logging.level == OrText(s.logging.level, "info")
    ensures Getenv(env, "LOG_FILE") != "" ==> Loaded(s, env).logging.file == Getenv(env, "LOG_FILE")
    ensures Getenv(env, "LOG_FILE") == "" ==> Loaded(s, env).logging.file == OrText(s.logging.file, "logs/s3mgr.log")
    ensures Getenv(env, "SERVER_PORT") == "" ==> Loaded(s, env).server.port == OrNumber(s.server.port, 8081)
    ensures Getenv(env, "JWT_SECRET") != "" ==> Loaded(s, env).jwt.secret == Getenv(env, "JWT_SECRET")
    ensures Getenv(env, "JWT_SECRET") == "" ==> Loaded(s, env).jwt.secret == s.jwt.secret
    ensures Loaded(s, env).server.host == OrText(s.server.host, "0.0.0.0")
    ensures Loaded(s, env).jwt.expiryHours == OrNumber(s.jwt.expiryHours, 24)
  {
    assert Keeps(s, Defaulted(s));
  }

  /** Nothing re-checks the port after the environment: `SERVER_PORT=0`
      yields port 0, not the default 8081. */
  lemma EnvPortNotDefaulted(s: Settings)
    ensures Loaded(s, map["SERVER_PORT" := "0"]).server.port == 0
  {
    PortFromEnv(Defaulted(s), map["SERVER_PORT" := "0"], 0);
  }

  /** The `*Config` the loader fills in place. */
  class Config {
    var logging: LogConfig
    var server: ServerConfig
    var database: DatabaseConfig
    var jwt: JwtConfig
    var minioAdmin: MinioAdminConfig
    var minioDefault: MinioDefaultConfig

    function Value(): Settings
      reads this
    {
      Settings(logging, server, database, jwt, minioAdmin, minioDefault)
    }

    /** A `Config` holding what the YAML decoder produced. */
    constructor (s: Settings)
      ensures Value() == s
    {
      logging := s.logging;
      server := s.server;
      database := s.database;
      jwt := s.jwt;
      minioAdmin := s.minioAdmin;
      minioDefault := s.minioDefault;
    }

    /** `setDefaults` (config/config.go:91-135). */
    method SetDefaults()
      modifies this
      ensures Value() == Defaulted(old(Value()))
    {
      logging := DefaultLogging(logging);
      server := DefaultServer(server);
      if database.path == "" {
        database := database.(path := "s3mgr.db");
      }
      if jwt.expiryHours == 0 {
        jwt := jwt.(expiryHours := 24);
      }
    }

    /** `overrideWithEnv` (config/config.go:137-169). */
    method OverrideWithEnv(env: map<string, string>)
      modifies this
      ensures Value() == Overridden(old(Value()), env)
    {
      logging := OverrideLogging(logging, env);
      server := OverridePort(server, env);
      jwt := OverrideSecret(jwt, env);
      minioAdmin := OverrideAdmin(minioAdmin, env);
      minioDefault := OverrideBucket(minioDefault, env);
    }
  }

  /** The logging part of `setDefaults` (config/config.go:92-110). */
  method DefaultLogging(lg0: LogConfig) returns (lg: LogConfig)
    ensures lg == DefaultedLogging(lg0)
  {
    lg := lg0;
    if lg.level == "" {
      lg := lg.(level := "info");
    }
    if lg.file == "" {
      lg := lg.(file := "logs/s3mgr.log");
    }
    if lg.maxSize == 0 {
      lg := lg.(maxSize := 100);
    }
    if lg.maxBackups == 0 {
      lg := lg.(maxBackups := 30);
    }
    if lg.maxAge == 0 {
      lg := lg.(maxAge := 30);
    }
    if lg.format == "" {
      lg := lg.(format := "json");
    }
  }

  /** The server part of `setDefaults` (config/config.go:112-124). */
  method DefaultServer(sv0: ServerConfig) returns (sv: ServerConfig)
    ensures sv == DefaultedServer(sv0)
  {
    sv := sv0;
    if sv.port == 0 {
      sv := sv.(port := 8081);
    }
    if sv.host == "" {
      sv := sv.(host := "0.0.0.0");
    }
    if sv.readTimeout == 0 {
      sv := sv.(readTimeout := 30);
    }
    if sv.writeTimeout == 0 {
      sv := sv.(writeTimeout := 30);
    }
  }

  /** The logging variables of `overrideWithEnv` (config/config.go:139-144). */
  method OverrideLogging(lg0: LogConfig, env: map<string, string>) returns (lg: LogConfig)
    ensures lg == OverriddenLogging(lg0, env)
  {
    lg := lg0;
    var val := Getenv(env, "LOG_LEVEL");
    if val != "" {
      lg := lg.(level := val);
    }
    val := Getenv(env, "LOG_FILE");
    if val != "" {
      lg := lg.(file := val);
    }
  }

  /** `SERVER_PORT` of `overrideWithEnv`, read with `Sscanf("%d")` into the
      configured port (config/config.go:145-147). */
  method OverridePort(srv0: ServerConfig, env: map<string, string>) returns (srv: ServerConfig)
    ensures srv == srv0.(port := OverriddenPort(srv0.port, env))
  {
    srv := srv0;
    var val := Getenv(env, "SERVER_PORT");
    if val != "" {
      srv := srv.(port := ScanInt(val, srv.port));
    }
  }

  /** `JWT_SECRET` of `overrideWithEnv` (config/config.go:148-150). */
  method OverrideSecret(jwt0: JwtConfig, env: map<string, string>) returns (jwt: JwtConfig)
    ensures jwt == jwt0.(secret := OrText(Getenv(env, "JWT_SECRET"), jwt0.secret))
  {
    jwt := jwt0;
    var val := Getenv(env, "JWT_SECRET");
    if val != "" {
      jwt := jwt.(secret := val);
    }
  }

  /** The MinIO admin variables of `overrideWithEnv` (config/config.go:151-159). */
  method OverrideAdmin(ma0: MinioAdminConfig, env: map<string, string>) returns (ma: MinioAdminConfig)
    ensures ma == OverriddenAdmin(ma0, env)
  {
    ma := ma0;
    var val := Getenv(env, "MINIO_ADMIN_URL");
    if val != "" {
      ma := ma.(url := val);
    }
    val := Getenv(env, "MINIO_ADMIN_ACCESS_KEY");
    if val != "" {
      ma := ma.(accessKey := val);
    }
    val := Getenv(env, "MINIO_ADMIN_SECRET_KEY");
    if val != "" {
      ma := ma.(secretKey := val);
    }
  }

  /** The default-bucket variables of `overrideWithEnv` (config/config.go:160-168). */
  method OverrideBucket(md0: MinioDefaultConfig, env: map<string, string>) returns (md: MinioDefaultConfig)
    ensures md == OverriddenBucket(md0, env)
  {
    md := md0;
    var val := Getenv(env, "MINIO_DEFAULT_ENDPOINT");
    if val != "" {
      md := md.(endpoint := val);
    }
    val := Getenv(env, "MINIO_DEFAULT_BUCKET");
    if val != "" {
      md := md.(bucket := val);
    }
    val := Getenv(env, "MINIO_DEFAULT_REGION");
    if val != "" {
      md := md.(region := val);
    }
  }

  /** Why `loadFromFile` gives up on a file (config/config.go:75-83). */
  function FileError(filename: string, source: Source): string
    requires !source.Parsed?
  {
    if source.Unreadable? then "failed to read config file " + filename + ": " + source.err
    else "failed to parse config file: " + source.err
  }

  /** `loadFromFile` (config/config.go:74-89): a fresh `Config` with the
      defaults filled in, or the reason the file could not be used. */
  method LoadFromFile(filename: string, source: Source) returns (r: Result<Config>)
    ensures !source.Parsed? ==> r == Err(FileError(filename, source))
    ensures source.Parsed? ==> r.Ok? && fresh(r.value) && r.value.Value() == Defaulted(source.settings)
  {
    match source
    case Unreadable(e) =>
      return Err("failed to read config file " + filename + ": " + e);
    case Unparsable(e) =>
      return Err("failed to parse config file: " + e);
    case Parsed(s) =>
      var config := new Config(s);
      config.SetDefaults();
      return Ok(config);
  }

  /** The package globals `AppConfig` and `configFile` (config/config.go:50-53). */
  class Globals {
    var appConfig: Config?
    var configFile: string

    constructor ()
      ensures appConfig == null && configFile == ""
    {
      appConfig := null;
      configFile := "";
    }

    /** `LoadConfig` (config/config.go:56-72): the `-config` flag names the
        file (default `config.yaml`), `source` is what reading it yields. */
    method LoadConfig(flagValue: Option<string>, source: Source, env: map<string, string>)
      returns (r: Result<Config>)
      modifies this
      ensures configFile == if flagValue.Some? then flagValue.value else "config.yaml"
      ensures !source.Parsed? ==>
                appConfig == old(appConfig) && r == Err("failed to load config from file: " + FileError(configFile, source))
      ensures source.Parsed? ==>
                && r.Ok? && fresh(r.value) && appConfig == r.value
                && r.value.Value() == Loaded(source.settings, env)
    {
      configFile := if flagValue.Some? then flagValue.value else "config.yaml";
      var loaded := LoadFromFile(configFile, source);
      if loaded.Err? {
        return Err("failed to load config from file: " + loaded.msg);
      }
      var config := loaded.value;
      config.OverrideWithEnv(env);
      appConfig := config;
      return Ok(config);
    }

    /** `ReloadConfig` (config/config.go:177-187): `source` is what reading
        `configFile` yields now, `loggerInit` what re-initialising the logger
        with the new logging section reports. */
    method ReloadConfig(source: Source, env: map<string, string>, loggerInit: Option<string>)
      returns (err: Option<string>)
      modifies this
      ensures configFile == old(configFile)
      ensures !source.Parsed? ==> err == Some(FileError(configFile, source)) && appConfig == old(appConfig)
      ensures source.Parsed? ==>
                && appConfig != null && fresh(appConfig)
                && appConfig.Value() == Loaded(source.settings, env)
                && err == loggerInit
    {
      var loaded := LoadFromFile(configFile, source);
      if loaded.Err? {
        return Some(loaded.msg);
      }
      var config := loaded.value;
      config.OverrideWithEnv(env);
      appConfig := config;
      err := loggerInit;
    }
  }
}
