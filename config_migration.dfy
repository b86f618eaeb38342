/**
 * The configuration logic of MetricsBridgeMod.java: the versioned migration of
 * the config map (version 1 to 2 adds the HTTPS keys, 2 to 3 drops
 * `sharedSecret`), the decision whether to migrate, and the defaults read
 * when the server starts. Reading and writing the files is not modelled; a
 * config is the JSON object Jackson produced.
 */
module ConfigMigration {
  import opened Base
  import opened Json

  type Config = map<string, JsonValue>

  const TargetVersion: int := 3
  const DefaultHttpPort: int := 8765
  const DefaultHttpsPort: int := 8766
  const DefaultSslKeyPath: string := "config/ssl/private.key"
  const DefaultSslCertPath: string := "config/ssl/certificate.crt"

  /** The keys the migrations write or remove; every other key is carried over. */
  const MigratedKeys: set<string> :=
    {"configVersion", "httpsPort", "enableHttps", "sslKeyPath", "sslCertPath", "sharedSecret"}

  /** Two's-complement wrap to 32 bits, as `intValue()` of a Long or BigInteger does. */
  function Wrap32(i: int): (r: int)
    ensures -0x8000_0000 <= r < 0x8000_0000
    ensures (i - r) % 0x1_0000_0000 == 0
    ensures -0x8000_0000 <= i < 0x8000_0000 ==> r == i
  {
    var m := i % 0x1_0000_0000;
    if m >= 0x8000_0000 then m - 0x1_0000_0000 else m
  }

  /** `(int) d` for a finite double: truncation toward zero, saturating at the int range. */
  function TruncateToInt(r: real): (i: int)
    ensures -0x8000_0000 <= i < 0x8000_0000
    ensures -0x8000_0000 as real <= r < 0x8000_0000 as real ==> (i as real - r) * (i as real - r) < 1.0
    ensures 0.0 <= r ==> 0 <= i && i as real <= r
    ensures r <= 0.0 ==> i <= 0 && r <= i as real
    ensures 0x8000_0000 as real <= r ==> i == 0x7FFF_FFFF
    ensures r < -0x8000_0000 as real ==> i == -0x8000_0000
  {
    var t := if r >= 0.0 then r.Floor else -((-r).Floor);
    if t < -0x8000_0000 then -0x8000_0000 else if t >= 0x8000_0000 then 0x7FFF_FFFF else t
  }

  /** `((Number) v).intValue()`; None when `v` is null or not a number (the cast throws). */
  function IntValue(v: JsonValue): Option<int>
  {
    match v
    case JInt(i) => Some(Wrap32(i))
    case JReal(r) => Some(TruncateToInt(r))
    case _ => None
  }

  /** Unboxing `(Boolean) v`; None when `v` is null or not a boolean. */
  function BoolValue(v: JsonValue): Option<bool>
  {
    if v.JBool? then Some(v.b) else None
  }

  /** `(String) v`: a JSON null gives a null string; None when `v` is not a string. */
  function StringValue(v: JsonValue): Option<Option<string>>
  {
    match v
    case JStr(s) => Some(Some(s))
    case JNull => Some(None)
    case _ => None
  }

  function GetOrDefault(cfg: Config, key: string, default: JsonValue): JsonValue
  {
    if key in cfg then cfg[key] else default
  }

  /** The config's version, 1 when absent; None when the stored value is not a number. */
  function ConfigVersion(cfg: Config): (v: Option<int>)
    ensures "configVersion" !in cfg ==> v == Some(1)
  {
    IntValue(GetOrDefault(cfg, "configVersion", JInt(1)))
  }

  predicate NeedsMigration(cfg: Config)
  {
    ConfigVersion(cfg).Some? && ConfigVersion(cfg).value < TargetVersion
  }

  /** `migrateConfig`: works on a copy of `config` (a value here), putting and removing keys. */
  method MigrateConfig(config: Config, fromVersion: int, toVersion: int) returns (migrated: Config)
    ensures fromVersion < 2 <= toVersion ==>
              && "httpsPort" in migrated && migrated["httpsPort"] == JInt(DefaultHttpsPort)
              && "enableHttps" in migrated && migrated["enableHttps"] == JBool(false)
              && "sslKeyPath" in migrated && migrated["sslKeyPath"] == JStr(DefaultSslKeyPath)
              && "sslCertPath" in migrated && migrated["sslCertPath"] == JStr(DefaultSslCertPath)
    ensures fromVersion < 2 <= toVersion && !(fromVersion < 3 <= toVersion) ==>
              "configVersion" in migrated && migrated["configVersion"] == JInt(2)
    ensures fromVersion < 3 <= toVersion ==>
              "configVersion" in migrated && migrated["configVersion"] == JInt(3) && "sharedSecret" !in migrated
    ensures !(fromVersion < 2 <= toVersion) ==>
              forall k :: k in MigratedKeys - {"configVersion", "sharedSecret"} ==>
                (k in migrated <==> k in config) && (k in config ==> migrated[k] == config[k])
    ensures !(fromVersion < 3 <= toVersion) ==>
              && ("sharedSecret" in migrated <==> "sharedSecret" in config)
              && ("sharedSecret" in config ==> migrated["sharedSecret"] == config["sharedSecret"])
    ensures forall k :: k !in MigratedKeys ==> (k in migrated <==> k in config) && (k in config ==> migrated[k] == config[k])
    ensures !(fromVersion < 2 <= toVersion) && !(fromVersion < 3 <= toVersion) ==> migrated == config
  {
    migrated := config;
    if fromVersion < 2 && toVersion >= 2 {
      migrated := migrated["configVersion" := JInt(2)];
      migrated := migrated["httpsPort" := JInt(DefaultHttpsPort)];
      migrated := migrated["enableHttps" := JBool(false)];
      migrated := migrated["sslKeyPath" := JStr(DefaultSslKeyPath)];
      migrated := migrated["sslCertPath" := JStr(DefaultSslCertPath)];
    }
    if fromVersion < 3 && toVersion >= 3 {
      migrated := migrated["configVersion" := JInt(3)];
      if "sharedSecret" in migrated {
        migrated := migrated - {"sharedSecret"};
      }
    }
  }

  /** What `migrateConfigIfNeeded` does with the parsed config. */
  datatype Migration = UpToDate | Migrated(config: Config) | Failed

  /** `migrateConfigIfNeeded` without the file: Failed is the logged exception of a non-numeric version. */
  method MigrateConfigIfNeeded(config: Config) returns (outcome: Migration)
    ensures outcome == Failed <==> ConfigVersion(config).None?
    ensures outcome == UpToDate <==> ConfigVersion(config).Some? && !NeedsMigration(config)
    ensures outcome.Migrated? <==> NeedsMigration(config)
    ensures outcome.Migrated? ==> ConfigVersion(outcome.config) == Some(TargetVersion) && !NeedsMigration(outcome.config)
    ensures outcome.Migrated? ==>
              "configVersion" in outcome.config && outcome.config["configVersion"] == JInt(TargetVersion)
    ensures outcome.Migrated? ==> "sharedSecret" !in outcome.config
    ensures outcome.Migrated? ==>
              forall k :: k !in MigratedKeys ==>
                (k in outcome.config <==> k in config) && (k in config ==> outcome.config[k] == config[k])
    ensures outcome.Migrated? && ConfigVersion(config).value < 2 ==>
              && "httpsPort" in outcome.config && outcome.config["httpsPort"] == JInt(DefaultHttpsPort)
              && "enableHttps" in outcome.config && outcome.config["enableHttps"] == JBool(false)
              && "sslKeyPath" in outcome.config && outcome.config["sslKeyPath"] == JStr(DefaultSslKeyPath)
              && "sslCertPath" in outcome.config && outcome.config["sslCertPath"] == JStr(DefaultSslCertPath)
    ensures outcome.Migrated? && ConfigVersion(config).value == 2 ==>
              forall k :: k in MigratedKeys - {"configVersion", "sharedSecret"} ==>
                (k in outcome.config <==> k in config) && (k in config ==> outcome.config[k] == config[k])
    ensures outcome.Migrated? && ConfigVersion(config).value < 2 ==>
              ReadSettings(outcome.config).Some? ==>
                var s := ReadSettings(outcome.config).value;
                s.httpsPort == DefaultHttpsPort && !s.enableHttps
                && s.sslKeyPath == Some(DefaultSslKeyPath) && s.sslCertPath == Some(DefaultSslCertPath)
  {
    var currentVersion := ConfigVersion(config);
    if currentVersion.None? {
      return Failed;
    }
    if currentVersion.value < TargetVersion {
      var migrated := MigrateConfig(config, currentVersion.value, TargetVersion);
      return Migrated(migrated);
    }
    outcome := UpToDate;
  }

  /** The settings the SERVER_STARTED handler reads. */
  datatype ServerSettings = ServerSettings(
    httpPort: int,
    httpsPort: int,
    enableHttps: bool,
    sslKeyPath: Option<string>,
    sslCertPath: Option<string>)

  /** The `getOrDefault` reads; None when a present value has the wrong type (the cast throws). */
  function ReadSettings(cfg: Config): (s: Option<ServerSettings>)
    ensures s.Some? && "httpPort" !in cfg ==> s.value.httpPort == DefaultHttpPort
    ensures s.Some? && "httpsPort" !in cfg ==> s.value.httpsPort == DefaultHttpsPort
    ensures s.Some? && "enableHttps" !in cfg ==> !s.value.enableHttps
    ensures s.Some? && "sslKeyPath" !in cfg ==> s.value.sslKeyPath == Some(DefaultSslKeyPath)
    ensures s.Some? && "sslCertPath" !in cfg ==> s.value.sslCertPath == Some(DefaultSslCertPath)
    ensures s.None? <==>
              || IntValue(GetOrDefault(cfg, "httpPort", JInt(DefaultHttpPort))).None?
              || IntValue(GetOrDefault(cfg, "httpsPort", JInt(DefaultHttpsPort))).None?
              || !GetOrDefault(cfg, "enableHttps", JBool(false)).JBool?
              || StringValue(GetOrDefault(cfg, "sslKeyPath", JStr(DefaultSslKeyPath))).None?
              || StringValue(GetOrDefault(cfg, "sslCertPath", JStr(DefaultSslCertPath))).None?
  {
    var httpPort := IntValue(GetOrDefault(cfg, "httpPort", JInt(DefaultHttpPort)));
    var httpsPort := IntValue(GetOrDefault(cfg, "httpsPort", JInt(DefaultHttpsPort)));
    var enableHttps := BoolValue(GetOrDefault(cfg, "enableHttps", JBool(false)));
    var sslKeyPath := StringValue(GetOrDefault(cfg, "sslKeyPath", JStr(DefaultSslKeyPath)));
    var sslCertPath := StringValue(GetOrDefault(cfg, "sslCertPath", JStr(DefaultSslCertPath)));
    if httpPort.Some? && httpsPort.Some? && enableHttps.Some? && sslKeyPath.Some? && sslCertPath.Some? then
      Some(ServerSettings(httpPort.value, httpsPort.value, enableHttps.value, sslKeyPath.value, sslCertPath.value))
    else None
  }

  /** An empty config starts the web server on the documented defaults. */
  lemma EmptyConfigDefaults()
    ensures ReadSettings(map[]) ==
              Some(ServerSettings(DefaultHttpPort, DefaultHttpsPort, false, Some(DefaultSslKeyPath), Some(DefaultSslCertPath)))
  {
  }
}
