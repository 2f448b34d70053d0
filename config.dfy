/**
 * The configuration checks of internal/config/config.go: the ordered required-field
 * validation, the PostgreSQL connection string and the temporary-directory default.
 * Loading the configuration (viper, the environment, the defaults table) is not modelled.
 */
module Config {
  import opened Wrappers
  import opened Text

  datatype BotConfig = BotConfig(token: string, adminId: Int64)
  datatype DatabaseConfig = DatabaseConfig(
    host: string, port: Int64, user: string, password: string, dbName: string, sslMode: string)
  datatype WebConfig = WebConfig(port: Int64, username: string, password: string)
  datatype SearchConfig = SearchConfig(apiUrl: string, timeout: Int64)
  datatype LogConfig = LogConfig(level: string, file: string)

  /** The settings Validate can see; the download settings live in `DownloadConfig`. */
  datatype AppConfig = AppConfig(
    bot: BotConfig, database: DatabaseConfig, web: WebConfig, search: SearchConfig, log: LogConfig)

  /** The four "... 不能为空" errors, one per required field. */
  datatype ConfigError = EmptyToken | EmptyAdminId | EmptyHost | EmptyDBName

  /**
   * Validate: the bot token, the admin ID, the database host and the database name must
   * be set; the first missing one, in that order, is reported.
   */
  function Validate(c: AppConfig): (r: Option<ConfigError>)
    ensures r.None? <==>
      c.bot.token != "" && c.bot.adminId != 0 && c.database.host != "" && c.database.dbName != ""
    ensures r == Some(EmptyToken) <==> c.bot.token == ""
    ensures r == Some(EmptyAdminId) <==> c.bot.token != "" && c.bot.adminId == 0
    ensures r == Some(EmptyHost) <==> c.bot.token != "" && c.bot.adminId != 0 && c.database.host == ""
    ensures r == Some(EmptyDBName) <==>
      c.bot.token != "" && c.bot.adminId != 0 && c.database.host != "" && c.database.dbName == ""
  {
    if c.bot.token == "" then Some(EmptyToken)
    else if c.bot.adminId == 0 then Some(EmptyAdminId)
    else if c.database.host == "" then Some(EmptyHost)
    else if c.database.dbName == "" then Some(EmptyDBName)
    else None
  }

  /**
   * Validate looks at nothing but the four required fields: the port, user, password,
   * SSL mode, web, search and log settings never change its verdict.
   */
  lemma ValidateReadsOnlyRequiredFields(c: AppConfig, d: AppConfig)
    requires c.bot == d.bot
    requires c.database.host == d.database.host && c.database.dbName == d.database.dbName
    ensures Validate(c) == Validate(d)
  {
  }

  /** GetDSN: "host=… port=… user=… password=… dbname=… sslmode=…", in that order. */
  function GetDSN(d: DatabaseConfig): (r: string)
    ensures HasPrefix(r, "host=" + d.host + " port=" + IntToDecimal(d.port) + " user=")
    ensures HasSuffix(r, " dbname=" + d.dbName + " sslmode=" + d.sslMode)
  {
    var head := "host=" + d.host + " port=" + IntToDecimal(d.port) + " user=";
    var tail := " dbname=" + d.dbName + " sslmode=" + d.sslMode;
    var r := head + d.user + " password=" + d.password + tail;
    assert r[..|head|] == head;
    assert r[|r| - |tail|..] == tail;
    r
  }

  /** The password sits between " password=" and " dbname=", right after the user. */
  lemma GetDSNPlacesCredentials(d: DatabaseConfig)
    ensures var head := "host=" + d.host + " port=" + IntToDecimal(d.port) + " user=";
      var tail := " dbname=" + d.dbName + " sslmode=" + d.sslMode;
      var r := GetDSN(d);
      |r| == |head| + |d.user| + 10 + |d.password| + |tail| &&
      r[|head|..|head| + |d.user|] == d.user &&
      r[|head| + |d.user|..|head| + |d.user| + 10] == " password=" &&
      r[|head| + |d.user| + 10..|head| + |d.user| + 10 + |d.password|] == d.password
  {
    var head := "host=" + d.host + " port=" + IntToDecimal(d.port) + " user=";
    var tail := " dbname=" + d.dbName + " sslmode=" + d.sslMode;
    var r := GetDSN(d);
    assert r == head + d.user + " password=" + d.password + tail;
    var k := |head| + |d.user|;
    assert r[|head|..k] == d.user;
    assert r[k..k + 10] == " password=";
    assert r[k + 10..k + 10 + |d.password|] == d.password;
  }

  const DefaultTempDir := "./tmp"

  /** The temporary directory EnsureTempDir settles on. */
  function EffectiveTempDir(dir: string): (r: string)
    ensures r != ""
    ensures dir != "" ==> r == dir
    ensures dir == "" ==> r == DefaultTempDir
  {
    if dir == "" then DefaultTempDir else dir
  }

  /** Settling twice changes nothing more. */
  lemma EffectiveTempDirIdempotent(dir: string)
    ensures EffectiveTempDir(EffectiveTempDir(dir)) == EffectiveTempDir(dir)
  {
  }

  /** The download settings; EnsureTempDir fills in the temporary directory in place. */
  class DownloadConfig {
    var workerCount: Int64
    var maxFileSize: Int64
    var tempDir: string

    constructor(workerCount: Int64, maxFileSize: Int64, tempDir: string)
      ensures this.workerCount == workerCount && this.maxFileSize == maxFileSize
      ensures this.tempDir == tempDir
    {
      this.workerCount := workerCount;
      this.maxFileSize := maxFileSize;
      this.tempDir := tempDir;
    }

    /**
     * EnsureTempDir: an empty directory becomes "./tmp" before the directory is created;
     * `mkdirOk` is whether os.MkdirAll succeeds. The default stays even when it fails.
     */
    method EnsureTempDir(mkdirOk: bool) returns (ok: bool)
      modifies this
      ensures tempDir == EffectiveTempDir(old(tempDir))
      ensures workerCount == old(workerCount) && maxFileSize == old(maxFileSize)
      ensures ok == mkdirOk
    {
      if tempDir == "" {
        tempDir := DefaultTempDir;
      }
      ok := mkdirOk;
    }
  }
}
