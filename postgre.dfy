/** The PostgreSQL driver's configuration logic: defaulting of the
    connection fields, the `key=value` connection string, the gorm log level
    and the connection-pool settings. Opening, fetching and pinging the
    database are reduced to three outcomes. */
module Postgre {
  import opened Common

  /** `LankyPostgreConf`, without its logger. */
  datatype PostgreConf = PostgreConf(
    host: string,
    port: string,
    user: string,
    password: string,
    dbName: string,
    sslMode: string,
    timeZone: string,
    enableDebug: bool,
    maximumIdleConnection: int,
    maximumOpenConnection: int,
    connectionMaxLifeTime: Duration,
    skipDefaultTransaction: bool,
    slowSqlThreshold: Duration)

  /** gorm's log levels. */
  datatype GormLogLevel = Silent | Error | Warn | Info

  /** The gorm log level: Warn in production, Info otherwise. */
  function LogLevelFor(isProduction: bool): (l: GormLogLevel)
    ensures l == Warn <==> isProduction
    ensures l == Info <==> !isProduction
  {
    if isProduction then Warn else Info
  }

  const DefaultHost := "localhost"
  const DefaultUser := "postgres"
  const DefaultPort := "5432"
  const DefaultDbName := "postgres"

  /** The configuration after its connection fields are defaulted: each
      empty one of host, user, port and database name takes its default, a
      set one is kept, and no other field changes. */
  function WithDefaults(c: PostgreConf): (d: PostgreConf)
    ensures d.host != "" && d.user != "" && d.port != "" && d.dbName != ""
    ensures c.host != "" ==> d.host == c.host
    ensures c.user != "" ==> d.user == c.user
    ensures c.port != "" ==> d.port == c.port
    ensures c.dbName != "" ==> d.dbName == c.dbName
    ensures d.(host := c.host, user := c.user, port := c.port, dbName := c.dbName) == c
  {
    c.(host := if c.host == "" then DefaultHost else c.host,
       user := if c.user == "" then DefaultUser else c.user,
       port := if c.port == "" then DefaultPort else c.port,
       dbName := if c.dbName == "" then DefaultDbName else c.dbName)
  }

  /** One `key=value` part of the connection string. */
  function Part(key: string, value: string): string
  {
    key + "=" + value
  }

  /** The parts of the connection string: host, user, port and database
      name always, in that order, then the password, the SSL mode and the
      time zone, in that order, each only when set. */
  function DsnParts(c: PostgreConf): (parts: seq<string>)
    ensures 4 <= |parts| <= 7
    ensures parts[..4] == [Part("host", c.host), Part("user", c.user), Part("port", c.port), Part("dbname", c.dbName)]
  {
    [Part("host", c.host), Part("user", c.user), Part("port", c.port), Part("dbname", c.dbName)]
    + (if c.password != "" then [Part("password", c.password)] else [])
    + (if c.sslMode != "" then [Part("sslmode", c.sslMode)] else [])
    + (if c.timeZone != "" then [Part("TimeZone", c.timeZone)] else [])
  }

  /** The connection string: the parts, one space between each two. */
  function Dsn(c: PostgreConf): string
  {
    Join(DsnParts(c), " ")
  }

  /** Parts with different keys differ, whatever their values. */
  lemma PartKeysDiffer(k1: string, v1: string, k2: string, v2: string)
    requires '=' !in k1 && '=' !in k2 && k1 != k2
    ensures Part(k1, v1) != Part(k2, v2)
  {
    var s1 := Part(k1, v1);
    var s2 := Part(k2, v2);
    if |k1| < |k2| {
      assert s1[|k1|] != s2[|k1|];
    } else if |k2| < |k1| {
      assert s1[|k2|] != s2[|k2|];
    } else {
      assert s1[..|k1|] == k1 && s2[..|k2|] == k2;
    }
  }

  /** The password part appears exactly when a password is set. */
  lemma PasswordPart(c: PostgreConf)
    ensures Part("password", c.password) in DsnParts(c) <==> c.password != ""
  {
    PartKeysDiffer("password", c.password, "host", c.host);
    PartKeysDiffer("password", c.password, "user", c.user);
    PartKeysDiffer("password", c.password, "port", c.port);
    PartKeysDiffer("password", c.password, "dbname", c.dbName);
    PartKeysDiffer("password", c.password, "sslmode", c.sslMode);
    PartKeysDiffer("password", c.password, "TimeZone", c.timeZone);
  }

  /** The sslmode part appears exactly when an SSL mode is set. */
  lemma SslModePart(c: PostgreConf)
    ensures Part("sslmode", c.sslMode) in DsnParts(c) <==> c.sslMode != ""
  {
    PartKeysDiffer("sslmode", c.sslMode, "host", c.host);
    PartKeysDiffer("sslmode", c.sslMode, "user", c.user);
    PartKeysDiffer("sslmode", c.sslMode, "port", c.port);
    PartKeysDiffer("sslmode", c.sslMode, "dbname", c.dbName);
    PartKeysDiffer("sslmode", c.sslMode, "password", c.password);
    PartKeysDiffer("sslmode", c.sslMode, "TimeZone", c.timeZone);
  }

  /** The TimeZone part appears exactly when a time zone is set. */
  lemma TimeZonePart(c: PostgreConf)
    ensures Part("TimeZone", c.timeZone) in DsnParts(c) <==> c.timeZone != ""
  {
    PartKeysDiffer("TimeZone", c.timeZone, "host", c.host);
    PartKeysDiffer("TimeZone", c.timeZone, "user", c.user);
    PartKeysDiffer("TimeZone", c.timeZone, "port", c.port);
    PartKeysDiffer("TimeZone", c.timeZone, "dbname", c.dbName);
    PartKeysDiffer("TimeZone", c.timeZone, "password", c.password);
    PartKeysDiffer("TimeZone", c.timeZone, "sslmode", c.sslMode);
  }

  /** An optional part appears exactly when its field is set, and the
      parts are the four fixed ones plus one per set optional field. */
  lemma DsnOptionalParts(c: PostgreConf)
    ensures Part("password", c.password) in DsnParts(c) <==> c.password != ""
    ensures Part("sslmode", c.sslMode) in DsnParts(c) <==> c.sslMode != ""
    ensures Part("TimeZone", c.timeZone) in DsnParts(c) <==> c.timeZone != ""
    ensures |DsnParts(c)| == 4 + (if c.password != "" then 1 else 0) + (if c.sslMode != "" then 1 else 0)
                                + (if c.timeZone != "" then 1 else 0)
  {
    PasswordPart(c);
    SslModePart(c);
    TimeZonePart(c);
  }

  /** When no field holds a space, the connection string splits back into
      exactly its parts: nothing is lost or merged by the joining. */
  lemma DsnSplitsIntoParts(c: PostgreConf)
    requires ' ' !in c.host && ' ' !in c.user && ' ' !in c.port && ' ' !in c.dbName
    requires ' ' !in c.password && ' ' !in c.sslMode && ' ' !in c.timeZone
    ensures Split(Dsn(c), ' ') == DsnParts(c)
  {
    var parts := DsnParts(c);
    forall k | 0 <= k < |parts|
      ensures ' ' !in parts[k]
    {
    }
    SplitJoin(parts, ' ');
  }

  /** The fields defaulted in place, one `if` each. */
  method DefaultFields(conf: PostgreConf) returns (resolved: PostgreConf)
    ensures resolved == WithDefaults(conf)
  {
    resolved := conf;
    if resolved.host == "" {
      resolved := resolved.(host := DefaultHost);
    }
    if resolved.user == "" {
      resolved := resolved.(user := DefaultUser);
    }
    if resolved.port == "" {
      resolved := resolved.(port := DefaultPort);
    }
    if resolved.dbName == "" {
      resolved := resolved.(dbName := DefaultDbName);
    }
  }

  /** The parts appended one by one to an empty slice. */
  method AppendParts(c: PostgreConf) returns (parts: seq<string>)
    ensures parts == DsnParts(c)
  {
    parts := [];
    parts := parts + [Part("host", c.host)];
    parts := parts + [Part("user", c.user)];
    parts := parts + [Part("port", c.port)];
    parts := parts + [Part("dbname", c.dbName)];
    ghost var always := parts;
    ghost var password := if c.password != "" then [Part("password", c.password)] else [];
    ghost var sslMode := if c.sslMode != "" then [Part("sslmode", c.sslMode)] else [];
    ghost var timeZone := if c.timeZone != "" then [Part("TimeZone", c.timeZone)] else [];
    if c.password != "" {
      parts := parts + [Part("password", c.password)];
    }
    assert parts == always + password;
    if c.sslMode != "" {
      parts := parts + [Part("sslmode", c.sslMode)];
    }
    assert parts == always + password + sslMode;
    if c.timeZone != "" {
      parts := parts + [Part("TimeZone", c.timeZone)];
    }
    assert parts == always + password + sslMode + timeZone;
  }

  /** The connection string of `NewLankyPostgre`: the fields are defaulted in
      place, then the parts are appended one by one and joined. */
  method BuildDsn(conf: PostgreConf) returns (dsn: string, resolved: PostgreConf)
    ensures resolved == WithDefaults(conf)
    ensures dsn == Dsn(resolved)
  {
    resolved := DefaultFields(conf);
    var parts := AppendParts(resolved);
    dsn := Join(parts, " ");
  }

  /** The connection-pool settings. */
  datatype Pool = Pool(maxIdleConns: int, maxOpenConns: int, connMaxLifetime: Duration)

  const DefaultPool := Pool(5, 10, Hour)

  /** The pool settings of a configuration: 5 idle and 10 open connections
      and a lifetime of one hour, each replaced only by a positive
      configured value; so every setting is positive. */
  function PoolOf(c: PostgreConf): (p: Pool)
    ensures p.maxIdleConns > 0 && p.maxOpenConns > 0 && p.connMaxLifetime > 0
    ensures p.maxIdleConns == (if c.maximumIdleConnection > 0 then c.maximumIdleConnection else DefaultPool.maxIdleConns)
    ensures p.maxOpenConns == (if c.maximumOpenConnection > 0 then c.maximumOpenConnection else DefaultPool.maxOpenConns)
    ensures p.connMaxLifetime == (if c.connectionMaxLifeTime > 0 then c.connectionMaxLifeTime else DefaultPool.connMaxLifetime)
  {
    Pool(if c.maximumIdleConnection > 0 then c.maximumIdleConnection else 5,
         if c.maximumOpenConnection > 0 then c.maximumOpenConnection else 10,
         if c.connectionMaxLifeTime > 0 then c.connectionMaxLifeTime else Hour)
  }

  /** Why the driver stops the process. */
  datatype PostgreError = OpenFailed | DbFailed | PingFailed

  /** A connected driver: what it opened the database with and the pool it
      set. */
  datatype Connection = Connection(
    dsn: string,
    logLevel: GormLogLevel,
    slowThreshold: Duration,
    skipDefaultTransaction: bool,
    pool: Pool)

  /** `NewLankyPostgre`: choose the log level, build the connection string,
      open, fetch and ping the database (`openOk`, `fetchOk`, `pingOk` are the
      outcomes of the three calls), then set the pool. */
  method NewLankyPostgre(conf: PostgreConf, isProduction: bool, openOk: bool, fetchOk: bool, pingOk: bool)
    returns (r: Result<Connection, PostgreError>)
    ensures r.Err? <==> !openOk || !fetchOk || !pingOk
    ensures !openOk ==> r == Err(OpenFailed)
    ensures openOk && !fetchOk ==> r == Err(DbFailed)
    ensures openOk && fetchOk && !pingOk ==> r == Err(PingFailed)
    ensures r.Ok? ==> r.value == Connection(Dsn(WithDefaults(conf)), LogLevelFor(isProduction),
                                            conf.slowSqlThreshold, conf.skipDefaultTransaction, PoolOf(conf))
  {
    var logLevel := Info;
    if isProduction {
      logLevel := Warn;
    }
    var dsn, _ := BuildDsn(conf);
    if !openOk {
      return Err(OpenFailed);
    }
    if !fetchOk {
      return Err(DbFailed);
    }
    if !pingOk {
      return Err(PingFailed);
    }
    var maxIdleConnection := 5;
    var maxOpenConnection := 10;
    var connMaxLifeTime := Hour;
    if conf.maximumIdleConnection > 0 {
      maxIdleConnection := conf.maximumIdleConnection;
    }
    if conf.maximumOpenConnection > 0 {
      maxOpenConnection := conf.maximumOpenConnection;
    }
    if conf.connectionMaxLifeTime > 0 {
      connMaxLifeTime := conf.connectionMaxLifeTime;
    }
    var pool := Pool(maxIdleConnection, maxOpenConnection, connMaxLifeTime);
    return Ok(Connection(dsn, logLevel, conf.slowSqlThreshold, conf.skipDefaultTransaction, pool));
  }
}
