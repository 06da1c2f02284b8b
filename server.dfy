/** The HTTP server's configuration logic: the host, listen address and
    timeouts of a new server, each defaulted or taken from the
    configuration, and the message logged for an outcome. */
module Server {
  import opened Common

  /** `LankyServerConf`. */
  datatype ServerConf = ServerConf(
    host: string,
    addr: string,
    readTimeout: Duration,
    writeTimeout: Duration,
    idleTimeout: Duration,
    shutdownDelay: Duration)

  /** The request handler, passed through untouched. */
  datatype Handler = Handler(id: nat)

  const DefaultHost := "localhost"
  const DefaultAddr := "8080"
  const DefaultReadTimeout: Duration := 60 * Second

  /** The host of a server: the configured one when set, else "localhost". */
  function HostOf(conf: ServerConf): (h: string)
    ensures h != ""
    ensures conf.host != "" ==> h == conf.host
    ensures conf.host == "" ==> h == DefaultHost
  {
    if |conf.host| > 0 then conf.host else DefaultHost
  }

  /** The port part of the listen address: the configured one when set,
      else "8080". */
  function AddrOf(conf: ServerConf): (a: string)
    ensures a != ""
    ensures conf.addr != "" ==> a == conf.addr
    ensures conf.addr == "" ==> a == DefaultAddr
  {
    if |conf.addr| > 0 then conf.addr else DefaultAddr
  }

  /** The read timeout: the configured one when positive, else 60 seconds;
      never zero, so reads always time out. */
  function ReadTimeoutOf(conf: ServerConf): (t: Duration)
    ensures t > 0
    ensures conf.readTimeout > 0 ==> t == conf.readTimeout
    ensures conf.readTimeout <= 0 ==> t == DefaultReadTimeout
  {
    if conf.readTimeout > 0 then conf.readTimeout else DefaultReadTimeout
  }

  /** `http.Server`, restricted to the fields the constructor sets. */
  class HttpServer {
    var addr: string
    var readTimeout: Duration
    var writeTimeout: Duration
    var idleTimeout: Duration
    const handler: Handler

    /** The composite literal: the timeouts it does not name stay zero. */
    constructor (addr: string, readTimeout: Duration, handler: Handler)
      ensures this.addr == addr && this.readTimeout == readTimeout && this.handler == handler
      ensures writeTimeout == 0 && idleTimeout == 0
    {
      this.addr := addr;
      this.readTimeout := readTimeout;
      this.handler := handler;
      writeTimeout := 0;
      idleTimeout := 0;
    }
  }

  /** `ls`: the server, the configuration it was built from and its host. */
  class LankyServer {
    const server: HttpServer
    const conf: ServerConf
    const host: string

    constructor (server: HttpServer, conf: ServerConf, host: string)
      ensures this.server == server && this.conf == conf && this.host == host
    {
      this.server := server;
      this.conf := conf;
      this.host := host;
    }
  }

  /** `New`: the host, the address and the read timeout start at their
      defaults and are overwritten by set configuration values; the server
      listens on ":" and the address; the write and idle timeouts are set
      only when configured positive, and stay zero (no limit) otherwise. */
  method New(handler: Handler, conf: ServerConf) returns (s: LankyServer)
    ensures fresh(s) && fresh(s.server)
    ensures s.conf == conf && s.server.handler == handler
    ensures s.host == HostOf(conf)
    ensures s.server.addr == ":" + AddrOf(conf)
    ensures s.server.readTimeout == ReadTimeoutOf(conf)
    ensures s.server.writeTimeout == (if conf.writeTimeout > 0 then conf.writeTimeout else 0)
    ensures s.server.idleTimeout == (if conf.idleTimeout > 0 then conf.idleTimeout else 0)
  {
    var host := DefaultHost;
    var addr := DefaultAddr;
    var rto := DefaultReadTimeout;
    if |conf.addr| > 0 {
      addr := conf.addr;
    }
    if |conf.host| > 0 {
      host := conf.host;
    }
    if conf.readTimeout > 0 {
      rto := conf.readTimeout;
    }
    var server := new HttpServer(":" + addr, rto, handler);
    if conf.writeTimeout > 0 {
      server.writeTimeout := conf.writeTimeout;
    }
    if conf.idleTimeout > 0 {
      server.idleTimeout := conf.idleTimeout;
    }
    s := new LankyServer(server, conf, host);
  }

  /** Two configurations give servers the same listen address exactly when
      they configure the same address, or each leaves it unset or sets it to
      "8080": the address of a server tells its configured port, up to the
      default. */
  lemma SameListenAddress(c1: ServerConf, c2: ServerConf)
    ensures ":" + AddrOf(c1) == ":" + AddrOf(c2) <==>
      c1.addr == c2.addr || ((c1.addr == "" || c1.addr == DefaultAddr) && (c2.addr == "" || c2.addr == DefaultAddr))
  {
    if ":" + AddrOf(c1) == ":" + AddrOf(c2) {
      assert (":" + AddrOf(c1))[1..] == AddrOf(c1);
      assert (":" + AddrOf(c2))[1..] == AddrOf(c2);
    }
  }

  /** What `buildMessage` does with an outcome. */
  datatype LogLine = Info(text: string) | Fatal(text: string)

  /** `buildMessage`: the success text at info level when there is no
      error, otherwise the failure text as a fatal message. */
  function BuildMessage<E>(err: Option<E>, success: string, failed: string): (l: LogLine)
    ensures l.Info? <==> err.None?
    ensures l.text == (if err.None? then success else failed)
  {
    if err.None? then Info(success) else Fatal(failed)
  }
}
