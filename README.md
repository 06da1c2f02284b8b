# Lanky Go toolkit — a verified model of its decision logic

The toolkit wraps a RabbitMQ client, an AES payload cipher, an error-code
registry, MongoDB and PostgreSQL connection builders, an HTTP server and a
logrus logger factory. This project models the logic inside those wrappers
in Dafny and proves what the code promises:

- **Publishing and consuming** (`rabbitmq.dfy`):
  - the retry policy and the publish retry loop, as a trace of attempt
    records;
  - the consumer loop with its mutex, both as written and as intended;
  - the panic-and-rejoin cycle of `Listen`, over the loop as written;
  - the constructor's chain of configuration checks.
- **The payload cipher** (`cryptography.dfy`): CFB mode (NIST SP 800-38A,
  section 6.3) over an uninterpreted AES block function, and standard Base64
  (RFC 4648, section 4). It proves round trips, lengths and exactly when
  decryption fails.
- **The error registry** (`errors.dfy`):
  - the global pair of maps;
  - `Register` writing into the caller's maps;
  - `New` overwriting shared registered entries in place;
  - the HTTP status lookup with its 500 fallback.
- **MongoDB** (`mongo.dfy`): configuration validation, the connection
  string, the read-preference choice and the success message.
- **PostgreSQL** (`postgre.dfy`): field defaults, the `key=value`
  connection string built by appends, the log level and the pool defaults.
- **HTTP server** (`server.dfy`): the defaulting of host, address and
  timeouts in `New`, and `buildMessage`.
- **Logger** (`logger.dfy`):
  - the functional options folded over the defaults;
  - the level choice;
  - the hook that merges the configured fields into every entry, and its
    `Levels`.
- **Go string functions** (`common.dfy`): `len` as a UTF-8 byte count,
  `strings.TrimSpace`, `strings.Join` and `strings.Split`.

## How the model represents the system

- **Outside outcomes are parameters.** Broker, database and random-number
  outcomes are passed in as booleans, functions or sequences.
- **Fatal logs are errors.** A `log.Fatal` becomes an error result.
- **Sleeps are recorded.** A `time.Sleep` is recorded as the duration it
  would wait.
- **Mutable Go objects are classes.** Objects the Go code updates in place
  are Dafny classes with `modifies` clauses: the registry and its maps, a
  common error, the Mongo client options, the logger configuration and a log
  entry.

## Model

| member | source | states |
|---|---|---|
| Common.Utf8Encode | rabbitmq/rabbitmq.go:386 | the bytes of a string are never fewer than its characters, and none exactly for the empty string |
| Common.ByteLenAscii | rabbitmq/rabbitmq.go:386 | `len` counts characters exactly when the string is ASCII |
| Common.TrimSpace | rabbitmq/rabbitmq.go:378-398 | the result is the slice between the first and last non-space; it is empty iff the string is all spaces |
| Common.TrimSpaceShortens | rabbitmq/rabbitmq.go:386 | trimming a string that changes it removes at least one byte |
| Common.SplitJoin | db/postgre/driver.go:102 | splitting a joined sequence on its separator gives the parts back when no part holds the separator |
| Cryptography.CfbDecryptEncrypt | cryptography/cryptography.go:59-97 | CFB decryption undoes CFB encryption for every block function, key and IV |
| Cryptography.CfbEncryptDecrypt | cryptography/cryptography.go:59-97 | CFB encryption undoes CFB decryption, so CFB is a bijection on byte strings |
| Cryptography.XorBytes | cryptography/cryptography.go:68 | writes the XOR of the source and the keystream into the buffer at an offset and leaves the rest of the buffer unchanged |
| Cryptography.XorKeyStream | cryptography/cryptography.go:66-68 | filling the fresh buffer block by block leaves in it exactly the CFB transform of the input from the IV, in either direction |
| Cryptography.AlphabetByte | cryptography/cryptography.go:109-111 | every sextet maps to an ASCII alphabet byte that is not padding or a newline and that decodes back to it |
| Cryptography.Encode | cryptography/cryptography.go:109-111 | the encoding is 4·⌈n/3⌉ bytes, every one an alphabet or padding byte |
| Cryptography.StripNewlines | cryptography/cryptography.go:117-119 | the decoder's input has no CR or LF left and is no longer than the text |
| Cryptography.StripNewlinesConcat | cryptography/cryptography.go:117-119 | a single byte is dropped iff it is CR or LF, and the bytes kept from a concatenation are those kept from each part, in order |
| Cryptography.DecodeIgnoresNewline | cryptography/cryptography.go:117-119 | inserting a CR or LF anywhere in the text does not change what `decode` returns |
| Cryptography.StripNewlinesDropsOne | cryptography/cryptography.go:117-119 | a CR or LF inserted anywhere is dropped with the other newlines: the bytes kept do not change |
| Cryptography.DecodeEncode | cryptography/cryptography.go:107-119 | `decode(encode(b)) == b` for every byte sequence |
| Cryptography.DecryptionEncryption | cryptography/cryptography.go:59-97 | with a 16, 24 or 32-byte key, encryption succeeds and decrypting its result gives the data back |
| Cryptography.EncryptionLength | cryptography/cryptography.go:59-71 | with a valid key, the decoded ciphertext is exactly as long as the plaintext, and the text is 4·⌈n/3⌉ bytes |
| Cryptography.DecryptionFailsOnlyOnFormat | cryptography/cryptography.go:81-97 | decryption fails iff the key length is invalid or the text is not Base64; on success the plaintext is as long as the decoded bytes |
| Cryptography.LankyCrypto.constructor | cryptography/cryptography.go:48-53 | the instance keeps the secret and the 16 random bytes as its IV |
| Cryptography.LankyCrypto.Encrypt | cryptography/cryptography.go:59-71 | returns the CFB encryption, Base64-encoded; it fails iff the key length is invalid |
| Cryptography.LankyCrypto.EncryptToBytes | cryptography/cryptography.go:73-79 | the same bytes as `Encrypt` |
| Cryptography.LankyCrypto.Decrypt | cryptography/cryptography.go:81-97 | returns the CFB decryption of the decoded text; it fails iff the key is invalid or the text is not Base64 |
| Cryptography.LankyCrypto.DecryptFromBytes | cryptography/cryptography.go:99-105 | the same result as `Decrypt` on the same bytes |
| RabbitMQ.NewRetries | rabbitmq/rabbitmq.go:31-33 | a non-negative count is kept; a negative one wraps to a `uint` of at least 2^63 |
| RabbitMQ.ResolvePolicy | rabbitmq/rabbitmq.go:94-112 | 1 retry and 1 s delay by default, each replaced only by a positive option value; so at least one attempt and a positive delay |
| RabbitMQ.Mutex.Lock | rabbitmq/rabbitmq.go:118 | taking the lock requires it to be free and leaves it held |
| RabbitMQ.Mutex.Unlock | rabbitmq/rabbitmq.go:157 | releasing the lock requires it to be held and leaves it free |
| RabbitMQ.PublishRun | rabbitmq/rabbitmq.go:117-158 | the attempts are numbered consecutively and stop at the first accepted publish or after the last allowed try; every attempt but the last failed |
| RabbitMQ.PublishAllFail | rabbitmq/rabbitmq.go:117-151 | when encryption or every publish fails, exactly `retries` attempts are made, each followed by a sleep of the delay; an encryption failure makes no publish call |
| RabbitMQ.PublishFirstSuccess | rabbitmq/rabbitmq.go:117-155 | when try k is the first accepted one, exactly k attempts are made, the first k−1 each followed by a sleep, and none after the success |
| RabbitMQ.PublishSameMessage | rabbitmq/rabbitmq.go:136-146 | every publish call goes to the configured exchange and topic with content type text/plain, the same message id and the same encrypted body |
| RabbitMQ.Rabbit.PublishAttempt | rabbitmq/rabbitmq.go:118-157 | one loop pass, from `Lock` to `Unlock`, yields the attempt record of its try |
| RabbitMQ.Rabbit.Publish | rabbitmq/rabbitmq.go:88-159 | the loop's trace is the specified attempt sequence for the resolved policy, the encrypted body and the fixed uid |
| RabbitMQ.Dispatch | rabbitmq/rabbitmq.go:288-325 | topic and id are recorded first; an unknown topic is skipped, and so is an undecryptable body; otherwise the handler gets the delivery with only its body replaced by the plaintext |
| RabbitMQ.Rabbit.DispatchOne | rabbitmq/rabbitmq.go:289-325 | one pass of the loop body does what `Dispatch` specifies |
| RabbitMQ.ConsumeAsWrittenStops | rabbitmq/rabbitmq.go:289-327 | after the first delivery that is skipped or fails, the lock stays held and the loop blocks for ever before the next delivery |
| RabbitMQ.ConsumeAsWrittenPrefix | rabbitmq/rabbitmq.go:288-328 | the loop as written deals with deliveries in order, from the first, and every one it dealt with but the last released the lock |
| RabbitMQ.ConsumeAsWrittenEnds | rabbitmq/rabbitmq.go:288-328 | the loop as written drains the channel only after every delivery with no panic; a panic ends it on the last delivery dealt with; it is stuck before a delivery exactly when the previous one was skipped or failed without releasing the lock |
| RabbitMQ.StuckAfterUnknownTopic | rabbitmq/rabbitmq.go:301-303 | a delivery on an unregistered topic followed by one on a registered topic: the second is never handled |
| RabbitMQ.Rabbit.ConsumeAsWritten | rabbitmq/rabbitmq.go:288-328 | the loop with the lock released only after handler success runs as `ConsumeRunAsWritten` specifies |
| RabbitMQ.ConsumeRunHandlesAll | rabbitmq/rabbitmq.go:288-328 | with the lock released on every path, deliveries are handled in order and the loop never blocks; it drains iff no handler panics, and a panic ends the run |
| RabbitMQ.Rabbit.Consume | rabbitmq/rabbitmq.go:288-328 | the loop with the lock released on every path runs as `ConsumeRun` specifies |
| RabbitMQ.RejoinDelay | rabbitmq/rabbitmq.go:268-273 | the rejoin delay is the configured one when positive, else 5 s, and always positive |
| RabbitMQ.ListenSpec | rabbitmq/rabbitmq.go:184-338 | every trace has the `ListenTrace` shape: every run binds every topic of the same consumer map; every panicked run is followed at once by a rejoin after the rejoin delay, and every rejoin follows one; every run but the last panicked; listening ends stuck iff the last run blocked in `mu.Lock()`, with the channel closed iff the last run drained its deliveries |
| RabbitMQ.Binding | rabbitmq/rabbitmq.go:221-244 | every topic of the consumer map is bound or only logged, never both, and a topic is bound iff the broker accepts its bind |
| RabbitMQ.FailedStage | rabbitmq/rabbitmq.go:187-262 | a run of the broker stops listening for good iff the exchange, the queue or the start of the consumer fails |
| RabbitMQ.PanickedRunTrace | rabbitmq/rabbitmq.go:275-285 | a run that panicked, its rejoin after the delay, then a trace of the later runs, is again a trace of `Listen` |
| RabbitMQ.ListenUsesRuns | rabbitmq/rabbitmq.go:275-285 | each rejoin uses up one run of the broker; listening stops for want of runs iff every run ended in a rejoin |
| RabbitMQ.ListenFatal | rabbitmq/rabbitmq.go:187-262 | listening is fatal iff the run it reached after its rejoins fails the exchange, the queue or the start of the consumer, and then at that declaration |
| RabbitMQ.ListenStuckAfterUnknownTopic | rabbitmq/rabbitmq.go:289-303 | a first delivery on an unregistered topic followed by any other leaves the consumer stuck: nothing more is handled and it never rejoins |
| RabbitMQ.Rabbit.Listen | rabbitmq/rabbitmq.go:184-338 | the runs of the loop as written, with fatal declarations, logged binds, rejoins after panics and a stuck end, give the trace and end of `ListenSpec`, and so a trace of the `ListenTrace` shape |
| RabbitMQ.ValidateConfig | rabbitmq/rabbitmq.go:378-400 | the configuration passes iff the trimmed DSN, exchange name, queue and type are non-empty and the trimmed secret is 24 bytes; the first failing check is the one reported |
| RabbitMQ.CipherSecret | rabbitmq/rabbitmq.go:386-412 | the cipher key of an accepted configuration is 24 bytes, a valid AES key length |
| RabbitMQ.PaddedSecretBreaksCipher | rabbitmq/rabbitmq.go:386-412 | an accepted secret with spaces around it keys the cipher with more than 24 bytes: not a valid key unless 32 bytes, and never the checked key |
| RabbitMQ.ValidatedSecretRoundTrip | rabbitmq/rabbitmq.go:378-412 | keyed with the checked secret, every accepted configuration encrypts and decrypts back to the data |
| RabbitMQ.NewLankyRMQ | rabbitmq/rabbitmq.go:370-421 | fails iff a check fails, dialing fails or the channel fails, with the first failure's error; otherwise the client keeps the configuration and a cipher keyed with the untrimmed secret: a valid key when the secret has no surrounding spaces, more than 24 bytes when it has |
| Errors.CommonError.SetClientMessage | errors/error.go:32-34 | changes the client message and no other field |
| Errors.CommonError.SetSystemMessage | errors/error.go:39-41 | changes the system message and no other field |
| Errors.StatusOf | errors/error.go:97-103 | a registered non-zero status is returned; a missing or zero one reads as 500; never zero |
| Errors.NewFields | errors/error.go:119-149 | a fresh error carries the code; `Err` and `Trace` are set iff an error is given; its texts become the messages only for code 0 |
| Errors.Registry.constructor | errors/error.go:70-73 | `me` starts with two empty maps, so every code has status 500 |
| Errors.Registry.HttpStatus | errors/error.go:97-103 | the status of a code is never zero |
| Errors.Registry.GetHttpStatus | errors/error.go:97-103 | the status of an error is the registered status of its code, or 500 |
| Errors.Registry.ToHttpStatusError | errors/error.go:107-112 | the HTTP error copies every field of the error and carries its non-zero status |
| Errors.Registry.Register | errors/error.go:80-93 | `me` uses the caller's maps; a fresh unidentified error and status 500 are written under code 0 and every other entry is the caller's |
| Errors.Registry.New | errors/error.go:119-160 | a registered entry has `Err` and `Trace` overwritten in place and is returned itself; otherwise a fresh error is built; an error that is a Lanky error is returned instead |
| Errors.Registry.NewSharesRegisteredEntry | errors/error.go:126-154 | two `New` calls with one registered code return the same object, which then carries the second call's texts |
| Mongo.MongoValidation | db/mongo/driver.go:66-90 | passes iff the protocol is mongodb or mongodb+srv, the user is set, and the port is set for mongodb; the first failing check is the one reported |
| Mongo.WithDefaultHost | db/mongo/driver.go:82-84 | the host is set afterwards; a set host and every other field are kept |
| Mongo.DatabaseValidation | db/mongo/driver.go:66-90 | a nil configuration fails; otherwise the error is the first failing check, and the host is defaulted in place when the checks reach it |
| Mongo.DsnAsWrittenAlwaysHasPort | db/mongo/driver.go:98-125 | for every accepted configuration, the connection string as written has the port form, even for mongodb+srv |
| Mongo.SrvDsnAsWrittenHasEmptyPort | db/mongo/driver.go:109 | a mongodb+srv configuration without a port gets a `host:/db` string, which differs from the intended one |
| Mongo.BuildDsnPort | db/mongo/driver.go:98-125 | the corrected string ignores the port for mongodb+srv and depends on it otherwise |
| Mongo.ReadPrefOf | db/mongo/driver.go:133-150 | the chosen preference is the one named by the string, or primary |
| Mongo.ReadPrefRoundTrip | db/mongo/driver.go:133-150 | every preference is chosen by its own name |
| Mongo.ReadPrefDefault | db/mongo/driver.go:145-146 | a string that names no preference gives primary |
| Mongo.BuildReadPreference | db/mongo/driver.go:133-150 | sets the read preference on the options in place, changes no other option, and returns the same object |
| Mongo.SuccessMessageHidesSecrets | db/mongo/driver.go:221-242 | the success message never depends on the password or the option parameters; it ignores the port for mongodb+srv and shows it otherwise |
| Mongo.NewLankyMongo | db/mongo/driver.go:267-311 | fails iff validation, connecting or pinging fails, with the first failure's error; otherwise the options carry the URI as `buildDsn` writes it, which always has the port form, the preference, the timeouts and the pool sizes |
| Postgre.LogLevelFor | db/postgre/driver.go:52-55 | Warn iff production, else Info |
| Postgre.WithDefaults | db/postgre/driver.go:69-83 | host, user, port and database name are set afterwards; set ones are kept, and no other field changes |
| Postgre.DsnParts | db/postgre/driver.go:85-100 | 4 to 7 parts, starting with host, user, port and dbname in that order |
| Postgre.DsnOptionalParts | db/postgre/driver.go:90-100 | the password, sslmode and TimeZone parts appear iff their fields are set, and the part count is 4 plus the number of those set |
| Postgre.DsnSplitsIntoParts | db/postgre/driver.go:102 | when no field holds a space, the connection string splits on spaces back into its parts |
| Postgre.DefaultFields | db/postgre/driver.go:69-83 | the four `if`s default the fields in place exactly as `WithDefaults` says |
| Postgre.AppendParts | db/postgre/driver.go:85-100 | the slice grown by successive appends holds exactly the specified parts, in order |
| Postgre.BuildDsn | db/postgre/driver.go:67-102 | the in-place defaults give `WithDefaults` of the configuration, and the appended, joined parts give its connection string |
| Postgre.PoolOf | db/postgre/driver.go:130-150 | 5 idle, 10 open and 1 h lifetime, each replaced only by a positive value; so every setting is positive |
| Postgre.NewLankyPostgre | db/postgre/driver.go:43-165 | fails iff opening, fetching or pinging fails, with the first failure's error; otherwise the connection has the defaulted string, the level, the slow threshold, the transaction flag and the pool |
| Server.HostOf | server/server.go:98-116 | the host is the configured one when set, else localhost; never empty |
| Server.AddrOf | server/server.go:99-112 | the address is the configured one when set, else 8080; never empty |
| Server.ReadTimeoutOf | server/server.go:100-120 | the read timeout is the configured one when positive, else 60 s; always positive |
| Server.HttpServer.constructor | server/server.go:122-126 | the server literal has the address, read timeout and handler, and zero write and idle timeouts |
| Server.New | server/server.go:92-142 | the server listens on ":" plus the chosen address, with the chosen read timeout; write and idle timeouts are set only when positive; the configuration and handler pass through |
| Server.SameListenAddress | server/server.go:99-123 | two configurations listen on the same address iff they set the same address, or each leaves it unset or sets it to 8080 |
| Server.BuildMessage | server/server.go:144-150 | logs the success text at info level iff there is no error, otherwise the failure text as fatal |
| Logger.ApplyOption | log/logger.go:22-50 | an option sets its own field to its value and keeps every other field |
| Logger.Config.Apply | log/logger.go:22-50 | calling an option's closure updates the configuration in place as `ApplyOption` says |
| Logger.LastOptionWins | log/logger.go:75-77 | after folding the options in order, the last option that sets a field decides that field |
| Logger.UnsetFieldKeepsDefault | log/logger.go:69-77 | a field that no option sets keeps its default |
| Logger.LevelFor | log/logger.go:79-85 | Warn iff production, else Debug |
| Logger.NewInstance | log/logger.go:68-92 | starting from the defaults (not production, "The Lanky Service", no fields) and applying the options in order, the logger gets the level and the hook fields of the folded configuration |
| Logger.ServiceNameIrrelevant | log/logger.go:31-35 | dropping every service-name option changes neither the level nor the hook's fields |
| Logger.Merged | log/logger.go:99-104 | every configured field is written and overwrites a same-named key; every other key is kept; none is removed |
| Logger.MergedIdempotent | log/logger.go:99-104 | firing the hook again on the same entry changes nothing |
| Logger.DefaultHook.Fire | log/logger.go:99-104 | writing the fields one key at a time, in any order, leaves the entry merged as `Merged` says, and returns nil |
| Logger.Levels | log/logger.go:106-108 | all seven levels, each once, in the order of their numbers |

## Left out

- **Broker, database and network I/O.** AMQP dialing, declarations, binds,
  consuming and publishing, `mongo.Connect`/`Ping` and
  `gorm.Open`/`DB`/`Ping` are reduced to success or failure outcomes given
  as parameters. The `Close` methods are not modelled: each only closes a
  connection and logs.
- **Goroutines and concurrency.** `go consumerFn()` and the recursive
  `Listen` from `recover` are modelled as one run after another. Overlapping
  consumers are not modelled. The mutex is a flag whose `Lock` requires it to
  be free, which stands for blocking for ever.
- **Time.** `time.Sleep` is recorded as a duration; contexts and
  cancellation are dropped.
- **Randomness.** The uuid of `Publish` and the 16 random IV bytes are
  parameters.
- **The AES block function.** It is uninterpreted: only its key-length check
  is modelled. The JSON of `ToBytes` is not modelled.
- **Logging output.** Log texts, formatting, colours, the debug-body logs,
  the `buildMonitor` callbacks of the Mongo driver and the gorm logger are
  not modelled.
- **Error texts.** The `Error()` methods, which only format fields, are not
  modelled.
- **HTTP serving.** `Start` and `gracefullShutdown` (serving, OS signals and
  the shutdown delay) are not modelled. Neither is the logger `New` creates
  when none is given.
- **Missing loggers.** Each constructor's creation of a default logger when
  passed nil is not modelled.
- Common.Utf8Encode: Go strings are byte strings and may hold invalid
  UTF-8, where `len` counts raw bytes and `strings.TrimSpace` reads bad
  bytes as U+FFFD; Dafny strings are sequences of Unicode scalar values, so
  the model covers configured strings that are valid UTF-8 only.
- RabbitMQ.Rabbit.Publish: `try` is a Go `uint`, and its increment is taken
  as unbounded. A wrap past 2^64 would need more than 2^64 tries.
- RabbitMQ.ListenSpec: the topics are bound in the map's random order; the
  model records the bound and unbound topics as sets.
- Errors.Registry.Register: a nil Go map passed by the caller would make the
  write panic; a map in the model always exists.
- Logger.Config.Apply: `SetFields` stores the caller's map by reference, so
  later changes by the caller reach the hook; the model copies it as a value.
- Logger.Log: the logger records no service name, no output writer and no
  formatter; the service name is never read by the source.

## Findings

| source | as written | input that shows it | evidently intended | confidence | as-written member | corrected member |
|---|---|---|---|---|---|---|
| db/mongo/driver.go:109 | the port-free form is chosen when the protocol is "mongo+srv", which validation never lets through | protocol "mongodb+srv", port "" gives `user:pass@host:/db` | the port-free form for "mongodb+srv", as the comment on `buildSuccessMessage` and the check at line 231 do | high, not executed | Mongo.BuildDsnAsWritten | Mongo.BuildDsn |
| rabbitmq/rabbitmq.go:386-412 | the secret is checked trimmed but the cipher is keyed with the untrimmed secret | secret " " + 24 letters passes the checks and gives a 25-byte key, which `aes.NewCipher` refuses | key the cipher with the checked, trimmed secret | high, not executed | RabbitMQ.CipherSecretAsWritten | RabbitMQ.CipherSecret |
| rabbitmq/rabbitmq.go:301-327 | the skip paths `continue` while holding the lock, which is released only after a successful handler | a delivery on an unregistered topic, then any delivery: the second `Lock` never returns | release the lock on every path of the loop body | high, not executed | RabbitMQ.Rabbit.ConsumeAsWritten | RabbitMQ.Rabbit.Consume |
