/** The logger factory: functional options folded over a default
    configuration, the level the configuration selects, and the hook that
    merges the configured fields into every log entry. */
module Logger {
  import opened Common

  /** The values a configuration holds. */
  datatype Settings = Settings(isProduction: bool, serviceName: string, additionalFields: map<string, Any>)

  /** The configuration before any option: not production, the service
      name "The Lanky Service" and no additional fields. */
  const Defaults := Settings(false, "The Lanky Service", map[])

  /** An `Option`: each closure the three setters return sets one field. */
  datatype Option =
    | SetIsProduction(isProduction: bool)
    | SetServiceName(serviceName: string)
    | SetFields(fields: map<string, Any>)

  /** The fields of a configuration, to speak of them one at a time. */
  datatype Field = Production | ServiceName | AdditionalFields

  /** The field an option sets. */
  function FieldOf(o: Option): Field
  {
    match o
    case SetIsProduction(_) => Production
    case SetServiceName(_) => ServiceName
    case SetFields(_) => AdditionalFields
  }

  /** `a` and `b` hold the same value in field `f`. */
  predicate Agree(a: Settings, b: Settings, f: Field)
  {
    match f
    case Production => a.isProduction == b.isProduction
    case ServiceName => a.serviceName == b.serviceName
    case AdditionalFields => a.additionalFields == b.additionalFields
  }

  /** Calling an option on a configuration: the field it names takes the
      option's value, whatever it held before, and every other field is
      kept. */
  function ApplyOption(s: Settings, o: Option): (r: Settings)
    ensures forall f :: f != FieldOf(o) ==> Agree(r, s, f)
    ensures o.SetIsProduction? ==> r.isProduction == o.isProduction
    ensures o.SetServiceName? ==> r.serviceName == o.serviceName
    ensures o.SetFields? ==> r.additionalFields == o.fields
  {
    match o
    case SetIsProduction(p) => s.(isProduction := p)
    case SetServiceName(n) => s.(serviceName := n)
    case SetFields(m) => s.(additionalFields := m)
  }

  /** The options applied left to right. */
  function Fold(s: Settings, opts: seq<Option>): Settings
  {
    if |opts| == 0 then s else ApplyOption(Fold(s, opts[..|opts| - 1]), opts[|opts| - 1])
  }

  /** The last option that sets a field decides it: the folded
      configuration holds in that field what the option alone gives. */
  lemma {:induction false} LastOptionWins(s: Settings, opts: seq<Option>, i: nat)
    requires i < |opts|
    requires forall j :: i < j < |opts| ==> FieldOf(opts[j]) != FieldOf(opts[i])
    ensures Agree(Fold(s, opts), ApplyOption(s, opts[i]), FieldOf(opts[i]))
  {
    var n := |opts| - 1;
    if i < n {
      var prefix := opts[..n];
      assert forall j :: i < j < |prefix| ==> prefix[j] == opts[j];
      LastOptionWins(s, prefix, i);
      assert prefix[i] == opts[i];
    }
  }

  /** A field no option sets keeps its default. */
  lemma {:induction false} UnsetFieldKeepsDefault(s: Settings, opts: seq<Option>, f: Field)
    requires forall j :: 0 <= j < |opts| ==> FieldOf(opts[j]) != f
    ensures Agree(Fold(s, opts), s, f)
  {
    if |opts| > 0 {
      var prefix := opts[..|opts| - 1];
      assert forall j :: 0 <= j < |prefix| ==> prefix[j] == opts[j];
      UnsetFieldKeepsDefault(s, prefix, f);
    }
  }

  /** `config`: the options' closures update it in place. */
  class Config {
    var isProduction: bool
    var serviceName: string
    var additionalFields: map<string, Any>

    constructor (s: Settings)
      ensures Value() == s
    {
      isProduction := s.isProduction;
      serviceName := s.serviceName;
      additionalFields := s.additionalFields;
    }

    function Value(): Settings
      reads this
    {
      Settings(isProduction, serviceName, additionalFields)
    }

    /** `opt(conf)`: runs the closure an option stands for. */
    method Apply(o: Option)
      modifies this
      ensures Value() == ApplyOption(old(Value()), o)
    {
      match o
      case SetIsProduction(p) => isProduction := p;
      case SetServiceName(n) => serviceName := n;
      case SetFields(m) => additionalFields := m;
    }
  }

  /** logrus's levels, most severe first. */
  datatype Level = PanicLevel | FatalLevel | ErrorLevel | WarnLevel | InfoLevel | DebugLevel | TraceLevel

  /** The level of a logger: Warn in production, Debug otherwise. */
  function LevelFor(isProduction: bool): (l: Level)
    ensures l == WarnLevel <==> isProduction
    ensures l == DebugLevel <==> !isProduction
  {
    if isProduction then WarnLevel else DebugLevel
  }

  /** A level's number in logrus: 0 for Panic up to 6 for Trace. */
  function Rank(l: Level): nat
  {
    match l
    case PanicLevel => 0
    case FatalLevel => 1
    case ErrorLevel => 2
    case WarnLevel => 3
    case InfoLevel => 4
    case DebugLevel => 5
    case TraceLevel => 6
  }

  /** `logrus.AllLevels`. */
  const AllLevels := [PanicLevel, FatalLevel, ErrorLevel, WarnLevel, InfoLevel, DebugLevel, TraceLevel]

  /** `Levels`: the hook fires at every level, each listed once, in the
      order of their numbers. */
  function Levels(): (ls: seq<Level>)
    ensures |ls| == 7
    ensures forall l: Level :: Rank(l) < |ls| && ls[Rank(l)] == l
    ensures forall i, j :: 0 <= i < j < |ls| ==> ls[i] != ls[j]
  {
    AllLevels
  }

  /** The data of a log entry after the hook: every configured field is
      written, replacing an entry value under the same key; every other key
      keeps its value; no key is removed. */
  function Merged(data: map<string, Any>, fields: map<string, Any>): (r: map<string, Any>)
    ensures r.Keys == data.Keys + fields.Keys
    ensures forall k :: k in fields ==> r[k] == fields[k]
    ensures forall k :: k in data && k !in fields ==> r[k] == data[k]
  {
    data + fields
  }

  /** Firing the hook on an entry it already fired on changes nothing. */
  lemma MergedIdempotent(data: map<string, Any>, fields: map<string, Any>)
    ensures Merged(Merged(data, fields), fields) == Merged(data, fields)
  {
  }

  /** `logrus.Entry`, restricted to its data. */
  class Entry {
    var data: map<string, Any>

    constructor (data: map<string, Any>)
      ensures this.data == data
    {
      this.data := data;
    }
  }

  /** `defaultHookConfig`. */
  class DefaultHook {
    const fields: map<string, Any>

    constructor (fields: map<string, Any>)
      ensures this.fields == fields
    {
      this.fields := fields;
    }

    /** `Fire`: writes the configured fields into the entry one key at a
        time, in an order the map does not fix, and never fails. */
    method Fire(entry: Entry) returns (err: Common.Option<string>)
      modifies entry
      ensures err == Common.None
      ensures entry.data == Merged(old(entry.data), fields)
    {
      var pending := fields.Keys;
      while pending != {}
        invariant pending <= fields.Keys
        invariant entry.data.Keys == old(entry.data).Keys + (fields.Keys - pending)
        invariant forall k :: k in fields && k !in pending ==> entry.data[k] == fields[k]
        invariant forall k :: k in old(entry.data) && (k !in fields || k in pending) ==>
          entry.data[k] == old(entry.data)[k]
        decreases pending
      {
        var k :| k in pending;
        entry.data := entry.data[k := fields[k]];
        pending := pending - {k};
      }
      err := Common.None;
    }
  }

  /** The logger `NewInstance` returns, restricted to what the options
      reach: its level and its hook. */
  class Log {
    const level: Level
    const hook: DefaultHook

    constructor (level: Level, hook: DefaultHook)
      ensures this.level == level && this.hook == hook
    {
      this.level := level;
      this.hook := hook;
    }
  }

  /** `NewInstance`: the defaults, the options applied in order, then a
      logger at the level the configuration selects, with a hook holding
      its fields. */
  method NewInstance(opts: seq<Option>) returns (log: Log)
    ensures fresh(log) && fresh(log.hook)
    ensures log.level == LevelFor(Fold(Defaults, opts).isProduction)
    ensures log.hook.fields == Fold(Defaults, opts).additionalFields
  {
    var conf := new Config(Defaults);
    var i := 0;
    while i < |opts|
      invariant 0 <= i <= |opts|
      invariant conf.Value() == Fold(Defaults, opts[..i])
    {
      assert opts[..i + 1][..i] == opts[..i];
      conf.Apply(opts[i]);
      i := i + 1;
    }
    assert opts[..|opts|] == opts;
    var level: Level;
    if conf.isProduction {
      level := WarnLevel;
    } else {
      level := DebugLevel;
    }
    var hook := new DefaultHook(conf.additionalFields);
    log := new Log(level, hook);
  }

  /** What of a configuration reaches the logger: its level and its hook's
      fields. */
  function Observable(s: Settings): (Level, map<string, Any>)
  {
    (LevelFor(s.isProduction), s.additionalFields)
  }

  /** The options without those that set the service name. */
  function WithoutServiceName(opts: seq<Option>): (r: seq<Option>)
    ensures forall j :: 0 <= j < |r| ==> !r[j].SetServiceName?
  {
    if |opts| == 0 then []
    else if opts[|opts| - 1].SetServiceName? then WithoutServiceName(opts[..|opts| - 1])
    else WithoutServiceName(opts[..|opts| - 1]) + [opts[|opts| - 1]]
  }

  /** Folding one more option applies it last. */
  lemma FoldAppend(s: Settings, opts: seq<Option>, o: Option)
    ensures Fold(s, opts + [o]) == ApplyOption(Fold(s, opts), o)
  {
    assert (opts + [o])[..|opts|] == opts;
  }

  /** The service name never reaches the logger: dropping every option that
      sets it leaves the level and the hook's fields as they were. */
  lemma {:induction false} ServiceNameIrrelevant(s: Settings, opts: seq<Option>)
    ensures Observable(Fold(s, WithoutServiceName(opts))) == Observable(Fold(s, opts))
    ensures Fold(s, WithoutServiceName(opts)).serviceName == s.serviceName
  {
    if |opts| > 0 {
      var prefix := opts[..|opts| - 1];
      var last := opts[|opts| - 1];
      ServiceNameIrrelevant(s, prefix);
      assert opts == prefix + [last];
      if !last.SetServiceName? {
        FoldAppend(s, WithoutServiceName(prefix), last);
      }
    }
  }
}
