/** `cmd/service`: how a benchmark node turns its flags and environment into a running
    `Service`. Environment variables are passed in as strings, an unset variable being the
    empty string, as `os.Getenv` reports it. */
module ServiceMain {

  import opened Wrappers
  import opened Slog
  import Text
  import Service

  /** The upper case of one character as Go's `unicode.ToUpper` gives it, for every character
      whose upper case is an ASCII letter: `a`..`z`, the dotless `ı` and the long `ſ`. */
  function UpperChar(c: char): (u: char)
    ensures 'a' <= c <= 'z' ==> u as int == c as int - 32
    ensures c == 'ı' ==> u == 'I'
    ensures c == 'ſ' ==> u == 'S'
    ensures !('a' <= c <= 'z') && c != 'ı' && c != 'ſ' ==> u == c
  {
    if 'a' <= c <= 'z' then (c as int - 32) as char
    else if c == 'ı' then 'I'
    else if c == 'ſ' then 'S'
    else c
  }

  /** `strings.ToUpper`, character by character. */
  function ToUpper(s: string): (u: string)
    ensures |u| == |s|
    ensures forall i :: 0 <= i < |s| ==> u[i] == UpperChar(s[i])
  {
    if |s| == 0 then [] else [UpperChar(s[0])] + ToUpper(s[1..])
  }

  /** Upper-casing twice is upper-casing once. */
  lemma ToUpperIdempotent(s: string)
    ensures ToUpper(ToUpper(s)) == ToUpper(s)
  {
    var u := ToUpper(s);
    assert forall i :: 0 <= i < |u| ==> UpperChar(u[i]) == u[i];
  }

  /** `getLogLevelFromEnv`: the level named by `LOG_LEVEL`, in any case; anything else,
      including an unset variable, is Info. */
  function LevelFromEnv(raw: string): (l: Level)
    ensures l == Debug <==> ToUpper(raw) == "DEBUG"
    ensures l == Warn <==> ToUpper(raw) == "WARN"
    ensures l == Error <==> ToUpper(raw) == "ERROR"
    ensures l == Info <==> ToUpper(raw) !in {"DEBUG", "WARN", "ERROR"}
  {
    var upper := ToUpper(raw);
    if upper == "DEBUG" then Debug
    else if upper == "INFO" then Info
    else if upper == "WARN" then Warn
    else if upper == "ERROR" then Error
    else Info
  }

  /** The name of each level, as `LOG_LEVEL` spells it. */
  function LevelName(l: Level): string
  {
    match l
    case Debug => "DEBUG"
    case Info => "INFO"
    case Warn => "WARN"
    case Error => "ERROR"
  }

  /** Every level can be selected by its name, and the selection ignores case. */
  lemma LevelFromEnvNames(l: Level, raw: string)
    ensures LevelFromEnv(LevelName(l)) == l
    ensures LevelFromEnv(ToUpper(raw)) == LevelFromEnv(raw)
    ensures LevelFromEnv("") == Info
  {
    var name := LevelName(l);
    assert ToUpper(name) == name by {
      assert forall i :: 0 <= i < |name| ==> UpperChar(name[i]) == name[i];
    }
    ToUpperIdempotent(raw);
  }

  /** The peer list as `main` builds it from `--out`: the comma-separated pieces, but only
      when there are at least two of them. */
  function OutServicesAsWritten(out: string): (r: seq<string>)
    ensures ',' !in out ==> r == []
    ensures ',' in out ==> r == Text.Split(out, ',')
  {
    Text.SplitSingle(out, ',');
    var split := Text.Split(out, ',');
    if |split| > 1 then split else []
  }

  /** A node given exactly one peer calls nobody. */
  lemma SinglePeerDropped(peer: string)
    requires peer != "" && ',' !in peer
    ensures OutServicesAsWritten(peer) == []
    ensures OutServicesAsWritten(peer) != [peer]
  {
  }

  /** The peer list `--out` evidently means: none for the empty string, otherwise the
      comma-separated pieces. */
  function ParseOutServices(out: string): (r: seq<string>)
    ensures out == "" <==> r == []
    ensures out != "" ==> Text.Join(r, ",") == out
  {
    if out == "" then [] else
      Text.JoinSplit(out, ',');
      Text.Split(out, ',')
  }

  /** Reading back a joined list of peer names gives the list, whatever its length. */
  lemma {:induction false} OutServicesRoundTrip(names: seq<string>)
    requires forall k :: 0 <= k < |names| ==> names[k] != "" && ',' !in names[k]
    ensures ParseOutServices(Text.Join(names, ",")) == names
  {
    if |names| > 0 {
      Text.JoinEmpty(names, ",");
      Text.SplitJoin(names, ',');
    }
  }

  /** The list as written agrees with the intended one on every joined list except a list
      of exactly one peer. */
  lemma {:induction false} OutServicesAsWrittenRoundTrip(names: seq<string>)
    requires forall k :: 0 <= k < |names| ==> names[k] != "" && ',' !in names[k]
    ensures OutServicesAsWritten(Text.Join(names, ",")) == names <==> |names| != 1
  {
    var out := Text.Join(names, ",");
    if |names| == 0 {
    } else if |names| == 1 {
      SinglePeerDropped(names[0]);
    } else {
      Text.SplitJoin(names, ',');
      Text.SplitSingle(out, ',');
    }
  }

  /** `BENCH_NAME` and `CNI` fall back to "unknown" when unset or empty. */
  function OrUnknown(v: string): (r: string)
    ensures r != ""
    ensures v != "" ==> r == v
    ensures v == "" ==> r == "unknown"
  {
    if v == "" then "unknown" else v
  }

  /** The command-line flags `main` reads (the ones that reach the modelled code). */
  datatype Flags = Flags(
    name: string,
    out: string,
    delay: int,
    port: string,
    isFrontend: bool,
    tracing: bool)

  /** The three environment variables `main` reads; unset is the empty string. */
  datatype Env = Env(logLevel: string, benchName: string, cni: string)

  /** How start-up ends before serving: a fatal exit with its message, or a configuration. */
  datatype Startup = Fatal(message: string) | Configured(config: Service.ServiceConfig)

  /** `main` up to `NewService`: a missing name is fatal before anything else is decided;
      then a tracer that fails to start is fatal; otherwise the configuration. The tracer
      set-up is an input: `None` when it succeeds, `Some(cause)` when it fails. */
  function Configure(flags: Flags, env: Env, tracerInit: Option<string>): (r: Startup)
    ensures r.Fatal? <==> flags.name == "" || (flags.tracing && tracerInit.Some?)
    ensures flags.name == "" ==> r == Fatal("Service name is required")
    ensures r.Configured? ==>
              && r.config.name == flags.name
              && r.config.outServices == OutServicesAsWritten(flags.out)
              && r.config.processingDelay == flags.delay
              && r.config.logger == Logger(LevelFromEnv(env.logLevel))
              && r.config.topology == OrUnknown(env.benchName)
              && r.config.cni == OrUnknown(env.cni)
  {
    var logger := Logger(LevelFromEnv(env.logLevel));
    var topology := OrUnknown(env.benchName);
    var cni := OrUnknown(env.cni);
    if flags.name == "" then Fatal("Service name is required")
    else if flags.tracing && tracerInit.Some? then Fatal(tracerInit.value)
    else Configured(Service.ServiceConfig(flags.name, OutServicesAsWritten(flags.out), flags.delay,
                                          logger, topology, cni))
  }

  /** A node started with exactly one peer is configured to call nobody, where the intended
      reading of `--out` would give it that peer; with two or more peers both readings agree. */
  lemma ConfigurePeers(flags: Flags, env: Env, tracerInit: Option<string>, names: seq<string>)
    requires Configure(flags, env, tracerInit).Configured?
    requires forall k :: 0 <= k < |names| ==> names[k] != "" && ',' !in names[k]
    requires flags.out == Text.Join(names, ",")
    ensures |names| == 1 ==> Configure(flags, env, tracerInit).config.outServices == []
    ensures |names| == 1 ==> ParseOutServices(flags.out) == names
    ensures |names| != 1 ==> Configure(flags, env, tracerInit).config.outServices == ParseOutServices(flags.out) == names
  {
    OutServicesRoundTrip(names);
    OutServicesAsWrittenRoundTrip(names);
    if |names| == 1 {
      assert flags.out == names[0];
      SinglePeerDropped(names[0]);
    }
  }

  /** `main` up to the servers: configure, build the service, warm its connection cache. */
  method Launch(flags: Flags, env: Env, tracerInit: Option<string>, dials: seq<Service.DialOutcome>)
    returns (svc: Option<Service.Service>)
    requires |dials| == |OutServicesAsWritten(flags.out)|
    ensures svc.None? <==> Configure(flags, env, tracerInit).Fatal?
    ensures svc.Some? ==>
              var outs := OutServicesAsWritten(flags.out);
              var w := Service.Preconnected(map[], outs, dials, |outs|);
              && fresh(svc.value)
              && svc.value.Valid()
              && svc.value.name == flags.name && svc.value.outServices == outs
              && svc.value.connPool == w.pool && svc.value.effects == w.effects
  {
    var startup := Configure(flags, env, tracerInit);
    if startup.Fatal? {
      return None;
    }
    var s := new Service.Service(startup.config);
    s.Preconnect(dials);
    return Some(s);
  }
}
