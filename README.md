# Microbench in Dafny

Microbench is a benchmark for Kubernetes networking. It deploys a tree of identical
gRPC services. Each node of the tree:

- traces the start of a request;
- sleeps for its processing delay;
- calls every peer it was configured with, concurrently;
- logs the errors it collected;
- traces the end and replies.

The frontend node also takes HTTP requests and turns each one into the first request of a
call tree.

Two generators produce the deployment:

- A Python script writes topology files: the number of services per level, the node each
  level is placed on, and who calls whom.
- A Go command turns a topology file into Kubernetes manifests. Each service gets a
  statefulset and a service, and the frontend also gets an external service.

This project models those parts and proves their properties.

| module | file | models |
|---|---|---|
| `Service` | `service.dfy` | `pkg/service`: the dispatcher `Process`, `callService`, the connection cache (`getConnection`, `Preconnect`) and the HTTP ingress `handle_http`. `Service.Service` is a class whose connection cache is updated in place. |
| `Tracing` | `tracing.dfy` | `pkg/tracing`: `NewTracer` and the record `LogTrace` hands to the logger. |
| `ServiceMain` | `service_main.dfy` | `cmd/service`: the log level from `LOG_LEVEL`, the defaults for `BENCH_NAME` and `CNI`, the peer list from `--out`, and the fatal check for a missing name. |
| `Topology` | `topology.dfy` | `internal/topology.ReadFile`: after decoding, every service gets its map key as its name. |
| `GenerateMain` | `generate_main.dfy` | `cmd/generate`: container arguments, bench name, the manifests written per service, and the order in which errors stop the command. |
| `GenerateTopologies` | `generate_topologies.dfy` | `generate_topologies.py`: `generate_yaml`, `generate_service_chain` and `generate_single_topology`. |

Four helper modules support them:

- `Ints` holds Go's `int32` and its wrap-around.
- `Slog` holds log levels and the level filter.
- `Text` holds split, join, and decimal rendering and parsing.
- `Wrappers` holds `Option` and `Result`.

Some inputs that the code receives from outside are passed in as parameters:

- **Transport.** Each downstream call gets an `Attempt`. It says whether building the connection succeeds and what the RPC returns.
- **Decoding and templates.** The file read, the YAML decoder and the template engine's result.
- **Environment.** Environment variables, and whether tracer set-up fails.
- **Clock.** The clock reading is a parameter.

Go's map iteration order is left unspecified: the loops pick keys with `:|` and report the
order they used as a ghost result.

Everything a service node does to the outside world goes into a ghost log, `effects`, in
order. That includes trace events, the sleep, requests sent and log lines.

## Model

| member | source | states |
|---|---|---|
| `Ints.AddOne32` | `src/pkg/service/service.go:145` | `req.Depth + 1` on an `int32`: adds one below the maximum, and wraps to the minimum at `MaxInt32` |
| `Tracing.NewTracer` | `src/pkg/tracing/tracer.go:15-22` | the tracer keeps the logger, topology, CNI and service name it is given |
| `Tracing.LogTrace` | `src/pkg/tracing/tracer.go:24-39` | one Debug-level `trace_log` record; topology, CNI and service name come from the tracer, and operation, bench id, trace id, related service and timestamp come from the call |
| `Tracing.TraceWrittenOnlyAtDebug` | `src/pkg/tracing/tracer.go:36-38` | a trace record passes the logger's level filter exactly when the logger's minimum level is Debug |
| `Service.Connect` | `src/pkg/service/service.go:257-291` | a cached name returns its connection and leaves the cache alone; a successful miss adds exactly one entry, dialling `<name>:50051`; a failed miss returns `failed to connect to <name>` and caches nothing |
| `Service.ConnectKeeps` | `src/pkg/service/service.go:257-291` | the cache only grows, by at most the requested name; every entry keeps dialling its own name's address; a returned connection is the one cached under the name |
| `Service.Request` | `src/pkg/service/service.go:112-117` | the request sent downstream comes from this node, carries the request's bench and trace ids, and the depth plus one, wrapping at `MaxInt32` |
| `Service.Call` | `src/pkg/service/service.go:163-173` | one goroutine's outcome lands in at most one buffer, in exactly one unless the reply is nil with a nil error; `req_start` is its first effect |
| `Service.CallBuffers` | `src/pkg/service/service.go:166-172` | a call buffers the reply exactly when the connection exists and the RPC answers; it buffers the connection error, else the RPC's error, else nothing; the cache is the one the lookup leaves |
| `Service.CallPool` | `src/pkg/service/service.go:163-173` | one downstream call only adds to the cache, and only the called peer |
| `Service.CallTraces` | `src/pkg/service/service.go:163-173` | one call emits one `req_start` for its peer, and a `req_resp` exactly when a reply arrives |
| `Service.FanOutStarts` | `src/pkg/service/service.go:161-174` | the `req_start` events of the fan-out are one per configured peer, in configured order |
| `Service.FanOutResps` | `src/pkg/service/service.go:165-171` | the `req_resp` events of the fan-out are one per buffered reply, in buffer order, each naming the replier |
| `Service.FanOutTraces` | `src/pkg/service/service.go:161-174` | the fan-out emits exactly one `req_start` per configured peer, in configured order, and one `req_resp` per reply, naming the replier |
| `Service.FanOutBookkeeping` | `src/pkg/service/service.go:157-173` | the two buffers never hold more than one entry per peer, and exactly one per peer when no call returns a nil reply |
| `Service.CallRequests` | `src/pkg/service/service.go:106-118` | every request a call sends goes to `<peer>:50051`, from this node, with the request's ids and the incremented depth |
| `Service.CallSendsOnce` | `src/pkg/service/service.go:163-173` | a call sends at most one request: no two of its effects are sends |
| `Service.FanOutRequests` | `src/pkg/service/service.go:161-174` | every request sent goes to a configured peer at `<peer>:50051`, carries this node as sender, the bench and trace ids, and the depth plus one in `int32` |
| `Service.CallOrder` | `src/pkg/service/service.go:165-171` | within one call, a `req_resp` event is the third effect, after the request and the `req_start` for the same peer |
| `Service.FanOutOrder` | `src/pkg/service/service.go:161-174` | in the whole fan-out, every `req_resp` directly follows the request it answers, which directly follows that peer's `req_start` |
| `Service.FanOutPool` | `src/pkg/service/service.go:161-174` | the fan-out keeps every cached connection unchanged, and the only names it adds are the peers it called |
| `Service.PreconnectLog` | `src/pkg/service/service.go:82-90` | preconnect writes exactly one log line per peer, in order, naming the peer; it goes on after failures |
| `Service.PreconnectLine` | `src/pkg/service/service.go:84-88` | the line for a peer is at Error level exactly when getting its connection fails, and names the peer |
| `Service.PreconnectLevels` | `src/pkg/service/service.go:83-89` | the `i`-th line is `preconnect failed` at Error level exactly when the `i`-th peer was not cached by then and could not be dialled, else `preconnect success` at Info level |
| `Service.PreconnectCache` | `src/pkg/service/service.go:82-90` | after preconnect the cache keeps what it had, holds every peer that was already cached or could be dialled, and every new entry is a peer whose dial succeeded |
| `Service.BenchIdFor` | `src/pkg/service/service.go:198-207` | GET gives bench id `default` and POST gives the body; any other method is rejected, and only those |
| `Service.Service.constructor` | `src/pkg/service/service.go:61-80` | `NewService` copies the configuration, builds the tracer from it, and starts with an empty cache |
| `Service.Service.GetConnection` | `src/pkg/service/service.go:257-291` | the new cache and the result are those of `Connect`; the cache keeps dialling each name's own address |
| `Service.Service.Preconnect` | `src/pkg/service/service.go:82-90` | the loop over the peers leaves the cache and the log that `Preconnected` describes |
| `Service.Service.CallService` | `src/pkg/service/service.go:92-119` | a connection error is returned and nothing is sent; otherwise one request from this node goes over the cached connection, and the RPC's outcome is returned |
| `Service.Service.CallOne` | `src/pkg/service/service.go:163-173` | the goroutine body appends the error or the reply to its buffer and leaves the state `Call` describes |
| `Service.Service.CallAll` | `src/pkg/service/service.go:157-178` | the loop over the peers leaves the cache, buffers and effects of `FanOut` over all peers |
| `Service.Service.LogErrors` | `src/pkg/service/service.go:180-182` | one printed line per collected error, in order |
| `Service.Service.FanOutAndLog` | `src/pkg/service/service.go:157-182` | the fan-out followed by the error lines |
| `Service.Service.Process` | `src/pkg/service/service.go:121-192` | never returns an error; the reply is `Reply(req)`; the cache is that after the fan-out; the effects are `process_start`, the sleep, the fan-out, the error lines, then `process_end` |
| `Service.Service.HandleHttp` | `src/pkg/service/service.go:194-255` | an unsupported method gets 405 and changes nothing; GET and POST run `Process` at depth 0 between `http_start` and `http_end`, leave the cache its fan-out leaves, and answer 200 with trace id, bench id, topology and CNI |
| `Service.Service.Reply` | `src/pkg/service/service.go:147-191` | the reply comes from this node with the request's ids; a leaf answers with the depth of the request it would send, a branch with depth 0 |
| `Service.ReplyShape` | `src/pkg/service/service.go:145-191` | the reply comes from this node with the request's ids; a leaf answers with the depth plus one (wrapping in `int32`), a branch with depth 0 |
| `Service.ProcessBrackets` | `src/pkg/service/service.go:135-184` | `process_start` comes first, the sleep second and `process_end` last; a leaf sends no request |
| `ServiceMain.UpperChar` | `src/cmd/service/main.go:69` | the case mapping of `unicode.ToUpper` for every character whose upper case is ASCII |
| `ServiceMain.ToUpper` | `src/cmd/service/main.go:69` | `strings.ToUpper` maps each character, and the length is kept |
| `ServiceMain.ToUpperIdempotent` | `src/cmd/service/main.go:69` | upper-casing twice is upper-casing once |
| `ServiceMain.LevelFromEnv` | `src/cmd/service/main.go:68-82` | Debug, Warn and Error exactly for their names in any case; Info for `INFO` and for anything else |
| `ServiceMain.LevelFromEnvNames` | `src/cmd/service/main.go:68-82` | every level is selected by its name; selection ignores case; an unset variable gives Info |
| `ServiceMain.OutServicesAsWritten` | `src/cmd/service/main.go:133-136` | without a comma the peer list is empty; with one it is the comma-separated pieces |
| `ServiceMain.SinglePeerDropped` | `src/cmd/service/main.go:133-136` | `--out=<one peer>` gives no peers at all |
| `ServiceMain.ParseOutServices` | `src/cmd/service/main.go:133-136` | the corrected reading: empty only for the empty flag, otherwise pieces that join back to the flag |
| `ServiceMain.OutServicesRoundTrip` | `src/cmd/service/main.go:133-136` | the corrected reading gives back any joined list of peer names, whatever its length |
| `ServiceMain.OutServicesAsWrittenRoundTrip` | `src/cmd/service/main.go:133-136` | the code as written gives back a joined list exactly when the list does not have exactly one name |
| `ServiceMain.OrUnknown` | `src/cmd/service/main.go:101-108` | an empty `BENCH_NAME` or `CNI` becomes `unknown`; any other value is kept |
| `ServiceMain.Configure` | `src/cmd/service/main.go:84-147` | start-up is fatal exactly when the name is missing, or when tracing is on and its set-up fails; a missing name is fatal with its own message, before anything else; otherwise the configuration carries the name, the peers as the code reads `--out` (none for a single peer), the delay, logger level, topology and CNI |
| `ServiceMain.ConfigurePeers` | `src/cmd/service/main.go:133-136` | a node given one peer is configured with none, where the intended reading gives that peer; for any other number of peers both readings give the peers |
| `ServiceMain.Launch` | `src/cmd/service/main.go:84-150` | no service on a fatal start-up; otherwise a fresh service, preconnected to the peers as the code reads them |
| `Topology.ReadFile` | `src/internal/topology/topology.go:22-40` | read and decode errors are returned as they are; otherwise the keys are the document's, and each service is the decoded one with its key as name |
| `Topology.ReadFileNames` | `src/internal/topology/topology.go:34-37` | after loading, every service is named after its key and keeps its other fields; the back-fill changes exactly the services with a non-empty key |
| `GenerateMain.Args` | `src/cmd/generate/main.go:160-170` | four arguments `--name`, `--out` (peers joined by commas), `--delay`, `--port`, plus `--is-frontend` exactly for `frontend` |
| `GenerateMain.ArgsRoundTrip` | `src/cmd/generate/main.go:160-165` | reading each argument back gives the name, the peers (under the corrected `--out` reading), the delay and the port |
| `GenerateMain.PeersThroughFlags` | `src/cmd/generate/main.go:162` | a service with exactly one peer gets an `--out` that the service reads as no peers; other peer lists read back unchanged |
| `GenerateMain.Base` | `src/cmd/generate/main.go:146` | `filepath.Base` is never empty |
| `GenerateMain.BaseIsLastElement` | `src/cmd/generate/main.go:146` | `filepath.Base` is `.` for the empty path, `/` for a path of slashes, and otherwise the non-empty, slash-free text after the last slash once trailing slashes are dropped |
| `GenerateMain.Ext` | `src/cmd/generate/main.go:146` | `filepath.Ext` is empty or starts with a dot |
| `GenerateMain.ExtIsSuffix` | `src/cmd/generate/main.go:146` | a non-empty extension is a suffix of the path that starts with its only dot and holds no slash |
| `GenerateMain.ExtEmpty` | `src/cmd/generate/main.go:146` | the extension is empty exactly when the last path element has no dot |
| `GenerateMain.BenchNamePrefix` | `src/cmd/generate/main.go:146` | the bench name holds no slash and begins the base name of the file |
| `GenerateMain.BenchNameOfFile` | `src/cmd/generate/main.go:146` | the file `<dir>/<stem>.<ext>` gives bench name `<stem>` |
| `GenerateMain.TemplatesFor` | `src/cmd/generate/main.go:168-187` | statefulset then service for every name, plus the external service exactly for `frontend` |
| `GenerateMain.RenderService` | `src/cmd/generate/main.go:172-187` | one service's templates, each followed by `---`, stopping at the first failure |
| `GenerateMain.RenderStops` | `src/cmd/generate/main.go:172-187` | after a template fails, nothing more is rendered |
| `GenerateMain.RenderOnly` | `src/cmd/generate/main.go:172-187` | rendering writes only the given data, through the given templates |
| `GenerateMain.RenderAll` | `src/cmd/generate/main.go:172-187` | without failures, each template is written in order, each followed by `---` |
| `GenerateMain.GenerateManifests` | `src/cmd/generate/main.go:134-191` | read, decode and template-parse errors are returned in that order, with nothing written; otherwise the services are rendered once each, in iteration order, until the first template error, and all are rendered when none fails |
| `GenerateMain.EmitServices` | `src/cmd/generate/main.go:153-188` | the map loop visits distinct keys, covers them all unless a template fails, and writes what `EmitAll` describes |
| `GenerateMain.EmitAllCovers` | `src/cmd/generate/main.go:153-188` | with no template failure, every service gets its statefulset and its service manifest, and the frontend also its external service |
| `GenerateMain.EmitAllUniform` | `src/cmd/generate/main.go:153-166` | every template written is for a listed service, with its own data and the shared bench name, CNI and log level; external services are only for the frontend |
| `GenerateMain.Generate` | `src/cmd/generate/main.go:193-207` | a missing `-topology` or `-cni` is fatal with the usage line before anything is read; errors end the command with `Error: ` |
| `Text.SplitPieces` | `src/cmd/service/main.go:134` | no piece of a split holds the separator, and the first piece is everything before the first separator |
| `Text.JoinLength` | `src/cmd/generate/main.go:162` | a join of no pieces is empty; otherwise its length is the pieces' lengths plus one separator between each two, and it starts with the first piece |
| `Text.SplitSingle` | `src/cmd/service/main.go:134` | a string splits into one piece exactly when it has no separator |
| `Text.JoinSplit` | `src/cmd/service/main.go:134` | joining the pieces of a split gives the string back |
| `Text.SplitJoin` | `src/cmd/service/main.go:134` | splitting a join of separator-free pieces gives the pieces back |
| `Text.ParseIntToString` | `scripts/generate-topologies/generate_topologies.py:63` | `int` reads back what `str` renders |
| `Text.TrimSuffix` | `src/cmd/generate/main.go:146` | when the string ends with the suffix, the result followed by the suffix is the string; otherwise the result is the string |
| `GenerateTopologies.Count` | `scripts/generate-topologies/generate_topologies.py:16` | `range(n)` runs `n` times, and not at all for negative `n` |
| `GenerateTopologies.ServiceName` | `scripts/generate-topologies/generate_topologies.py:26-30` | a service is the frontend exactly on level 0 |
| `GenerateTopologies.NameTextInjective` | `scripts/generate-topologies/generate_topologies.py:26-30` | different service names are different strings, so no dictionary assignment overwrites another level's service |
| `GenerateTopologies.TargetsNames` | `scripts/generate-topologies/generate_topologies.py:35-36` | the `i`-th peer is `service-d<level>-<i+1>` |
| `GenerateTopologies.Put` | `scripts/generate-topologies/generate_topologies.py:38-44` | a new key goes to the end of the insertion order; an existing key keeps its place and gets the new value |
| `GenerateTopologies.PutWellFormed` | `scripts/generate-topologies/generate_topologies.py:38-44` | after an assignment the keys stay distinct and match the contents |
| `GenerateTopologies.NodeFor` | `scripts/generate-topologies/generate_topologies.py:19-24` | the chosen node is one of the nodes; the choice fails exactly when there are none |
| `GenerateTopologies.Texts` | `scripts/generate-topologies/generate_topologies.py:54` | the strings of the peer names, in order |
| `GenerateTopologies.YamlLines` | `scripts/generate-topologies/generate_topologies.py:47-54` | `services:` first, then six lines per service |
| `GenerateTopologies.BlocksAt` | `scripts/generate-topologies/generate_topologies.py:48-54` | the `i`-th block of six lines is the block of the `i`-th key |
| `GenerateTopologies.YamlLayout` | `scripts/generate-topologies/generate_topologies.py:47-54` | every key has an entry, and lines `1+6i` to `6+6i` are the name, node, port, delay, replicas and peers of the `i`-th key in insertion order |
| `GenerateTopologies.NextLevelNames` | `scripts/generate-topologies/generate_topologies.py:32-36` | the peer loop builds the first `n` names of the level, in order |
| `GenerateTopologies.ChooseNode` | `scripts/generate-topologies/generate_topologies.py:19-24` | the node branch gives `NodeFor`, including its errors |
| `GenerateTopologies.Peers` | `scripts/generate-topologies/generate_topologies.py:32-36` | the peers are the whole next level, or none on the last level, or IndexError when the next count is missing |
| `GenerateTopologies.BuildLevel` | `scripts/generate-topologies/generate_topologies.py:17-44` | one pass of the level loop gives `Level`, including its errors |
| `GenerateTopologies.GenerateYaml` | `scripts/generate-topologies/generate_topologies.py:9-56` | `generate_yaml`'s text or the exception it raises, as `Yaml` defines them |
| `GenerateTopologies.RenderYaml` | `scripts/generate-topologies/generate_topologies.py:46-56` | the text is the lines joined with newlines |
| `GenerateTopologies.LevelsFailureStays` | `scripts/generate-topologies/generate_topologies.py:16-44` | the first exception is the one the whole call raises |
| `GenerateTopologies.LevelsSucceed` | `scripts/generate-topologies/generate_topologies.py:16-44` | with a node and a count for every level, no level fails |
| `GenerateTopologies.LevelsIndexErrorOnly` | `scripts/generate-topologies/generate_topologies.py:16-44` | with a node, the only possible error is IndexError |
| `GenerateTopologies.YamlErrors` | `scripts/generate-topologies/generate_topologies.py:16-24` | the call fails exactly when it runs a level and a count is missing or there is no node; ZeroDivisionError exactly for no node under `rr` with a first count; never ValueError |
| `GenerateTopologies.LevelsShape` | `scripts/generate-topologies/generate_topologies.py:16-44` | after `n` levels the dictionary is well formed and holds every service of those levels with its level's entry |
| `GenerateTopologies.LevelsOnly` | `scripts/generate-topologies/generate_topologies.py:16-44` | after `n` levels the dictionary holds only services of those levels |
| `GenerateTopologies.PutLevelKeys` | `scripts/generate-topologies/generate_topologies.py:27-44` | writing a level whose services are all new appends its keys: the frontend once for level 0, the services by index otherwise |
| `GenerateTopologies.LevelsKeys` | `scripts/generate-topologies/generate_topologies.py:16-44` | after `n` levels the keys are in level order, each level's services by index |
| `GenerateTopologies.Built` | `scripts/generate-topologies/generate_topologies.py:14-44` | with a node and every level count, `generate_yaml` builds its dictionary without raising |
| `GenerateTopologies.ServicesShape` | `scripts/generate-topologies/generate_topologies.py:14-44` | the dictionary is well formed, and every service `(level, k)` is present with its level's entry |
| `GenerateTopologies.NameLevel` | `scripts/generate-topologies/generate_topologies.py:26-30` | every key is the service of some level below `depth` and some position below that level's count |
| `GenerateTopologies.BuiltKeys` | `scripts/generate-topologies/generate_topologies.py:16-48` | `services.items()` runs level by level, each level's services by index; the frontend comes first when level 0 has a service |
| `GenerateTopologies.FrontendKey` | `scripts/generate-topologies/generate_topologies.py:27-28` | `frontend` is a key exactly when level 0 exists and has at least one service |
| `GenerateTopologies.OutServicesByLevel` | `scripts/generate-topologies/generate_topologies.py:32-36` | every service calls the whole next level, in order; the last level calls nobody |
| `GenerateTopologies.Closed` | `scripts/generate-topologies/generate_topologies.py:32-36` | every peer named is itself a service, and never the frontend |
| `GenerateTopologies.Placement` | `scripts/generate-topologies/generate_topologies.py:19-24` | `rr` goes round the nodes; `hh` uses the first node below half the depth and the last node otherwise; other strategies use the first node; a level shares one node; port 50051, delay `0ms`, and the given replicas |
| `GenerateTopologies.TextLines` | `scripts/generate-topologies/generate_topologies.py:56` | splitting the text at newlines gives the lines back, when no line holds one |
| `GenerateTopologies.YamlLineCount` | `scripts/generate-topologies/generate_topologies.py:47-56` | with newline-free node names, the text splits into exactly its lines, `1 + 6 * services` of them |
| `GenerateTopologies.Repeat` | `scripts/generate-topologies/generate_topologies.py:76` | `['1'] * depth` is `depth` copies |
| `GenerateTopologies.ParseAll` | `scripts/generate-topologies/generate_topologies.py:63` | one number per piece, and the only error is ValueError |
| `GenerateTopologies.ParseAllValues` | `scripts/generate-topologies/generate_topologies.py:63` | parsing succeeds exactly when `int` accepts every piece, and then the `i`-th number is the `i`-th piece's |
| `GenerateTopologies.ParseLevelsValues` | `scripts/generate-topologies/generate_topologies.py:63` | `list(map(int, s.split(',')))` succeeds exactly when every comma-separated piece is a number, gives one number per piece in order, and otherwise raises ValueError |
| `GenerateTopologies.ParseAllRendered` | `scripts/generate-topologies/generate_topologies.py:63` | parsing rendered numbers gives the numbers back |
| `GenerateTopologies.ServiceChainPieces` | `scripts/generate-topologies/generate_topologies.py:74-76` | a chain of depth `d >= 1` splits at its commas into `d` pieces `1`; depth 0 or less gives the empty string |
| `GenerateTopologies.ServiceChainRoundTrip` | `scripts/generate-topologies/generate_topologies.py:74-76` | a chain of depth `d >= 1` reads back as `d` levels of one service; depth 0 or less gives ValueError |
| `GenerateTopologies.ChainSinglePeers` | `scripts/generate-topologies/generate_topologies.py:32-36` | in a chain, every service but the last calls exactly the next one |
| `GenerateTopologies.GenerateSingleTopology` | `scripts/generate-topologies/generate_topologies.py:59-71` | a bad level list raises ValueError; otherwise the result is `generate_yaml`'s text under the given file name, or its exception; never ZeroDivisionError, since a split never yields an empty node list |

## Left out

**Concurrency**
- Concurrency in `Process`: the goroutines run one after the other, in configured order. The model does not capture interleavings, or the order in which the buffers fill under real scheduling.
- The read/write lock of `getConnection`: run sequentially, its second lookup under the write lock always misses again, so it is not modelled.

**Tracing, timing and transport**
- OpenTelemetry spans, in `Process`, `callService`, `handle_http` and the tracer-provider set-up of `cmd/service`. They only attach metadata; tracer set-up appears only as its possible failure.
- Deadline and cancellation: the 3-second context of `handle_http`, and the keepalive parameters. A timed-out call shows up only as an `RpcFailed` attempt.
- `time.Sleep`: modelled as a `Slept` effect. The clock reading that makes the trace id and timestamps is a parameter.
- `serviceTime` in the HTTP answer: left out.

**`handle_http` errors**
- The 500 answer of `handle_http`: `Process` never returns an error, so that branch cannot be reached. A failed JSON encode is I/O and is not modelled.

**Servers and start-up flags**
- The servers themselves:
  - the frontend router, with `/` calling `HandleHTTP` and anything else getting 404;
  - the pprof server;
  - the gRPC listener and `Serve`.
- Command-line parsing: `--delay` is taken as an already parsed duration. `--rps` and `--pprof` do not reach the modelled code.

**Generators**
- The manifest template text: a rendered template is recorded as the template's name and its data, not as expanded YAML.
- `GenerateMain.Generate`: its contract states only the usage and read-error exits and the `Error: ` prefix. What is written otherwise is stated by `GenerateMain.GenerateManifests`.
- `generate_bulk_topologies`, the script's `main`, its process pool and its file writing: they are not part of this model.
- The YAML decoder of `internal/topology` and `cmd/generate`: passed in as a function.

**Deliberately weaker contracts**
- `ServiceMain.ToUpper`: maps only the characters whose upper case is ASCII: `a` to `z`, the dotless `ı` and the long `ſ`. Any other character, such as `é`, is kept as it is, where Go's `unicode.ToUpper` would map it to `É`. The level names are ASCII, so `ServiceMain.LevelFromEnv` selects the same level either way.
- `Service.PreconnectLine`: the Error line of `Preconnect` drops slog's `error` attribute; the cause is kept in the `ConnectError` that `Connect` returns.
- `ServiceMain.Launch`: leaves out the Info line `Tracing enabled` or `Tracing disabled`.
- `GenerateTopologies.ParseLevels`: accepts an optional sign followed by ASCII digits. Python's `int` also accepts surrounding whitespace, underscores between digits and non-ASCII digits.
- `GenerateTopologies.NodeFor`: writes `hh`'s `level < depth / 2` as `2 * level < depth`. This is the same for every depth a float represents exactly. Python's true division rounds only beyond 2^53.
- `GenerateTopologies.PyListRepr`: writes each name in single quotes with no escaping. Service names never contain quotes or backslashes.
- `GenerateTopologies.Dict`: is keyed by `Name` values rather than by their strings. `NameTextInjective` shows this gives the same dictionary.

## Findings

| source | as written | input that shows it | evidently intended | confidence | as-written member | corrected member |
|---|---|---|---|---|---|---|
| `src/cmd/service/main.go:133-136` | the peer list from `--out` is kept only when it splits into more than one piece; `ServiceMain.Configure` and `ServiceMain.Launch` model this | `--out=service-d2-1`: `cmd/generate` writes this for every service with one peer (`src/cmd/generate/main.go:162`), e.g. every service of a `generate_service_chain` topology | a single peer is called like any other; only an empty flag means no peers | high, not executed | `ServiceMain.OutServicesAsWritten` (with `ServiceMain.SinglePeerDropped`, `ServiceMain.OutServicesAsWrittenRoundTrip`, `GenerateMain.PeersThroughFlags`, `GenerateTopologies.ChainSinglePeers`) | `ServiceMain.ParseOutServices` (with `ServiceMain.OutServicesRoundTrip`; `GenerateMain.ArgsRoundTrip` reads the generated flags under it, and `ServiceMain.ConfigurePeers` sets it against what `ServiceMain.Configure`, which follows the code, configures) |
