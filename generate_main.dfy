/** `cmd/generate`: rendering the Kubernetes manifests of a topology. Reading the file, the
    YAML decoder and the template engine are inputs; what reaches standard output is the
    sequence of manifests rendered and separators printed, in order. */
module GenerateMain {

  import opened Wrappers
  import Text
  import ServiceMain

  type Bytes = seq<bv8>

  /** A service as this command decodes it. */
  datatype ServiceDef = ServiceDef(
    node: string,
    port: int,
    processingDelay: string,
    replicas: int,
    outServices: seq<string>)

  datatype Topology = Topology(services: map<string, ServiceDef>)

  /** What every template receives. */
  datatype TemplateData = TemplateData(
    name: string,
    service: ServiceDef,
    benchName: string,
    cni: string,
    logLevel: string,
    args: seq<string>)

  /** The three named templates of the manifest. */
  datatype Template = StatefulSet | ServiceManifest | ExternalService

  /** What reaches standard output: a rendered template, or the `---` line. */
  datatype Output = Rendered(template: Template, data: TemplateData) | Separator

  const FrontendName := "frontend"

  /** The argument vector of one service's container. */
  function Args(name: string, s: ServiceDef): (args: seq<string>)
    ensures |args| == if name == FrontendName then 5 else 4
    ensures args[0] == "--name=" + name
    ensures args[1] == "--out=" + Text.Join(s.outServices, ",")
    ensures args[2] == "--delay=" + s.processingDelay
    ensures args[3] == "--port=" + Text.IntToString(s.port)
    ensures name == FrontendName ==> args[4] == "--is-frontend"
  {
    var base := ["--name=" + name, "--out=" + Text.Join(s.outServices, ","),
                 "--delay=" + s.processingDelay, "--port=" + Text.IntToString(s.port)];
    if name == FrontendName then base + ["--is-frontend"] else base
  }

  /** What follows `prefix` in `arg`, when `arg` starts with it. */
  function FlagValue(arg: string, prefix: string): (v: Option<string>)
    ensures v.Some? ==> arg == prefix + v.value
  {
    if |prefix| <= |arg| && arg[..|prefix|] == prefix then Some(arg[|prefix|..]) else None
  }

  /** The flags a service is started with read back as the service's own settings: its name,
      its peers (through the intended reading of `--out`), its delay and its port. */
  lemma ArgsRoundTrip(name: string, s: ServiceDef)
    requires forall k :: 0 <= k < |s.outServices| ==> s.outServices[k] != "" && ',' !in s.outServices[k]
    ensures FlagValue(Args(name, s)[0], "--name=") == Some(name)
    ensures FlagValue(Args(name, s)[2], "--delay=") == Some(s.processingDelay)
    ensures var out := FlagValue(Args(name, s)[1], "--out=");
            out.Some? && ServiceMain.ParseOutServices(out.value) == s.outServices
    ensures var port := FlagValue(Args(name, s)[3], "--port=");
            port.Some? && Text.ParseInt(port.value) == Some(s.port)
  {
    var args := Args(name, s);
    assert args[0][..|"--name="|] == "--name=";
    assert args[1][..|"--out="|] == "--out=";
    assert args[2][..|"--delay="|] == "--delay=";
    assert args[3][..|"--port="|] == "--port=";
    ServiceMain.OutServicesRoundTrip(s.outServices);
    Text.ParseIntToString(s.port);
  }

  /** A service with exactly one peer is started with an `--out` flag that `cmd/service`
      reads as no peers at all: it never calls the peer the topology gives it. With two or
      more peers, or none, the flag is read back as written. */
  lemma PeersThroughFlags(name: string, s: ServiceDef)
    requires forall k :: 0 <= k < |s.outServices| ==> s.outServices[k] != "" && ',' !in s.outServices[k]
    ensures var out := FlagValue(Args(name, s)[1], "--out=");
            && out.Some?
            && (ServiceMain.OutServicesAsWritten(out.value) == s.outServices <==> |s.outServices| != 1)
            && (|s.outServices| == 1 ==> ServiceMain.OutServicesAsWritten(out.value) == [])
  {
    var args := Args(name, s);
    assert args[1][..|"--out="|] == "--out=";
    ServiceMain.OutServicesAsWrittenRoundTrip(s.outServices);
    if |s.outServices| == 1 {
      assert Text.Join(s.outServices, ",") == s.outServices[0];
    }
  }

  /** `filepath.Base` for slash-separated paths: the last element, trailing slashes dropped;
      `.` for the empty path and `/` for a path of slashes only. */
  function Base(path: string): (b: string)
    ensures b != ""
  {
    if path == "" then "."
    else
      var p := TrimTrailingSlashes(path);
      if p == "" then "/" else LastElement(p)
  }

  /** The path without its trailing slashes. */
  function TrimTrailingSlashes(path: string): (p: string)
    ensures |p| <= |path| && p == path[..|p|]
    ensures p != "" ==> p[|p| - 1] != '/'
  {
    if path == "" || path[|path| - 1] != '/' then path else TrimTrailingSlashes(path[..|path| - 1])
  }

  /** The characters after the last slash. */
  function LastElement(p: string): (e: string)
    ensures '/' !in e
    ensures p != "" && p[|p| - 1] != '/' ==> e != ""
  {
    if p == "" || p[|p| - 1] == '/' then "" else LastElement(p[..|p| - 1]) + [p[|p| - 1]]
  }

  /** `filepath.Ext`: the suffix from the last dot of the last element, or "" without one. */
  function Ext(path: string): (e: string)
    ensures e == "" || e[0] == '.'
  {
    if path == "" || path[|path| - 1] == '/' then ""
    else if path[|path| - 1] == '.' then "."
    else
      var e := Ext(path[..|path| - 1]);
      if e == "" then "" else e + [path[|path| - 1]]
  }

  /** The bench name of a topology file. */
  function BenchName(file: string): string
  {
    Text.Split(Text.TrimSuffix(Base(file), Ext(file)), '/')[0]
  }

  /** Only slashes are trimmed. */
  lemma {:induction false} TrimmedSlashes(path: string)
    ensures forall i :: |TrimTrailingSlashes(path)| <= i < |path| ==> path[i] == '/'
    decreases |path|
  {
    if path != "" && path[|path| - 1] == '/' {
      TrimmedSlashes(path[..|path| - 1]);
    }
  }

  /** The last element is the tail of the path after its last slash. */
  lemma {:induction false} LastElementTail(p: string)
    ensures var e := LastElement(p);
            && |e| <= |p| && p[|p| - |e|..] == e
            && (|e| < |p| ==> p[|p| - |e| - 1] == '/')
    decreases |p|
  {
    if p != "" && p[|p| - 1] != '/' {
      var init := p[..|p| - 1];
      var e := LastElement(init);
      LastElementTail(init);
      assert init[|init| - |e|..] + [p[|p| - 1]] == p[|p| - |e| - 1..];
    }
  }

  /** `filepath.Base` is `.` for the empty path, `/` for a path of slashes, and otherwise the
      slash-free tail of the path after its last slash once trailing slashes are dropped. */
  lemma BaseIsLastElement(path: string)
    ensures path == "" ==> Base(path) == "."
    ensures path != "" && TrimTrailingSlashes(path) == "" ==> Base(path) == "/"
    ensures TrimTrailingSlashes(path) != "" ==>
              var p, b := TrimTrailingSlashes(path), Base(path);
              && '/' !in b && b != "" && |b| <= |p| && p[|p| - |b|..] == b
              && (|b| == |p| || p[|p| - |b| - 1] == '/')
    ensures forall i :: |TrimTrailingSlashes(path)| <= i < |path| ==> path[i] == '/'
  {
    TrimmedSlashes(path);
    LastElementTail(TrimTrailingSlashes(path));
  }

  /** A non-empty `filepath.Ext` is a suffix of the path that starts at a dot and holds no
      other dot and no slash. */
  lemma {:induction false} ExtIsSuffix(path: string)
    ensures var e := Ext(path);
            e != "" ==> e[0] == '.' && |e| <= |path| && path[|path| - |e|..] == e && '/' !in e && '.' !in e[1..]
    decreases |path|
  {
    if path != "" && path[|path| - 1] != '/' && path[|path| - 1] != '.' {
      var init := path[..|path| - 1];
      var c := path[|path| - 1];
      var e := Ext(init);
      if e != "" {
        ExtIsSuffix(init);
        assert init[|init| - |e|..] + [c] == path[|path| - |e| - 1..];
        assert (e + [c])[1..] == e[1..] + [c];
      }
    }
  }

  /** `filepath.Ext` is empty exactly when the last element of the path has no dot. */
  lemma {:induction false} ExtEmpty(path: string)
    ensures Ext(path) == "" <==> '.' !in LastElement(path)
    decreases |path|
  {
    if path != "" && path[|path| - 1] != '/' {
      var init := path[..|path| - 1];
      var c := path[|path| - 1];
      assert LastElement(path) == LastElement(init) + [c];
      if c != '.' {
        ExtEmpty(init);
      }
    }
  }

  /** The bench name holds no slash and is a prefix of the base name. */
  lemma BenchNamePrefix(file: string)
    ensures '/' !in BenchName(file)
    ensures |BenchName(file)| <= |Base(file)| && Base(file)[..|BenchName(file)|] == BenchName(file)
  {
    var stem := Text.TrimSuffix(Base(file), Ext(file));
    Text.SplitPieces(stem, '/');
  }

  lemma {:induction false} LastElementOfSuffix(dir: string, tail: string)
    requires '/' !in tail
    requires dir == "" || dir[|dir| - 1] == '/'
    ensures LastElement(dir + tail) == tail
    decreases |tail|
  {
    if tail != "" {
      var init := tail[..|tail| - 1];
      assert (dir + tail)[..|dir + tail| - 1] == dir + init;
      LastElementOfSuffix(dir, init);
    } else {
      assert dir + tail == dir;
    }
  }

  lemma {:induction false} ExtOfSuffix(stem: string, ext: string)
    requires '/' !in ext && '.' !in ext
    ensures Ext(stem + "." + ext) == "." + ext
    decreases |ext|
  {
    if ext == "" {
      assert stem + "." + ext == stem + ".";
    } else {
      var init := ext[..|ext| - 1];
      assert (stem + "." + ext)[..|stem + "." + ext| - 1] == stem + "." + init;
      ExtOfSuffix(stem, init);
    }
  }

  lemma BaseOfFile(dir: string, stem: string, ext: string)
    requires dir == "" || dir[|dir| - 1] == '/'
    requires '/' !in stem && '/' !in ext
    ensures Base(dir + stem + "." + ext) == stem + "." + ext
  {
    var file := dir + stem + "." + ext;
    var base := stem + "." + ext;
    assert file == dir + base;
    assert file[|file| - 1] != '/' by {
      if ext == "" {
        assert file[|file| - 1] == '.';
      } else {
        assert file[|file| - 1] == ext[|ext| - 1];
      }
    }
    assert TrimTrailingSlashes(file) == file;
    LastElementOfSuffix(dir, base);
  }

  lemma ExtOfFile(dir: string, stem: string, ext: string)
    requires '/' !in ext && '.' !in ext
    ensures Ext(dir + stem + "." + ext) == "." + ext
  {
    assert dir + stem + "." + ext == (dir + stem) + "." + ext;
    ExtOfSuffix(dir + stem, ext);
  }

  lemma TrimDotExt(stem: string, ext: string)
    ensures Text.TrimSuffix(stem + "." + ext, "." + ext) == stem
  {
    var base := stem + "." + ext;
    assert base[|base| - |"." + ext|..] == "." + ext;
    assert Text.EndsWith(base, "." + ext);
  }

  /** The base name of `<dir>/<stem>.<ext>` without its extension is `<stem>`. */
  lemma StemOfFile(dir: string, stem: string, ext: string)
    requires dir == "" || dir[|dir| - 1] == '/'
    requires '/' !in stem
    requires '/' !in ext && '.' !in ext
    ensures Text.TrimSuffix(Base(dir + stem + "." + ext), Ext(dir + stem + "." + ext)) == stem
  {
    BaseOfFile(dir, stem, ext);
    ExtOfFile(dir, stem, ext);
    TrimDotExt(stem, ext);
  }

  /** A file `<dir>/<stem>.<ext>` gives the bench name `<stem>`. */
  lemma BenchNameOfFile(dir: string, stem: string, ext: string)
    requires dir == "" || dir[|dir| - 1] == '/'
    requires stem != "" && '/' !in stem
    requires '/' !in ext && '.' !in ext
    ensures BenchName(dir + stem + "." + ext) == stem
  {
    StemOfFile(dir, stem, ext);
    Text.SplitSingle(stem, '/');
  }

  /** The data every template of service `name` receives. */
  function Data(name: string, s: ServiceDef, benchName: string, cni: string, logLevel: string): (d: TemplateData)
  {
    TemplateData(name, s, benchName, cni, logLevel, Args(name, s))
  }

  /** What has been written, and the error that stopped the command, if any. */
  datatype Emitted = Emitted(out: seq<Output>, err: Option<string>)

  /** The templates rendered for a service, in order. */
  function TemplatesFor(name: string): (ts: seq<Template>)
    ensures ExternalService in ts <==> name == FrontendName
    ensures |ts| >= 2 && ts[0] == StatefulSet && ts[1] == ServiceManifest
  {
    if name == FrontendName then [StatefulSet, ServiceManifest, ExternalService]
    else [StatefulSet, ServiceManifest]
  }

  /** The first `n` templates rendered in order, each followed by `---`, until one fails. */
  function Render(ts: seq<Template>, d: TemplateData, execute: (Template, TemplateData) -> Option<string>,
                  n: nat): Emitted
    requires n <= |ts|
  {
    if n == 0 then Emitted([], None)
    else
      var prev := Render(ts, d, execute, n - 1);
      if prev.err.Some? then prev
      else if execute(ts[n - 1], d).Some? then Emitted(prev.out, execute(ts[n - 1], d))
      else Emitted(prev.out + [Rendered(ts[n - 1], d), Separator], None)
  }

  /** The services listed in `order`, one after the other, until one fails. */
  function EmitAll(topo: Topology, order: seq<string>, benchName: string, cni: string, logLevel: string,
                   execute: (Template, TemplateData) -> Option<string>): Emitted
    requires forall i :: 0 <= i < |order| ==> order[i] in topo.services
  {
    if |order| == 0 then Emitted([], None)
    else
      var prev := EmitAll(topo, order[..|order| - 1], benchName, cni, logLevel, execute);
      var name := order[|order| - 1];
      var ts := TemplatesFor(name);
      var one := Render(ts, Data(name, topo.services[name], benchName, cni, logLevel), execute, |ts|);
      if prev.err.Some? then prev else Emitted(prev.out + one.out, one.err)
  }

  /** The body of the loop of `generateManifests` for one service: its statefulset, its
      service and, for the frontend, its external service, each followed by `---`, stopping
      at the first template that fails. */
  method RenderService(data: TemplateData, execute: (Template, TemplateData) -> Option<string>)
    returns (written: seq<Output>, err: Option<string>)
    ensures var ts := TemplatesFor(data.name);
            Emitted(written, err) == Render(ts, data, execute, |ts|)
  {
    ghost var ts := TemplatesFor(data.name);
    written := [];
    if execute(StatefulSet, data).Some? {
      RenderStops(ts, data, execute, 1, |ts|);
      return written, execute(StatefulSet, data);
    }
    written := written + [Rendered(StatefulSet, data), Separator];
    assert Emitted(written, None) == Render(ts, data, execute, 1);

    if execute(ServiceManifest, data).Some? {
      RenderStops(ts, data, execute, 2, |ts|);
      return written, execute(ServiceManifest, data);
    }
    written := written + [Rendered(ServiceManifest, data), Separator];
    assert Emitted(written, None) == Render(ts, data, execute, 2);

    if data.name == FrontendName {
      if execute(ExternalService, data).Some? {
        return written, execute(ExternalService, data);
      }
      written := written + [Rendered(ExternalService, data), Separator];
    }
    return written, None;
  }

  /** Once a template has failed, nothing more is rendered. */
  lemma {:induction false} RenderStops(ts: seq<Template>, d: TemplateData,
                                       execute: (Template, TemplateData) -> Option<string>, k: nat, n: nat)
    requires k <= n <= |ts|
    requires Render(ts, d, execute, k).err.Some?
    ensures Render(ts, d, execute, n) == Render(ts, d, execute, k)
    decreases n
  {
    if n > k {
      RenderStops(ts, d, execute, k, n - 1);
    }
  }

  /** `generateManifests`. The read, the decoding and the template parse are checked in that
      order, and the first failure is returned with nothing written. Then every service is
      rendered in the map's iteration order, `order`, and the first template failure stops
      the command with what was written so far. */
  method GenerateManifests(file: string, cniName: string, logLevel: string,
                           read: Result<Bytes, string>,
                           unmarshal: Bytes -> Result<Topology, string>,
                           parseError: Option<string>,
                           execute: (Template, TemplateData) -> Option<string>)
    returns (out: seq<Output>, err: Option<string>, ghost order: seq<string>)
    ensures read.Failure? ==> out == [] && err == Some(read.error)
    ensures read.Success? && unmarshal(read.value).Failure? ==>
              out == [] && err == Some(unmarshal(read.value).error)
    ensures read.Success? && unmarshal(read.value).Success? && parseError.Some? ==>
              out == [] && err == parseError
    ensures read.Success? && unmarshal(read.value).Success? && parseError.None? ==>
              var topo := unmarshal(read.value).value;
              && (forall i :: 0 <= i < |order| ==> order[i] in topo.services)
              && Distinct(order)
              && (err.None? ==> forall name :: name in topo.services ==> name in order)
              && Emitted(out, err) == EmitAll(topo, order, BenchName(file), cniName, logLevel, execute)
  {
    out, order := [], [];
    if read.Failure? {
      return out, Some(read.error), order;
    }
    var decoded := unmarshal(read.value);
    if decoded.Failure? {
      return out, Some(decoded.error), order;
    }
    var topo := decoded.value;
    var benchName := BenchName(file);
    if parseError.Some? {
      return out, parseError, order;
    }
    out, err, order := EmitServices(topo, benchName, cniName, logLevel, execute);
  }

  /** The keys of `order` are distinct. */
  ghost predicate Distinct(order: seq<string>)
  {
    forall i, j :: 0 <= i < j < |order| ==> order[i] != order[j]
  }

  /** The loop of `generateManifests`: every service in the map's iteration order, `order`,
      until a template fails. */
  method EmitServices(topo: Topology, benchName: string, cniName: string, logLevel: string,
                      execute: (Template, TemplateData) -> Option<string>)
    returns (out: seq<Output>, err: Option<string>, ghost order: seq<string>)
    ensures forall i :: 0 <= i < |order| ==> order[i] in topo.services
    ensures Distinct(order)
    ensures err.None? ==> forall name :: name in topo.services ==> name in order
    ensures Emitted(out, err) == EmitAll(topo, order, benchName, cniName, logLevel, execute)
  {
    out, order := [], [];
    var todo := topo.services.Keys;
    while todo != {}
      invariant todo <= topo.services.Keys
      invariant forall i :: 0 <= i < |order| ==> order[i] in topo.services && order[i] !in todo
      invariant Distinct(order)
      invariant forall name :: name in topo.services ==> name in todo || name in order
      invariant Emitted(out, None) == EmitAll(topo, order, benchName, cniName, logLevel, execute)
      decreases todo
    {
      var name :| name in todo;
      var data := Data(name, topo.services[name], benchName, cniName, logLevel);
      var written, e := RenderService(data, execute);
      EmitAllSnoc(topo, order, name, benchName, cniName, logLevel, execute);
      order := order + [name];
      out := out + written;
      if e.Some? {
        return out, e, order;
      }
      todo := todo - {name};
    }
    return out, None, order;
  }

  /** One more service: its templates follow what was written, unless a failure came first. */
  lemma EmitAllSnoc(topo: Topology, order: seq<string>, name: string, benchName: string, cni: string,
                    logLevel: string, execute: (Template, TemplateData) -> Option<string>)
    requires forall i :: 0 <= i < |order| ==> order[i] in topo.services
    requires name in topo.services
    ensures forall i :: 0 <= i < |order + [name]| ==> (order + [name])[i] in topo.services
    ensures var prev := EmitAll(topo, order, benchName, cni, logLevel, execute);
            var ts := TemplatesFor(name);
            var one := Render(ts, Data(name, topo.services[name], benchName, cni, logLevel), execute, |ts|);
            EmitAll(topo, order + [name], benchName, cni, logLevel, execute) ==
              if prev.err.Some? then prev else Emitted(prev.out + one.out, one.err)
  {
    assert (order + [name])[..|order|] == order;
  }

  /** With no template failure nothing fails, and each service listed gets, in this order,
      its statefulset and its service manifest, plus an external service for the frontend. */
  lemma {:induction false} EmitAllCovers(topo: Topology, order: seq<string>, benchName: string, cni: string,
                                         logLevel: string, execute: (Template, TemplateData) -> Option<string>)
    requires forall i :: 0 <= i < |order| ==> order[i] in topo.services
    requires forall t, d :: execute(t, d).None?
    ensures var e := EmitAll(topo, order, benchName, cni, logLevel, execute);
            && e.err.None?
            && forall i :: 0 <= i < |order| ==>
                 var d := Data(order[i], topo.services[order[i]], benchName, cni, logLevel);
                 && Rendered(StatefulSet, d) in e.out
                 && Rendered(ServiceManifest, d) in e.out
                 && (order[i] == FrontendName ==> Rendered(ExternalService, d) in e.out)
  {
    if |order| > 0 {
      var init := order[..|order| - 1];
      var name := order[|order| - 1];
      EmitAllCovers(topo, init, benchName, cni, logLevel, execute);
      var d := Data(name, topo.services[name], benchName, cni, logLevel);
      var ts := TemplatesFor(name);
      var prev := EmitAll(topo, init, benchName, cni, logLevel, execute);
      var one := Render(ts, d, execute, |ts|);
      RenderAll(ts, d, execute, |ts|);
      var all := prev.out + one.out;
      assert EmitAll(topo, order, benchName, cni, logLevel, execute).out == all;
      forall i | 0 <= i < |order|
        ensures var d := Data(order[i], topo.services[order[i]], benchName, cni, logLevel);
                && Rendered(StatefulSet, d) in all
                && Rendered(ServiceManifest, d) in all
                && (order[i] == FrontendName ==> Rendered(ExternalService, d) in all)
      {
        if i < |order| - 1 {
          assert order[i] == init[i];
        } else {
          assert all[|prev.out|] == one.out[0] == Rendered(StatefulSet, d);
          assert all[|prev.out| + 2] == one.out[2] == Rendered(ServiceManifest, d);
          if name == FrontendName {
            assert all[|prev.out| + 4] == one.out[4] == Rendered(ExternalService, d);
          }
        }
      }
    }
  }

  /** Whatever fails, every template rendered is for a service listed, with that service's
      own data and the same bench name, CNI and log level for all; an external service is
      rendered only for the frontend. */
  lemma {:induction false} EmitAllUniform(topo: Topology, order: seq<string>, benchName: string, cni: string,
                                          logLevel: string, execute: (Template, TemplateData) -> Option<string>)
    requires forall i :: 0 <= i < |order| ==> order[i] in topo.services
    ensures forall o :: o in EmitAll(topo, order, benchName, cni, logLevel, execute).out && o.Rendered? ==>
              && o.data.name in order
              && o.data == Data(o.data.name, topo.services[o.data.name], benchName, cni, logLevel)
              && (o.template == ExternalService ==> o.data.name == FrontendName)
  {
    if |order| > 0 {
      var init := order[..|order| - 1];
      var name := order[|order| - 1];
      EmitAllUniform(topo, init, benchName, cni, logLevel, execute);
      var d := Data(name, topo.services[name], benchName, cni, logLevel);
      var ts := TemplatesFor(name);
      RenderOnly(ts, d, execute, |ts|);
      assert forall x :: x in init ==> x in order;
    }
  }

  /** Rendering writes nothing but the given data through the given templates. */
  lemma {:induction false} RenderOnly(ts: seq<Template>, d: TemplateData,
                                      execute: (Template, TemplateData) -> Option<string>, n: nat)
    requires n <= |ts|
    ensures forall o :: o in Render(ts, d, execute, n).out && o.Rendered? ==> o.data == d && o.template in ts
  {
    if n > 0 {
      RenderOnly(ts, d, execute, n - 1);
    }
  }

  /** With no failure, rendering writes each template followed by `---`. */
  lemma {:induction false} RenderAll(ts: seq<Template>, d: TemplateData,
                                     execute: (Template, TemplateData) -> Option<string>, n: nat)
    requires n <= |ts|
    requires forall t, e :: execute(t, e).None?
    ensures var r := Render(ts, d, execute, n);
            && r.err.None?
            && |r.out| == 2 * n
            && forall i :: 0 <= i < n ==> r.out[2 * i] == Rendered(ts[i], d) && r.out[2 * i + 1] == Separator
  {
    if n > 0 {
      RenderAll(ts, d, execute, n - 1);
    }
  }

  /** How `main` ends. */
  datatype Exit = Done | Fatal(message: string)

  const Usage := "Usage: generate -topology <topology_file> -cni <cni_name> [-log-level <log_level>]"

  /** `main`: both `-topology` and `-cni` are required, and nothing is read without them; an
      error of `generateManifests` ends the command with `Error: ` and the error. */
  method Generate(topologyFile: string, cni: string, logLevel: string,
                  read: Result<Bytes, string>,
                  unmarshal: Bytes -> Result<Topology, string>,
                  parseError: Option<string>,
                  execute: (Template, TemplateData) -> Option<string>)
    returns (out: seq<Output>, exit: Exit)
    ensures topologyFile == "" || cni == "" ==> out == [] && exit == Fatal(Usage)
    ensures topologyFile != "" && cni != "" && read.Failure? ==> out == [] && exit == Fatal("Error: " + read.error)
    ensures exit.Fatal? && topologyFile != "" && cni != "" ==> |exit.message| >= 7 && exit.message[..7] == "Error: "
  {
    if topologyFile == "" || cni == "" {
      return [], Fatal(Usage);
    }
    var err;
    ghost var order;
    out, err, order := GenerateManifests(topologyFile, cni, logLevel, read, unmarshal, parseError, execute);
    if err.Some? {
      return out, Fatal("Error: " + err.value);
    }
    return out, Done;
  }
}
