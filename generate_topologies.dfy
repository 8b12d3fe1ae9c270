/** `generate_topologies.py`: the layered call-graph builder behind every benchmark topology.

    Level 0 holds the frontend, level `l >= 1` the services `service-d<l>-<k>`, and every
    service calls every service of the next level. Python's run-time errors on a short
    `services_per_level` list or an empty node list are results, not preconditions. */
module GenerateTopologies {

  import opened Wrappers
  import Text

  /** The Python exceptions the modelled code can raise. */
  datatype PyError = IndexError | ZeroDivisionError | ValueError

  /** One entry of the `services` dictionary. */
  datatype Entry = Entry(node: string, outServices: seq<Name>, port: int, processingDelay: string,
                         replicas: int)

  /** The arguments of `generate_yaml`. */
  datatype Params = Params(depth: int, levels: seq<int>, replicas: int, nodes: seq<string>, scheduling: string)

  const Port := 50051
  const Delay := "0ms"

  /** The number of iterations of `range(n)`. */
  function Count(n: int): (c: nat)
    ensures n >= 0 ==> c == n
    ensures n < 0 ==> c == 0
  {
    if n < 0 then 0 else n
  }

  // ----- names -----------------------------------------------------------------------------

  /** A service name: the frontend, or `service-d<level>-<index>`. The dictionary is keyed by
      these; `NameText` gives the string Python uses, and `NameTextInjective` shows that
      different names never share a string, so keying by either gives the same dictionary. */
  datatype Name = Frontend | Svc(level: nat, index: nat)

  /** The name of the `k`-th service (from 0) of a level: every level-0 service is the
      frontend, the others are numbered from 1. */
  function ServiceName(level: nat, k: nat): (n: Name)
    ensures level == 0 <==> n == Frontend
  {
    if level == 0 then Frontend else Svc(level, k + 1)
  }

  /** The string Python builds for a name. */
  function NameText(n: Name): string
  {
    match n
    case Frontend => "frontend"
    case Svc(level, index) => "service-d" + Text.NatToString(level) + "-" + Text.NatToString(index)
  }

  lemma NamePartsInjective(a1: string, b1: string, a2: string, b2: string)
    requires Text.AllDigits(a1) && Text.AllDigits(a2)
    requires a1 + "-" + b1 == a2 + "-" + b2
    ensures a1 == a2 && b1 == b2
  {
    assert '-' !in a1 by {
      assert forall i :: 0 <= i < |a1| ==> Text.IsDigit(a1[i]);
    }
    assert '-' !in a2 by {
      assert forall i :: 0 <= i < |a2| ==> Text.IsDigit(a2[i]);
    }
    Text.IndexOfAfter(a1, '-', b1);
    Text.IndexOfAfter(a2, '-', b2);
    var s := a1 + "-" + b1;
    assert s[..|a1|] == a1 && s[..|a2|] == a2;
    assert s[|a1| + 1..] == b1 && s[|a2| + 1..] == b2;
  }

  /** Different names are different strings. */
  lemma NameTextInjective(n1: Name, n2: Name)
    requires NameText(n1) == NameText(n2)
    ensures n1 == n2
  {
    if n1.Frontend? || n2.Frontend? {
      if n1 != n2 {
        assert false;
      }
    } else {
      var p := "service-d";
      var a1, b1 := Text.NatToString(n1.level), Text.NatToString(n1.index);
      var a2, b2 := Text.NatToString(n2.level), Text.NatToString(n2.index);
      assert p + (a1 + "-" + b1) == NameText(n1);
      assert p + (a2 + "-" + b2) == NameText(n2);
      assert (p + (a1 + "-" + b1))[|p|..] == a1 + "-" + b1;
      assert (p + (a2 + "-" + b2))[|p|..] == a2 + "-" + b2;
      NamePartsInjective(a1, b1, a2, b2);
      Text.NatToStringInjective(n1.level, n2.level);
      Text.NatToStringInjective(n1.index, n2.index);
    }
  }

  /** The names of the first `n` services of a level, in order. */
  function Targets(level: nat, n: nat): (r: seq<Name>)
    ensures |r| == n
  {
    if n == 0 then [] else Targets(level, n - 1) + [ServiceName(level, n - 1)]
  }

  /** The `i`-th target is the `i`-th service of the level. */
  lemma {:induction false} TargetsNames(level: nat, n: nat)
    ensures forall i :: 0 <= i < n ==> Targets(level, n)[i] == ServiceName(level, i)
  {
    if n > 0 {
      TargetsNames(level, n - 1);
    }
  }

  // ----- the ordered dictionary ------------------------------------------------------------

  /** A Python `dict`: its keys in insertion order, and its contents. */
  datatype Dict = Dict(keys: seq<Name>, values: map<Name, Entry>)

  const EmptyDict := Dict([], map[])

  /** The keys are distinct and are exactly the keys of the contents. */
  ghost predicate WellFormed(d: Dict)
  {
    && (forall i, j :: 0 <= i < j < |d.keys| ==> d.keys[i] != d.keys[j])
    && (forall name :: name in d.values <==> name in d.keys)
  }

  /** `d[k] = v`: a new key goes to the end, an existing key keeps its place. */
  function Put(d: Dict, k: Name, v: Entry): (r: Dict)
    ensures r.values == d.values[k := v]
    ensures k in d.values ==> r.keys == d.keys
    ensures k !in d.values ==> r.keys == d.keys + [k]
  {
    if k in d.values then Dict(d.keys, d.values[k := v]) else Dict(d.keys + [k], d.values[k := v])
  }

  /** Assigning keeps the keys distinct and in step with the contents. */
  lemma PutWellFormed(d: Dict, k: Name, v: Entry)
    requires WellFormed(d)
    ensures WellFormed(Put(d, k, v))
  {
  }

  // ----- what generate_yaml builds ---------------------------------------------------------

  /** The node of every service of a level: `rr` goes round the nodes, `hh` puts the first
      half of the levels on the first node and the rest on the last one, anything else puts
      everything on the first node. An empty node list is an error. */
  function NodeFor(level: nat, depth: int, nodes: seq<string>, scheduling: string): (r: Result<string, PyError>)
    ensures r.Failure? <==> nodes == []
    ensures r.Success? ==> r.value in nodes
  {
    if scheduling == "hh" then
      if nodes == [] then Failure(IndexError)
      else Success(if 2 * level < depth then nodes[0] else nodes[|nodes| - 1])
    else if scheduling == "rr" then
      if nodes == [] then Failure(ZeroDivisionError) else Success(nodes[level % |nodes|])
    else if nodes == [] then Failure(IndexError)
    else Success(nodes[0])
  }

  /** The peers of a service of `level`: the whole next level, none on the last level. */
  function OutsFor(level: nat, p: Params): Result<seq<Name>, PyError>
  {
    if level < p.depth - 1 then
      if level + 1 < |p.levels| then Success(Targets(level + 1, Count(p.levels[level + 1])))
      else Failure(IndexError)
    else Success([])
  }

  /** The first `n` services of a level written into `d`, all with the same entry. */
  function PutLevel(d: Dict, level: nat, e: Entry, n: nat): Dict
  {
    if n == 0 then d else Put(PutLevel(d, level, e, n - 1), ServiceName(level, n - 1), e)
  }

  /** One iteration of the level loop. */
  function Level(d: Dict, level: nat, p: Params): Result<Dict, PyError>
  {
    if level >= |p.levels| then Failure(IndexError)
    else match NodeFor(level, p.depth, p.nodes, p.scheduling)
      case Failure(e) => Failure(e)
      case Success(node) =>
        if Count(p.levels[level]) == 0 then Success(d)
        else match OutsFor(level, p)
          case Failure(e) => Failure(e)
          case Success(outs) =>
            Success(PutLevel(d, level, Entry(node, outs, Port, Delay, p.replicas), Count(p.levels[level])))
  }

  /** The dictionary after the first `n` levels, or the first error. */
  function Levels(n: nat, p: Params): Result<Dict, PyError>
  {
    if n == 0 then Success(EmptyDict)
    else match Levels(n - 1, p)
      case Failure(e) => Failure(e)
      case Success(d) => Level(d, n - 1, p)
  }

  /** The dictionary `generate_yaml` builds, or the error it raises. */
  function Services(p: Params): Result<Dict, PyError>
  {
    Levels(Count(p.depth), p)
  }

  // ----- the text --------------------------------------------------------------------------

  /** Python's `repr` of a list of strings without quotes, backslashes or control characters. */
  function PyListRepr(xs: seq<string>): string
  {
    "[" + Text.Join(Quoted(xs), ", ") + "]"
  }

  function Quoted(xs: seq<string>): (r: seq<string>)
    ensures |r| == |xs|
    ensures forall i :: 0 <= i < |xs| ==> r[i] == "'" + xs[i] + "'"
  {
    if xs == [] then [] else Quoted(xs[..|xs| - 1]) + ["'" + xs[|xs| - 1] + "'"]
  }

  /** The strings of a list of names. */
  function Texts(ns: seq<Name>): (r: seq<string>)
    ensures |r| == |ns|
    ensures forall i :: 0 <= i < |ns| ==> r[i] == NameText(ns[i])
  {
    if ns == [] then [] else Texts(ns[..|ns| - 1]) + [NameText(ns[|ns| - 1])]
  }

  /** The six lines of one service. */
  function ServiceLines(name: Name, e: Entry): (lines: seq<string>)
    ensures |lines| == 6
  {
    [ "  " + NameText(name) + ":",
      "    node: " + e.node,
      "    port: " + Text.IntToString(e.port),
      "    processing_delay: " + e.processingDelay,
      "    replicas: " + Text.IntToString(e.replicas),
      "    out_services: " + PyListRepr(Texts(e.outServices)) ]
  }

  /** The lines of the first `n` services, in insertion order. */
  function Blocks(d: Dict, n: nat): (lines: seq<string>)
    requires n <= |d.keys|
    ensures |lines| == 6 * n
  {
    if n == 0 then [] else Blocks(d, n - 1) + Block(d, d.keys[n - 1])
  }

  /** The lines of one key: its service's six lines (a key always has a service). */
  function Block(d: Dict, name: Name): (lines: seq<string>)
    ensures |lines| == 6
  {
    if name in d.values then ServiceLines(name, d.values[name]) else ["", "", "", "", "", ""]
  }

  /** All output lines: the header, then six lines per service. */
  function YamlLines(d: Dict): (lines: seq<string>)
    ensures |lines| == 1 + 6 * |d.keys|
    ensures lines[0] == "services:"
  {
    ["services:"] + Blocks(d, |d.keys|)
  }

  /** What `generate_yaml` returns, or the error it raises. */
  function Yaml(p: Params): Result<string, PyError>
  {
    match Services(p)
    case Failure(e) => Failure(e)
    case Success(d) => Success(Text.Join(YamlLines(d), "\n"))
  }

  // ----- the imperative builder ------------------------------------------------------------

  /** The peer list of one service, built name by name. */
  method NextLevelNames(level: nat, n: int) returns (outs: seq<Name>)
    ensures outs == Targets(level, Count(n))
  {
    outs := [];
    var k := 0;
    while k < n
      invariant 0 <= k <= Count(n)
      invariant outs == Targets(level, k)
    {
      outs := outs + [ServiceName(level, k)];
      k := k + 1;
    }
  }

  /** The node choice of one level, at the point where Python makes it. */
  method ChooseNode(level: nat, p: Params) returns (r: Result<string, PyError>)
    ensures r == NodeFor(level, p.depth, p.nodes, p.scheduling)
  {
    if p.scheduling == "hh" {
      if p.nodes == [] {
        return Failure(IndexError);
      }
      if 2 * level < p.depth {
        return Success(p.nodes[0]);
      }
      return Success(p.nodes[|p.nodes| - 1]);
    } else if p.scheduling == "rr" {
      if p.nodes == [] {
        return Failure(ZeroDivisionError);
      }
      return Success(p.nodes[level % |p.nodes|]);
    }
    if p.nodes == [] {
      return Failure(IndexError);
    }
    return Success(p.nodes[0]);
  }

  /** One pass of the level loop: the node, then each service of the level with its peers. */
  method BuildLevel(services: Dict, level: nat, p: Params) returns (r: Result<Dict, PyError>)
    ensures r == Level(services, level, p)
  {
    if level >= |p.levels| {
      return Failure(IndexError);
    }
    var num := p.levels[level];
    var node := ChooseNode(level, p);
    if node.Failure? {
      return Failure(node.error);
    }
    var d := services;
    var k := 0;
    while k < num
      invariant 0 <= k <= Count(num)
      invariant k == 0 ==> d == services
      invariant k > 0 ==>
                  && OutsFor(level, p).Success?
                  && d == PutLevel(services, level, Entry(node.value, OutsFor(level, p).value, Port, Delay, p.replicas), k)
    {
      var name := ServiceName(level, k);
      var outs := Peers(level, p);
      if outs.Failure? {
        return Failure(outs.error);
      }
      d := Put(d, name, Entry(node.value, outs.value, Port, Delay, p.replicas));
      k := k + 1;
    }
    return Success(d);
  }

  /** The peers of one service: the next level's names, or IndexError when the next level
      has no count. */
  method Peers(level: nat, p: Params) returns (r: Result<seq<Name>, PyError>)
    ensures r == OutsFor(level, p)
  {
    if level < p.depth - 1 {
      if level + 1 >= |p.levels| {
        return Failure(IndexError);
      }
      var outs := NextLevelNames(level + 1, p.levels[level + 1]);
      return Success(outs);
    }
    return Success([]);
  }

  /** `generate_yaml`. */
  method GenerateYaml(p: Params) returns (r: Result<string, PyError>)
    ensures r == Yaml(p)
  {
    var services := EmptyDict;
    var level := 0;
    while level < p.depth
      invariant 0 <= level <= Count(p.depth)
      invariant Levels(level, p) == Success(services)
    {
      var next := BuildLevel(services, level, p);
      if next.Failure? {
        assert Levels(level + 1, p) == next;
        LevelsFailureStays(p, level + 1, Count(p.depth));
        assert Services(p) == next;
        return Failure(next.error);
      }
      services := next.value;
      level := level + 1;
    }
    assert Services(p) == Success(services);
    var text := RenderYaml(services);
    return Success(text);
  }

  /** The text of a dictionary: the header, then six lines per service in insertion order. */
  method RenderYaml(services: Dict) returns (text: string)
    ensures text == Text.Join(YamlLines(services), "\n")
  {
    var lines := ["services:"];
    var i := 0;
    while i < |services.keys|
      invariant 0 <= i <= |services.keys|
      invariant lines == ["services:"] + Blocks(services, i)
    {
      var name := services.keys[i];
      var block := Block(services, name);
      assert ["services:"] + Blocks(services, i + 1) == lines + block;
      lines := lines + block;
      i := i + 1;
    }
    return Text.Join(lines, "\n");
  }

  // ----- errors ----------------------------------------------------------------------------

  /** Once a level has failed, the error is what the whole call raises. */
  lemma {:induction false} LevelsFailureStays(p: Params, k: nat, n: nat)
    requires k <= n
    requires Levels(k, p).Failure?
    ensures Levels(n, p) == Levels(k, p)
    decreases n
  {
    if n > k {
      LevelsFailureStays(p, k, n - 1);
    }
  }

  /** With a non-empty node list and a level count for every level, no level fails. */
  lemma {:induction false} LevelsSucceed(p: Params, n: nat)
    requires p.nodes != [] && n <= Count(p.depth) && p.depth <= |p.levels|
    ensures Levels(n, p).Success?
  {
    if n > 0 {
      LevelsSucceed(p, n - 1);
    }
  }

  /** With a non-empty node list, the only error is the IndexError of a missing level count. */
  lemma {:induction false} LevelsIndexErrorOnly(p: Params, n: nat)
    requires p.nodes != []
    ensures Levels(n, p).Failure? ==> Levels(n, p).error == IndexError
  {
    if n > 0 {
      LevelsIndexErrorOnly(p, n - 1);
    }
  }

  /** `generate_yaml` fails exactly when it runs at least one level and either a level count
      is missing or there is no node; it raises ZeroDivisionError exactly when the node list
      is empty under `rr` with the first level count present, and IndexError otherwise. */
  lemma YamlErrors(p: Params)
    ensures Services(p).Failure? <==> p.depth >= 1 && (|p.levels| < p.depth || p.nodes == [])
    ensures Services(p).Failure? ==>
              (Services(p).error == ZeroDivisionError <==>
                 |p.levels| >= 1 && p.nodes == [] && p.scheduling == "rr")
    ensures Services(p).Failure? ==> Services(p).error != ValueError
  {
    var n := Count(p.depth);
    if p.depth >= 1 && p.nodes == [] {
      assert Levels(1, p).Failure?;
      LevelsFailureStays(p, 1, n);
    } else if p.depth >= 1 && |p.levels| < p.depth {
      var m := |p.levels|;
      if Levels(m, p).Failure? {
        LevelsFailureStays(p, m, n);
      } else {
        assert Levels(m + 1, p).Failure?;
        LevelsFailureStays(p, m + 1, n);
      }
    } else if p.depth >= 1 {
      LevelsSucceed(p, n);
    }
    if p.nodes != [] {
      LevelsIndexErrorOnly(p, n);
    }
  }

  // ----- shape of the result ---------------------------------------------------------------

  /** The parameters for which `generate_yaml` returns: a node, and a count for every level. */
  predicate Fits(p: Params)
  {
    p.nodes != [] && p.depth <= |p.levels|
  }

  /** The entry of every service of `level`. */
  function EntryAt(p: Params, level: nat): Entry
    requires Fits(p) && level < p.depth
  {
    var node := NodeFor(level, p.depth, p.nodes, p.scheduling).value;
    var outs := if level < p.depth - 1 then Targets(level + 1, Count(p.levels[level + 1])) else [];
    Entry(node, outs, Port, Delay, p.replicas)
  }

  /** The names of the first `n` services of a level. */
  ghost function LevelNames(level: nat, n: nat): set<Name>
  {
    set k | 0 <= k < n :: ServiceName(level, k)
  }

  /** Writing a level keeps the dictionary well formed. */
  lemma {:induction false} PutLevelWellFormed(d: Dict, level: nat, e: Entry, n: nat)
    requires WellFormed(d)
    ensures WellFormed(PutLevel(d, level, e, n))
  {
    if n > 0 {
      PutLevelWellFormed(d, level, e, n - 1);
      PutWellFormed(PutLevel(d, level, e, n - 1), ServiceName(level, n - 1), e);
    }
  }

  /** Writing a level adds each of its services with the level's entry. */
  lemma {:induction false} PutLevelAdds(d: Dict, level: nat, e: Entry, n: nat)
    ensures forall k :: 0 <= k < n ==>
              ServiceName(level, k) in PutLevel(d, level, e, n).values
              && PutLevel(d, level, e, n).values[ServiceName(level, k)] == e
  {
    if n > 0 {
      PutLevelAdds(d, level, e, n - 1);
      var prev := PutLevel(d, level, e, n - 1);
      var r := PutLevel(d, level, e, n);
      assert r.values == prev.values[ServiceName(level, n - 1) := e];
      forall k | 0 <= k < n
        ensures ServiceName(level, k) in r.values && r.values[ServiceName(level, k)] == e
      {
        if k < n - 1 {
          assert ServiceName(level, k) in prev.values && prev.values[ServiceName(level, k)] == e;
        }
      }
    }
  }

  /** Writing a level leaves every entry that is not one of its services. */
  lemma {:induction false} PutLevelKeeps(d: Dict, level: nat, e: Entry, n: nat)
    ensures forall name :: name in d.values && name !in LevelNames(level, n) ==>
              name in PutLevel(d, level, e, n).values && PutLevel(d, level, e, n).values[name] == d.values[name]
  {
    if n > 0 {
      PutLevelKeeps(d, level, e, n - 1);
      assert LevelNames(level, n) == LevelNames(level, n - 1) + {ServiceName(level, n - 1)};
    }
  }

  /** Writing a level adds no key but its services. */
  lemma {:induction false} PutLevelOnly(d: Dict, level: nat, e: Entry, n: nat)
    ensures forall name :: name in PutLevel(d, level, e, n).values ==> name in d.values || name in LevelNames(level, n)
  {
    if n > 0 {
      PutLevelOnly(d, level, e, n - 1);
      assert LevelNames(level, n) == LevelNames(level, n - 1) + {ServiceName(level, n - 1)};
    }
  }

  /** Services of a level are never the services of another level. */
  lemma LevelNamesApart(l1: nat, n1: nat, l2: nat, name: Name)
    requires l1 != l2
    requires name in LevelNames(l1, n1)
    ensures forall n2 :: name !in LevelNames(l2, n2)
  {
    var k1: nat :| k1 < n1 && name == ServiceName(l1, k1);
  }

  /** Every service of the levels below `n` is present with the entry of its level. */
  ghost predicate Holds(d: Dict, p: Params, n: nat)
    requires Fits(p) && n <= Count(p.depth)
  {
    forall l: nat, k: nat :: l < n && k < p.levels[l] ==>
      ServiceName(l, k) in d.values && d.values[ServiceName(l, k)] == EntryAt(p, l)
  }

  /** Every service present belongs to one of the levels below `n`. */
  ghost predicate Only(d: Dict, p: Params, n: nat)
    requires n <= |p.levels|
  {
    forall name :: name in d.values ==> exists l: nat, k: nat :: l < n && k < p.levels[l] && name == ServiceName(l, k)
  }

  /** With a node and the next level's count at hand, a level writes its services with the
      level's entry. */
  lemma LevelIsPut(p: Params, l: nat, d: Dict)
    requires Fits(p) && l < p.depth
    ensures Level(d, l, p) ==
              Success(if Count(p.levels[l]) == 0 then d else PutLevel(d, l, EntryAt(p, l), Count(p.levels[l])))
  {
  }

  /** One level keeps the dictionary well formed, keeps the earlier levels' entries and adds
      its own services. */
  lemma LevelStep(p: Params, l: nat, d: Dict)
    requires Fits(p) && l < p.depth
    requires WellFormed(d) && Holds(d, p, l)
    ensures Level(d, l, p).Success?
    ensures WellFormed(Level(d, l, p).value)
    ensures Holds(Level(d, l, p).value, p, l + 1)
  {
    LevelIsPut(p, l, d);
    var m := Count(p.levels[l]);
    if m > 0 {
      var e := EntryAt(p, l);
      var r := PutLevel(d, l, e, m);
      PutLevelWellFormed(d, l, e, m);
      PutLevelAdds(d, l, e, m);
      PutLevelKeeps(d, l, e, m);
      forall l2: nat, k: nat | l2 < l && k < p.levels[l2]
        ensures ServiceName(l2, k) in r.values && r.values[ServiceName(l2, k)] == EntryAt(p, l2)
      {
        var name := ServiceName(l2, k);
        assert name in LevelNames(l2, k + 1);
        LevelNamesApart(l2, k + 1, l, name);
      }
    }
  }

  /** One level adds nothing but its own services. */
  lemma LevelStepOnly(p: Params, l: nat, d: Dict)
    requires Fits(p) && l < p.depth
    requires Only(d, p, l)
    ensures Level(d, l, p).Success?
    ensures Only(Level(d, l, p).value, p, l + 1)
  {
    LevelIsPut(p, l, d);
    var m := Count(p.levels[l]);
    if m > 0 {
      var e := EntryAt(p, l);
      var r := PutLevel(d, l, e, m);
      PutLevelOnly(d, l, e, m);
      forall name | name in r.values
        ensures exists l2: nat, k: nat :: l2 < l + 1 && k < p.levels[l2] && name == ServiceName(l2, k)
      {
        if name !in d.values {
          var k: nat :| k < m && name == ServiceName(l, k);
        }
      }
    }
  }

  /** After `n` levels the dictionary is well formed and holds every service of those levels
      with the entry of its level. */
  lemma {:induction false} LevelsShape(p: Params, n: nat)
    requires Fits(p) && n <= Count(p.depth)
    ensures Levels(n, p).Success?
    ensures WellFormed(Levels(n, p).value)
    ensures Holds(Levels(n, p).value, p, n)
  {
    if n > 0 {
      LevelsShape(p, n - 1);
      var d := Levels(n - 1, p).value;
      assert Levels(n, p) == Level(d, n - 1, p);
      LevelStep(p, n - 1, d);
    }
  }

  /** After `n` levels the dictionary holds nothing but the services of those levels. */
  lemma {:induction false} LevelsOnly(p: Params, n: nat)
    requires Fits(p) && n <= Count(p.depth)
    ensures Levels(n, p).Success?
    ensures Only(Levels(n, p).value, p, n)
  {
    if n > 0 {
      LevelsOnly(p, n - 1);
      var d := Levels(n - 1, p).value;
      assert Levels(n, p) == Level(d, n - 1, p);
      LevelStepOnly(p, n - 1, d);
    }
  }

  /** The dictionary `generate_yaml` builds when it returns. */
  function Built(p: Params): (d: Dict)
    requires Fits(p)
    ensures Services(p) == Success(d)
  {
    LevelsSucceed(p, Count(p.depth));
    Services(p).value
  }

  /** `generate_yaml`'s dictionary, when it returns: exactly the services of the levels below
      `depth`, each with the entry of its level, in a well-formed dictionary. */
  lemma ServicesShape(p: Params)
    requires Fits(p)
    ensures WellFormed(Built(p))
    ensures forall l: nat, k: nat :: l < p.depth && k < p.levels[l] ==>
              ServiceName(l, k) in Built(p).values && Built(p).values[ServiceName(l, k)] == EntryAt(p, l)
  {
    LevelsShape(p, Count(p.depth));
  }

  /** Every key of `generate_yaml`'s dictionary is a service of one of the levels below
      `depth`; the lemma names the level and the position. */
  lemma NameLevel(p: Params, name: Name) returns (l: nat, k: nat)
    requires Fits(p) && name in Built(p).values
    ensures l < p.depth && k < p.levels[l] && name == ServiceName(l, k)
  {
    LevelsOnly(p, Count(p.depth));
    l, k :| l < p.depth && k < p.levels[l] && name == ServiceName(l, k);
  }

  /** The frontend is a key exactly when there is a level 0 with at least one service; all
      level-0 services are that one key. */
  lemma FrontendKey(p: Params)
    requires Fits(p)
    ensures Frontend in Built(p).values <==> p.depth >= 1 && p.levels[0] >= 1
  {
    var d := Built(p);
    if Frontend in d.values {
      var l, k := NameLevel(p, Frontend);
    }
    if p.depth >= 1 && p.levels[0] >= 1 {
      ServicesShape(p);
      assert ServiceName(0, 0) == Frontend;
    }
  }

  /** Every service of a level other than the last calls the whole next level, in order;
      the services of the last level call nobody. */
  lemma OutServicesByLevel(p: Params, l: nat, k: nat)
    requires Fits(p) && l < p.depth && k < p.levels[l]
    ensures ServiceName(l, k) in Built(p).values
    ensures var outs := Built(p).values[ServiceName(l, k)].outServices;
            && (l < p.depth - 1 ==>
                  |outs| == Count(p.levels[l + 1])
                  && forall j :: 0 <= j < |outs| ==> outs[j] == Svc(l + 1, j + 1))
            && (l == p.depth - 1 ==> outs == [])
  {
    ServicesShape(p);
    if l < p.depth - 1 {
      TargetsNames(l + 1, Count(p.levels[l + 1]));
    }
  }

  /** The graph is closed: every peer named is itself a service, and never the frontend. */
  lemma Closed(p: Params)
    requires Fits(p)
    ensures var d := Built(p);
            forall name, target :: name in d.values && target in d.values[name].outServices ==>
              target in d.values && target != Frontend
  {
    var d := Built(p);
    forall name, target | name in d.values && target in d.values[name].outServices
      ensures target in d.values && target != Frontend
    {
      var l, k := NameLevel(p, name);
      ServicesShape(p);
      var outs := EntryAt(p, l).outServices;
      var j :| 0 <= j < |outs| && outs[j] == target;
      TargetsNames(l + 1, Count(p.levels[l + 1]));
      assert target == ServiceName(l + 1, j);
    }
  }

  /** Placement: all services of a level share one node; `rr` takes the nodes in turn, `hh`
      the first node for the levels below half the depth and the last node for the others,
      and any other strategy the first node. Port, delay and replicas are the same for all. */
  lemma Placement(p: Params, l: nat, k: nat)
    requires Fits(p) && l < p.depth && k < p.levels[l]
    ensures ServiceName(l, k) in Built(p).values
    ensures var e := Built(p).values[ServiceName(l, k)];
            && (p.scheduling == "rr" ==> e.node == p.nodes[l % |p.nodes|])
            && (p.scheduling == "hh" ==> e.node == if 2 * l < p.depth then p.nodes[0] else p.nodes[|p.nodes| - 1])
            && (p.scheduling != "rr" && p.scheduling != "hh" ==> e.node == p.nodes[0])
            && e.port == 50051 && e.processingDelay == "0ms" && e.replicas == p.replicas
    ensures forall k2: nat :: k2 < p.levels[l] ==>
              ServiceName(l, k2) in Built(p).values &&
              Built(p).values[ServiceName(l, k2)].node == Built(p).values[ServiceName(l, k)].node
  {
    ServicesShape(p);
  }

  // ----- the text, line by line ------------------------------------------------------------

  /** When no line holds a newline, splitting the text at newlines gives the lines back:
      `1 + 6 * |services|` of them, the header first. */
  lemma TextLines(d: Dict)
    requires forall i :: 0 <= i < |YamlLines(d)| ==> '\n' !in YamlLines(d)[i]
    ensures var lines := Text.Split(Text.Join(YamlLines(d), "\n"), '\n');
            && lines == YamlLines(d)
            && |lines| == 1 + 6 * |d.keys|
            && lines[0] == "services:"
  {
    Text.SplitJoin(YamlLines(d), '\n');
  }

  lemma NameTextPlain(n: Name)
    ensures '\n' !in NameText(n)
  {
    if n.Svc? {
      var a, b := Text.NatToString(n.level), Text.NatToString(n.index);
      assert forall i :: 0 <= i < |a| ==> Text.IsDigit(a[i]);
      assert forall i :: 0 <= i < |b| ==> Text.IsDigit(b[i]);
    }
  }

  lemma IntToStringPlain(n: int)
    ensures '\n' !in Text.IntToString(n)
  {
    var s := Text.NatToString(if n < 0 then -n else n);
    assert forall i :: 0 <= i < |s| ==> Text.IsDigit(s[i]);
  }

  lemma PyListReprPlain(ns: seq<Name>)
    ensures '\n' !in PyListRepr(Texts(ns))
  {
    var xs := Texts(ns);
    forall i | 0 <= i < |xs|
      ensures '\n' !in Quoted(xs)[i]
    {
      NameTextPlain(ns[i]);
    }
    Text.NotInJoin(Quoted(xs), ", ", '\n');
  }

  /** No newline in an entry's node or delay. */
  ghost predicate PlainEntry(e: Entry)
  {
    '\n' !in e.node && '\n' !in e.processingDelay
  }

  lemma ConcatPlain(a: string, b: string)
    requires '\n' !in a && '\n' !in b
    ensures '\n' !in a + b
  {
  }

  lemma ServiceLinesPlain(name: Name, e: Entry)
    requires PlainEntry(e)
    ensures forall i :: 0 <= i < 6 ==> '\n' !in ServiceLines(name, e)[i]
  {
    var lines := ServiceLines(name, e);
    NameTextPlain(name);
    ConcatPlain("  ", NameText(name));
    ConcatPlain("  " + NameText(name), ":");
    ConcatPlain("    node: ", e.node);
    IntToStringPlain(e.port);
    ConcatPlain("    port: ", Text.IntToString(e.port));
    ConcatPlain("    processing_delay: ", e.processingDelay);
    IntToStringPlain(e.replicas);
    ConcatPlain("    replicas: ", Text.IntToString(e.replicas));
    PyListReprPlain(e.outServices);
    ConcatPlain("    out_services: ", PyListRepr(Texts(e.outServices)));
  }

  /** The service lines hold no newline when no entry does. */
  lemma {:induction false} BlocksPlain(d: Dict, n: nat)
    requires n <= |d.keys|
    requires forall name :: name in d.values ==> PlainEntry(d.values[name])
    ensures forall i :: 0 <= i < |Blocks(d, n)| ==> '\n' !in Blocks(d, n)[i]
  {
    if n > 0 {
      BlocksPlain(d, n - 1);
      var name := d.keys[n - 1];
      if name in d.values {
        ServiceLinesPlain(name, d.values[name]);
      }
      var prev, last := Blocks(d, n - 1), Block(d, name);
      assert forall i :: 0 <= i < |last| ==> '\n' !in last[i];
      forall i | 0 <= i < |prev + last|
        ensures '\n' !in (prev + last)[i]
      {
        if i < |prev| {
          assert (prev + last)[i] == prev[i];
        } else {
          assert (prev + last)[i] == last[i - |prev|];
        }
      }
    }
  }

  /** For node names without newlines, no entry of `generate_yaml`'s dictionary holds one. */
  lemma BuiltPlain(p: Params)
    requires Fits(p)
    requires forall i :: 0 <= i < |p.nodes| ==> '\n' !in p.nodes[i]
    ensures forall name :: name in Built(p).values ==> PlainEntry(Built(p).values[name])
  {
    ServicesShape(p);
    var d := Built(p);
    forall name | name in d.values
      ensures PlainEntry(d.values[name])
    {
      var l, k := NameLevel(p, name);
      assert d.values[name] == EntryAt(p, l);
    }
  }

  /** For node names without newlines, `generate_yaml`'s text splits into exactly its lines:
      `1 + 6 * |services|` of them, the header first and each service's six lines next. */
  lemma YamlLineCount(p: Params)
    requires Fits(p)
    requires forall i :: 0 <= i < |p.nodes| ==> '\n' !in p.nodes[i]
    ensures Yaml(p).Success?
    ensures var lines := Text.Split(Yaml(p).value, '\n');
            && lines == YamlLines(Built(p))
            && |lines| == 1 + 6 * |Built(p).keys|
  {
    var d := Built(p);
    BuiltPlain(p);
    BlocksPlain(d, |d.keys|);
    var lines := YamlLines(d);
    assert lines == ["services:"] + Blocks(d, |d.keys|);
    assert forall i :: 0 <= i < |lines| ==> '\n' !in lines[i];
    TextLines(d);
  }

  // ----- the order of the services --------------------------------------------------------

  /** The keys one level adds to an empty-for-it dictionary: every service of level 0 is the
      frontend, so that level adds one key; any other level adds its services in index order. */
  function LevelKeys(level: nat, c: nat): seq<Name>
  {
    if c == 0 then [] else if level == 0 then [Frontend] else Targets(level, c)
  }

  /** The keys of the first `n` levels, level after level. */
  function KeyOrder(p: Params, n: nat): seq<Name>
    requires n <= |p.levels|
  {
    if n == 0 then [] else KeyOrder(p, n - 1) + LevelKeys(n - 1, Count(p.levels[n - 1]))
  }

  /** Writing a level whose services are all new appends its keys in order. */
  lemma {:induction false} PutLevelKeys(d: Dict, level: nat, e: Entry, n: nat)
    requires forall k :: 0 <= k < n ==> ServiceName(level, k) !in d.values
    ensures PutLevel(d, level, e, n).keys == d.keys + LevelKeys(level, n)
  {
    if n > 0 {
      PutLevelKeys(d, level, e, n - 1);
      var prev := PutLevel(d, level, e, n - 1);
      var name := ServiceName(level, n - 1);
      if level == 0 && n > 1 {
        PutLevelAdds(d, level, e, n - 1);
        assert ServiceName(0, 0) in prev.values;
      } else if n > 1 {
        PutLevelOnly(d, level, e, n - 1);
        assert name !in LevelNames(level, n - 1);
        assert name !in prev.values;
        assert Targets(level, n) == Targets(level, n - 1) + [name];
      }
    }
  }

  /** Services of a level below `l` are never services of level `l`. */
  lemma NewLevel(p: Params, l: nat, d: Dict)
    requires l <= |p.levels| && Only(d, p, l)
    ensures forall k :: 0 <= k ==> ServiceName(l, k) !in d.values
  {
  }

  /** One level appends its keys when the dictionary holds only the earlier levels. */
  lemma LevelKeysStep(p: Params, l: nat, d: Dict)
    requires Fits(p) && l < p.depth && Only(d, p, l)
    ensures Level(d, l, p).Success?
    ensures Level(d, l, p).value.keys == d.keys + LevelKeys(l, Count(p.levels[l]))
  {
    LevelIsPut(p, l, d);
    var m := Count(p.levels[l]);
    if m > 0 {
      NewLevel(p, l, d);
      PutLevelKeys(d, l, EntryAt(p, l), m);
    }
  }

  /** Level `l` appends its keys to those of the levels before it. */
  lemma LevelsKeysStep(p: Params, l: nat)
    requires Fits(p) && l < p.depth
    requires Levels(l, p).Success? && Levels(l, p).value.keys == KeyOrder(p, l)
    ensures Levels(l + 1, p).Success?
    ensures Levels(l + 1, p).value.keys == KeyOrder(p, l + 1)
  {
    LevelsOnly(p, l);
    var d := Levels(l, p).value;
    assert Levels(l + 1, p) == Level(d, l, p);
    LevelKeysStep(p, l, d);
  }

  /** After `n` levels the keys are in level order, each level's services by index. */
  lemma {:induction false} LevelsKeys(p: Params, n: nat)
    requires Fits(p) && n <= Count(p.depth)
    ensures Levels(n, p).Success?
    ensures Levels(n, p).value.keys == KeyOrder(p, n)
  {
    if n > 0 {
      LevelsKeys(p, n - 1);
      LevelsKeysStep(p, n - 1);
    }
  }

  /** `services.items()` runs level by level, each level's services by index; when level 0
      has a service, the frontend comes first. */
  lemma BuiltKeys(p: Params)
    requires Fits(p)
    ensures Built(p).keys == KeyOrder(p, Count(p.depth))
    ensures p.depth >= 1 && p.levels[0] >= 1 ==> |Built(p).keys| >= 1 && Built(p).keys[0] == Frontend
  {
    LevelsKeys(p, Count(p.depth));
    if p.depth >= 1 && p.levels[0] >= 1 {
      KeyOrderStartsWithFrontend(p, Count(p.depth));
    }
  }

  lemma {:induction false} KeyOrderStartsWithFrontend(p: Params, n: nat)
    requires 1 <= n <= |p.levels| && p.levels[0] >= 1
    ensures |KeyOrder(p, n)| >= 1 && KeyOrder(p, n)[0] == Frontend
  {
    if n > 1 {
      KeyOrderStartsWithFrontend(p, n - 1);
    } else {
      assert KeyOrder(p, 0) == [];
    }
  }

  /** The lines of the first `m` services start the lines of the first `n`. */
  lemma {:induction false} BlocksPrefix(d: Dict, m: nat, n: nat)
    requires m <= n <= |d.keys|
    ensures Blocks(d, n)[..6 * m] == Blocks(d, m)
  {
    if m < n {
      BlocksPrefix(d, m, n - 1);
      var prev := Blocks(d, n - 1);
      assert Blocks(d, n) == prev + Block(d, d.keys[n - 1]);
      assert (prev + Block(d, d.keys[n - 1]))[..6 * m] == prev[..6 * m];
    }
  }

  lemma SliceOfPrefix<T>(s: seq<T>, a: nat, b: nat)
    requires a <= b <= |s|
    ensures s[a..b] == s[..b][a..]
  {
  }

  lemma SliceAfterHead<T>(h: T, s: seq<T>, a: nat, b: nat)
    requires a <= b <= |s|
    ensures ([h] + s)[a + 1..b + 1] == s[a..b]
  {
  }

  /** The `i`-th block of six lines belongs to the `i`-th key. */
  lemma BlocksAt(d: Dict, n: nat, i: nat)
    requires i < n <= |d.keys|
    ensures Blocks(d, n)[6 * i..6 * i + 6] == Block(d, d.keys[i])
  {
    var all := Blocks(d, n);
    var before := Blocks(d, i);
    BlocksPrefix(d, i + 1, n);
    SliceOfPrefix(all, 6 * i, 6 * i + 6);
    assert Blocks(d, i + 1) == before + Block(d, d.keys[i]);
    assert (before + Block(d, d.keys[i]))[|before|..] == Block(d, d.keys[i]);
  }

  /** Lines `1 + 6i` to `6 + 6i` of the output are the block of the `i`-th key. */
  lemma YamlBlockAt(d: Dict, i: nat)
    requires i < |d.keys|
    ensures YamlLines(d)[1 + 6 * i..7 + 6 * i] == Block(d, d.keys[i])
  {
    var blocks := Blocks(d, |d.keys|);
    BlocksAt(d, |d.keys|, i);
    SliceAfterHead("services:", blocks, 6 * i, 6 * i + 6);
  }

  /** The output is the header, then the six lines of each service in insertion order:
      lines `1 + 6i` to `6 + 6i` are the `i`-th key's name, node, port, processing delay,
      replicas and peers. */
  lemma YamlLayout(d: Dict)
    requires WellFormed(d)
    ensures forall i :: 0 <= i < |d.keys| ==> d.keys[i] in d.values
    ensures forall i :: 0 <= i < |d.keys| ==>
              YamlLines(d)[1 + 6 * i..7 + 6 * i] == ServiceLines(d.keys[i], d.values[d.keys[i]])
  {
    forall i | 0 <= i < |d.keys|
      ensures YamlLines(d)[1 + 6 * i..7 + 6 * i] == ServiceLines(d.keys[i], d.values[d.keys[i]])
    {
      YamlBlockAt(d, i);
    }
  }

  // ----- chains and the command line -------------------------------------------------------

  /** `n` copies of `s`. */
  function Repeat(s: string, n: nat): (r: seq<string>)
    ensures |r| == n
    ensures forall i :: 0 <= i < n ==> r[i] == s
  {
    if n == 0 then [] else Repeat(s, n - 1) + [s]
  }

  /** `generate_service_chain`: one service per level, written as a level list. */
  function ServiceChain(depth: int): string
  {
    Text.Join(Repeat("1", Count(depth)), ",")
  }

  /** `list(map(int, s.split(',')))`. */
  function ParseLevels(s: string): Result<seq<int>, PyError>
  {
    ParseAll(Text.Split(s, ','))
  }

  /** Python's `int` on each piece, in order; the first piece that is not a number raises. */
  function ParseAll(pieces: seq<string>): (r: Result<seq<int>, PyError>)
    ensures r.Success? ==> |r.value| == |pieces|
    ensures r.Failure? ==> r.error == ValueError
  {
    if pieces == [] then Success([])
    else match Text.ParseInt(pieces[0])
      case None => Failure(ValueError)
      case Some(v) =>
        var rest := ParseAll(pieces[1..]);
        if rest.Failure? then rest else Success([v] + rest.value)
  }

  /** Parsing the pieces back gives the numbers they were rendered from. */
  lemma {:induction false} ParseAllRendered(pieces: seq<string>, values: seq<int>)
    requires |pieces| == |values|
    requires forall i :: 0 <= i < |pieces| ==> pieces[i] == Text.IntToString(values[i])
    ensures ParseAll(pieces) == Success(values)
  {
    if pieces != [] {
      Text.ParseIntToString(values[0]);
      assert Text.ParseInt(pieces[0]) == Some(values[0]);
      ParseAllRendered(pieces[1..], values[1..]);
      assert ParseAll(pieces) == Success([values[0]] + values[1..]);
      assert values == [values[0]] + values[1..];
    }
  }

  /** `int` accepts every piece. */
  predicate AllNumbers(pieces: seq<string>)
  {
    forall i :: 0 <= i < |pieces| ==> Text.ParseInt(pieces[i]).Some?
  }

  /** `ParseAll` succeeds exactly when `int` accepts every piece, and then holds each
      piece's number at the piece's position. */
  lemma {:induction false} ParseAllValues(pieces: seq<string>)
    ensures ParseAll(pieces).Success? <==> AllNumbers(pieces)
    ensures ParseAll(pieces).Success? ==>
      forall i :: 0 <= i < |pieces| ==> Text.ParseInt(pieces[i]) == Some(ParseAll(pieces).value[i])
  {
    if pieces != [] {
      ParseAllValues(pieces[1..]);
      var r := ParseAll(pieces);
      if r.Success? {
        var rest := ParseAll(pieces[1..]);
        assert r.value == [Text.ParseInt(pieces[0]).value] + rest.value;
        forall i | 0 <= i < |pieces|
          ensures Text.ParseInt(pieces[i]) == Some(r.value[i])
        {
          if i > 0 {
            assert pieces[i] == pieces[1..][i - 1];
          }
        }
      } else if Text.ParseInt(pieces[0]).Some? {
        var i :| 0 <= i < |pieces[1..]| && Text.ParseInt(pieces[1..][i]).None?;
        assert pieces[i + 1] == pieces[1..][i];
      }
    }
  }

  /** `list(map(int, s.split(',')))` succeeds exactly when every comma-separated piece is a
      number, gives one number per piece in order, and otherwise raises `ValueError`. */
  lemma ParseLevelsValues(s: string)
    ensures ParseLevels(s).Success? <==> AllNumbers(Text.Split(s, ','))
    ensures ParseLevels(s).Success? ==> |ParseLevels(s).value| == |Text.Split(s, ',')|
    ensures ParseLevels(s).Success? ==> forall i :: 0 <= i < |Text.Split(s, ',')| ==>
      Text.ParseInt(Text.Split(s, ',')[i]) == Some(ParseLevels(s).value[i])
    ensures ParseLevels(s).Failure? ==> ParseLevels(s).error == ValueError
  {
    var pieces := Text.Split(s, ',');
    ParseAllValues(pieces);
    assert ParseLevels(s) == ParseAll(pieces);
  }

  /** `','.join(['1'] * depth)`: splitting the chain at its commas gives `depth` pieces
      `"1"`; a depth of 0 or less gives the empty string. */
  lemma ServiceChainPieces(depth: int)
    ensures depth >= 1 ==> Text.Split(ServiceChain(depth), ',') == Repeat("1", depth)
    ensures depth <= 0 ==> ServiceChain(depth) == ""
  {
    if depth >= 1 {
      Text.SplitJoin(Repeat("1", depth), ',');
    }
  }

  /** A chain of depth `d >= 1` reads back as `d` levels of one service each; a chain of
      depth 0 or less is the empty string, which `int` rejects. */
  lemma ServiceChainRoundTrip(depth: int)
    ensures depth >= 1 ==> ParseLevels(ServiceChain(depth)) == Success(seq(depth, _ => 1))
    ensures depth <= 0 ==> ParseLevels(ServiceChain(depth)) == Failure(ValueError)
  {
    if depth >= 1 {
      var pieces := Repeat("1", depth);
      assert forall i :: 0 <= i < |pieces| ==> ',' !in pieces[i];
      Text.SplitJoin(pieces, ',');
      assert Text.IntToString(1) == "1";
      ParseAllRendered(pieces, seq(depth, _ => 1));
    } else {
      assert ServiceChain(depth) == "";
      assert Text.Split("", ',') == [""];
    }
  }

  /** In a chain every service but the last calls exactly one peer, the next service. */
  lemma ChainSinglePeers(p: Params, l: nat)
    requires Fits(p) && p.levels == seq(|p.levels|, _ => 1)
    requires l < p.depth - 1
    ensures ServiceName(l, 0) in Built(p).values
    ensures Built(p).values[ServiceName(l, 0)].outServices == [ServiceName(l + 1, 0)]
  {
    ServicesShape(p);
    TargetsNames(l + 1, 1);
  }

  /** The file `generate_single_topology` produces. */
  datatype TopologyFile = TopologyFile(filename: string, content: string)

  /** `generate_single_topology`: parse the level list and the node list, then build. */
  method GenerateSingleTopology(depth: int, servicesStr: string, replicas: int, nodes: string,
                                scheduling: string, filename: string)
    returns (r: Result<TopologyFile, PyError>)
    ensures ParseLevels(servicesStr).Failure? ==> r == Failure(ValueError)
    ensures ParseLevels(servicesStr).Success? ==>
              var p := Params(depth, ParseLevels(servicesStr).value, replicas, Text.Split(nodes, ','), scheduling);
              && (Yaml(p).Failure? ==> r == Failure(Yaml(p).error))
              && (Yaml(p).Success? ==> r == Success(TopologyFile(filename, Yaml(p).value)))
    ensures r.Failure? ==> r.error != ZeroDivisionError
  {
    var levels := ParseLevels(servicesStr);
    if levels.Failure? {
      return Failure(ValueError);
    }
    var nodesList := Text.Split(nodes, ',');
    var p := Params(depth, levels.value, replicas, nodesList, scheduling);
    YamlErrors(p);
    var content := GenerateYaml(p);
    if content.Failure? {
      return Failure(content.error);
    }
    return Success(TopologyFile(filename, content.value));
  }
}
