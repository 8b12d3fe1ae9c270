/** `internal/topology`: loading a topology file. Reading the file and decoding the YAML are
    inputs: the outcome of the read, and the decoder as a function from the bytes read to
    the decoded services or an error. */
module Topology {

  import opened Wrappers

  type Bytes = seq<bv8>

  /** One service of the topology, `Name` included. */
  datatype ServiceDef = ServiceDef(
    name: string,
    node: string,
    replicas: int,
    port: int,
    processingDelay: string,
    outServices: seq<string>)

  /** The fields of a service that the YAML document carries: everything except `Name`,
      which the decoder skips. */
  datatype Entry = Entry(node: string, replicas: int, port: int, processingDelay: string,
                         outServices: seq<string>)

  datatype Topology = Topology(services: map<string, ServiceDef>)

  /** A service as the decoder leaves it: the document's fields, and an empty `Name`. */
  function Decoded(e: Entry): (s: ServiceDef)
    ensures s.name == ""
    ensures Fields(s) == e
  {
    ServiceDef("", e.node, e.replicas, e.port, e.processingDelay, e.outServices)
  }

  /** The fields of a service other than its name. */
  function Fields(s: ServiceDef): Entry
  {
    Entry(s.node, s.replicas, s.port, s.processingDelay, s.outServices)
  }

  /** The decoded map, every `Name` still empty. */
  function DecodedAll(doc: map<string, Entry>): (m: map<string, ServiceDef>)
    ensures m.Keys == doc.Keys
    ensures forall k :: k in m ==> m[k].name == "" && Fields(m[k]) == doc[k]
  {
    map k | k in doc :: Decoded(doc[k])
  }

  /** `ReadFile`: a read error or a decoding error is returned as it is, with no topology;
      otherwise every service gets its map key as its name, and nothing else changes. */
  method ReadFile(read: Result<Bytes, string>, unmarshal: Bytes -> Result<map<string, Entry>, string>)
    returns (r: Result<Topology, string>)
    ensures read.Failure? ==> r == Failure(read.error)
    ensures read.Success? && unmarshal(read.value).Failure? ==> r == Failure(unmarshal(read.value).error)
    ensures read.Success? && unmarshal(read.value).Success? ==>
              var doc := unmarshal(read.value).value;
              && r.Success?
              && r.value.services.Keys == doc.Keys
              && forall k :: k in doc ==> r.value.services[k] == Decoded(doc[k]).(name := k)
  {
    if read.Failure? {
      return Failure(read.error);
    }
    var decoded := unmarshal(read.value);
    if decoded.Failure? {
      return Failure(decoded.error);
    }
    var doc := decoded.value;
    var services := DecodedAll(doc);
    var todo := services.Keys;
    while todo != {}
      invariant todo <= doc.Keys && services.Keys == doc.Keys
      invariant forall k :: k in todo ==> services[k] == Decoded(doc[k])
      invariant forall k :: k in doc && k !in todo ==> services[k] == Decoded(doc[k]).(name := k)
      decreases todo
    {
      var name :| name in todo;
      var service := services[name];
      service := service.(name := name);
      services := services[name := service];
      todo := todo - {name};
    }
    return Success(Topology(services));
  }

  /** After a successful load every service is named after its key and keeps the fields the
      document gave it; the keys are the document's. */
  lemma ReadFileNames(doc: map<string, Entry>, t: Topology)
    requires t.services.Keys == doc.Keys
    requires forall k :: k in doc ==> t.services[k] == Decoded(doc[k]).(name := k)
    ensures forall k :: k in t.services ==> t.services[k].name == k && Fields(t.services[k]) == doc[k]
    ensures forall k :: k in t.services ==> (t.services[k] != DecodedAll(doc)[k] <==> k != "")
  {
    forall k | k in t.services
      ensures Fields(t.services[k]) == doc[k]
      ensures t.services[k] != DecodedAll(doc)[k] <==> k != ""
    {
      assert Fields(Decoded(doc[k]).(name := k)) == Fields(Decoded(doc[k]));
      assert DecodedAll(doc)[k] == Decoded(doc[k]);
      if k != "" {
        assert t.services[k].name != DecodedAll(doc)[k].name;
      }
    }
  }
}
