/** The domain model the X1 server and the points of interception share, types/types.go. */
module Types {

  type TaskId = string

  datatype TargetIdentifier = TargetIdentifier(kind: string, value: string)

  datatype Product = IRI | CC

  datatype Interface = X2 | X3

  datatype Endpoint = Endpoint(kind: Interface, address: string, did: string)

  datatype RecordScope = Standard | IdentifierAssociation | All

  datatype Task = Task(
    xid: TaskId,
    targets: seq<TargetIdentifier>,
    dids: seq<string>,
    products: seq<Product>,
    deliveries: seq<Endpoint>,
    active: bool,
    productId: TaskId,
    correlation: nat,
    scope: RecordScope)

  /** a is named before b is. */
  ghost predicate NamedBefore(es: seq<Endpoint>, a: Endpoint, b: Endpoint) {
    exists p :: 0 <= p < |es| && es[p] == a && b !in es[..p]
  }

  ghost predicate Serves(e: Endpoint, kind: Interface, address: string) {
    e.kind == kind && e.address == address
  }

  /** An endpoint at address a comes before every one at address b. */
  ghost predicate AddressedBefore(es: seq<Endpoint>, kind: Interface, a: string, b: string) {
    exists p :: 0 <= p < |es| && Serves(es[p], kind, a) && forall q :: 0 <= q < p ==> !Serves(es[q], kind, b)
  }

  /** The identifiers a task provisioned onto one address: each once, in the task's order. */
  method DeliveryDids(t: Task, kind: Interface, address: string) returns (out: seq<string>)
    ensures forall d :: d in out <==> d != "" && Endpoint(kind, address, d) in t.deliveries
    ensures forall i, j :: 0 <= i < j < |out| ==> out[i] != out[j]
    ensures forall i, j :: 0 <= i < j < |out| ==>
      NamedBefore(t.deliveries, Endpoint(kind, address, out[i]), Endpoint(kind, address, out[j]))
  {
    out := [];
    for k := 0 to |t.deliveries|
      invariant forall d :: d in out <==> d != "" && Endpoint(kind, address, d) in t.deliveries[..k]
      invariant forall i, j :: 0 <= i < j < |out| ==> out[i] != out[j]
      invariant forall i, j :: 0 <= i < j < |out| ==>
        NamedBefore(t.deliveries, Endpoint(kind, address, out[i]), Endpoint(kind, address, out[j]))
    {
      var e := t.deliveries[k];
      assert t.deliveries[..k + 1] == t.deliveries[..k] + [e];
      if e.kind != kind || e.address != address || e.did == "" || e.did in out {
        continue;
      }
      forall i | 0 <= i < |out| ensures NamedBefore(t.deliveries, Endpoint(kind, address, out[i]), e) {
        assert out[i] in out;
        var p :| 0 <= p < k && t.deliveries[p] == Endpoint(kind, address, out[i]);
        assert e !in t.deliveries[..p];
      }
      out := out + [e.did];
    }
    assert t.deliveries[..|t.deliveries|] == t.deliveries;
  }

  /** The addresses a task's product of one kind goes to: each once, in the task's order. */
  method DeliveryAddresses(t: Task, kind: Interface) returns (out: seq<string>)
    ensures forall a :: a in out <==> a != "" && exists e :: e in t.deliveries && Serves(e, kind, a)
    ensures forall i, j :: 0 <= i < j < |out| ==> out[i] != out[j]
    ensures forall i, j :: 0 <= i < j < |out| ==> AddressedBefore(t.deliveries, kind, out[i], out[j])
  {
    out := [];
    for k := 0 to |t.deliveries|
      invariant forall a :: a in out <==> a != "" && exists e :: e in t.deliveries[..k] && Serves(e, kind, a)
      invariant forall i, j :: 0 <= i < j < |out| ==> out[i] != out[j]
      invariant forall i, j :: 0 <= i < j < |out| ==> AddressedBefore(t.deliveries, kind, out[i], out[j])
    {
      var e := t.deliveries[k];
      assert t.deliveries[..k + 1] == t.deliveries[..k] + [e];
      if e.kind != kind || e.address == "" || e.address in out {
        continue;
      }
      forall i | 0 <= i < |out| ensures AddressedBefore(t.deliveries, kind, out[i], e.address) {
        assert out[i] in out;
        var f :| f in t.deliveries[..k] && Serves(f, kind, out[i]);
        var p :| 0 <= p < k && t.deliveries[p] == f;
        assert forall q :: 0 <= q < p ==> t.deliveries[q] in t.deliveries[..k];
      }
      assert Serves(e, kind, e.address);
      out := out + [e.address];
    }
    assert t.deliveries[..|t.deliveries|] == t.deliveries;
  }
}
