/** The registry of named Kubernetes clients. */
module KubeClientFactory {
  import opened Wrappers
  import opened Annotations

  /** A Kubernetes client object, by identity. */
  datatype Client = Client(id: nat)

  /**
    The registry after `init`: the client beans of the context, plus `built` under
    "default" when no bean is registered under that name.
  */
  function Init(beans: map<string, Client>, built: Client): (clients: map<string, Client>)
    ensures DefaultName in clients
    ensures DefaultName in beans ==> clients[DefaultName] == beans[DefaultName]
    ensures DefaultName !in beans ==> clients[DefaultName] == built
    ensures clients.Keys == beans.Keys + {DefaultName}
    ensures forall n :: n in beans ==> clients[n] == beans[n]
  {
    if DefaultName in beans then beans else beans[DefaultName := built]
  }

  /** The client registered under `name`, else the default client, else null. */
  function GetClient(clients: map<string, Client>, name: string): (r: Option<Client>)
    ensures name in clients ==> r == Some(clients[name])
    ensures name !in clients && DefaultName in clients ==> r == Some(clients[DefaultName])
    ensures r == None <==> name !in clients && DefaultName !in clients
  {
    if name in clients then Some(clients[name])
    else if DefaultName in clients then Some(clients[DefaultName])
    else None
  }

  /**
    After `init`, every name resolves: to its own bean when one is registered under it,
    otherwise to the default client.
  */
  lemma GetClientAfterInit(beans: map<string, Client>, built: Client, name: string)
    ensures GetClient(Init(beans, built), name).Some?
    ensures name in beans ==> GetClient(Init(beans, built), name) == Some(beans[name])
    ensures name !in beans && DefaultName in beans ==>
      GetClient(Init(beans, built), name) == Some(beans[DefaultName])
    ensures name !in beans && DefaultName !in beans ==>
      GetClient(Init(beans, built), name) == Some(built)
  {
  }

  /**
    A client built by `init` is a new object: when it was needed, the default client
    differs from every client bean.
  */
  lemma BuiltDefaultIsNew(beans: map<string, Client>, built: Client)
    requires built !in beans.Values
    requires DefaultName !in beans
    ensures forall n :: n in beans ==> GetClient(Init(beans, built), DefaultName) != Some(beans[n])
  {
  }

  /**
    `shutdown`: closes the registered clients one registration at a time, in some
    order of the names. `order` is that order and `closed[k]` the client closed k-th.
  */
  method Shutdown(clients: map<string, Client>) returns (order: seq<string>, closed: seq<Client>)
    ensures |order| == |closed| == |clients|
    ensures forall k :: 0 <= k < |order| ==> order[k] in clients && closed[k] == clients[order[k]]
    ensures forall k, l :: 0 <= k < l < |order| ==> order[k] != order[l]
    ensures forall n :: n in clients ==> n in order
    ensures forall c :: c in clients.Values ==> c in closed
  {
    var remaining := clients.Keys;
    order, closed := [], [];
    while remaining != {}
      invariant remaining <= clients.Keys
      invariant |order| == |closed|
      invariant forall k :: 0 <= k < |order| ==> order[k] in clients && order[k] !in remaining && closed[k] == clients[order[k]]
      invariant forall k, l :: 0 <= k < l < |order| ==> order[k] != order[l]
      invariant forall n :: n in clients ==> n in order || n in remaining
      invariant |order| + |remaining| == |clients|
      decreases |remaining|
    {
      var n :| n in remaining;
      order, closed := order + [n], closed + [clients[n]];
      remaining := remaining - {n};
    }
    forall c | c in clients.Values
      ensures c in closed
    {
      var n :| n in clients && clients[n] == c;
      var k :| 0 <= k < |order| && order[k] == n;
      assert closed[k] == c;
    }
  }
}
