/** The values that the API server, the informer caches and the controller exchange. */
module Types {
  type int32 = x: int | -0x8000_0000 <= x < 0x8000_0000

  type IP = string

  datatype Option<+T> = None | Some(value: T)

  /** Namespace and name of an object. */
  datatype Ref = Ref(ns: string, name: string)

  predicate Distinct(refs: seq<Ref>) {
    forall i, j :: 0 <= i < j < |refs| ==> refs[i] != refs[j]
  }

  datatype Node = Node(ordinal: int32, ready: bool, ip: IP, nodeName: string, dnsName: string)

  /** A Go slice of nodes: reflect.DeepEqual tells the nil slice from an empty one. */
  datatype NodeList = NilList | Items(nodes: seq<Node>) {
    function All(): seq<Node> {
      if NilList? then [] else nodes
    }

    /** append(list, node) */
    function Append(node: Node): NodeList {
      Items(All() + [node])
    }
  }

  /** The addresses syncNodes puts into its readyNodes map. */
  function ReadyIPs(list: NodeList): set<IP> {
    set n | n in list.All() && n.ready :: n.ip
  }

  datatype Condition = Condition(kind: string, status: string)

  datatype Pod = Pod(name: string, conditions: seq<Condition>, ip: IP)

  datatype Spec = Spec(nodes: int32, secret: string)

  datatype Net = Net(version: nat, deleting: bool, spec: Spec, status: NodeList)

  datatype OwnerRef = OwnerRef(kind: string, name: string, controller: bool)

  datatype Service = Service(owners: seq<OwnerRef>, clusterIP: string, app: string)

  datatype StatefulSet = StatefulSet(
    version: nat, owners: seq<OwnerRef>, app: string, serviceName: string, replicas: int32)

  /**
    What becomes of one request: it is served and answered, it is carried out but the answer is
    lost, or it fails without effect with an error that is neither -23 nor -24 (0 stands for an
    error below the RPC protocol).
   */
  type FailureCode = c: int | c != -23 && c != -24 witness 0
  datatype Fate = Served | ReplyLost | Failed(code: FailureCode)
}
