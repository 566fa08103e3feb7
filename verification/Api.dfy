/** The stores the operator reads and writes: the Kubernetes API objects it owns, and the
    three etcd keys, each holding one JSON value kept here in typed form. */
module Api {
  import opened Placement
  import opened StatusLists

  datatype OSDPartition = OSDPartition(dataDevice: string, osdNumber: int)

  datatype VitastorOSD = VitastorOSD(name: string, nodeName: string, path: string, number: int, image: string)

  datatype NodeStatus = NodeStatus(disks: GoList, emptyDisks: GoList, vitastorDisks: GoList)

  datatype VitastorNode = VitastorNode(name: string, nodeName: string, image: string, status: NodeStatus)

  datatype StatefulSet = StatefulSet(name: string, nodeName: string, path: string, image: string)

  datatype Deployment = Deployment(image: string, replicas: int)

  datatype DaemonSet = DaemonSet(image: string)

  datatype ClusterSpec = ClusterSpec(monitorReplicaNum: int, monitorImage: string, agentImage: string, osdImage: string)

  /** VitastorPoolSpec with the name of its object. */
  datatype Pool = Pool(name: string, id: string, scheme: string, pgSize: int, parityChunks: int, pgMinSize: int,
                       pgCount: int, failureDomain: string, maxOSDCombinations: int, blockSize: int,
                       immediateCommit: string, osdTags: string)

  datatype PoolConfig = PoolConfig(name: string, scheme: string, pgSize: int, parityChunks: int, pgMinSize: int,
                                   pgCount: int, failureDomain: string, maxOSDCombinations: int, blockSize: int,
                                   immediateCommit: string, osdTags: string)

  datatype StorageClass = StorageClass(name: string, poolId: string)

  type OsdMap = map<string, VitastorOSD>

  datatype World = World(
    nodes: map<string, VitastorNode>,
    osds: OsdMap,
    sets: map<string, StatefulSet>,
    clusters: map<string, ClusterSpec>,
    monitor: Option<Deployment>,
    agent: Option<DaemonSet>,
    pools: map<string, Pool>,
    classes: map<string, StorageClass>,
    tree: Option<Tree>,
    levels: Option<map<string, int>>,
    poolConfigs: Option<map<string, PoolConfig>>)

  /** API objects are stored under their names. */
  ghost predicate Keyed(w: World) {
    (forall k :: k in w.nodes ==> w.nodes[k].name == k) && KeyedOsds(w.osds)
  }

  ghost predicate KeyedOsds(osds: OsdMap) {
    forall k :: k in osds ==> osds[k].name == k
  }

  /** VitastorNodes name their node twice, as the cluster controller creates them. */
  ghost predicate NamedAlike(nodes: map<string, VitastorNode>) {
    forall k :: k in nodes ==> nodes[k].name == k && nodes[k].nodeName == k
  }

  /** A correct answer to a List by node name: each of the node's objects once, in any order. */
  predicate IsListing(items: seq<VitastorOSD>, osds: OsdMap, node: string) {
    && (forall i :: 0 <= i < |items| ==>
          items[i].name in osds && osds[items[i].name] == items[i] && items[i].nodeName == node)
    && (forall i, j :: 0 <= i < j < |items| ==> items[i].name != items[j].name)
    && (forall k :: k in osds && osds[k].nodeName == node ==> osds[k] in items)
  }

  /** The same stores as one mutable object, one field a store. */
  class Store {
    var nodes: map<string, VitastorNode>
    var osds: OsdMap
    var sets: map<string, StatefulSet>
    var clusters: map<string, ClusterSpec>
    var monitor: Option<Deployment>
    var agent: Option<DaemonSet>
    var pools: map<string, Pool>
    var classes: map<string, StorageClass>
    var tree: Option<Tree>
    var levels: Option<map<string, int>>
    var poolConfigs: Option<map<string, PoolConfig>>

    function Snapshot(): World
      reads this
    {
      World(nodes, osds, sets, clusters, monitor, agent, pools, classes, tree, levels, poolConfigs)
    }

    constructor (w: World)
      ensures Snapshot() == w
    {
      nodes, osds, sets, clusters := w.nodes, w.osds, w.sets, w.clusters;
      monitor, agent, pools, classes := w.monitor, w.agent, w.pools, w.classes;
      tree, levels, poolConfigs := w.tree, w.levels, w.poolConfigs;
    }
  }
}
