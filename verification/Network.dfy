/** Cluster objects as far as network accounting looks at them, and traffic classes. */
module Network {

  datatype Option<T> = None | Some(value: T)

  /** Bytes in a GiB, `bytesInGiB`. */
  const GIB := 1073741824.0

  type Byte = n: nat | n < 256
  type Raw16 = s: seq<Byte> | |s| == 16 witness [0, 0, 0, 0, 0, 0, 0, 0, 0, 0, 0, 0, 0, 0, 0, 0]

  /** `netip.Addr` without zones; the zero value is `NoAddr`. */
  datatype Addr = NoAddr | V4(a: Byte, b: Byte, c: Byte, d: Byte) | V6(raw: Raw16)

  const INTRA_NODE := "intra_node"
  const INTRA_AZ := "intra_az"
  const INTER_AZ := "inter_az"
  const VPC_PRIVATE := "vpc_private"
  const PUBLIC_INTERNET := "public_internet"
  const UNKNOWN := "unknown"

  datatype PodInfo = PodInfo(namespace: string, pod: string, node: string, zone: string)

  /** `isPrivateIP`: the three blocks of section 3 of RFC 1918, and fc00::/7 of section 3.1 of
      RFC 4193.  The masks of the code are written as ranges. */
  predicate IsPrivate(addr: Addr)
  {
    match addr
    case NoAddr => false
    case V4(a, b, _, _) => a == 10 || (a == 172 && 16 <= b < 32) || (a == 192 && b == 168)
    case V6(raw) => raw[0] == 0xfc || raw[0] == 0xfd
  }

  /** An IPv4 address as a number. */
  function Number(a: Byte, b: Byte, c: Byte, d: Byte): nat
  {
    ((a * 256 + b) * 256 + c) * 256 + d
  }

  /** The private blocks by their bounds and prefixes: 10.0.0.0/8, 172.16.0.0/12, 192.168.0.0/16 and
      the IPv6 addresses whose first seven bits are 1111110. */
  lemma PrivateBlocks(a: Byte, b: Byte, c: Byte, d: Byte, raw: Raw16)
    ensures IsPrivate(V4(a, b, c, d)) <==>
      || 0x0a00_0000 <= Number(a, b, c, d) <= 0x0aff_ffff
      || 0xac10_0000 <= Number(a, b, c, d) <= 0xac1f_ffff
      || 0xc0a8_0000 <= Number(a, b, c, d) <= 0xc0a8_ffff
    ensures IsPrivate(V6(raw)) <==> raw[0] / 2 == 126
  {
  }

  /** `ClassifyEgress`.  `global` stands for `netip.Addr.IsGlobalUnicast`. */
  function ClassifyEgress(global: Addr -> bool, src: PodInfo, dst: Addr, podByIP: map<Addr, PodInfo>): (cls: string)
    ensures cls != ""
  {
    if dst == NoAddr then UNKNOWN
    else if dst in podByIP then
      var dstPod := podByIP[dst];
      if dstPod.node == src.node && src.node != "" then INTRA_NODE
      else if dstPod.zone != "" && dstPod.zone == src.zone then INTRA_AZ
      else if dstPod.zone != "" && src.zone != "" then INTER_AZ
      else UNKNOWN
    else if IsPrivate(dst) then VPC_PRIVATE
    else if global(dst) then PUBLIC_INTERNET
    else UNKNOWN
  }

  /** What the classes mean.  Traffic to a pod is intra-node when both pods are on one named node,
      and otherwise graded by the two zones; traffic to any other valid address is private or, if
      global, public; and `unknown` is what is left: no address, a zone missing, or an address
      that is neither. */
  lemma ClassMeaning(global: Addr -> bool, src: PodInfo, dst: Addr, podByIP: map<Addr, PodInfo>)
    ensures var cls := ClassifyEgress(global, src, dst, podByIP);
            var toPod := dst != NoAddr && dst in podByIP;
            var sameNode := toPod && podByIP[dst].node == src.node != "";
            var zonesKnown := toPod && podByIP[dst].zone != "" && src.zone != "";
            && (cls == "intra_node" <==> sameNode)
            && (cls == "intra_az" <==> zonesKnown && !sameNode && podByIP[dst].zone == src.zone)
            && (cls == "inter_az" <==> zonesKnown && !sameNode && podByIP[dst].zone != src.zone)
            && (cls == "vpc_private" <==> !toPod && IsPrivate(dst))
            && (cls == "public_internet" <==> !toPod && dst != NoAddr && !IsPrivate(dst) && global(dst))
            && (cls == "unknown" <==>
                  || (toPod && !sameNode && !zonesKnown)
                  || (!toPod && !IsPrivate(dst) && (dst == NoAddr || !global(dst))))
  {
  }

  /** Between two pods the class does not depend on the direction. */
  lemma ClassIsSymmetric(global: Addr -> bool, podByIP: map<Addr, PodInfo>, x: Addr, y: Addr)
    requires x in podByIP && y in podByIP && x != NoAddr && y != NoAddr
    ensures ClassifyEgress(global, podByIP[x], y, podByIP) == ClassifyEgress(global, podByIP[y], x, podByIP)
  {
  }

  datatype Flow = Flow(src: Addr, dst: Addr, tx: nat, rx: nat)

  datatype Usage = Usage(tx: nat, rx: nat, txByClass: map<string, nat>, rxByClass: map<string, nat>)

  const NO_USAGE := Usage(0, 0, map[], map[])

  datatype Collection = Collection(podUsage: map<string, Usage>, flows: seq<Flow>)

  /** What the agent reads of a pod; `ip` is `Some` when the pod IP is set and parses. */
  datatype Pod = Pod(
    namespace: string,
    name: string,
    node: string,
    ip: Option<Addr>,
    controller: Option<(string, string)>,   // kind, name
    terminating: bool,                       // being deleted, or phase Succeeded or Failed
    requests: seq<(int, int)>)               // milli CPU and bytes of every container

  datatype Node = Node(name: string, zone: string, allocatableCpu: int, allocatableMemory: int, hourlyCost: real)

  /** `fmt.Sprintf("%s/%s", namespace, name)` */
  function PodKey(namespace: string, name: string): string
  {
    namespace + "/" + name
  }

  function KeyOf(pod: Pod): string
  {
    PodKey(pod.namespace, pod.name)
  }

  /** Node name to zone label; a later node of the same name wins. */
  function Zones(nodes: seq<Node>): map<string, string>
  {
    if nodes == [] then map[]
    else Zones(nodes[..|nodes| - 1])[nodes[|nodes| - 1].name := nodes[|nodes| - 1].zone]
  }

  function ZoneOf(zones: map<string, string>, node: string): string
  {
    if node in zones then zones[node] else ""
  }

  function InfoOf(zones: map<string, string>, pod: Pod): PodInfo
  {
    PodInfo(pod.namespace, pod.name, pod.node, ZoneOf(zones, pod.node))
  }

  /** Pods by address; a later pod of the same address wins. */
  function PodsByIP(pods: seq<Pod>): map<Addr, Pod>
  {
    if pods == [] then map[]
    else
      var m, pod := PodsByIP(pods[..|pods| - 1]), pods[|pods| - 1];
      if pod.ip.Some? then m[pod.ip.value := pod] else m
  }

  function InfoByIP(zones: map<string, string>, pods: seq<Pod>): map<Addr, PodInfo>
  {
    map ip | ip in PodsByIP(pods) :: InfoOf(zones, PodsByIP(pods)[ip])
  }

  /** The zone of the last listed node of that name, empty when there is none. */
  function ZoneNamed(nodes: seq<Node>, name: string): string
  {
    if nodes == [] then ""
    else if nodes[|nodes| - 1].name == name then nodes[|nodes| - 1].zone
    else ZoneNamed(nodes[..|nodes| - 1], name)
  }

  lemma {:induction false} ZoneOfNode(nodes: seq<Node>, name: string)
    ensures ZoneOf(Zones(nodes), name) == ZoneNamed(nodes, name)
  {
    if nodes != [] {
      ZoneOfNode(nodes[..|nodes| - 1], name);
    }
  }

  /** The last listed pod with that address. */
  function PodAt(pods: seq<Pod>, ip: Addr): Option<Pod>
  {
    if pods == [] then None
    else if pods[|pods| - 1].ip == Some(ip) then Some(pods[|pods| - 1])
    else PodAt(pods[..|pods| - 1], ip)
  }

  /** What an address is known as: the last listed pod that has it, with its node and the zone of the
      last listed node of that name. */
  lemma {:induction false} InfoMeaning(nodes: seq<Node>, pods: seq<Pod>, ip: Addr)
    ensures var info, p := InfoByIP(Zones(nodes), pods), PodAt(pods, ip);
            && (ip in PodsByIP(pods) <==> p.Some?) && (ip in info <==> p.Some?)
            && (p.Some? ==> PodsByIP(pods)[ip] == p.value)
            && (p.Some? ==> info[ip] == PodInfo(p.value.namespace, p.value.name, p.value.node, ZoneNamed(nodes, p.value.node)))
  {
    hide Zones, ZoneOf, ZoneNamed;
    if pods != [] {
      InfoMeaning(nodes, pods[..|pods| - 1], ip);
      ZoneOfNode(nodes, pods[|pods| - 1].node);
    }
  }

  lemma {:induction false} PodsByIPHas(pods: seq<Pod>, ip: Addr)
    requires ip in PodsByIP(pods)
    ensures PodsByIP(pods)[ip] in pods
  {
    var pod := pods[|pods| - 1];
    if pod.ip != Some(ip) {
      PodsByIPHas(pods[..|pods| - 1], ip);
    }
  }

  /** What one flow adds to the usage of its pod when every class entry is kept. */
  function AddFlow(u: Usage, cls: string, tx: nat, rx: nat): Usage
  {
    Usage(u.tx + tx, u.rx + rx,
          u.txByClass[cls := CountOf(u.txByClass, cls) + tx],
          u.rxByClass[cls := CountOf(u.rxByClass, cls) + rx])
  }

  function CountOf(m: map<string, nat>, cls: string): nat
  {
    if cls in m then m[cls] else 0
  }

  function UsageOf(m: map<string, Usage>, key: string): Usage
  {
    if key in m then m[key] else NO_USAGE
  }

  /** `aggregatePodUsageFromFlows` */
  function AggregateFlows(global: Addr -> bool, flows: seq<Flow>, podByIP: map<Addr, PodInfo>): map<string, Usage>
  {
    if flows == [] then map[]
    else
      var m, flow := AggregateFlows(global, flows[..|flows| - 1], podByIP), flows[|flows| - 1];
      if flow.src !in podByIP then m
      else
        var src := podByIP[flow.src];
        var key := PodKey(src.namespace, src.pod);
        m[key := AddFlow(UsageOf(m, key), ClassifyEgress(global, src, flow.dst, podByIP), flow.tx, flow.rx)]
  }
}
