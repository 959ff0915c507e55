/** The proxy's records, one datatype for each record type of the source. */
module Model {
  import opened Seqs
  import opened Inet

  /** Null pointers to balancers, clients and servers, which are named by their position. */
  const NIL := -1

  /** No socket. */
  const NOSOCK := -1

  type Sock = int
  type RoutePtr = nat
  type ChanPtr = nat

  /** `confSlots` is the limit read from the configuration, before any SYNC lowered `maxSlots`. */
  datatype Server = Server(
    active: bool,
    numSlots: int,
    maxSlots: int,
    confSlots: int,
    users: int,
    userMax: int,
    weight: int,
    faults: int,
    redundant: bool,
    memFree: Option<nat>,
    cpuFree: Option<nat>)

  datatype Client = Client(sources: seq<Cidr>, numSlots: int, maxSlots: int)

  datatype Method = ByBusyness | ByRequests

  datatype Balancer = Balancer(
    clients: seq<nat>,
    servers: seq<nat>,
    policy: Method,
    capMetric: bool,
    memMetric: bool,
    cpuMetric: bool)

  /** `key` is the source host for which the route was made; the source keeps it only as the cache key. */
  datatype Route = Route(
    key: Addr,
    balancer: int,
    client: int,
    server: int,
    cached: bool,
    actTime: int,
    numSlots: int)

  /**
   `server` and `client` repeat what the channel's route says, and `selected` remembers
   that the route was chosen by the balancer and not found in the cache.
   */
  datatype Channel = Channel(
    id: ChanPtr,
    route: RoutePtr,
    source: Sock,
    target: Sock,
    connTime: int,
    connected: bool,
    server: int,
    client: int,
    selected: bool)

  datatype Config = Config(
    caching: bool,
    timeout: int,
    maxFaults: int,
    connTimeout: int,
    balancers: seq<Balancer>)

  function UserLimit(s: Server): int {
    if s.userMax == 0 then 65535 else s.userMax
  }

  /** The limits that the selector double checks. */
  predicate HasRoom(s: Server) {
    s.weight > 0 && s.numSlots < s.maxSlots && s.users < UserLimit(s)
  }

  /** The candidate filter of channel creation. */
  predicate Eligible(s: Server) {
    s.active && s.numSlots < s.maxSlots && s.users < UserLimit(s)
  }

  predicate ServerOK(s: Server) {
    && 0 <= s.numSlots
    && 1 <= s.maxSlots <= s.confSlots
    && 1 <= s.weight
  }

  ghost predicate ServersOK(servers: seq<Server>) {
    forall s <- servers :: ServerOK(s)
  }

  /** Every position named by a balancer exists. */
  ghost predicate BalancerOK(b: Balancer, nServers: nat, nClients: nat) {
    && (forall s <- b.servers :: s < nServers)
    && (forall c <- b.clients :: c < nClients)
  }

  ghost predicate ConfigOK(cfg: Config, nServers: nat, nClients: nat) {
    && cfg.maxFaults >= 1
    && forall b <- cfg.balancers :: BalancerOK(b, nServers, nClients)
  }
}
