/**
 * The worker configuration and its builder (package `domain`).
 *
 * `SyftConfiguration` is an immutable record, so it is a datatype here;
 * `SyftConfigBuilder` is a mutable object whose setters overwrite its fields
 * and whose network-constraint map is edited in place, so it is a class.
 * Android framework objects (Context, File, Scheduler) and the networking
 * clients are opaque values: only the data the configuration code itself
 * chooses between is kept.
 */
module Domain {

  // Android `NetworkCapabilities` constants, with the framework's values.
  // Nothing below depends on the values beyond their being distinct.
  const NetCapabilityNotMetered: int := 11
  const NetCapabilityInternet: int := 12
  const NetCapabilityNotRestricted: int := 13
  const TransportCellular: int := 0
  const TransportWifi: int := 1

  /** Kotlin `Long`. */
  type Long = x: int | -0x8000_0000_0000_0000 <= x < 0x8000_0000_0000_0000

  /** Timeout period the builder gives the socket client it creates (the source states no unit). */
  const SocketClientTimeout: nat := 20000
  const DefaultCacheTimeOut: Long := 100000
  const DefaultMaxConcurrentJobs: int := 1

  /** An RxJava scheduler, opaque except for which stock scheduler it is. */
  datatype Scheduler = Io | MainThread | Computation | Single | Supplied(id: nat)

  datatype ProcessSchedulers = ProcessSchedulers(computeThreadScheduler: Scheduler, calleeThreadScheduler: Scheduler)

  const DefaultNetworkingSchedulers := ProcessSchedulers(Io, MainThread)
  const DefaultComputeSchedulers := ProcessSchedulers(Computation, Single)

  /** The part of an Android `Context` the builder reads. */
  datatype Context = Context(filesDir: string)

  /** The clients, identified by what they are constructed from. */
  datatype SocketClient = SocketClient(baseUrl: string, timeoutMillis: nat, schedulers: ProcessSchedulers)
  datatype HttpClient = HttpClient(baseUrl: string)

  /** A `CommunicationAPI`: either the HTTP client's API or the socket client. */
  datatype CommunicationApi = HttpApi(http: HttpClient) | SocketApi(socket: SocketClient)

  datatype NetworkingClients = HTTP | SOCKET

  datatype SyftConfiguration = SyftConfiguration(
    context: Context,
    networkingSchedulers: ProcessSchedulers,
    computeSchedulers: ProcessSchedulers,
    filesDir: string,
    monitorDevice: bool,
    batteryCheckEnabled: bool,
    networkConstraints: seq<int>,
    transportMedium: int,
    cacheTimeOut: Long,
    maxConcurrentJobs: int,
    socketClient: SocketClient,
    httpClient: HttpClient,
    messagingClient: NetworkingClients)
  {
    /** The client that carries the cycle protocol: the HTTP API or the socket, as configured. */
    function GetSignallingClient(): (c: CommunicationApi)
      ensures c.HttpApi? <==> messagingClient == HTTP
      ensures c.HttpApi? ==> c.http == httpClient
      ensures c.SocketApi? ==> c.socket == socketClient
    {
      match messagingClient
      case HTTP => HttpApi(httpClient)
      case SOCKET => SocketApi(socketClient)
    }

    /** WebRTC signalling always goes through the socket client, whatever the messaging client. */
    function GetWebRTCSignallingClient(): (c: SocketClient)
      ensures c == socketClient
      ensures messagingClient == SOCKET ==> GetSignallingClient() == SocketApi(c)
    {
      socketClient
    }
  }

  // ---------------------------------------------------------------------
  // The network-constraint map. Kotlin's `mutableMapOf` keeps its entries
  // in insertion order, so it is an association list of (capability, flag)
  // pairs here, and `filterValues { it }.keys.toList()` keeps that order.
  // ---------------------------------------------------------------------

  type ConstraintEntries = seq<(int, bool)>

  const DefaultNetworkConstraints: ConstraintEntries :=
    [(NetCapabilityInternet, true), (NetCapabilityNotRestricted, true), (NetCapabilityNotMetered, true)]

  predicate ContainsKey(entries: ConstraintEntries, key: int) {
    exists i :: 0 <= i < |entries| && entries[i].0 == key
  }

  /** No capability appears twice, as in any map. */
  predicate DistinctKeys(entries: ConstraintEntries) {
    entries == [] || (!ContainsKey(entries[1..], entries[0].0) && DistinctKeys(entries[1..]))
  }

  predicate NoDuplicates(s: seq<int>) {
    forall i, j :: 0 <= i < j < |s| ==> s[i] != s[j]
  }

  /** `MutableMap.remove(key)`: drops the entry for `key`, keeps the others in order. */
  function RemoveKey(entries: ConstraintEntries, key: int): (r: ConstraintEntries)
    ensures forall e :: e in r <==> e in entries && e.0 != key
    ensures !ContainsKey(r, key)
    ensures |r| <= |entries|
    ensures !ContainsKey(entries, key) ==> r == entries
    ensures DistinctKeys(entries) ==> DistinctKeys(r)
  {
    if entries == [] then []
    else if entries[0].0 == key then RemoveKey(entries[1..], key)
    else
      var rest := RemoveKey(entries[1..], key);
      assert !ContainsKey(entries[1..], entries[0].0) ==> !ContainsKey(rest, entries[0].0) by {
        if ContainsKey(rest, entries[0].0) {
          var i :| 0 <= i < |rest| && rest[i].0 == entries[0].0;
          assert rest[i] in entries[1..];
        }
      }
      assert !ContainsKey(entries[1..], key) ==> [entries[0]] + rest == entries by {
        if !ContainsKey(entries[1..], key) {
          assert rest == entries[1..];
        }
      }
      assert (rest == [] || rest[0].0 != entries[0].0) ==> ([entries[0]] + rest)[1..] == rest;
      [entries[0]] + rest
  }

  /** `filterValues { it }.keys.toList()`: the capabilities whose flag is true, in map order. */
  function TrueKeys(entries: ConstraintEntries): (r: seq<int>)
    ensures forall k :: k in r <==> (k, true) in entries
    ensures |r| <= |entries|
  {
    if entries == [] then []
    else if entries[0].1 then [entries[0].0] + TrueKeys(entries[1..])
    else TrueKeys(entries[1..])
  }

  /** Every capability `build` lists is a key of the map. */
  lemma {:induction false} TrueKeyIsKey(entries: ConstraintEntries, k: int)
    ensures k in TrueKeys(entries) ==> ContainsKey(entries, k)
  {
    if k in TrueKeys(entries) {
      var i :| 0 <= i < |entries| && entries[i] == (k, true);
      assert entries[i].0 == k;
    }
  }

  /** Keys of a map are listed once each. */
  lemma {:induction false} TrueKeysDistinct(entries: ConstraintEntries)
    ensures DistinctKeys(entries) ==> NoDuplicates(TrueKeys(entries))
  {
    if entries != [] {
      TrueKeysDistinct(entries[1..]);
      TrueKeyIsKey(entries[1..], entries[0].0);
    }
  }

  /** The default map keeps the invariant, and `build` lists its three capabilities in map order. */
  lemma DefaultConstraints()
    ensures ConstraintsInvariant(DefaultNetworkConstraints)
    ensures TrueKeys(DefaultNetworkConstraints) == [NetCapabilityInternet, NetCapabilityNotRestricted, NetCapabilityNotMetered]
    ensures TrueKeys(RemoveKey(DefaultNetworkConstraints, NetCapabilityNotMetered)) == [NetCapabilityInternet, NetCapabilityNotRestricted]
  {
    var d := DefaultNetworkConstraints;
    assert d[1..][1..][1..] == [];
    assert d[1..][1..] == [(NetCapabilityNotMetered, true)];
    assert DistinctKeys(d[1..][1..]);
    assert !ContainsKey(d[1..][1..], NetCapabilityNotRestricted);
    assert DistinctKeys(d[1..]);
    assert DistinctKeys(d);
    assert TrueKeys(d[1..][1..]) == [NetCapabilityNotMetered];
    assert TrueKeys(d[1..]) == [NetCapabilityNotRestricted, NetCapabilityNotMetered];
    var m := RemoveKey(d, NetCapabilityNotMetered);
    assert RemoveKey(d[1..][1..], NetCapabilityNotMetered) == [];
    assert RemoveKey(d[1..], NetCapabilityNotMetered) == [(NetCapabilityNotRestricted, true)];
    assert m == [(NetCapabilityInternet, true), (NetCapabilityNotRestricted, true)];
    assert m[1..][1..] == [];
    assert TrueKeys(m[1..]) == [NetCapabilityNotRestricted];
  }

  /**
   * What every builder operation preserves: no entry is added and no flag is
   * set to false, so the map holds only default entries, and INTERNET and
   * NOT_RESTRICTED (which nothing removes) are always there.
   */
  predicate ConstraintsInvariant(entries: ConstraintEntries) {
    && DistinctKeys(entries)
    && (forall e :: e in entries ==> e in DefaultNetworkConstraints)
    && (NetCapabilityInternet, true) in entries
    && (NetCapabilityNotRestricted, true) in entries
  }

  /** The list `build` produces from a map that keeps the invariant. */
  lemma BuiltConstraintsBounded(entries: ConstraintEntries)
    requires ConstraintsInvariant(entries)
    ensures NetCapabilityInternet in TrueKeys(entries)
    ensures NetCapabilityNotRestricted in TrueKeys(entries)
    ensures forall k :: k in TrueKeys(entries) ==>
      k == NetCapabilityInternet || k == NetCapabilityNotRestricted || k == NetCapabilityNotMetered
    ensures NoDuplicates(TrueKeys(entries))
  {
    TrueKeysDistinct(entries);
  }

  class SyftConfigBuilder {
    const context: Context
    var networkingSchedulers: ProcessSchedulers
    var computeSchedulers: ProcessSchedulers
    const socketClient: SocketClient
    const httpClient: HttpClient
    var filesDir: string
    var batteryCheckEnabled: bool
    var maxConcurrentJobs: int
    var messagingClient: NetworkingClients
    var cacheTimeOut: Long
    var monitorDevice: bool
    var networkConstraints: ConstraintEntries
    var networkTransportMedium: int

    ghost predicate Valid()
      reads this
    {
      ConstraintsInvariant(networkConstraints)
    }

    /** The defaults; the socket client is built once, with the default networking schedulers. */
    constructor (context: Context, baseUrl: string)
      ensures Valid()
      ensures this.context == context
      ensures networkingSchedulers == DefaultNetworkingSchedulers
      ensures computeSchedulers == DefaultComputeSchedulers
      ensures socketClient == SocketClient(baseUrl, SocketClientTimeout, DefaultNetworkingSchedulers)
      ensures httpClient == HttpClient(baseUrl)
      ensures filesDir == context.filesDir
      ensures batteryCheckEnabled
      ensures maxConcurrentJobs == DefaultMaxConcurrentJobs
      ensures messagingClient == SOCKET
      ensures cacheTimeOut == DefaultCacheTimeOut
      ensures monitorDevice
      ensures networkConstraints == DefaultNetworkConstraints
      ensures networkTransportMedium == TransportWifi
    {
      DefaultConstraints();
      this.context := context;
      networkingSchedulers := DefaultNetworkingSchedulers;
      computeSchedulers := DefaultComputeSchedulers;
      socketClient := SocketClient(baseUrl, SocketClientTimeout, DefaultNetworkingSchedulers);
      httpClient := HttpClient(baseUrl);
      filesDir := context.filesDir;
      batteryCheckEnabled := true;
      maxConcurrentJobs := DefaultMaxConcurrentJobs;
      messagingClient := SOCKET;
      cacheTimeOut := DefaultCacheTimeOut;
      monitorDevice := true;
      networkConstraints := DefaultNetworkConstraints;
      networkTransportMedium := TransportWifi;
    }

    /**
     * The configuration: the constraint list holds exactly the capabilities
     * mapped to true, once each; every other field is passed through.
     */
    function Build(): (c: SyftConfiguration)
      reads this
      ensures forall k :: k in c.networkConstraints <==> (k, true) in networkConstraints
      ensures DistinctKeys(networkConstraints) ==> NoDuplicates(c.networkConstraints)
      ensures Valid() ==> NetCapabilityInternet in c.networkConstraints && NetCapabilityNotRestricted in c.networkConstraints
      ensures Valid() ==> forall k :: k in c.networkConstraints ==>
        k == NetCapabilityInternet || k == NetCapabilityNotRestricted || k == NetCapabilityNotMetered
      ensures c.context == context && c.filesDir == filesDir
      ensures c.networkingSchedulers == networkingSchedulers && c.computeSchedulers == computeSchedulers
      ensures c.monitorDevice == monitorDevice && c.batteryCheckEnabled == batteryCheckEnabled
      ensures c.transportMedium == networkTransportMedium && c.cacheTimeOut == cacheTimeOut
      ensures c.maxConcurrentJobs == maxConcurrentJobs && c.messagingClient == messagingClient
      ensures c.socketClient == socketClient && c.httpClient == httpClient
    {
      TrueKeysDistinct(networkConstraints);
      SyftConfiguration(context, networkingSchedulers, computeSchedulers, filesDir, monitorDevice,
        batteryCheckEnabled, TrueKeys(networkConstraints), networkTransportMedium, cacheTimeOut, maxConcurrentJobs,
        socketClient, httpClient, messagingClient)
    }

    method DisableBatteryCheck() returns (b: SyftConfigBuilder)
      requires Valid()
      modifies this`batteryCheckEnabled
      ensures Valid() && b == this
      ensures !batteryCheckEnabled
    {
      batteryCheckEnabled := false;
      b := this;
    }

    method EnableBatteryCheck() returns (b: SyftConfigBuilder)
      requires Valid()
      modifies this`batteryCheckEnabled
      ensures Valid() && b == this
      ensures batteryCheckEnabled
    {
      batteryCheckEnabled := true;
      b := this;
    }

    method SetMessagingClient(messagingClient: NetworkingClients) returns (b: SyftConfigBuilder)
      requires Valid()
      modifies this`messagingClient
      ensures Valid() && b == this
      ensures this.messagingClient == messagingClient
    {
      this.messagingClient := messagingClient;
      b := this;
    }

    method EnableCellularData() returns (b: SyftConfigBuilder)
      requires Valid()
      modifies this`networkTransportMedium
      ensures Valid() && b == this
      ensures networkTransportMedium == TransportCellular
    {
      networkTransportMedium := TransportCellular;
      b := this;
    }

    /** Drops the NOT_METERED requirement; nothing else in the map changes. */
    method EnableMeteredData() returns (b: SyftConfigBuilder)
      requires Valid()
      modifies this`networkConstraints
      ensures Valid() && b == this
      ensures networkConstraints == RemoveKey(old(networkConstraints), NetCapabilityNotMetered)
      ensures !ContainsKey(networkConstraints, NetCapabilityNotMetered)
      ensures forall e :: e in networkConstraints <==> e in old(networkConstraints) && e.0 != NetCapabilityNotMetered
    {
      if ContainsKey(networkConstraints, NetCapabilityNotMetered) {
        networkConstraints := RemoveKey(networkConstraints, NetCapabilityNotMetered);
      }
      b := this;
    }

    method SetCacheTimeout(timeout: Long) returns (b: SyftConfigBuilder)
      requires Valid()
      modifies this`cacheTimeOut
      ensures Valid() && b == this
      ensures cacheTimeOut == timeout
    {
      cacheTimeOut := timeout;
      b := this;
    }

    method SetNetworkingScheduler(scheduler: ProcessSchedulers) returns (b: SyftConfigBuilder)
      requires Valid()
      modifies this`networkingSchedulers
      ensures Valid() && b == this
      ensures networkingSchedulers == scheduler
    {
      networkingSchedulers := scheduler;
      b := this;
    }

    method SetComputeScheduler(computeSchedulers: ProcessSchedulers) returns (b: SyftConfigBuilder)
      requires Valid()
      modifies this`computeSchedulers
      ensures Valid() && b == this
      ensures this.computeSchedulers == computeSchedulers
    {
      this.computeSchedulers := computeSchedulers;
      b := this;
    }

    /** Named as in the source: disabling background execution turns device monitoring on. */
    method DisableBackgroundServiceExecution() returns (b: SyftConfigBuilder)
      requires Valid()
      modifies this`monitorDevice
      ensures Valid() && b == this
      ensures monitorDevice
    {
      monitorDevice := true;
      b := this;
    }

    /** Named as in the source: enabling background execution turns device monitoring off. */
    method EnableBackgroundServiceExecution() returns (b: SyftConfigBuilder)
      requires Valid()
      modifies this`monitorDevice
      ensures Valid() && b == this
      ensures !monitorDevice
    {
      monitorDevice := false;
      b := this;
    }

    method SetFilesDir(filesDir: string) returns (b: SyftConfigBuilder)
      requires Valid()
      modifies this`filesDir
      ensures Valid() && b == this
      ensures this.filesDir == filesDir
    {
      this.filesDir := filesDir;
      b := this;
    }
  }

  /** An untouched builder: the three default constraints, in map order, and the default choices. */
  method DefaultConfiguration(context: Context, baseUrl: string) returns (c: SyftConfiguration)
    ensures c.networkConstraints == [NetCapabilityInternet, NetCapabilityNotRestricted, NetCapabilityNotMetered]
    ensures c.transportMedium == TransportWifi
    ensures c.batteryCheckEnabled && c.monitorDevice
    ensures c.GetSignallingClient() == SocketApi(c.socketClient)
    ensures c.socketClient == SocketClient(baseUrl, SocketClientTimeout, DefaultNetworkingSchedulers)
    ensures c.cacheTimeOut == DefaultCacheTimeOut && c.maxConcurrentJobs == DefaultMaxConcurrentJobs
    ensures c.filesDir == context.filesDir
  {
    var builder := new SyftConfigBuilder(context, baseUrl);
    c := builder.Build();
    DefaultConstraints();
  }

  /**
   * Metered and cellular data allowed, metered twice over, HTTP messaging:
   * only NOT_METERED goes, INTERNET and NOT_RESTRICTED stay in order, and the
   * cycle protocol uses the HTTP client while WebRTC keeps the socket.
   */
  method MeteredCellularConfiguration(context: Context, baseUrl: string) returns (c: SyftConfiguration)
    ensures c.networkConstraints == [NetCapabilityInternet, NetCapabilityNotRestricted]
    ensures c.transportMedium == TransportCellular
    ensures c.GetSignallingClient() == HttpApi(HttpClient(baseUrl))
    ensures c.GetWebRTCSignallingClient() == SocketClient(baseUrl, SocketClientTimeout, DefaultNetworkingSchedulers)
    ensures !c.monitorDevice
  {
    var builder := new SyftConfigBuilder(context, baseUrl);
    var b := builder.EnableMeteredData();
    b := builder.EnableMeteredData();
    b := builder.EnableCellularData();
    b := builder.SetMessagingClient(HTTP);
    b := builder.EnableBackgroundServiceExecution();
    c := builder.Build();
    DefaultConstraints();
  }
}
