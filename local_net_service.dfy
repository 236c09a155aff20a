/**
 * The local network service: the supervisor object that builds the channel initializers,
 * constructs and starts the four listeners from the game server configuration, and stops
 * them again at shutdown. Its fields are the four handle fields and the four initializer
 * fields of the Java class; the calls it makes on the listeners are recorded in a ghost
 * trace of `Start` and `Stop` events.
 *
 * The configuration, which the Java code fetches from a service locator, is a parameter of
 * each operation; the outcome of each listener's `startService()` is the oracle `ok`.
 */
module LocalNet {
  import opened Wrappers
  import opened NetSpec

  class LocalNetService {
    var tcpService: Option<Handle>
    var udpService: Option<Handle>
    var rpcService: Option<Handle>
    var proxyService: Option<Handle>

    var tcpInitializer: Option<Initializer>
    var udpInitializer: Option<Initializer>
    var rpcInitializer: Option<Initializer>
    var proxyInitializer: Option<Initializer>

    /** Every `startService()` and `stopService()` call made so far, in order. */
    ghost var trace: seq<Event>

    /** The four handle fields as one value. */
    function Handles(): Slots
      reads this
    {
      NetSpec.Slots(tcpService, udpService, rpcService, proxyService)
    }

    /** The four initializer fields as one value. */
    function Inits(): Initializers
      reads this
    {
      Initializers(tcpInitializer, udpInitializer, rpcInitializer, proxyInitializer)
    }

    /** A new service: every field is null and nothing has been called yet. */
    constructor ()
      ensures Handles() == NoHandles && Inits() == NoInitializers
      ensures trace == []
    {
      tcpService, udpService, rpcService, proxyService := None, None, None, None;
      tcpInitializer, udpInitializer, rpcInitializer, proxyInitializer := None, None, None, None;
      trace := [];
    }

    /** Sets all four channel initializers, whatever the configuration; touches no handle
        and calls no listener. */
    method InitChannelInitializer()
      modifies this
      ensures Inits() == AllInitializers
      ensures Handles() == old(Handles())
      ensures trace == old(trace)
    {
      tcpInitializer := Some(TcpProtoInitializer);
      udpInitializer := Some(UdpProtoInitializer);
      rpcInitializer := Some(RpcInitializer);
      proxyInitializer := Some(ProxyFrontendInitializer);
    }

    /** One listener's block of `initNetService()`: assigns the handle field of `k`, built
        from the configuration and the current initializer of `k`, and then calls that
        listener's start, whose result it returns. */
    method Launch(cfg: Config, ok: Kind -> bool, k: Kind) returns (started: bool)
      requires Buildable(cfg, k)
      modifies this
      ensures started == ok(k)
      ensures Handles() == old(Handles()).Set(k, Some(BuildHandle(cfg, k, Inits().Of(k))))
      ensures Inits() == old(Inits())
      ensures trace == old(trace) + [Start(k)]
    {
      match k {
        case Tcp => tcpService := Some(BuildHandle(cfg, Tcp, tcpInitializer));
        case Udp => udpService := Some(BuildHandle(cfg, Udp, udpInitializer));
        case Rpc => rpcService := Some(BuildHandle(cfg, Rpc, rpcInitializer));
        case Proxy => proxyService := Some(BuildHandle(cfg, Proxy, proxyInitializer));
      }
      started := ok(k);
      trace := trace + [Start(k)];
    }

    /** Builds and starts the listeners in the fixed order, each eligible one by assigning
        its handle field and then calling its start; the first start that returns false
        ends the method with a failure naming that kind, leaving its handle field and those
        of the listeners already started set. */
    method InitNetService(cfg: Config, ok: Kind -> bool) returns (r: StartResult)
      modifies this
      ensures r == Outcome(cfg, ok)
      ensures Handles() == Installed(old(Handles()), Attempted(cfg, ok), cfg, old(Inits()))
      ensures Inits() == old(Inits())
      ensures trace == old(trace) + StartEvents(Attempted(cfg, ok))
    {
      ghost var s0, t0, inits := Handles(), trace, Inits();
      // The fields and the trace so far, the kinds attempted so far, and the position in
      // `Order` of the next kind to consider.
      ghost var slots, tr, done, from := s0, t0, [], 0;
      assert Progress(slots, tr, s0, t0, cfg, ok, inits, done, from);

      var startUpFlag := Launch(cfg, ok, Tcp);
      if !startUpFlag {
        AttemptFailed(slots, tr, s0, t0, cfg, ok, inits, done, from, Tcp);
        return Failure(Tcp);
      }
      AttemptStarted(slots, tr, s0, t0, cfg, ok, inits, done, from, Tcp);
      slots, tr, done, from := Handles(), trace, done + [Tcp], 1;

      if cfg.udpOpen {
        startUpFlag := Launch(cfg, ok, Udp);
        if !startUpFlag {
          AttemptFailed(slots, tr, s0, t0, cfg, ok, inits, done, from, Udp);
          return Failure(Udp);
        }
        AttemptStarted(slots, tr, s0, t0, cfg, ok, inits, done, from, Udp);
        slots, tr, done := Handles(), trace, done + [Udp];
      } else {
        AttemptSkipped(slots, tr, s0, t0, cfg, ok, inits, done, from);
      }
      from := 2;

      if cfg.rpcOpen {
        startUpFlag := Launch(cfg, ok, Rpc);
        if !startUpFlag {
          AttemptFailed(slots, tr, s0, t0, cfg, ok, inits, done, from, Rpc);
          return Failure(Rpc);
        }
        AttemptStarted(slots, tr, s0, t0, cfg, ok, inits, done, from, Rpc);
        slots, tr, done := Handles(), trace, done + [Rpc];
      } else {
        AttemptSkipped(slots, tr, s0, t0, cfg, ok, inits, done, from);
      }
      from := 3;

      if cfg.sdProxy.Some? {
        startUpFlag := Launch(cfg, ok, Proxy);
        if !startUpFlag {
          AttemptFailed(slots, tr, s0, t0, cfg, ok, inits, done, from, Proxy);
          return Failure(Proxy);
        }
        AttemptStarted(slots, tr, s0, t0, cfg, ok, inits, done, from, Proxy);
        slots, tr, done := Handles(), trace, done + [Proxy];
      } else {
        AttemptSkipped(slots, tr, s0, t0, cfg, ok, inits, done, from);
      }
      Finished(slots, tr, s0, t0, cfg, ok, inits, done);
      r := Success;
    }

    /** `startup()`: the initializers first, then the listeners. */
    method Startup(cfg: Config, ok: Kind -> bool) returns (r: StartResult)
      modifies this
      ensures r == Outcome(cfg, ok)
      ensures Inits() == AllInitializers
      ensures Handles() == Installed(old(Handles()), Attempted(cfg, ok), cfg, AllInitializers)
      ensures trace == old(trace) + StartEvents(Attempted(cfg, ok))
    {
      InitChannelInitializer();
      r := InitNetService(cfg, ok);
    }

    /** `shutdown()`: stops, in the fixed order, the TCP handle if set, the UDP and RPC
        handles if set and enabled in `cfg`, and the proxy handle if set. No field is
        cleared and no handle is built. */
    method Shutdown(cfg: Config)
      modifies this`trace
      ensures Handles() == old(Handles()) && Inits() == old(Inits())
      ensures trace == old(trace) + StopEvents(Stopped(cfg, Handles()))
    {
      ghost var t0, s := trace, Handles();
      // The kinds stopped so far, and the position in `Order` of the next kind to consider.
      ghost var st, from := [], 0;
      assert StopProgress(trace, t0, cfg, s, st, from);
      if tcpService.Some? {
        StopTaken(trace, t0, cfg, s, st, from);
        trace := trace + [Stop(Tcp)];
        st := st + [Tcp];
      } else {
        StopSkipped(trace, t0, cfg, s, st, from);
      }
      from := 1;
      if cfg.udpOpen {
        if udpService.Some? {
          StopTaken(trace, t0, cfg, s, st, from);
          trace := trace + [Stop(Udp)];
          st := st + [Udp];
        } else {
          StopSkipped(trace, t0, cfg, s, st, from);
        }
      } else {
        StopSkipped(trace, t0, cfg, s, st, from);
      }
      from := 2;
      if cfg.rpcOpen {
        if rpcService.Some? {
          StopTaken(trace, t0, cfg, s, st, from);
          trace := trace + [Stop(Rpc)];
          st := st + [Rpc];
        } else {
          StopSkipped(trace, t0, cfg, s, st, from);
        }
      } else {
        StopSkipped(trace, t0, cfg, s, st, from);
      }
      from := 3;
      if proxyService.Some? {
        StopTaken(trace, t0, cfg, s, st, from);
        trace := trace + [Stop(Proxy)];
        st := st + [Proxy];
      } else {
        StopSkipped(trace, t0, cfg, s, st, from);
      }
      StopFinished(trace, t0, cfg, s, st);
    }
  }
}
