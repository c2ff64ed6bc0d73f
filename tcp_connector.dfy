/** The outbound side of the TcpConnector tunnel: the line-state set-up of
    `upstream/init.c` (destination address and port strategies, name
    resolution, socket creation and the single failure path) and the upstream
    payload handler of `upstream/payload.c`, which follows the backpressure
    rule of module `Backpressure` with its signals going to the previous node.

    Resolution (`resolveContextSync`), the address the free-bind helper
    picks, `socket()` and the `SO_MARK` option are inputs (`InitEnv`). */
module TcpConnector {

  import opened Common
  import opened Backpressure

  /** `tcpconnector_strategy_e`; `Unlisted` is any other status value, which
      the switches treat like `FromDest`. */
  datatype Strategy = FromSource | Constant | FromDest | Unlisted

  datatype IpAddr = IpAddr(v6: bool, bytes: Bytes)

  /** `address_context_t`: a numeric address or a domain name, a port and
      the protocol flag. */
  datatype AddressContext = AddressContext(
    typeIp: bool, ip: IpAddr, domain: Option<string>, port: uint16, protoTcp: bool)

  /** The tunnel settings the set-up reads. */
  datatype Config = Config(
    addrStrategy: Strategy,
    portStrategy: Strategy,
    constantDest: AddressContext,
    outboundIpRange: nat,
    fwmark: Option<int>)

  /** What the environment answers during set-up: the resolved address (None
      when resolution fails), the random destination address free bind
      writes into the destination (None when it fails), the descriptor
      `socket()` returns and whether setting `SO_MARK` succeeds. */
  datatype InitEnv = InitEnv(resolved: Option<IpAddr>, freeBound: Option<IpAddr>, sockfd: int, markOk: bool)

  datatype Failure = NoDestination | ResolveFailed | FreeBindFailed | SocketFailed | MarkFailed

  datatype InitOutcome = Connect(peer: AddressContext, fd: int) | Fail(reason: Failure)

  /** `addresscontextAddrCopy`: take the address part (numeric address or
      domain) of `from`, keeping the port and protocol of `dest`. */
  function AddrCopy(dest: AddressContext, from: AddressContext): (r: AddressContext)
    ensures r.typeIp == from.typeIp && r.ip == from.ip && r.domain == from.domain
    ensures r.port == dest.port && r.protoTcp == dest.protoTcp
  {
    dest.(typeIp := from.typeIp, ip := from.ip, domain := from.domain)
  }

  /** The address switch of `tcpconnectorTunnelUpStreamInit`. */
  function SelectAddress(strategy: Strategy, constant: AddressContext, src: AddressContext, dest: AddressContext): AddressContext
  {
    match strategy
    case FromSource => AddrCopy(dest, src)
    case Constant => AddrCopy(dest, constant)
    case _ => dest.(protoTcp := true)
  }

  /** The port switch of `tcpconnectorTunnelUpStreamInit`. */
  function SelectPort(strategy: Strategy, constant: AddressContext, src: AddressContext, dest: AddressContext): AddressContext
  {
    match strategy
    case FromSource => dest.(port := src.port)
    case Constant => dest.(port := constant.port)
    case _ => dest
  }

  /** The destination context after both switches. */
  function Destination(cfg: Config, src: AddressContext, dest: AddressContext): AddressContext
  {
    SelectPort(cfg.portStrategy, cfg.constantDest, src,
               SelectAddress(cfg.addrStrategy, cfg.constantDest, src, dest))
  }

  /** The address comes from the source, the configured constant, or stays
      the line's destination; the port independently likewise. */
  lemma DestinationFollowsStrategies(cfg: Config, src: AddressContext, dest: AddressContext)
    ensures var d := Destination(cfg, src, dest);
            var from := match cfg.addrStrategy
                        case FromSource => src
                        case Constant => cfg.constantDest
                        case _ => dest;
            && d.typeIp == from.typeIp && d.ip == from.ip && d.domain == from.domain
            && d.port == (match cfg.portStrategy
                          case FromSource => src.port
                          case Constant => cfg.constantDest.port
                          case _ => dest.port)
            && (cfg.addrStrategy in {FromDest, Unlisted} ==> d.protoTcp)
            && (cfg.addrStrategy !in {FromDest, Unlisted} ==> d.protoTcp == dest.protoTcp)
  {
  }

  /** The destination after resolution: a domain is replaced by its
      resolved address. */
  function Resolved(d: AddressContext, env: InitEnv): AddressContext
  {
    if !d.typeIp && env.resolved.Some? then d.(typeIp := true, ip := env.resolved.value) else d
  }

  /** The destination after `tcpconnectorApplyFreeBindRandomDestIp`: with an
      outbound range configured, its address is the one free bind picked. */
  function FreeBound(d: AddressContext, cfg: Config, env: InitEnv): AddressContext
  {
    if cfg.outboundIpRange > 0 && env.freeBound.Some? then d.(ip := env.freeBound.value) else d
  }

  /** The whole set-up decision: the first failing check, or the connect. */
  function SetUp(cfg: Config, src: AddressContext, dest: AddressContext, env: InitEnv): InitOutcome
  {
    var d := Destination(cfg, src, dest);
    if !d.typeIp && d.domain.None? then Fail(NoDestination)
    else if !d.typeIp && env.resolved.None? then Fail(ResolveFailed)
    else if cfg.outboundIpRange > 0 && env.freeBound.None? then Fail(FreeBindFailed)
    else if env.sockfd < 0 then Fail(SocketFailed)
    else if cfg.fwmark.Some? && !env.markOk then Fail(MarkFailed)
    else Connect(FreeBound(Resolved(d, env), cfg, env), env.sockfd)
  }

  /** The set-up connects exactly when every check passes: a numeric or
      resolvable destination, free bind when a range is configured, a valid
      socket and, with a mark configured, the mark.  The peer is the chosen
      destination with a numeric address (the one free bind picked when a
      range is configured, else the resolved or chosen one) and its port. */
  lemma InitConnectsIffChecksPass(cfg: Config, src: AddressContext, dest: AddressContext, env: InitEnv)
    ensures var d := Destination(cfg, src, dest);
            SetUp(cfg, src, dest, env).Connect? <==>
              && (d.typeIp || (d.domain.Some? && env.resolved.Some?))
              && (cfg.outboundIpRange == 0 || env.freeBound.Some?)
              && env.sockfd >= 0
              && (cfg.fwmark.None? || env.markOk)
    ensures var d := Destination(cfg, src, dest);
            SetUp(cfg, src, dest, env).Connect? ==>
              && SetUp(cfg, src, dest, env).peer.typeIp
              && SetUp(cfg, src, dest, env).peer.port == d.port
              && SetUp(cfg, src, dest, env).fd == env.sockfd
              && SetUp(cfg, src, dest, env).peer.ip
                   == (if cfg.outboundIpRange > 0 then env.freeBound.value
                       else if d.typeIp then d.ip else env.resolved.value)
  {
  }

  /** `tcpconnector_lstate_t` together with its line's routing context. */
  class ConnectorLine {
    var writePaused: bool
    var writeCb: bool
    var pauseQueue: seq<Bytes>
    var dataQueue: seq<Bytes>
    var written: seq<Bytes>
    /** Every signal sent to the previous node, in order. */
    var signals: seq<Signal>
    var timeoutResets: nat
    var src: AddressContext
    var dest: AddressContext
    /** The outbound socket's descriptor once created and attached. */
    var io: Option<int>
    /** How many connects were issued. */
    var connects: nat
    /** Whether `tcpconnectorLinestateDestroy` ran. */
    var destroyed: bool

    function View(): State
      reads this
    {
      State(writePaused, writeCb, pauseQueue, dataQueue, written, signals, timeoutResets)
    }

    /** A line reaching the connector with the given routing context. */
    constructor (src: AddressContext, dest: AddressContext)
      ensures this.src == src && this.dest == dest
      ensures io == None && connects == 0 && !destroyed && signals == []
    {
      this.src := src;
      this.dest := dest;
      writePaused := false;
      writeCb := false;
      pauseQueue := [];
      dataQueue := [];
      written := [];
      signals := [];
      timeoutResets := 0;
      io := None;
      connects := 0;
      destroyed := false;
    }

    /** `tcpconnectorTunnelUpStreamInit`: a paused line state, the destination
        chosen by the strategies, then resolution, free bind, socket and mark
        checks.  Any failure destroys the line state and sends exactly one
        Finish to the previous node without connecting; success attaches the
        socket, sets its read timeout and issues exactly one connect. */
    method UpStreamInit(cfg: Config, env: InitEnv)
      modifies this
      ensures writePaused && !writeCb && pauseQueue == [] && dataQueue == []
      ensures written == [] && src == old(src)
      ensures SetUp(cfg, old(src), old(dest), env).Fail? ==>
                && destroyed && io == None && connects == old(connects)
                && signals == old(signals) + [Finish] && timeoutResets == old(timeoutResets)
      ensures SetUp(cfg, old(src), old(dest), env).Connect? ==>
                && !destroyed && io == Some(env.sockfd) && connects == old(connects) + 1
                && signals == old(signals) && timeoutResets == old(timeoutResets) + 1
                && dest == SetUp(cfg, old(src), old(dest), env).peer
    {
      ghost var outcome := SetUp(cfg, src, dest, env);
      ResetState();
      SelectDestination(cfg);
      var d := dest;
      if !d.typeIp {
        if d.domain.None? {
          assert outcome.Fail?;
          FailPath();
          return;
        }
        if env.resolved.None? {
          assert outcome.Fail?;
          FailPath();
          return;
        }
        dest := d.(typeIp := true, ip := env.resolved.value);
      }
      if cfg.outboundIpRange > 0 {
        if env.freeBound.None? {
          assert outcome.Fail?;
          FailPath();
          return;
        }
        dest := dest.(ip := env.freeBound.value);
      }
      var sockfd := env.sockfd;
      if sockfd < 0 {
        FailPath();
        return;
      }
      if cfg.fwmark.Some? {
        if !env.markOk {
          assert outcome.Fail?;
          FailPath();
          return;
        }
      }
      assert outcome.Connect?;
      io := Some(sockfd);
      timeoutResets := timeoutResets + 1;
      connects := connects + 1;
    }

    /** `tcpconnectorLinestateInitialize` followed by `write_paused = true`:
        write paused, no queue, no socket yet. */
    method ResetState()
      modifies this
      ensures writePaused && !writeCb && pauseQueue == [] && dataQueue == []
      ensures written == [] && io == None && !destroyed
      ensures timeoutResets == old(timeoutResets) && src == old(src) && dest == old(dest)
      ensures connects == old(connects) && signals == old(signals)
    {
      writePaused := true;
      writeCb := false;
      pauseQueue := [];
      dataQueue := [];
      written := [];
      io := None;
      destroyed := false;
    }

    /** The address and port switches, rewriting `dest` in place. */
    method SelectDestination(cfg: Config)
      modifies this
      ensures dest == Destination(cfg, src, old(dest))
      ensures src == old(src) && io == old(io) && connects == old(connects) && destroyed == old(destroyed)
      ensures writePaused == old(writePaused) && writeCb == old(writeCb)
      ensures pauseQueue == old(pauseQueue) && dataQueue == old(dataQueue)
      ensures written == old(written) && signals == old(signals) && timeoutResets == old(timeoutResets)
    {
      match cfg.addrStrategy {
        case FromSource => dest := AddrCopy(dest, src);
        case Constant => dest := AddrCopy(dest, cfg.constantDest);
        case _ => dest := dest.(protoTcp := true);
      }
      match cfg.portStrategy {
        case FromSource => dest := dest.(port := src.port);
        case Constant => dest := dest.(port := cfg.constantDest.port);
        case _ =>
      }
    }

    /** The `fail:` label: destroy the line state, send Finish back. */
    method FailPath()
      modifies this
      ensures destroyed && signals == old(signals) + [Finish]
      ensures io == old(io) && connects == old(connects) && dest == old(dest) && src == old(src)
      ensures writePaused == old(writePaused) && writeCb == old(writeCb)
      ensures pauseQueue == old(pauseQueue) && dataQueue == old(dataQueue)
      ensures written == old(written) && timeoutResets == old(timeoutResets)
    {
      destroyed := true;
      signals := signals + [Finish];
    }

    /** `tcpconnectorTunnelUpStreamPayload`, with `nwrite` the socket's
        answer to the write. */
    method UpStreamPayload(buf: Bytes, nwrite: int)
      modifies this
      ensures View() == OnPayload(old(View()), buf, nwrite)
      ensures io == old(io) && connects == old(connects) && destroyed == old(destroyed)
      ensures src == old(src) && dest == old(dest)
    {
      if writePaused {
        signals := signals + [Pause];
        pauseQueue := pauseQueue + [buf];
      } else {
        var bytes := |buf|;
        written := written + [buf];
        timeoutResets := timeoutResets + 1;
        if nwrite >= 0 && nwrite < bytes {
          writePaused := true;
          writeCb := true;
          signals := signals + [Pause];
        }
      }
    }
  }

  /** Payload reaching a freshly set-up line (paused until connected) is
      queued and answered with Pause, never written. */
  lemma PayloadBeforeConnectQueues(s: State, buf: Bytes, nwrite: int)
    requires s.writePaused && s.pauseQueue == [] && s.written == []
    ensures OnPayload(s, buf, nwrite).pauseQueue == [buf]
    ensures OnPayload(s, buf, nwrite).written == []
    ensures OnPayload(s, buf, nwrite).signals == s.signals + [Pause]
  {
    PausedPayloadQueues(s, buf, nwrite);
  }
}
