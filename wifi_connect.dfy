/** The station-mode connectivity manager of wifi_connect.c.

    Its state is four module statics: the retry counter `s_retry_num`, the
    recorded address `s_ip_addr`, and two bits of the event group, CONNECTED
    and FAIL. `event_handler` is a transition function over that state, driven
    by three events; it is specified by `Step` below and `Run` extends it to a
    sequence of events. The side effects the handler asks of the SDK (a
    connect request, setting a bit) are recorded as a list of `Effect`s. */
module WifiConnect {
  import opened Esp
  import opened CStrings

  const MaximumRetry: nat := 5        // WIFI_MAXIMUM_RETRY
  const SsidSize: nat := 32           // sizeof(wifi_config.sta.ssid)
  const PasswordSize: nat := 64       // sizeof(wifi_config.sta.password)
  const IpStrMinLen: nat := 16        // room for "255.255.255.255" and its NUL

  /** An IPv4 address as the four octets `IP2STR` prints, in that order. */
  type Ip4 = q: seq<Byte> | |q| == 4 witness [0, 0, 0, 0]

  /** The events the handler is registered for: every WIFI_EVENT and IP_EVENT_STA_GOT_IP.
      `Unhandled` stands for any base/id pair the handler does not test for. */
  datatype Event = StaStart | StaDisconnected | GotIp(ip: Ip4) | Unhandled

  /** A call the handler makes into the SDK. */
  datatype Effect = ConnectRequest | SetConnectedBit | SetFailBit

  datatype WifiState = WifiState(retryNum: int, ip: Ip4, connected: bool, failed: bool)

  /** The zero-initialised statics, with a freshly created (all-clear) event group. */
  const Initial := WifiState(0, [0, 0, 0, 0], false, false)

  predicate RetryInBudget(s: WifiState) {
    0 <= s.retryNum <= MaximumRetry
  }

  /** Event-group bits are only ever set. */
  predicate BitsOnlyRise(before: WifiState, after: WifiState) {
    (before.connected ==> after.connected) && (before.failed ==> after.failed)
  }

  datatype Transition = Transition(next: WifiState, effects: seq<Effect>)

  /** `event_handler`. */
  function Step(s: WifiState, e: Event): (t: Transition)
    ensures RetryInBudget(s) ==> RetryInBudget(t.next)
    ensures BitsOnlyRise(s, t.next)
  {
    match e
    case StaStart => Transition(s, [ConnectRequest])
    case StaDisconnected =>
      if s.retryNum < MaximumRetry then Transition(s.(retryNum := s.retryNum + 1), [ConnectRequest])
      else Transition(s.(failed := true), [SetFailBit])
    case GotIp(ip) => Transition(s.(ip := ip, retryNum := 0, connected := true), [SetConnectedBit])
    case Unhandled => Transition(s, [])
  }

  /** The handler applied to each event in turn; the effects of all of them, in order. */
  function Run(s: WifiState, es: seq<Event>): (t: Transition)
    ensures RetryInBudget(s) ==> RetryInBudget(t.next)
    ensures BitsOnlyRise(s, t.next)
    decreases |es|
  {
    if es == [] then Transition(s, [])
    else
      var first := Step(s, es[0]);
      var rest := Run(first.next, es[1..]);
      Transition(rest.next, first.effects + rest.effects)
  }

  /** How many connect requests a list of effects holds. */
  function Connects(effects: seq<Effect>): nat
    decreases |effects|
  {
    if effects == [] then 0
    else (if effects[0] == ConnectRequest then 1 else 0) + Connects(effects[1..])
  }

  lemma {:induction false} ConnectsAppend(a: seq<Effect>, b: seq<Effect>)
    ensures Connects(a + b) == Connects(a) + Connects(b)
    decreases |a|
  {
    if a == [] {
      assert a + b == b;
    } else {
      assert (a + b)[0] == a[0] && (a + b)[1..] == a[1..] + b;
      ConnectsAppend(a[1..], b);
    }
  }

  /** Running two lists of events is running one after the other. */
  lemma {:induction false} RunAppend(s: WifiState, a: seq<Event>, b: seq<Event>)
    ensures Run(s, a + b).next == Run(Run(s, a).next, b).next
    ensures Run(s, a + b).effects == Run(s, a).effects + Run(Run(s, a).next, b).effects
    decreases |a|
  {
    if a == [] {
      assert a + b == b;
    } else {
      assert (a + b)[0] == a[0] && (a + b)[1..] == a[1..] + b;
      RunAppend(Step(s, a[0]).next, a[1..], b);
    }
  }

  // ---- one event ----

  /** STA_START asks for one connection and changes no state. */
  lemma StartRequestsConnection(s: WifiState)
    ensures Step(s, StaStart).next == s
    ensures Step(s, StaStart).effects == [ConnectRequest]
  {
  }

  /** A disconnect within the retry budget asks to reconnect and uses up one retry. */
  lemma DisconnectRetries(s: WifiState)
    requires s.retryNum < MaximumRetry
    ensures Step(s, StaDisconnected).next == s.(retryNum := s.retryNum + 1)
    ensures Step(s, StaDisconnected).effects == [ConnectRequest]
  {
  }

  /** A disconnect with the budget used up sets FAIL, asks for nothing and keeps the counter. */
  lemma DisconnectGivesUp(s: WifiState)
    requires s.retryNum == MaximumRetry
    ensures Step(s, StaDisconnected).next == s.(failed := true)
    ensures Step(s, StaDisconnected).effects == [SetFailBit]
  {
  }

  /** GOT_IP records the address, restores the whole retry budget and sets CONNECTED;
      an event the handler does not test for changes nothing. */
  lemma GotIpResets(s: WifiState, ip: Ip4)
    ensures Step(s, GotIp(ip)).next == s.(ip := ip, retryNum := 0, connected := true)
    ensures Step(s, GotIp(ip)).effects == [SetConnectedBit]
    ensures Step(s, Unhandled) == Transition(s, [])
  {
  }

  // ---- sequences of events ----

  function Disconnects(n: nat): (es: seq<Event>)
    ensures |es| == n && forall i :: 0 <= i < n ==> es[i] == StaDisconnected
  {
    if n == 0 then [] else [StaDisconnected] + Disconnects(n - 1)
  }

  /** n disconnects in a row from counter r: min(n, 5 - r) reconnect requests,
      the counter at min(r + n, 5), and FAIL set exactly when they outrun the budget. */
  lemma {:induction false} DisconnectsInARow(s: WifiState, n: nat)
    requires RetryInBudget(s)
    ensures var t := Run(s, Disconnects(n));
      && t.next.retryNum == Min(s.retryNum + n, MaximumRetry)
      && Connects(t.effects) == Min(n, MaximumRetry - s.retryNum)
      && t.next.failed == (s.failed || s.retryNum + n > MaximumRetry)
      && t.next.connected == s.connected && t.next.ip == s.ip
    decreases n
  {
    if n > 0 {
      var es := Disconnects(n);
      assert es[0] == StaDisconnected && es[1..] == Disconnects(n - 1);
      var first := Step(s, StaDisconnected);
      DisconnectsInARow(first.next, n - 1);
      ConnectsAppend(first.effects, Run(first.next, Disconnects(n - 1)).effects);
    }
  }

  /** From the initial statics, n disconnects ask for min(n, 5) reconnects and end in FAIL iff n > 5. */
  lemma DisconnectsFromStart(n: nat)
    ensures Connects(Run(Initial, Disconnects(n)).effects) == Min(n, MaximumRetry)
    ensures Run(Initial, Disconnects(n)).next.failed <==> n > MaximumRetry
    ensures Run(Initial, Disconnects(n)).next.retryNum == Min(n, MaximumRetry)
  {
    DisconnectsInARow(Initial, n);
  }

  /** Whatever the counter, MaximumRetry + 1 disconnects in a row always end in FAIL. */
  lemma RetryBudgetEndsInFail(s: WifiState)
    requires RetryInBudget(s)
    ensures Run(s, Disconnects(MaximumRetry + 1)).next.failed
  {
    DisconnectsInARow(s, MaximumRetry + 1);
  }

  /** Whatever came before, the state after a GOT_IP has the counter at 0, that address, and CONNECTED. */
  lemma GotIpLast(s: WifiState, es: seq<Event>, ip: Ip4)
    ensures var t := Run(s, es + [GotIp(ip)]).next;
      t.retryNum == 0 && t.ip == ip && t.connected
  {
    RunAppend(s, es, [GotIp(ip)]);
  }

  /** Attached, lost, re-attached within the budget: counter back at 0, CONNECTED,
      the new address, no FAIL, and one reconnect per disconnect. */
  lemma LostAndRegained(ip1: Ip4, ip2: Ip4, k: nat)
    requires k <= MaximumRetry
    ensures var t := Run(Initial, [GotIp(ip1)] + Disconnects(k) + [GotIp(ip2)]);
      && t.next == WifiState(0, ip2, true, false)
      && Connects(t.effects) == k
  {
    var s1 := Step(Initial, GotIp(ip1)).next;
    RunAppend(Initial, [GotIp(ip1)], Disconnects(k));
    RunAppend(Initial, [GotIp(ip1)] + Disconnects(k), [GotIp(ip2)]);
    DisconnectsInARow(s1, k);
    var s2 := Run(s1, Disconnects(k)).next;
    ConnectsAppend(Run(Initial, [GotIp(ip1)]).effects, Run(s1, Disconnects(k)).effects);
    ConnectsAppend(Run(Initial, [GotIp(ip1)] + Disconnects(k)).effects, Run(s2, [GotIp(ip2)]).effects);
  }

  // ---- waiting for the bits ----

  /** The event group handle: never created (NULL), live, or deleted but not cleared. */
  datatype GroupState = NoGroup | Live | Deleted

  /** `wifi_connection_wait_for_ip`, given the bits the wait returns. */
  function WaitResult(group: GroupState, connected: bool, failed: bool): (r: ErrCode)
    requires group != Deleted
    ensures r == InvalidState <==> group == NoGroup
    ensures r == Ok <==> group == Live && connected
    ensures r == Fail <==> group == Live && !connected && failed
    ensures r == Timeout <==> group == Live && !connected && !failed
  {
    match group
    case NoGroup => InvalidState
    case Live => if connected then Ok else if failed then Fail else Timeout
  }

  /** Because the bits are sticky, once a wait would report ESP_OK it does so after
      any further events, and once it would report ESP_FAIL it never reports a timeout again. */
  lemma WaitOutcomeIsStable(s: WifiState, es: seq<Event>)
    ensures WaitResult(Live, s.connected, s.failed) == Ok ==>
      WaitResult(Live, Run(s, es).next.connected, Run(s, es).next.failed) == Ok
    ensures WaitResult(Live, s.connected, s.failed) == Fail ==>
      WaitResult(Live, Run(s, es).next.connected, Run(s, es).next.failed) in {Ok, Fail}
  {
  }

  /** The configuration the station uses: the raw `ssid` and `password` buffers. */
  datatype StaConfig = StaConfig(ssid: seq<char>, password: seq<char>)

  /** What the SDK calls made by `wifi_connection_init` return. */
  datatype SdkResults = SdkResults(
    groupCreated: bool, netifCreated: bool, wifiInit: ErrCode, registerWifi: ErrCode,
    registerIp: ErrCode, setMode: ErrCode, setConfig: ErrCode, start: ErrCode)

  /** The result of `wifi_connection_init` once the arguments have passed: the first failure, in call order. */
  function InitResult(sdk: SdkResults): (r: ErrCode)
    ensures r == Ok <==> (sdk.groupCreated && sdk.netifCreated && sdk.wifiInit == Ok && sdk.registerWifi == Ok
      && sdk.registerIp == Ok && sdk.setMode == Ok && sdk.setConfig == Ok && sdk.start == Ok)
  {
    if !sdk.groupCreated then NoMem
    else if !sdk.netifCreated then Fail
    else if sdk.wifiInit != Ok then sdk.wifiInit
    else if sdk.registerWifi != Ok then sdk.registerWifi
    else if sdk.registerIp != Ok then sdk.registerIp
    else if sdk.setMode != Ok then sdk.setMode
    else if sdk.setConfig != Ok then sdk.setConfig
    else if sdk.start != Ok then sdk.start
    else Ok
  }

  /** Whether the init reaches the point where the caller's credentials are applied. */
  predicate CallerConfigApplied(sdk: SdkResults) {
    sdk.groupCreated && sdk.netifCreated && sdk.wifiInit == Ok && sdk.registerWifi == Ok
    && sdk.registerIp == Ok && sdk.setMode == Ok && sdk.setConfig == Ok
  }

  predicate BuiltinConfigApplied(sdk: SdkResults) {
    sdk.groupCreated && sdk.netifCreated && sdk.wifiInit == Ok && sdk.registerWifi == Ok && sdk.registerIp == Ok
  }

  /** A zero-filled buffer holding a string, as a C initializer leaves it. */
  function Padded(s: seq<char>, size: nat): (buf: seq<char>)
    requires |s| < size
    ensures |buf| == size
  {
    s + seq(size - |s|, _ => Nul)
  }

  /** The module statics of wifi_connect.c, the station configuration the
      driver holds, and (for the model) the SDK calls the handler has made. */
  class WifiConnection {
    var retryNum: int
    var ipAddr: Ip4
    var group: GroupState
    var connectedBit: bool
    var failBit: bool
    ghost var appliedConfig: Option<StaConfig>
    ghost var effects: seq<Effect>

    ghost predicate Valid()
      reads this
    {
      RetryInBudget(State())
    }

    function State(): WifiState
      reads this
    {
      WifiState(retryNum, ipAddr, connectedBit, failBit)
    }

    constructor ()
      ensures Valid() && State() == Initial && group == NoGroup && appliedConfig == None && effects == []
    {
      retryNum := 0;
      ipAddr := [0, 0, 0, 0];
      group := NoGroup;
      connectedBit, failBit := false, false;
      appliedConfig := None;
      effects := [];
    }

    /** `event_handler`. It is only registered once the event group exists. */
    method HandleEvent(e: Event)
      requires Valid() && group == Live
      modifies this`retryNum, this`ipAddr, this`connectedBit, this`failBit, this`effects
      ensures Valid()
      ensures State() == Step(old(State()), e).next
      ensures effects == old(effects) + Step(old(State()), e).effects
    {
      match e {
        case StaStart =>
          effects := effects + [ConnectRequest];
        case StaDisconnected =>
          if retryNum < MaximumRetry {
            effects := effects + [ConnectRequest];
            retryNum := retryNum + 1;
          } else {
            failBit := true;
            effects := effects + [SetFailBit];
          }
        case GotIp(ip) =>
          ipAddr := ip;
          retryNum := 0;
          connectedBit := true;
          effects := effects + [SetConnectedBit];
        case Unhandled =>
      }
    }

    /** `wifi_connection_init(ssid, password)`; `None` stands for a NULL pointer.
        `builtinSsid` and `builtinPassword` are the station credentials compiled
        into the function, which it applies before the caller's. */
    method Init(ssid: Option<seq<char>>, password: Option<seq<char>>, sdk: SdkResults,
                builtinSsid: seq<char>, builtinPassword: seq<char>) returns (ret: ErrCode)
      requires ssid.Some? ==> NoNul(ssid.value)
      requires password.Some? ==> NoNul(password.value)
      requires |builtinSsid| < SsidSize && |builtinPassword| < PasswordSize
      modifies this
      ensures ssid.None? || password.None? ==> ret == InvalidArg && unchanged(this)
      ensures ssid.Some? && password.Some? ==>
        && ret == InitResult(sdk)
        && group == (if !sdk.groupCreated then NoGroup else if !sdk.netifCreated then Deleted else Live)
        && (sdk.groupCreated ==> !connectedBit && !failBit)
        && (!sdk.groupCreated ==> connectedBit == old(connectedBit) && failBit == old(failBit))
        && (appliedConfig == if CallerConfigApplied(sdk) then
              Some(StaConfig(StrlcpyBuffer(Padded(builtinSsid, SsidSize), ssid.value),
                             StrlcpyBuffer(Padded(builtinPassword, PasswordSize), password.value)))
            else if BuiltinConfigApplied(sdk) then
              Some(StaConfig(Padded(builtinSsid, SsidSize), Padded(builtinPassword, PasswordSize)))
            else old(appliedConfig))
      ensures retryNum == old(retryNum) && ipAddr == old(ipAddr) && effects == old(effects)
    {
      if ssid.None? || password.None? {
        return InvalidArg;
      }
      if !sdk.groupCreated {
        group := NoGroup;
        return NoMem;
      }
      group := Live;
      connectedBit, failBit := false, false;
      if !sdk.netifCreated {
        group := Deleted;
        return Fail;
      }
      ret := sdk.wifiInit;
      if ret != Ok { return; }
      ret := sdk.registerWifi;
      if ret != Ok { return; }
      ret := sdk.registerIp;
      if ret != Ok { return; }

      var ssidBuf := new char[SsidSize]((i: nat) => if i < |builtinSsid| then builtinSsid[i] else Nul);
      var passwordBuf := new char[PasswordSize]((i: nat) => if i < |builtinPassword| then builtinPassword[i] else Nul);
      assert ssidBuf[..] == Padded(builtinSsid, SsidSize);
      assert passwordBuf[..] == Padded(builtinPassword, PasswordSize);
      appliedConfig := Some(StaConfig(ssidBuf[..], passwordBuf[..]));

      var _ := Strlcpy(ssidBuf, ssid.value);
      var _ := Strlcpy(passwordBuf, password.value);

      ret := sdk.setMode;
      if ret != Ok { return; }
      ret := sdk.setConfig;
      if ret != Ok { return; }
      appliedConfig := Some(StaConfig(ssidBuf[..], passwordBuf[..]));
      ret := sdk.start;
    }

    /** `wifi_connection_wait_for_ip`: the bits seen when the wait returns are
        the current ones (events arriving meanwhile are earlier `HandleEvent`
        calls); the timeout only bounds how long that takes. */
    method WaitForIp(timeoutMs: nat) returns (ret: ErrCode)
      requires group != Deleted
      ensures ret == WaitResult(group, connectedBit, failBit)
    {
      if group == NoGroup {
        return InvalidState;
      }
      if connectedBit {
        return Ok;
      } else if failBit {
        return Fail;
      }
      return Timeout;
    }

    /** `wifi_connection_get_ip(buf, maxLen)`; a null `buf` is `null`. */
    method GetIp(buf: array?<char>, maxLen: nat) returns (ret: ErrCode)
      requires buf != null ==> maxLen <= buf.Length
      modifies buf
      ensures ret == InvalidArg <==> buf == null || maxLen < IpStrMinLen
      ensures ret == Ok <==> !(buf == null || maxLen < IpStrMinLen)
      ensures ret == Ok ==>
        var text := DottedQuad(ipAddr);
        |text| < IpStrMinLen && buf[..] == text + [Nul] + old(buf[..])[|text| + 1..] && CString(buf[..]) == text
      ensures ret != Ok && buf != null ==> buf[..] == old(buf[..])
    {
      if buf == null || maxLen < IpStrMinLen {
        return InvalidArg;
      }
      var text := DottedQuad(ipAddr);
      DottedQuadRoundTrip(ipAddr);
      // snprintf of a text shorter than the buffer: the text, its NUL, the rest untouched.
      var _ := Strlcpy(buf, text);
      CStringOfTerminated(text, old(buf[..])[|text| + 1..]);
      ret := Ok;
    }
  }
}
