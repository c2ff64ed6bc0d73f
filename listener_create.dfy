/** Settings validation of the TcpListener tunnel
    (`tunnels/TcpListener/instance/create.c`): the `port` field (a number or
    a two-element array), the required `address`, the multiport backend and
    the whitelist, ending in the socket filter options the listener
    registers.  "Return NULL" and "terminate the program" are outcomes.

    JSON numbers are integers here; the CIDR check and parser are inputs. */
module ListenerCreate {

  import opened Common

  datatype Json =
    | JNull
    | JBool(b: bool)
    | JNumber(n: int)
    | JString(s: string)
    | JArray(items: seq<Json>)
    | JObject(fields: seq<(string, Json)>)

  /** `cJSON_GetObjectItemCaseSensitive`: the first member with the key. */
  function Get(j: Json, key: string): (r: Option<Json>)
    ensures r.Some? <==> j.JObject? && exists i :: 0 <= i < |j.fields| && j.fields[i].0 == key
    ensures r.Some? ==> exists i :: 0 <= i < |j.fields| && j.fields[i] == (key, r.value)
                                    && forall k :: 0 <= k < i ==> j.fields[k].0 != key
  {
    if j.JObject? then Find(j.fields, key) else None
  }

  /** The value of the first member with the key. */
  function Find(fields: seq<(string, Json)>, key: string): (r: Option<Json>)
    ensures r.Some? <==> exists i :: 0 <= i < |fields| && fields[i].0 == key
    ensures r.Some? ==> exists i :: 0 <= i < |fields| && fields[i] == (key, r.value)
                                    && forall k :: 0 <= k < i ==> fields[k].0 != key
    decreases |fields|
  {
    if |fields| == 0 then None
    else if fields[0].0 == key then Some(fields[0].1)
    else
      var r := Find(fields[1..], key);
      assert forall i :: 1 <= i < |fields| ==> fields[1..][i - 1] == fields[i];
      r
  }

  /** A string member, as `getStringFromJsonObject` reads it. */
  function StringField(j: Json, key: string): Option<string>
  {
    var v := Get(j, key);
    if v.Some? && v.value.JString? then Some(v.value.s) else None
  }

  /** `checkJsonIsObjectAndHasChild`. */
  predicate IsObjectWithChild(j: Json)
  {
    j.JObject? && |j.fields| > 0
  }

  /** A port value the listener accepts: a nonzero number. */
  predicate IsPortNumber(j: Json)
  {
    j.JNumber? && j.n != 0
  }

  /** `parsePortSection`: the (min, max) ports, or None when the program
      terminates.  A nonzero number gives both; an array of exactly two
      nonzero numbers gives min and max in order, with no ordering check. */
  function PortSection(settings: Json): (r: Option<(uint16, uint16)>)
  {
    var p := Get(settings, "port");
    if p.Some? && IsPortNumber(p.value) then Some((ToUint16(p.value.n), ToUint16(p.value.n)))
    else if p.Some? && p.value.JArray? && |p.value.items| == 2
            && IsPortNumber(p.value.items[0]) && IsPortNumber(p.value.items[1]) then
      Some((ToUint16(p.value.items[0].n), ToUint16(p.value.items[1].n)))
    else None
  }

  /** The port section terminates exactly on a missing field, a zero, a
      non-number, or an array whose size is not two; an array's ports need
      not be ordered. */
  lemma PortSectionTerminates(settings: Json)
    ensures PortSection(settings).None? <==>
              var p := Get(settings, "port");
              || p.None?
              || (!IsPortNumber(p.value) && !p.value.JArray?)
              || (p.value.JArray? && |p.value.items| != 2)
              || (p.value.JArray? && exists i :: 0 <= i < |p.value.items| && !IsPortNumber(p.value.items[i]))
    ensures PortSection(JObject([("port", JArray([JNumber(9000), JNumber(80)]))])) == Some((9000, 80))
  {
    var p := Get(settings, "port");
    if p.Some? && p.value.JArray? && |p.value.items| == 2 {
      if !IsPortNumber(p.value.items[0]) {
        assert !IsPortNumber(p.value.items[0]);
      }
    }
    var sample := JObject([("port", JArray([JNumber(9000), JNumber(80)]))]);
    assert sample.fields[0].0 == "port";
  }

  /** `tcplistener_tstate_t`: what the create function fills in. */
  class ListenerState {
    var listenPortMin: uint16
    var listenPortMax: uint16
    var listenAddress: string
    var noDelay: bool

    constructor ()
      ensures listenPortMin == 0 && listenPortMax == 0 && listenAddress == [] && !noDelay
    {
      listenPortMin := 0;
      listenPortMax := 0;
      listenAddress := [];
      noDelay := false;
    }
  }

  /** `parsePortSection`, walking the array with its counter; `terminated`
      is the program exit. */
  method ParsePortSection(state: ListenerState, settings: Json) returns (terminated: bool)
    modifies state
    ensures terminated <==> PortSection(settings).None?
    ensures !terminated ==> (state.listenPortMin, state.listenPortMax) == PortSection(settings).value
    ensures state.listenAddress == old(state.listenAddress) && state.noDelay == old(state.noDelay)
  {
    var portJson := Get(settings, "port");
    if portJson.Some? && portJson.value.JNumber? && portJson.value.n != 0 {
      state.listenPortMin := ToUint16(portJson.value.n);
      state.listenPortMax := ToUint16(portJson.value.n);
      return false;
    }
    if portJson.Some? && portJson.value.JArray? && |portJson.value.items| == 2 {
      var items := portJson.value.items;
      var i := 0;
      while i < |items|
        invariant 0 <= i <= |items|
        invariant forall k :: 0 <= k < i ==> IsPortNumber(items[k])
        invariant i > 0 ==> state.listenPortMin == ToUint16(items[0].n)
        invariant i > 1 ==> state.listenPortMax == ToUint16(items[1].n)
        invariant state.listenAddress == old(state.listenAddress) && state.noDelay == old(state.noDelay)
      {
        var minmax := items[i];
        if !(minmax.JNumber? && minmax.n != 0) {
          return true;
        }
        if i == 0 {
          state.listenPortMin := ToUint16(minmax.n);
        } else if i == 1 {
          state.listenPortMax := ToUint16(minmax.n);
        }
        i := i + 1;
      }
      return false;
    }
    return true;
  }

  /** `multiport_backend_t`. */
  datatype Backend = BackendNone | BackendDefault | BackendIptables | BackendSockets

  /** The status `parseDynamicStrValueFromJsonObject` gives a field with
      the options "iptables" and "socket": 2 and 3 for them, 1 for another
      string, 0 when the field is missing or not a string. */
  function BackendStatus(settings: Json): (status: nat)
    ensures status == 2 <==> StringField(settings, "multiport-backend") == Some("iptables")
    ensures status == 3 <==> StringField(settings, "multiport-backend") == Some("socket")
  {
    var v := StringField(settings, "multiport-backend");
    if v == Some("iptables") then 2
    else if v == Some("socket") then 3
    else if v.Some? then 1
    else 0
  }

  /** The backend choice: none when the maximum port is 0, otherwise
      Default unless the status selects Iptables or Sockets. */
  function ChooseBackend(portMax: uint16, status: nat): Backend
  {
    if portMax == 0 then BackendNone
    else if status == 3 then BackendSockets
    else if status == 2 then BackendIptables
    else BackendDefault
  }

  /** `ipmask_t`: an address and its mask, as the CIDR parser yields them. */
  datatype IpMask = IpMask(ip: Bytes, mask: Bytes)

  /** A whitelist entry the listener accepts: a string, a valid CIDR by
      `verifyIPCdir`, and one `parseIPWithSubnetMask` parses. */
  predicate Accepted(item: Json, verify: string -> bool, parse: string -> Option<IpMask>)
  {
    item.JString? && verify(item.s) && parse(item.s).Some?
  }

  /** The whitelist, or None when the program terminates.  Only a
      non-empty array is read; anything else gives an empty list. */
  function Whitelist(settings: Json, verify: string -> bool, parse: string -> Option<IpMask>): Option<seq<IpMask>>
  {
    var w := Get(settings, "whitelist");
    if w.Some? && w.value.JArray? && |w.value.items| > 0 then
      var items := w.value.items;
      if forall i :: 0 <= i < |items| ==> Accepted(items[i], verify, parse) then
        Some(seq(|items|, i requires 0 <= i < |items| && Accepted(items[i], verify, parse) => parse(items[i].s).value))
      else None
    else Some([])
  }

  /** The whitelist loop: each entry is checked and parsed in order, the
      first bad one terminates. */
  method ReadWhitelist(settings: Json, verify: string -> bool, parse: string -> Option<IpMask>)
    returns (list: Option<seq<IpMask>>)
    ensures list == Whitelist(settings, verify, parse)
  {
    var wlist := Get(settings, "whitelist");
    var masks: seq<IpMask> := [];
    if wlist.Some? && wlist.value.JArray? {
      var items := wlist.value.items;
      if |items| > 0 {
        var i := 0;
        while i < |items|
          invariant 0 <= i <= |items|
          invariant forall k :: 0 <= k < i ==> Accepted(items[k], verify, parse)
          invariant |masks| == i
          invariant forall k :: 0 <= k < i ==> masks[k] == parse(items[k].s).value
        {
          var item := items[i];
          if !(item.JString? && verify(item.s)) {
            return None;
          }
          var parsed := parse(item.s);
          if parsed.None? {
            return None;
          }
          masks := masks + [parsed.value];
          i := i + 1;
        }
        assert masks == seq(|items|, k requires 0 <= k < |items| && Accepted(items[k], verify, parse) => parse(items[k].s).value);
      }
    }
    return Some(masks);
  }

  /** `socket_filter_option_t` as the listener registers it. */
  datatype FilterOption = FilterOption(
    host: string,
    portMin: uint16,
    portMax: uint16,
    protocolTcp: bool,
    noDelay: bool,
    iface: Option<string>,
    balanceGroup: Option<string>,
    backend: Backend,
    whitelist: seq<IpMask>)

  /** What `tcplistenerTunnelCreate` ends in. */
  datatype Creation = Registered(filter: FilterOption) | NullTunnel | Terminated

  /** `getBoolFromJsonObject` with the default false. */
  function BoolField(j: Json, key: string): bool
  {
    var v := Get(j, key);
    v.Some? && v.value.JBool? && v.value.b
  }

  /** The settings checks of `tcplistenerTunnelCreate`, in order. */
  function Create(settings: Json, verify: string -> bool, parse: string -> Option<IpMask>): Creation
  {
    if !IsObjectWithChild(settings) then NullTunnel
    else if StringField(settings, "address").None? then NullTunnel
    else
      var ports := PortSection(settings);
      if ports.None? then Terminated
      else
        var list := Whitelist(settings, verify, parse);
        if list.None? then Terminated
        else
          Registered(FilterOption(
            StringField(settings, "address").value,
            ports.value.0, ports.value.1, true,
            BoolField(settings, "nodelay"),
            StringField(settings, "interface"),
            StringField(settings, "balance-group"),
            ChooseBackend(ports.value.1, BackendStatus(settings)),
            list.value))
  }

  /** Create returns NULL exactly when the settings are not a non-empty
      object or lack the `address` string; it terminates exactly when those
      pass but the port section or a whitelist entry is bad. */
  lemma CreateOutcome(settings: Json, verify: string -> bool, parse: string -> Option<IpMask>)
    ensures Create(settings, verify, parse).NullTunnel? <==>
              !IsObjectWithChild(settings) || StringField(settings, "address").None?
    ensures Create(settings, verify, parse).Terminated? <==>
              && IsObjectWithChild(settings) && StringField(settings, "address").Some?
              && (PortSection(settings).None? || Whitelist(settings, verify, parse).None?)
  {
  }

  /** A registered tunnel's filter holds the address, the port range, TCP,
      the backend the range and the status call for, and every whitelist
      entry, verified and parsed, in order. */
  lemma CreateFilter(settings: Json, verify: string -> bool, parse: string -> Option<IpMask>)
    ensures var c := Create(settings, verify, parse);
            c.Registered? ==>
              && Some(c.filter.host) == StringField(settings, "address")
              && Some((c.filter.portMin, c.filter.portMax)) == PortSection(settings)
              && c.filter.protocolTcp
              && (c.filter.portMax == 0 <==> c.filter.backend == BackendNone)
              && (c.filter.portMax != 0 && BackendStatus(settings) == 2 ==> c.filter.backend == BackendIptables)
              && (c.filter.portMax != 0 && BackendStatus(settings) == 3 ==> c.filter.backend == BackendSockets)
    ensures var c := Create(settings, verify, parse);
            var w := Get(settings, "whitelist");
            c.Registered? && w.Some? && w.value.JArray? ==>
              && |c.filter.whitelist| == |w.value.items|
              && forall i :: 0 <= i < |w.value.items| ==>
                   && Accepted(w.value.items[i], verify, parse)
                   && c.filter.whitelist[i] == parse(w.value.items[i].s).value
  {
    var c := Create(settings, verify, parse);
    if c.Registered? {
      assert c.filter.whitelist == Whitelist(settings, verify, parse).value;
      WhitelistInOrder(settings, verify, parse);
    }
  }

  /** An accepted whitelist has one parsed entry per array item, in order,
      and every item was accepted. */
  lemma WhitelistInOrder(settings: Json, verify: string -> bool, parse: string -> Option<IpMask>)
    ensures var l, w := Whitelist(settings, verify, parse), Get(settings, "whitelist");
            l.Some? && w.Some? && w.value.JArray? ==>
              && |l.value| == |w.value.items|
              && forall i :: 0 <= i < |w.value.items| ==>
                   && Accepted(w.value.items[i], verify, parse)
                   && l.value[i] == parse(w.value.items[i].s).value
  {
  }

  /** `tcplistenerTunnelCreate`'s settings part: fills the tunnel state
      and, when nothing fails, the filter options. */
  method TunnelCreate(settings: Json, verify: string -> bool, parse: string -> Option<IpMask>)
    returns (r: Creation)
    ensures r == Create(settings, verify, parse)
  {
    var state := new ListenerState();
    if !(settings.JObject? && |settings.fields| > 0) {
      return NullTunnel;
    }
    state.noDelay := BoolField(settings, "nodelay");
    var address := StringField(settings, "address");
    if address.None? {
      return NullTunnel;
    }
    state.listenAddress := address.value;
    var iface := StringField(settings, "interface");
    var balanceGroup := StringField(settings, "balance-group");
    var backend := BackendNone;
    var terminated := ParsePortSection(state, settings);
    if terminated {
      return Terminated;
    }
    if state.listenPortMax != 0 {
      backend := BackendDefault;
      var status := BackendStatus(settings);
      if status == 2 {
        backend := BackendIptables;
      }
      if status == 3 {
        backend := BackendSockets;
      }
    }
    var list := ReadWhitelist(settings, verify, parse);
    if list.None? {
      return Terminated;
    }
    return Registered(FilterOption(state.listenAddress, state.listenPortMin, state.listenPortMax, true,
                                   state.noDelay, iface, balanceGroup, backend, list.value));
  }
}
