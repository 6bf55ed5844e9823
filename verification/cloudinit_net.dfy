/** Cloud-init network configuration: the `ipconfigN` parameters, their parser, and the update
    that overlays a new configuration on the current one (proxmox/config_qemu_cloudinit.go). */
module CloudInitNet {
  import opened Text
  import opened Keys
  import opened Settings
  import opened ApiParams

  datatype IPv4 = IPv4(address: Option<string>, dhcp: bool, gateway: Option<string>)

  datatype IPv6 = IPv6(address: Option<string>, dhcp: bool, gateway: Option<string>, slaac: bool)

  datatype Network = Network(ipv4: Option<IPv4>, ipv6: Option<IPv6>)

  type Interfaces = map<nat, Network>

  const INTERFACE_COUNT: nat := 32

  // ---------------------------------------------------------------- validation

  /** Every text `net.ParseIP` and `net.ParseCIDR` accept consists of these characters only. */
  predicate AddressText(s: string) {
    forall c | c in s :: IsDigit(c) || 'a' <= c <= 'f' || 'A' <= c <= 'F' || c == '.' || c == ':' || c == '/'
  }

  predicate Empty(s: Option<string>) { s.None? || s.value == "" }

  predicate ValidAddress(s: Option<string>) { s.Some? ==> AddressText(s.value) }

  /** `CloudInitIPv4Config.Validate`, up to the exact address syntax. */
  predicate Valid4(c: IPv4) {
    ValidAddress(c.address) && ValidAddress(c.gateway) && (c.dhcp ==> Empty(c.address) && Empty(c.gateway))
  }

  predicate Valid6(c: IPv6) {
    && ValidAddress(c.address) && ValidAddress(c.gateway) && !(c.dhcp && c.slaac)
    && (c.dhcp || c.slaac ==> Empty(c.address) && Empty(c.gateway))
  }

  predicate ValidNetwork(n: Network) {
    (n.ipv4.Some? ==> Valid4(n.ipv4.value)) && (n.ipv6.Some? ==> Valid6(n.ipv6.value))
  }

  predicate ValidInterfaces(interfaces: Interfaces) {
    forall i | i in interfaces :: i < INTERFACE_COUNT && ValidNetwork(interfaces[i])
  }

  // ---------------------------------------------------------------- overlay

  /** A new value that is given replaces the current one; an empty one clears it. */
  function Pick(new_: Option<string>, current: Option<string>): Option<string> {
    if new_.None? then current else NonEmpty(new_)
  }

  function NonEmpty(s: Option<string>): Option<string> { if Empty(s) then None else s }

  /** The IPv4 configuration an update results in, nothing when all of it is cleared. */
  function Overlay4(new_: Option<IPv4>, current: Option<IPv4>): Option<IPv4> {
    match (new_, current)
    case (None, None) => None
    case (None, Some(c)) => Something4(IPv4(NonEmpty(c.address), c.dhcp, NonEmpty(c.gateway)))
    case (Some(n), None) => Something4(IPv4(NonEmpty(n.address), n.dhcp, NonEmpty(n.gateway)))
    case (Some(n), Some(c)) =>
      if n.dhcp then Some(IPv4(None, true, None))
      else Something4(IPv4(Pick(n.address, c.address), false, Pick(n.gateway, c.gateway)))
  }

  function Something4(c: IPv4): Option<IPv4> {
    if c.dhcp then Some(IPv4(None, true, None))
    else if c.address.None? && c.gateway.None? then None
    else Some(c)
  }

  function Overlay6(new_: Option<IPv6>, current: Option<IPv6>): Option<IPv6> {
    match (new_, current)
    case (None, None) => None
    case (None, Some(c)) => Something6(IPv6(NonEmpty(c.address), c.dhcp, NonEmpty(c.gateway), c.slaac))
    case (Some(n), None) => Something6(IPv6(NonEmpty(n.address), n.dhcp, NonEmpty(n.gateway), n.slaac))
    case (Some(n), Some(c)) =>
      if n.dhcp then Some(IPv6(None, true, None, false))
      else if n.slaac then Some(IPv6(None, false, None, true))
      else Something6(IPv6(Pick(n.address, c.address), false, Pick(n.gateway, c.gateway), false))
  }

  function Something6(c: IPv6): Option<IPv6> {
    if c.dhcp then Some(IPv6(None, true, None, false))
    else if c.slaac then Some(IPv6(None, false, None, true))
    else if c.address.None? && c.gateway.None? then None
    else Some(c)
  }

  /** The configuration of an interface after an update. */
  function Overlay(new_: Network, current: Option<Network>): Network {
    var c := if current.Some? then current.value else Network(None, None);
    Network(Overlay4(new_.ipv4, c.ipv4), Overlay6(new_.ipv6, c.ipv6))
  }

  const NOTHING := Network(None, None)

  // ---------------------------------------------------------------- printing

  /** The value of the `ip` option. */
  function Ip4(c: Option<IPv4>): Option<string> {
    if c.None? then None else if c.value.dhcp then Some("dhcp") else c.value.address
  }

  function Gateway4(c: Option<IPv4>): Option<string> {
    if c.None? || c.value.dhcp then None else c.value.gateway
  }

  /** The value of the `ip6` option. */
  function Ip6(c: Option<IPv6>): Option<string> {
    if c.None? then None
    else if c.value.dhcp then Some("dhcp")
    else if c.value.slaac then Some("auto")
    else c.value.address
  }

  function Gateway6(c: Option<IPv6>): Option<string> {
    if c.None? || c.value.dhcp || c.value.slaac then None else c.value.gateway
  }

  function Text4(c: Option<IPv4>): string {
    if c.Some? && c.value.dhcp then OptionText("ip", Some("dhcp"))
    else OptionText("ip", Ip4(c)) + OptionText("gw", Gateway4(c))
  }

  function Text6(c: Option<IPv6>): string {
    if c.Some? && c.value.dhcp then OptionText("ip6", Some("dhcp"))
    else if c.Some? && c.value.slaac then OptionText("ip6", Some("auto"))
    else OptionText("ip6", Ip6(c)) + OptionText("gw6", Gateway6(c))
  }

  function NetworkNames(): seq<string> { ["ip", "gw", "ip6", "gw6"] }

  function NetworkValues(n: Network): seq<Option<string>> {
    [Ip4(n.ipv4), Gateway4(n.ipv4), Ip6(n.ipv6), Gateway6(n.ipv6)]
  }

  /** The text of an interface, with a comma in front of every part. */
  function NetworkText(n: Network): string {
    Leading(Parts(NetworkNames(), NetworkValues(n)))
  }

  lemma NetworkTextIsBoth(n: Network)
    ensures NetworkText(n) == Text4(n.ipv4) + Text6(n.ipv6)
  {
    FourOptions(NetworkNames(), NetworkValues(n));
    AppendNothing(OptionText("ip", Some("dhcp")));
    AppendNothing(OptionText("ip6", Some("dhcp")));
    AppendNothing(OptionText("ip6", Some("auto")));
  }

  lemma AppendNothing(s: string)
    ensures s + "" == s
  {
  }

  method MapToApi4(config: IPv4, current: Option<IPv4>) returns (param: string)
    ensures param == Text4(Overlay4(Some(config), current))
  {
    if config.dhcp {
      return OptionText("ip", Some("dhcp"));
    }
    var address, gateway := "", "";
    if current.Some? { // update
      if config.address.Some? {
        if config.address.value != "" {
          address := OptionText("ip", config.address);
        }
      } else if current.value.address.Some? {
        address := OptionText("ip", current.value.address);
      }
      if config.gateway.Some? {
        if config.gateway.value != "" {
          gateway := OptionText("gw", config.gateway);
        }
      } else if current.value.gateway.Some? {
        gateway := OptionText("gw", current.value.gateway);
      }
      return address + gateway;
    }
    if config.address.Some? && config.address.value != "" {
      address := OptionText("ip", config.address);
    }
    if config.gateway.Some? && config.gateway.value != "" {
      gateway := OptionText("gw", config.gateway);
    }
    param := address + gateway;
  }

  method MapToApi6(config: IPv6, current: Option<IPv6>) returns (param: string)
    ensures param == Text6(Overlay6(Some(config), current))
  {
    if config.dhcp {
      return OptionText("ip6", Some("dhcp"));
    }
    if config.slaac {
      return OptionText("ip6", Some("auto"));
    }
    var address, gateway := "", "";
    if current.Some? { // update
      if config.address.Some? {
        if config.address.value != "" {
          address := OptionText("ip6", config.address);
        }
      } else if current.value.address.Some? {
        address := OptionText("ip6", current.value.address);
      }
      if config.gateway.Some? {
        if config.gateway.value != "" {
          gateway := OptionText("gw6", config.gateway);
        }
      } else if current.value.gateway.Some? {
        gateway := OptionText("gw6", current.value.gateway);
      }
      return address + gateway;
    }
    if config.address.Some? && config.address.value != "" {
      address := OptionText("ip6", config.address);
    }
    if config.gateway.Some? && config.gateway.value != "" {
      gateway := OptionText("gw6", config.gateway);
    }
    param := address + gateway;
  }

  /** `CloudInitNetworkConfig.mapToAPI`: a family that is not named keeps its current
      configuration. */
  method MapNetworkToApi(config: Network, current: Option<Network>) returns (param: string)
    ensures param == NetworkText(Overlay(config, current))
  {
    var c := if current.Some? then current.value else NOTHING;
    var text4, text6 := "", "";
    if config.ipv4.Some? {
      text4 := MapToApi4(config.ipv4.value, c.ipv4);
    } else if c.ipv4.Some? {
      text4 := MapToApi4(c.ipv4.value, None);
    }
    if config.ipv6.Some? {
      text6 := MapToApi6(config.ipv6.value, c.ipv6);
    } else if c.ipv6.Some? {
      text6 := MapToApi6(c.ipv6.value, None);
    }
    NetworkTextIsBoth(Overlay(config, current));
    param := text4 + text6;
  }

  // ---------------------------------------------------------------- parsing

  function Read4(m: map<string, string>): Option<IPv4> {
    if "ip" in m || "gw" in m then
      var ip := Lookup(m, "ip");
      Some(IPv4(if ip == Some("dhcp") then None else ip, ip == Some("dhcp"), Lookup(m, "gw")))
    else None
  }

  function Read6(m: map<string, string>): Option<IPv6> {
    if "ip6" in m || "gw6" in m then
      var ip := Lookup(m, "ip6");
      Some(IPv6(if ip == Some("dhcp") || ip == Some("auto") then None else ip, ip == Some("dhcp"), Lookup(m, "gw6"),
                ip == Some("auto")))
    else None
  }

  function ReadNetwork(param: string): Network {
    var m := SettingsMap(param);
    Network(Read4(m), Read6(m))
  }

  /** `CloudInitNetworkConfig.mapToSDK`. */
  method MapNetworkToSdk(param: string) returns (config: Network)
    ensures config == ReadNetwork(param)
  {
    var params := SplitStringOfSettings(param);
    var ipv4Set, ipv6Set := false, false;
    var ipv4, ipv6 := IPv4(None, false, None), IPv6(None, false, None, false);
    if "ip" in params {
      ipv4Set := true;
      if params["ip"] == "dhcp" {
        ipv4 := ipv4.(dhcp := true);
      } else {
        ipv4 := ipv4.(address := Some(params["ip"]));
      }
    }
    if "gw" in params {
      ipv4Set := true;
      ipv4 := ipv4.(gateway := Some(params["gw"]));
    }
    if "ip6" in params {
      ipv6Set := true;
      if params["ip6"] == "dhcp" {
        ipv6 := ipv6.(dhcp := true);
      } else if params["ip6"] == "auto" {
        ipv6 := ipv6.(slaac := true);
      } else {
        ipv6 := ipv6.(address := Some(params["ip6"]));
      }
    }
    if "gw6" in params {
      ipv6Set := true;
      ipv6 := ipv6.(gateway := Some(params["gw6"]));
    }
    config := Network(if ipv4Set then Some(ipv4) else None, if ipv6Set then Some(ipv6) else None);
  }

  // ---------------------------------------------------------------- reading back

  /** A configuration as it is printed: one that reads back as itself. */
  predicate Settled(n: Network) {
    && (n.ipv4.Some? ==>
         var c := n.ipv4.value;
         && ValidAddress(c.address) && ValidAddress(c.gateway) && Something4(c) == Some(c))
    && (n.ipv6.Some? ==>
         var c := n.ipv6.value;
         && ValidAddress(c.address) && ValidAddress(c.gateway) && Something6(c) == Some(c))
  }

  /** The addresses consist of the characters of addresses, as everything the server accepts. */
  predicate PlainNetwork(n: Network) {
    && (n.ipv4.Some? ==> ValidAddress(n.ipv4.value.address) && ValidAddress(n.ipv4.value.gateway))
    && (n.ipv6.Some? ==> ValidAddress(n.ipv6.value.address) && ValidAddress(n.ipv6.value.gateway))
  }

  lemma OverlayIsSettled(new_: Network, current: Option<Network>)
    requires PlainNetwork(new_) && (current.Some? ==> PlainNetwork(current.value))
    ensures Settled(Overlay(new_, current))
  {
  }

  // ---------------------------------------------------------------- what an update is for

  /** A field of an interface: a value that is given is there, an empty one removes it, and without one it
      stays. */
  predicate FieldAsAsked(new_: Option<string>, before: Option<string>, after: Option<string>) {
    match new_
    case None => after == before
    case Some(value) => after == if value == "" then None else new_
  }

  /** An empty field that is there goes, any other stays. */
  predicate FieldKept(before: Option<string>, after: Option<string>) {
    after == if before == Some("") then None else before
  }

  function Address4(c: Option<IPv4>): Option<string> { if c.Some? then c.value.address else None }

  function Router4(c: Option<IPv4>): Option<string> { if c.Some? then c.value.gateway else None }

  predicate Dhcp4(c: Option<IPv4>) { c.Some? && c.value.dhcp }

  function Address6(c: Option<IPv6>): Option<string> { if c.Some? then c.value.address else None }

  function Router6(c: Option<IPv6>): Option<string> { if c.Some? then c.value.gateway else None }

  predicate Dhcp6(c: Option<IPv6>) { c.Some? && c.value.dhcp }

  predicate Slaac6(c: Option<IPv6>) { c.Some? && c.value.slaac }

  /** DHCP of a family that is named is as given, and takes the place of the addresses; a family that is
      not named stays. */
  predicate AsAsked4(new_: Option<IPv4>, before: Option<IPv4>, after: Option<IPv4>) {
    && Dhcp4(after) == (if new_.Some? then new_.value.dhcp else Dhcp4(before))
    && (if Dhcp4(after) then Address4(after).None? && Router4(after).None?
        else if new_.Some? then
          && FieldAsAsked(new_.value.address, Address4(before), Address4(after))
          && FieldAsAsked(new_.value.gateway, Router4(before), Router4(after))
        else FieldKept(Address4(before), Address4(after)) && FieldKept(Router4(before), Router4(after)))
  }

  /** The same for IPv6, where DHCP goes before SLAAC. */
  predicate AsAsked6(new_: Option<IPv6>, before: Option<IPv6>, after: Option<IPv6>) {
    && Dhcp6(after) == (if new_.Some? then new_.value.dhcp else Dhcp6(before))
    && Slaac6(after) == (if new_.Some? then new_.value.slaac && !new_.value.dhcp
                         else Slaac6(before) && !Dhcp6(before))
    && (if Dhcp6(after) || Slaac6(after) then Address6(after).None? && Router6(after).None?
        else if new_.Some? then
          && FieldAsAsked(new_.value.address, Address6(before), Address6(after))
          && FieldAsAsked(new_.value.gateway, Router6(before), Router6(after))
        else FieldKept(Address6(before), Address6(after)) && FieldKept(Router6(before), Router6(after)))
  }

  /** The interface is as asked for, field by field. */
  predicate NetworkAsAsked(new_: Network, before: Network, after: Network) {
    AsAsked4(new_.ipv4, before.ipv4, after.ipv4) && AsAsked6(new_.ipv6, before.ipv6, after.ipv6)
  }

  lemma OverlayIsAsAsked(new_: Network, current: Option<Network>)
    ensures NetworkAsAsked(new_, if current.Some? then current.value else NOTHING, Overlay(new_, current))
  {
  }

  lemma AddressIsPlain(s: string)
    requires AddressText(s)
    ensures ',' !in s && s != "dhcp" && s != "auto"
  {
    assert "dhcp"[1] == 'h' && "auto"[1] == 'u';
    assert 'h' !in s && 'u' !in s;
    assert 'h' in "dhcp" && 'u' in "auto";
  }

  lemma ValuesArePlain(n: Network)
    requires Settled(n)
    ensures forall v | v in NetworkValues(n) :: v.Some? ==> ',' !in v.value
  {
    if n.ipv4.Some? {
      OptionIsPlain(n.ipv4.value.address);
      OptionIsPlain(n.ipv4.value.gateway);
    }
    if n.ipv6.Some? {
      OptionIsPlain(n.ipv6.value.address);
      OptionIsPlain(n.ipv6.value.gateway);
    }
  }

  lemma OptionIsPlain(s: Option<string>)
    requires ValidAddress(s)
    ensures s.Some? ==> ',' !in s.value && s != Some("dhcp") && s != Some("auto")
  {
    if s.Some? {
      AddressIsPlain(s.value);
    }
  }

  /** A settled configuration reads back as itself; its text is empty exactly when there is none. */
  lemma NetworkReadsBack(n: Network)
    requires Settled(n)
    ensures NetworkText(n) == "" <==> n == NOTHING
    ensures n != NOTHING ==> |NetworkText(n)| > 2 && ReadNetwork(NetworkText(n)[1..]) == n
  {
    var names, values := NetworkNames(), NetworkValues(n);
    if n == NOTHING {
      NetworkTextIsBoth(n);
    } else {
      ValuesArePlain(n);
      SomethingPrinted(n);
      ReadPrintedBare(names, values);
      var m := SettingsMap(NetworkText(n)[1..]);
      assert Lookup(m, names[0]) == values[0];
      assert Lookup(m, names[1]) == values[1];
      assert Lookup(m, names[2]) == values[2];
      assert Lookup(m, names[3]) == values[3];
      ReadsBack4(m, n);
      ReadsBack6(m, n);
    }
  }

  lemma SomethingPrinted(n: Network)
    requires Settled(n) && n != NOTHING
    ensures Parts(NetworkNames(), NetworkValues(n)) != [] && |NetworkText(n)| > 2
  {
    NetworkTextIsBoth(n);
    OptionTextLength("ip", Ip4(n.ipv4));
    OptionTextLength("gw", Gateway4(n.ipv4));
    OptionTextLength("ip6", Ip6(n.ipv6));
    OptionTextLength("gw6", Gateway6(n.ipv6));
    OptionTextLength("ip", Some("dhcp"));
    OptionTextLength("ip6", Some("dhcp"));
    OptionTextLength("ip6", Some("auto"));
  }

  lemma OptionTextLength(name: string, value: Option<string>)
    ensures value.Some? ==> |OptionText(name, value)| >= |name| + 2
  {
  }

  lemma ReadsBack4(m: map<string, string>, n: Network)
    requires Settled(n)
    requires Lookup(m, "ip") == Ip4(n.ipv4) && Lookup(m, "gw") == Gateway4(n.ipv4)
    ensures Read4(m) == n.ipv4
  {
    if n.ipv4.Some? {
      OptionIsPlain(n.ipv4.value.address);
    }
  }

  lemma ReadsBack6(m: map<string, string>, n: Network)
    requires Settled(n)
    requires Lookup(m, "ip6") == Ip6(n.ipv6) && Lookup(m, "gw6") == Gateway6(n.ipv6)
    ensures Read6(m) == n.ipv6
  {
    if n.ipv6.Some? {
      OptionIsPlain(n.ipv6.value.address);
    }
  }
}
