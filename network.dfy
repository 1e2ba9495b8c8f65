/** The LXC network parameter compiler of ProxmoxAction (add_lxc_network_config and its
    helpers), as functions on values. The imperative driver that runs it against the
    machine's descriptor list and the caller's parameter hash is in module ProxmoxAction
    and is proved equal to CompileNetworks below. */
module LxcNetwork {
  import opened Wrappers
  import opened Errors
  import opened RubyValues

  /** The first element of a Vagrant network declaration `[kind, options]`. */
  datatype NetworkKind = ForwardedPort | PrivateNetwork | PublicNetwork

  /** One entry of `config.vm.networks`: the pair `[kind, options hash]`. */
  datatype Network = Network(kind: NetworkKind, options: Options)

  /* ---------------- interface-name detection ---------------- */

  /** `/^net(\d+)$/` read as a whole-string pattern. */
  predicate MatchesNetId(id: string) {
    |id| > 3 && id[..3] == "net" && AllDigits(id[3..])
  }

  /** `id[/^net(\d+)$/, 1]`: the captured digits, or nil when the pattern does not match. */
  function NetIfId(id: string): Option<string> {
    if MatchesNetId(id) then Some(id[3..]) else None
  }

  /** The text a regex index `v[re, 1]` works on: String and Symbol have `[]` with a
      Regexp; nil, true and false have no `[]`, and Integer#[] rejects a Regexp. */
  function IndexableText(v: Value): Option<string> {
    match v
    case Str(s) => Some(s)
    case Sym(name) => Some(name)
    case _ => None
  }

  /** get_lxc_interface_name: the interface name derived from `:net_id` when the descriptor
      has no `:interface`. The guard that returns nil when the capture equals the net_id
      is kept; the third ensures shows that it never fires, so a net_id that does not have
      the form net<N> yields the bare "eth". */
  function GetLxcInterfaceName(c: Options): (r: Result<Option<string>, Error>)
    ensures r.Failure? <==> "net_id" in c && "interface" !in c && IndexableText(c["net_id"]).None?
    ensures r.Failure? ==> r.error == RuntimeFault
    ensures r == Success(None) <==> "net_id" !in c || "interface" in c
    ensures r.Success? && r.value.Some? ==> |r.value.value| >= 3 && r.value.value[..3] == "eth"
  {
    if "net_id" !in c then Success(None)
    else if "interface" in c then Success(None)
    else
      match IndexableText(c["net_id"])
      case None => Failure(RuntimeFault)
      case Some(id) =>
        var netifId := NetIfId(id);
        if netifId == Some(id) then Success(None)
        else Success(Some("eth" + (if netifId.Some? then netifId.value else "")))
  }

  /** A slot `net<digits>` with no explicit interface is given the interface `eth<digits>`,
      with the digits as written (so `net007` gives `eth007`). */
  lemma InterfaceFromSlotNumber(c: Options, digits: string)
    requires "interface" !in c
    requires |digits| > 0 && AllDigits(digits)
    requires "net_id" in c && IndexableText(c["net_id"]) == Some("net" + digits)
    ensures GetLxcInterfaceName(c) == Success(Some("eth" + digits))
  {
    var id := "net" + digits;
    assert id[..3] == "net" && id[3..] == digits;
    assert MatchesNetId(id);
    assert NetIfId(id) == Some(digits);
    assert |digits| < |id|;
  }

  /** Any other net_id gives the bare "eth": the capture is nil and "eth#{nil}" is "eth". */
  lemma InterfaceForOtherNetId(c: Options, id: string)
    requires "interface" !in c
    requires "net_id" in c && IndexableText(c["net_id"]) == Some(id) && !MatchesNetId(id)
    ensures GetLxcInterfaceName(c) == Success(Some("eth"))
  {
    assert NetIfId(id) == None;
    assert "eth" + "" == "eth";
  }

  /** `c' ` is `c`, or `c` with an `:interface` added where it had none. */
  predicate DetectedFrom(c: Options, c': Options) {
    c' == c || ("interface" !in c && "interface" in c' && c' == c["interface" := c'["interface"]])
  }

  /** Lines 80-81: store the detected name into the descriptor when there is one. */
  function DetectInterface(c: Options): (r: Result<Options, Error>)
    ensures r.Success? ==> DetectedFrom(c, r.value)
    ensures "interface" in c ==> r == Success(c)
    ensures r.Success? && "net_id" in c ==> "interface" in r.value
    ensures r.Failure? <==> GetLxcInterfaceName(c).Failure?
    ensures GetLxcInterfaceName(c) == Success(None) ==> r == Success(c)
    ensures GetLxcInterfaceName(c).Success? && GetLxcInterfaceName(c).value.Some? ==>
              r == Success(c["interface" := Str(GetLxcInterfaceName(c).value.value)])
  {
    match GetLxcInterfaceName(c)
    case Failure(e) => Failure(e)
    case Success(auto) =>
      if auto.Some? then Success(c["interface" := Str(auto.value)]) else Success(c)
  }

  /* ---------------- CIDR helpers ---------------- */

  /** get_ip_cidr4: `ip/ip_cidr` when both keys are present (false, here None, otherwise). */
  function GetIpCidr4(c: Options): (r: Option<string>)
    ensures r.Some? <==> "ip" in c && "ip_cidr" in c
    ensures r.Some? ==> r.value == Render(c["ip"]) + "/" + Render(c["ip_cidr"])
  {
    if "ip" !in c then None
    else if "ip_cidr" !in c then None
    else Some(Render(c["ip"]) + "/" + Render(c["ip_cidr"]))
  }

  /** get_ip_cidr6: the same for `ip6` and `ip6_cidr`. */
  function GetIpCidr6(c: Options): (r: Option<string>)
    ensures r.Some? <==> "ip6" in c && "ip6_cidr" in c
    ensures r.Some? ==> r.value == Render(c["ip6"]) + "/" + Render(c["ip6_cidr"])
  {
    if "ip6" !in c then None
    else if "ip6_cidr" !in c then None
    else Some(Render(c["ip6"]) + "/" + Render(c["ip6_cidr"]))
  }

  /** get_ip_cidr: the `:id` guard comes before the selector check. */
  function GetIpCidr(c: Options, selector: string): (r: Result<Option<string>, Error>)
    ensures "id" !in c ==> r == Failure(InternalPluginError)
    ensures "id" in c && selector != "ip" && selector != "ip6" ==> r == Failure(InvalidCidrTypeError(selector))
    ensures r.Success? <==> "id" in c && (selector == "ip" || selector == "ip6")
    ensures r.Success? && selector == "ip" ==> (r.value.Some? <==> "ip" in c && "ip_cidr" in c)
    ensures r.Success? && selector == "ip6" ==> (r.value.Some? <==> "ip6" in c && "ip6_cidr" in c)
    ensures r.Success? && selector == "ip" ==> r.value == GetIpCidr4(c)
    ensures r.Success? && selector == "ip6" ==> r.value == GetIpCidr6(c)
  {
    if "id" !in c then Failure(InternalPluginError)
    else if selector == "ip" then Success(GetIpCidr4(c))
    else if selector == "ip6" then Success(GetIpCidr6(c))
    else Failure(InvalidCidrTypeError(selector))
  }

  /* ---------------- the documented field order ---------------- */

  /** The keys of the network parameter format (lines 57-62). */
  datatype NetKey = Name | Bridge | Firewall | Gw | Gw6 | Hwaddr | Ip | Ip6 | Mtu | Rate | Tag | Trunks | Type

  /** The key as written in the parameter string; for the keys copied from the descriptor
      it is also the descriptor key they are copied from. */
  function KeyName(k: NetKey): string {
    match k
    case Name => "name"
    case Bridge => "bridge"
    case Firewall => "firewall"
    case Gw => "gw"
    case Gw6 => "gw6"
    case Hwaddr => "hwaddr"
    case Ip => "ip"
    case Ip6 => "ip6"
    case Mtu => "mtu"
    case Rate => "rate"
    case Tag => "tag"
    case Trunks => "trunks"
    case Type => "type"
  }

  /** The position of each key in the documented format. */
  function Rank(k: NetKey): nat {
    match k
    case Name => 0
    case Bridge => 1
    case Firewall => 2
    case Gw => 3
    case Gw6 => 4
    case Hwaddr => 5
    case Ip => 6
    case Ip6 => 7
    case Mtu => 8
    case Rate => 9
    case Tag => 10
    case Trunks => 11
    case Type => 12
  }

  /** The documented format as a key list. */
  const NetworkKeyOrder: seq<NetKey> :=
    [Name, Bridge, Firewall, Gw, Gw6, Hwaddr, Ip, Ip6, Mtu, Rate, Tag, Trunks, Type]

  /** One `key=value` field of a network parameter string. */
  datatype Field = Field(key: NetKey, value: string)

  /** IPv4 addressing (lines 105-111): dhcp when `:type` or `:ip` says so, else ip/cidr. */
  function Ipv4Value(c: Options): Option<string> {
    if Lookup(c, "type") == Str("dhcp") || ("ip" in c && c["ip"] == Str("dhcp")) then Some("dhcp")
    else GetIpCidr4(c)
  }

  /** IPv6 addressing (lines 113-119): dhcp only via `:ip6`, else ip6/cidr. */
  function Ipv6Value(c: Options): Option<string> {
    if "ip6" in c && c["ip6"] == Str("dhcp") then Some("dhcp") else GetIpCidr6(c)
  }

  /** The value a key of the documented format takes for descriptor `c`, or None when the
      field is left out. Every key other than name/ip/ip6/type is copied raw when present. */
  function NetworkSlot(c: Options, k: NetKey): Option<string> {
    match k
    case Name => Some(Render(Lookup(c, "interface")))
    case Ip => Ipv4Value(c)
    case Ip6 => Ipv6Value(c)
    case Type => Some("veth")
    case _ => if KeyName(k) in c then Some(Render(c[KeyName(k)])) else None
  }

  function SlotField(c: Options, k: NetKey): seq<Field> {
    match NetworkSlot(c, k)
    case None => []
    case Some(v) => [Field(k, v)]
  }

  /** The fields of `c` for the keys `keys`, in that order, leaving out absent ones. */
  function Collect(c: Options, keys: seq<NetKey>): seq<Field>
    decreases |keys|
  {
    if keys == [] then [] else Collect(c, keys[..|keys| - 1]) + SlotField(c, keys[|keys| - 1])
  }

  /** The fields of the network parameter string of descriptor `c`. */
  function NetworkFields(c: Options): seq<Field> {
    Collect(c, NetworkKeyOrder)
  }

  function FieldText(f: Field): string {
    KeyName(f.key) + "=" + f.value
  }

  function FieldTexts(fs: seq<Field>): (ts: seq<string>)
    ensures |ts| == |fs|
    ensures forall i :: 0 <= i < |fs| ==> ts[i] == FieldText(fs[i])
  {
    seq(|fs|, i requires 0 <= i < |fs| => FieldText(fs[i]))
  }

  /** The parameter string stored for a network slot. */
  function NetworkEntry(c: Options): string {
    Join(FieldTexts(NetworkFields(c)), ",")
  }

  predicate Increasing(keys: seq<NetKey>) {
    forall p, q :: 0 <= p < q < |keys| ==> Rank(keys[p]) < Rank(keys[q])
  }

  lemma CollectStep(c: Options, keys: seq<NetKey>, k: nat)
    requires k < |keys|
    ensures Collect(c, keys[..k + 1]) == Collect(c, keys[..k]) + SlotField(c, keys[k])
  {
    assert keys[..k + 1][..k] == keys[..k];
  }

  /** A field is emitted exactly when its key is listed and the descriptor gives it a value. */
  lemma {:induction false} CollectMember(c: Options, keys: seq<NetKey>, f: Field)
    ensures f in Collect(c, keys) <==> f.key in keys && NetworkSlot(c, f.key) == Some(f.value)
    decreases |keys|
  {
    if keys != [] {
      var init := keys[..|keys| - 1];
      CollectMember(c, init, f);
      assert keys == init + [keys[|keys| - 1]];
    }
  }

  /** The fields come out in the order of `keys`. */
  lemma {:induction false} CollectOrdered(c: Options, keys: seq<NetKey>)
    requires Increasing(keys)
    ensures forall i :: 0 <= i < |Collect(c, keys)| ==> Collect(c, keys)[i].key in keys
    ensures forall i, j :: 0 <= i < j < |Collect(c, keys)| ==>
              Rank(Collect(c, keys)[i].key) < Rank(Collect(c, keys)[j].key)
    decreases |keys|
  {
    if keys != [] {
      var n := |keys| - 1;
      var init := keys[..n];
      var fs := Collect(c, keys);
      var fi := Collect(c, init);
      CollectOrdered(c, init);
      assert fs == fi + SlotField(c, keys[n]);
      forall i | 0 <= i < |fi|
        ensures fs[i].key in keys && Rank(fs[i].key) < Rank(keys[n])
      {
        assert fs[i] == fi[i];
        var p :| 0 <= p < n && init[p] == fi[i].key;
        assert keys[p] == fi[i].key;
      }
    }
  }

  /** The first listed key with a value gives the first field. */
  lemma {:induction false} CollectFirst(c: Options, keys: seq<NetKey>)
    requires |keys| > 0 && NetworkSlot(c, keys[0]).Some?
    ensures |Collect(c, keys)| > 0 && Collect(c, keys)[0] == Field(keys[0], NetworkSlot(c, keys[0]).value)
    decreases |keys|
  {
    if |keys| > 1 {
      var init := keys[..|keys| - 1];
      CollectFirst(c, init);
    }
  }

  lemma NetworkKeyOrderRanks()
    ensures |NetworkKeyOrder| == 13
    ensures forall p :: 0 <= p < 13 ==> Rank(NetworkKeyOrder[p]) == p
    ensures forall k :: NetworkKeyOrder[Rank(k)] == k
    ensures Increasing(NetworkKeyOrder)
  {
    forall k ensures NetworkKeyOrder[Rank(k)] == k {
      match k
      case Name => case Bridge => case Firewall => case Gw => case Gw6 => case Hwaddr =>
      case Ip => case Ip6 => case Mtu => case Rate => case Tag => case Trunks => case Type =>
    }
  }

  /** The network parameter string: `name` first, `type=veth` last, and every field in the
      documented order of lines 57-62, hence each key at most once. */
  lemma NetworkFieldsFormat(c: Options)
    ensures var fs := NetworkFields(c);
            && |fs| >= 2
            && fs[0] == Field(Name, Render(Lookup(c, "interface")))
            && fs[|fs| - 1] == Field(Type, "veth")
            && (forall i, j :: 0 <= i < j < |fs| ==> Rank(fs[i].key) < Rank(fs[j].key))
            && (forall i, j :: 0 <= i < j < |fs| ==> fs[i].key != fs[j].key)
  {
    var fs := NetworkFields(c);
    NetworkKeyOrderRanks();
    CollectOrdered(c, NetworkKeyOrder);
    CollectFirst(c, NetworkKeyOrder);
    assert NetworkKeyOrder == NetworkKeyOrder[..12] + [Type];
    assert fs == Collect(c, NetworkKeyOrder[..12]) + [Field(Type, "veth")];
  }

  /** A field is in the string exactly when the descriptor gives its key a value. */
  lemma NetworkFieldMember(c: Options, f: Field)
    ensures f in NetworkFields(c) <==> NetworkSlot(c, f.key) == Some(f.value)
  {
    CollectMember(c, NetworkKeyOrder, f);
    NetworkKeyOrderRanks();
    assert NetworkKeyOrder[Rank(f.key)] == f.key;
  }

  /** A key other than name/ip/ip6/type is emitted, raw, exactly when the descriptor has it. */
  lemma PlainKeyCopied(c: Options, k: NetKey)
    requires k !in {Name, Ip, Ip6, Type}
    ensures KeyName(k) in c ==> Field(k, Render(c[KeyName(k)])) in NetworkFields(c)
    ensures KeyName(k) !in c ==> forall f :: f in NetworkFields(c) ==> f.key != k
  {
    if KeyName(k) in c {
      NetworkFieldMember(c, Field(k, Render(c[KeyName(k)])));
    } else {
      forall f | f in NetworkFields(c) ensures f.key != k {
        NetworkFieldMember(c, f);
      }
    }
  }

  predicate Dhcp4(c: Options) {
    Lookup(c, "type") == Str("dhcp") || Lookup(c, "ip") == Str("dhcp")
  }

  /** IPv4 addressing: at most one `ip` field; `dhcp` when `:type` or `:ip` is "dhcp", else
      `ip/ip_cidr` when both are present, and no `ip` field at all otherwise. */
  lemma Ipv4Addressing(c: Options)
    ensures var fs := NetworkFields(c);
            && (forall i, j :: 0 <= i < j < |fs| && fs[i].key == Ip ==> fs[j].key != Ip)
            && (Dhcp4(c) ==> Field(Ip, "dhcp") in fs)
            && (!Dhcp4(c) && "ip" in c && "ip_cidr" in c ==>
                  Field(Ip, Render(c["ip"]) + "/" + Render(c["ip_cidr"])) in fs)
            && (!Dhcp4(c) && !("ip" in c && "ip_cidr" in c) ==> forall f :: f in fs ==> f.key != Ip)
  {
    NetworkFieldsFormat(c);
    var fs := NetworkFields(c);
    if Dhcp4(c) {
      NetworkFieldMember(c, Field(Ip, "dhcp"));
    } else if "ip" in c && "ip_cidr" in c {
      NetworkFieldMember(c, Field(Ip, Render(c["ip"]) + "/" + Render(c["ip_cidr"])));
    } else {
      forall f | f in fs ensures f.key != Ip {
        NetworkFieldMember(c, f);
      }
    }
  }

  /** IPv6 addressing: the same with `ip6`/`ip6_cidr`, and no `:type` shortcut. */
  lemma Ipv6Addressing(c: Options)
    ensures var fs := NetworkFields(c);
            && (forall i, j :: 0 <= i < j < |fs| && fs[i].key == Ip6 ==> fs[j].key != Ip6)
            && (Lookup(c, "ip6") == Str("dhcp") ==> Field(Ip6, "dhcp") in fs)
            && (Lookup(c, "ip6") != Str("dhcp") && "ip6" in c && "ip6_cidr" in c ==>
                  Field(Ip6, Render(c["ip6"]) + "/" + Render(c["ip6_cidr"])) in fs)
            && (Lookup(c, "ip6") != Str("dhcp") && !("ip6" in c && "ip6_cidr" in c) ==>
                  forall f :: f in fs ==> f.key != Ip6)
  {
    NetworkFieldsFormat(c);
    var fs := NetworkFields(c);
    if Lookup(c, "ip6") == Str("dhcp") {
      NetworkFieldMember(c, Field(Ip6, "dhcp"));
    } else if "ip6" in c && "ip6_cidr" in c {
      NetworkFieldMember(c, Field(Ip6, Render(c["ip6"]) + "/" + Render(c["ip6_cidr"])));
    } else {
      forall f | f in fs ensures f.key != Ip6 {
        NetworkFieldMember(c, f);
      }
    }
  }

  /** The joined string starts with `name=<interface>` and ends with `,type=veth`. */
  lemma NetworkEntryBounds(c: Options)
    ensures var e := NetworkEntry(c);
            var head := "name=" + Render(Lookup(c, "interface"));
            && |head| <= |e| && e[..|head|] == head
            && |",type=veth"| <= |e| && e[|e| - |",type=veth"|..] == ",type=veth"
  {
    NetworkFieldsFormat(c);
    var fs := NetworkFields(c);
    var ts := FieldTexts(fs);
    JoinStartsWithFirst(ts, ",");
    JoinEndsWithLast(ts, ",");
    var name := Render(Lookup(c, "interface"));
    FirstAndLastTexts(name);
    assert ts[0] == FieldText(Field(Name, name)) == "name=" + name;
    assert "," + ts[|ts| - 1] == ",type=veth";
  }

  lemma FirstAndLastTexts(name: string)
    ensures FieldText(Field(Name, name)) == "name=" + name
    ensures "," + FieldText(Field(Type, "veth")) == ",type=veth"
  {
    assert KeyName(Name) + "=" == "name=";
  }

  /* ---------------- one descriptor, and the whole pass ---------------- */

  datatype StepResult =
    | Skipped
    | Rejected(updated: Network, error: Error)
    | Compiled(updated: Network, key: ParamKey, entry: string)

  /** One iteration of the loop of add_lxc_network_config (lines 64-131). `updated` is the
      descriptor after line 81 has (possibly) stored the detected interface into it. */
  function Step(n: Network): StepResult {
    if n.kind == ForwardedPort then Skipped
    else if "net_id" !in n.options then Rejected(n, VMConfigError(NoNetId))
    else
      match DetectInterface(n.options)
      case Failure(e) => Rejected(n, e)
      case Success(c) =>
        var n' := Network(n.kind, c);
        if "interface" !in c then Rejected(n', VMConfigError(NoInterface))
        else if "bridge" !in c then Rejected(n', VMConfigError(NoBridge))
        else Compiled(n', StrKey(Render(c["net_id"])), NetworkEntry(c))
  }

  /** What one descriptor does: forwarded ports are skipped; a descriptor without `:net_id`
      or `:bridge` raises VMConfigError; the `:interface` check of lines 83-87 can never
      fail; a compiled descriptor is stored under `net_id.to_s`; and the descriptor is
      changed at most by adding the detected `:interface`. */
  lemma StepOutcomes(n: Network)
    ensures Step(n).Skipped? <==> n.kind == ForwardedPort
    ensures Step(n).Rejected? && Step(n).error == VMConfigError(NoNetId) <==>
              n.kind != ForwardedPort && "net_id" !in n.options
    ensures !(Step(n).Rejected? && Step(n).error == VMConfigError(NoInterface))
    ensures Step(n).Rejected? && Step(n).error == VMConfigError(NoBridge) <==>
              && n.kind != ForwardedPort && "net_id" in n.options && "bridge" !in n.options
              && GetLxcInterfaceName(n.options).Success?
    ensures Step(n).Rejected? && Step(n).error == RuntimeFault <==>
              n.kind != ForwardedPort && "net_id" in n.options && GetLxcInterfaceName(n.options).Failure?
    ensures !Step(n).Skipped? ==> Step(n).updated.kind == n.kind && DetectedFrom(n.options, Step(n).updated.options)
    ensures !Step(n).Skipped? && "net_id" in n.options && DetectInterface(n.options).Success? ==>
              Step(n).updated.options == DetectInterface(n.options).value
    ensures Step(n).Compiled? ==>
              && "net_id" in n.options && "bridge" in n.options && "interface" in Step(n).updated.options
              && Step(n).key == StrKey(Render(n.options["net_id"]))
              && Step(n).entry == NetworkEntry(Step(n).updated.options)
  {
    if n.kind != ForwardedPort && "net_id" in n.options {
      var d := DetectInterface(n.options);
      if d.Success? {
        assert "interface" in d.value;
        assert "net_id" in d.value && d.value["net_id"] == n.options["net_id"];
        assert "bridge" in d.value <==> "bridge" in n.options;
      }
    }
  }

  /** A declaration with slot `net<digits>`, a bridge and no interface is compiled with
      the detected interface `eth<digits>` stored into it, under the key `net<digits>`, and
      its parameter string begins with `name=eth<digits>`. */
  lemma SlotDeclarationCompiled(n: Network, digits: string)
    requires n.kind != ForwardedPort && "interface" !in n.options && "bridge" in n.options
    requires |digits| > 0 && AllDigits(digits)
    requires "net_id" in n.options && n.options["net_id"] == Str("net" + digits)
    ensures Step(n).Compiled?
    ensures Step(n).updated == Network(n.kind, n.options["interface" := Str("eth" + digits)])
    ensures Step(n).key == StrKey("net" + digits)
    ensures var head := "name=eth" + digits;
            |head| <= |Step(n).entry| && Step(n).entry[..|head|] == head
  {
    InterfaceFromSlotNumber(n.options, digits);
    StepOutcomes(n);
    var c := n.options["interface" := Str("eth" + digits)];
    NetworkEntryBounds(c);
    assert Render(Lookup(c, "interface")) == "eth" + digits;
    assert "name=" + ("eth" + digits) == "name=eth" + digits;
  }

  /** The state after add_lxc_network_config: the descriptor list (with detected interfaces
      stored into it), the parameter hash, and whether an error was raised. */
  datatype NetPass = NetPass(networks: seq<Network>, params: Params, outcome: Outcome<Error>)

  /** The loop of add_lxc_network_config, given what each iteration does: iterations run in
      order, write their entry into the parameter hash and their descriptor back into the
      list, and the first rejected one raises, ending the loop. */
  function Apply(nets: seq<Network>, steps: seq<StepResult>, params: Params): (r: NetPass)
    requires |steps| == |nets|
    ensures |r.networks| == |nets|
    decreases |nets|
  {
    if nets == [] then NetPass([], params, Pass)
    else
      match steps[0]
      case Skipped =>
        var rest := Apply(nets[1..], steps[1..], params);
        NetPass([nets[0]] + rest.networks, rest.params, rest.outcome)
      case Rejected(n, e) =>
        NetPass([n] + nets[1..], params, Fail(e))
      case Compiled(n, k, v) =>
        var rest := Apply(nets[1..], steps[1..], params[k := v]);
        NetPass([n] + rest.networks, rest.params, rest.outcome)
  }

  /** What each descriptor of the list does on its own. */
  function Steps(nets: seq<Network>): (s: seq<StepResult>)
    ensures |s| == |nets| && forall i :: 0 <= i < |nets| ==> s[i] == Step(nets[i])
  {
    seq(|nets|, i requires 0 <= i < |nets| => Step(nets[i]))
  }

  /** add_lxc_network_config on descriptor list `nets` and parameter hash `params`. */
  function CompileNetworks(nets: seq<Network>, params: Params): NetPass {
    Apply(nets, Steps(nets), params)
  }

  lemma StepsTail(nets: seq<Network>, i: nat)
    requires i <= |nets|
    ensures Steps(nets)[i..] == Steps(nets[i..])
  {
  }

  /** The parameter hash after a step that did not raise. */
  function AfterStep(s: StepResult, params: Params): Params {
    if s.Compiled? then params[s.key := s.entry] else params
  }

  /** The descriptor a step that did not raise leaves in the list. */
  function StoredBack(n: Network, s: StepResult): Network {
    if s.Compiled? then s.updated else n
  }

  /** A pass whose first step does not raise continues with the rest of the list. */
  lemma ApplyUnfold(nets: seq<Network>, steps: seq<StepResult>, params: Params)
    requires |steps| == |nets| && nets != [] && !steps[0].Rejected?
    ensures var rest := Apply(nets[1..], steps[1..], AfterStep(steps[0], params));
            Apply(nets, steps, params) == NetPass([StoredBack(nets[0], steps[0])] + rest.networks, rest.params, rest.outcome)
  {
  }

  /** The error and the parameter hash of a pass whose step `i` is the first to raise. */
  lemma {:induction false} ApplyFailFastParams(nets: seq<Network>, steps: seq<StepResult>, params: Params, i: nat)
    requires |steps| == |nets| && i < |nets| && steps[i].Rejected?
    requires forall j :: 0 <= j < i ==> !steps[j].Rejected?
    ensures var r := Apply(nets, steps, params);
            var before := Apply(nets[..i], steps[..i], params);
            r.outcome == Fail(steps[i].error) && before.outcome == Pass && r.params == before.params
    decreases i
  {
    if i == 0 {
      assert nets[..0] == [] && steps[..0] == [];
    } else {
      assert nets[..i][1..] == nets[1..][..i - 1] && steps[..i][1..] == steps[1..][..i - 1];
      ApplyFailFastParams(nets[1..], steps[1..], AfterStep(steps[0], params), i - 1);
      ApplyUnfold(nets, steps, params);
      ApplyUnfold(nets[..i], steps[..i], params);
    }
  }

  lemma ConsAssoc<T>(h: T, b: seq<T>, u: T, t: seq<T>)
    ensures [h] + (b + [u] + t) == [h] + b + [u] + t
  {
  }

  /** The descriptor list of a pass whose step `i` is the first to raise. */
  lemma {:induction false} ApplyFailFastNetworks(nets: seq<Network>, steps: seq<StepResult>, params: Params, i: nat)
    requires |steps| == |nets| && i < |nets| && steps[i].Rejected?
    requires forall j :: 0 <= j < i ==> !steps[j].Rejected?
    ensures Apply(nets, steps, params).networks ==
              Apply(nets[..i], steps[..i], params).networks + [steps[i].updated] + nets[i + 1..]
    decreases i
  {
    if i == 0 {
      assert nets[..0] == [] && steps[..0] == [];
    } else {
      var p := AfterStep(steps[0], params);
      var head := StoredBack(nets[0], steps[0]);
      assert nets[..i][1..] == nets[1..][..i - 1] && steps[..i][1..] == steps[1..][..i - 1];
      assert nets[i + 1..] == nets[1..][i..];
      assert nets[..i][0] == nets[0] && steps[..i][0] == steps[0];
      ApplyFailFastNetworks(nets[1..], steps[1..], p, i - 1);
      ApplyUnfold(nets, steps, params);
      ApplyUnfold(nets[..i], steps[..i], params);
      var b := Apply(nets[1..][..i - 1], steps[1..][..i - 1], p).networks;
      assert Apply(nets[..i], steps[..i], params).networks == [head] + b;
      ConsAssoc(head, b, steps[i].updated, nets[i + 1..]);
    }
  }

  /** Fail-fast without rollback: when descriptor `i` is the first to be rejected, the
      error is its error, the parameter hash holds exactly what the descriptors before it
      wrote (nothing is written for descriptor `i`), descriptor `i` keeps whatever line 81
      stored into it, and the descriptors after it are untouched. */
  lemma FailFastWithoutRollback(nets: seq<Network>, params: Params, i: nat)
    requires i < |nets| && Step(nets[i]).Rejected?
    requires forall j :: 0 <= j < i ==> !Step(nets[j]).Rejected?
    ensures var r := CompileNetworks(nets, params);
            var before := CompileNetworks(nets[..i], params);
            && r.outcome == Fail(Step(nets[i]).error)
            && before.outcome == Pass
            && r.params == before.params
            && r.networks == before.networks + [Step(nets[i]).updated] + nets[i + 1..]
  {
    var steps := Steps(nets);
    ApplyFailFastParams(nets, steps, params, i);
    ApplyFailFastNetworks(nets, steps, params, i);
    assert steps[..i] == Steps(nets[..i]);
  }

  /** A pass that raised nothing raised nothing at any step. */
  lemma {:induction false} ApplyPassed(nets: seq<Network>, steps: seq<StepResult>, params: Params, i: nat)
    requires |steps| == |nets| && Apply(nets, steps, params).outcome == Pass && i < |nets|
    ensures !steps[i].Rejected?
    ensures Apply(nets, steps, params).networks[i] == if steps[i].Skipped? then nets[i] else steps[i].updated
    decreases i
  {
    match steps[0]
    case Skipped =>
      if i > 0 { ApplyPassed(nets[1..], steps[1..], params, i - 1); }
    case Compiled(n, k, v) =>
      if i > 0 { ApplyPassed(nets[1..], steps[1..], params[k := v], i - 1); }
  }

  /** An entry no later iteration writes over is kept. */
  lemma {:induction false} ApplyKeeps(nets: seq<Network>, steps: seq<StepResult>, params: Params, k: ParamKey)
    requires |steps| == |nets| && k in params
    requires forall j :: 0 <= j < |steps| && steps[j].Compiled? ==> steps[j].key != k
    ensures k in Apply(nets, steps, params).params
    ensures Apply(nets, steps, params).params[k] == params[k]
    decreases |nets|
  {
    if nets != [] {
      match steps[0]
      case Skipped =>
        ApplyKeeps(nets[1..], steps[1..], params, k);
      case Rejected(_, _) =>
      case Compiled(n, k', v) =>
        ApplyKeeps(nets[1..], steps[1..], params[k' := v], k);
    }
  }

  /** Keys already in the hash stay there. */
  lemma {:induction false} ApplyGrows(nets: seq<Network>, steps: seq<StepResult>, params: Params)
    requires |steps| == |nets|
    ensures params.Keys <= Apply(nets, steps, params).params.Keys
    decreases |nets|
  {
    if nets != [] {
      match steps[0]
      case Skipped =>
        ApplyGrows(nets[1..], steps[1..], params);
      case Rejected(_, _) =>
      case Compiled(n, k, v) =>
        ApplyGrows(nets[1..], steps[1..], params[k := v]);
    }
  }

  lemma {:induction false} ApplyWrites(nets: seq<Network>, steps: seq<StepResult>, params: Params, i: nat)
    requires |steps| == |nets| && Apply(nets, steps, params).outcome == Pass
    requires i < |nets| && steps[i].Compiled?
    ensures steps[i].key in Apply(nets, steps, params).params
    ensures (forall j :: i < j < |steps| && steps[j].Compiled? ==> steps[j].key != steps[i].key) ==>
              Apply(nets, steps, params).params[steps[i].key] == steps[i].entry
    decreases i
  {
    match steps[0]
    case Skipped =>
      ApplyWrites(nets[1..], steps[1..], params, i - 1);
    case Compiled(n, k, v) =>
      if i == 0 {
        ApplyGrows(nets[1..], steps[1..], params[k := v]);
        if forall j :: 0 < j < |steps| && steps[j].Compiled? ==> steps[j].key != k {
          ApplyKeeps(nets[1..], steps[1..], params[k := v], k);
        }
      } else {
        ApplyWrites(nets[1..], steps[1..], params[k := v], i - 1);
      }
  }

  /** A pass that raises nothing compiles every descriptor that is not a forwarded port,
      stores its entry under its `net_id`, where it stays unless a later descriptor has the
      same `net_id`, and leaves the descriptor with an `:interface`. */
  lemma EveryDescriptorCompiled(nets: seq<Network>, params: Params, i: nat)
    requires CompileNetworks(nets, params).outcome == Pass
    requires i < |nets| && nets[i].kind != ForwardedPort
    ensures Step(nets[i]).Compiled?
    ensures var r := CompileNetworks(nets, params);
            && StrKey(Render(nets[i].options["net_id"])) in r.params
            && r.networks[i] == Step(nets[i]).updated
            && "interface" in r.networks[i].options
    ensures (forall j :: i < j < |nets| && Step(nets[j]).Compiled? ==> Step(nets[j]).key != Step(nets[i]).key) ==>
              CompileNetworks(nets, params).params[Step(nets[i]).key] == NetworkEntry(Step(nets[i]).updated.options)
  {
    var steps := Steps(nets);
    ApplyPassed(nets, steps, params, i);
    StepOutcomes(nets[i]);
    ApplyWrites(nets, steps, params, i);
  }

  /** Keys already in the parameter hash are never removed. */
  lemma KeysKept(nets: seq<Network>, params: Params)
    ensures params.Keys <= CompileNetworks(nets, params).params.Keys
  {
    ApplyGrows(nets, Steps(nets), params);
  }

  /** Forwarded-port declarations are skipped: a list of only those changes nothing. */
  lemma {:induction false} ForwardedPortsIgnored(nets: seq<Network>, params: Params)
    requires forall i :: 0 <= i < |nets| ==> nets[i].kind == ForwardedPort
    ensures CompileNetworks(nets, params) == NetPass(nets, params, Pass)
    decreases |nets|
  {
    if nets != [] {
      ForwardedPortsIgnored(nets[1..], params);
      StepsTail(nets, 1);
      assert [nets[0]] + nets[1..] == nets;
    }
  }
}
