/** The address and attribute extractors of ProxmoxAction (get_machine_ip_address and the
    four get_machine_* readers of the first public network), and the one piece of logic
    of ReadSSHInfo that uses them. Each extractor selects the descriptors of one kind,
    takes the first, and reads one key of its options hash, giving nil for a value that
    is nil or false. When there is no descriptor of that kind, `.first` is nil and
    indexing it raises. */
module MachineInfo {
  import opened Wrappers
  import opened Errors
  import opened RubyValues
  import opened LxcNetwork

  /** `networks.select { |type, _| type == kind }`. */
  function Select(nets: seq<Network>, kind: NetworkKind): (r: seq<Network>)
    ensures |r| <= |nets|
    ensures forall j :: 0 <= j < |r| ==> r[j].kind == kind
    decreases |nets|
  {
    if nets == [] then []
    else if nets[0].kind == kind then [nets[0]] + Select(nets[1..], kind)
    else Select(nets[1..], kind)
  }

  /** `v || nil`: a value that is nil or false reads as nil. */
  function OrNil(v: Value): (r: Option<Value>)
    ensures r.Some? <==> Truthy(v)
    ensures r.Some? ==> r.value == v
  {
    if Truthy(v) then Some(v) else None
  }

  /** Descriptor `i` is the first one of `kind`. */
  predicate FirstOfKind(nets: seq<Network>, kind: NetworkKind, i: int) {
    0 <= i < |nets| && nets[i].kind == kind && forall j :: 0 <= j < i ==> nets[j].kind != kind
  }

  predicate NoneOfKind(nets: seq<Network>, kind: NetworkKind) {
    forall j :: 0 <= j < |nets| ==> nets[j].kind != kind
  }

  /** `networks.select { ... }.first[1][key] || nil`, as every extractor writes it. */
  function FieldOfFirst(nets: seq<Network>, kind: NetworkKind, key: string): (r: Result<Option<Value>, Error>)
  {
    var chosen := Select(nets, kind);
    if chosen == [] then Failure(RuntimeFault)
    else Success(OrNil(Lookup(chosen[0].options, key)))
  }

  lemma {:induction false} SelectEmpty(nets: seq<Network>, kind: NetworkKind)
    ensures Select(nets, kind) == [] <==> NoneOfKind(nets, kind)
    decreases |nets|
  {
    if nets != [] {
      SelectEmpty(nets[1..], kind);
      if nets[0].kind != kind {
        forall j | 0 < j < |nets| ensures nets[j].kind == nets[1..][j - 1].kind { }
      }
    }
  }

  lemma {:induction false} SelectFirst(nets: seq<Network>, kind: NetworkKind, i: nat)
    requires FirstOfKind(nets, kind, i)
    ensures Select(nets, kind) != [] && Select(nets, kind)[0] == nets[i]
    decreases i
  {
    if i > 0 {
      assert nets[0].kind != kind;
      assert FirstOfKind(nets[1..], kind, i - 1);
      SelectFirst(nets[1..], kind, i - 1);
    }
  }

  /** The extractor reads the first descriptor of its kind, whatever follows it. */
  lemma ExtractsFromFirst(nets: seq<Network>, kind: NetworkKind, key: string, i: nat)
    requires FirstOfKind(nets, kind, i)
    ensures FieldOfFirst(nets, kind, key) == Success(OrNil(Lookup(nets[i].options, key)))
  {
    SelectFirst(nets, kind, i);
  }

  /** The extractor raises exactly when no descriptor of its kind is declared. */
  lemma RaisesWithoutDescriptor(nets: seq<Network>, kind: NetworkKind, key: string)
    ensures FieldOfFirst(nets, kind, key).Failure? <==> NoneOfKind(nets, kind)
    ensures FieldOfFirst(nets, kind, key).Failure? ==> FieldOfFirst(nets, kind, key).error == RuntimeFault
  {
    SelectEmpty(nets, kind);
  }

  /** Descriptors of other kinds, wherever they stand, do not change what is read. */
  lemma {:induction false} OtherKindsIgnored(before: seq<Network>, nets: seq<Network>, kind: NetworkKind)
    requires NoneOfKind(before, kind)
    ensures Select(before + nets, kind) == Select(nets, kind)
    decreases |before|
  {
    if before != [] {
      assert (before + nets)[0] == before[0] && before[0].kind != kind;
      assert (before + nets)[1..] == before[1..] + nets;
      assert NoneOfKind(before[1..], kind);
      OtherKindsIgnored(before[1..], nets, kind);
    } else {
      assert before + nets == nets;
    }
  }

  /** get_machine_ip_address (lines 12-21): for a :qemu machine the `:host_ip` of the first
      forwarded port, for any other machine the `:ip` of the first public network. */
  function GetMachineIpAddress(nets: seq<Network>, vmType: Value): (r: Result<Option<Value>, Error>)
    ensures r.Failure? <==> NoneOfKind(nets, if vmType == Sym("qemu") then ForwardedPort else PublicNetwork)
    ensures r.Success? && r.value.Some? ==> Truthy(r.value.value)
  {
    SelectEmpty(nets, if vmType == Sym("qemu") then ForwardedPort else PublicNetwork);
    if vmType == Sym("qemu") then FieldOfFirst(nets, ForwardedPort, "host_ip")
    else FieldOfFirst(nets, PublicNetwork, "ip")
  }

  /** get_machine_interface_name (lines 23-26). */
  function GetMachineInterfaceName(nets: seq<Network>): (r: Result<Option<Value>, Error>)
    ensures r.Failure? <==> NoneOfKind(nets, PublicNetwork)
    ensures r.Success? && r.value.Some? ==> Truthy(r.value.value)
  {
    RaisesWithoutDescriptor(nets, PublicNetwork, "interface");
    FieldOfFirst(nets, PublicNetwork, "interface")
  }

  /** get_machine_bridge_name (lines 28-31). */
  function GetMachineBridgeName(nets: seq<Network>): (r: Result<Option<Value>, Error>)
    ensures r.Failure? <==> NoneOfKind(nets, PublicNetwork)
    ensures r.Success? && r.value.Some? ==> Truthy(r.value.value)
  {
    RaisesWithoutDescriptor(nets, PublicNetwork, "bridge");
    FieldOfFirst(nets, PublicNetwork, "bridge")
  }

  /** get_machine_gw_ip (lines 33-36). */
  function GetMachineGwIp(nets: seq<Network>): (r: Result<Option<Value>, Error>)
    ensures r.Failure? <==> NoneOfKind(nets, PublicNetwork)
    ensures r.Success? && r.value.Some? ==> Truthy(r.value.value)
  {
    RaisesWithoutDescriptor(nets, PublicNetwork, "gw");
    FieldOfFirst(nets, PublicNetwork, "gw")
  }

  /** get_machine_macaddress (lines 38-41). */
  function GetMachineMacaddress(nets: seq<Network>): (r: Result<Option<Value>, Error>)
    ensures r.Failure? <==> NoneOfKind(nets, PublicNetwork)
    ensures r.Success? && r.value.Some? ==> Truthy(r.value.value)
  {
    RaisesWithoutDescriptor(nets, PublicNetwork, "macaddress");
    FieldOfFirst(nets, PublicNetwork, "macaddress")
  }

  /** The four public-network readers, and the address of any machine that is not :qemu,
      return the named key of the first public network, or nil when that key is absent,
      nil or false. */
  lemma PublicNetworkReaders(nets: seq<Network>, i: nat, vmType: Value)
    requires FirstOfKind(nets, PublicNetwork, i) && vmType != Sym("qemu")
    ensures var c := nets[i].options;
            && GetMachineInterfaceName(nets) == Success(OrNil(Lookup(c, "interface")))
            && GetMachineBridgeName(nets) == Success(OrNil(Lookup(c, "bridge")))
            && GetMachineGwIp(nets) == Success(OrNil(Lookup(c, "gw")))
            && GetMachineMacaddress(nets) == Success(OrNil(Lookup(c, "macaddress")))
            && GetMachineIpAddress(nets, vmType) == Success(OrNil(Lookup(c, "ip")))
  {
    SelectFirst(nets, PublicNetwork, i);
  }

  /** For a :qemu machine the address is the `:host_ip` of the first forwarded port; the
      public networks are not consulted. */
  lemma QemuAddressFromForwardedPort(nets: seq<Network>, i: nat)
    requires FirstOfKind(nets, ForwardedPort, i)
    ensures GetMachineIpAddress(nets, Sym("qemu")) == Success(OrNil(Lookup(nets[i].options, "host_ip")))
  {
    SelectFirst(nets, ForwardedPort, i);
  }

  /** A public network declared without `:gw` reads as nil; one declared with `gw: false`
      reads as nil too, and one with a gateway string reads as that string. */
  lemma GatewayReadings(nets: seq<Network>, i: nat, gw: string)
    requires FirstOfKind(nets, PublicNetwork, i)
    ensures "gw" !in nets[i].options ==> GetMachineGwIp(nets) == Success(None)
    ensures "gw" in nets[i].options && nets[i].options["gw"] == Bool(false) ==>
              GetMachineGwIp(nets) == Success(None)
    ensures "gw" in nets[i].options && nets[i].options["gw"] == Str(gw) ==>
              GetMachineGwIp(nets) == Success(Some(Str(gw)))
  {
    PublicNetworkReaders(nets, i, Nil);
  }

  /* ---------------- ReadSSHInfo ---------------- */

  /** The `{host:, port:}` hash ReadSSHInfo stores as the machine's ssh info. */
  datatype SshInfo = SshInfo(host: Value, port: int)

  /** read_ssh_info.rb lines 16-20: the address, when there is one, paired with the guest
      ssh port; nil when the address is nil. An error raised by the extractor propagates. */
  function ReadSshInfo(nets: seq<Network>, vmType: Value, guestPort: int): (r: Result<Option<SshInfo>, Error>)
  {
    match GetMachineIpAddress(nets, vmType)
    case Failure(e) => Failure(e)
    case Success(None) => Success(None)
    case Success(Some(ip)) => Success(Some(SshInfo(ip, guestPort)))
  }

  /** The ssh info is present exactly when the address is, carries that address and the
      guest port, and the call raises exactly when the extractor does. */
  lemma SshInfoFollowsAddress(nets: seq<Network>, vmType: Value, guestPort: int)
    ensures var a := GetMachineIpAddress(nets, vmType);
            var r := ReadSshInfo(nets, vmType, guestPort);
            && (r.Failure? <==> a.Failure?)
            && (r.Success? ==> (r.value.Some? <==> a.value.Some?))
            && (r.Success? && r.value.Some? ==> r.value.value == SshInfo(a.value.value, guestPort) && Truthy(r.value.value.host))
  {
  }

  /* ---------------- extractors that do not raise ---------------- */

  /** The extractor with the missing descriptor read as nil (`.first&.[](1)`), so that a
      machine without a descriptor of the kind yields nil instead of raising. */
  function FieldOfFirstOrNil(nets: seq<Network>, kind: NetworkKind, key: string): (r: Option<Value>)
  {
    var chosen := Select(nets, kind);
    if chosen == [] then None else OrNil(Lookup(chosen[0].options, key))
  }

  /** As written, an lxc machine whose only network is private raises when its address is
      read, and so does ReadSSHInfo. */
  lemma NoPublicNetworkRaises(c: Options)
    ensures GetMachineIpAddress([Network(PrivateNetwork, c)], Sym("lxc")) == Failure(RuntimeFault)
    ensures ReadSshInfo([Network(PrivateNetwork, c)], Sym("lxc"), 22) == Failure(RuntimeFault)
  {
    assert Select([Network(PrivateNetwork, c)], PublicNetwork) == [];
  }

  /** The nil-safe extractor never raises, yields nil when there is no descriptor of the
      kind, and otherwise agrees with the extractor as written. */
  lemma FieldOfFirstOrNilAgrees(nets: seq<Network>, kind: NetworkKind, key: string)
    ensures NoneOfKind(nets, kind) ==> FieldOfFirstOrNil(nets, kind, key) == None
    ensures !NoneOfKind(nets, kind) ==> FieldOfFirst(nets, kind, key) == Success(FieldOfFirstOrNil(nets, kind, key))
  {
    SelectEmpty(nets, kind);
  }

  /** ReadSSHInfo on the nil-safe address: never raises, and the ssh info is unavailable
      (nil) when the machine declares no descriptor to read the address from. */
  function ReadSshInfoOrNil(nets: seq<Network>, vmType: Value, guestPort: int): (r: Option<SshInfo>)
  {
    var kind := if vmType == Sym("qemu") then ForwardedPort else PublicNetwork;
    var key := if vmType == Sym("qemu") then "host_ip" else "ip";
    match FieldOfFirstOrNil(nets, kind, key)
    case None => None
    case Some(ip) => Some(SshInfo(ip, guestPort))
  }

  lemma SshInfoOrNilIntended(nets: seq<Network>, vmType: Value, guestPort: int)
    ensures var kind := if vmType == Sym("qemu") then ForwardedPort else PublicNetwork;
            NoneOfKind(nets, kind) ==> ReadSshInfoOrNil(nets, vmType, guestPort) == None
    ensures ReadSshInfo(nets, vmType, guestPort).Success? ==>
              ReadSshInfo(nets, vmType, guestPort).value == ReadSshInfoOrNil(nets, vmType, guestPort)
  {
    var kind := if vmType == Sym("qemu") then ForwardedPort else PublicNetwork;
    var key := if vmType == Sym("qemu") then "host_ip" else "ip";
    FieldOfFirstOrNilAgrees(nets, kind, key);
  }
}
