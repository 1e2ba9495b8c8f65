/** The two compilation drivers of ProxmoxAction, written as the source writes them:
    add_lxc_network_config walks the machine's network declarations, stores a detected
    interface name into a declaration's own hash and writes one parameter string per
    declaration into the caller's parameter hash; add_lxc_mount_points does the same for
    the configured mount points. Each driver is proved to leave exactly the state that its
    specification in LxcNetwork (CompileNetworks) or LxcMount (CompileMounts) describes,
    so the properties proved there hold of the drivers. */
module ProxmoxAction {
  import opened Wrappers
  import opened Errors
  import opened RubyValues
  import opened LxcNetwork
  import opened LxcMount
  import ProviderConfig

  /** The machine's network declarations (`config.vm.networks`). Their option hashes are
      shared with the driver, which writes a detected `:interface` into them. */
  class MachineNetworks {
    var networks: seq<Network>

    constructor (nets: seq<Network>)
      ensures networks == nets
    {
      networks := nets;
    }
  }

  /** The parameter hash of a Proxmox create request, passed in by the caller and filled
      in by the drivers. */
  class ParamHash {
    var entries: Params

    constructor (init: Params)
      ensures entries == init
    {
      entries := init;
    }
  }

  /* ---------------- one network declaration ---------------- */

  /** The parameter texts of the first `n` keys of the documented order. */
  function TextsUpTo(c: Options, n: nat): seq<string>
    requires n <= |NetworkKeyOrder|
  {
    FieldTexts(Collect(c, NetworkKeyOrder[..n]))
  }

  lemma FieldTextsAppend(fs: seq<Field>, gs: seq<Field>)
    ensures FieldTexts(fs + gs) == FieldTexts(fs) + FieldTexts(gs)
  {
  }

  lemma AppendAssoc<T>(a: seq<T>, b: seq<T>, d: seq<T>)
    ensures a + b + d == a + (b + d)
  {
  }

  lemma {:induction false} CollectAppend(c: Options, keys: seq<NetKey>, more: seq<NetKey>)
    ensures Collect(c, keys + more) == Collect(c, keys) + Collect(c, more)
    decreases |more|
  {
    if more == [] {
      assert keys + more == keys;
    } else {
      var init := more[..|more| - 1];
      var last := more[|more| - 1];
      CollectAppend(c, keys, init);
      assert (keys + more)[..|keys + more| - 1] == keys + init;
      assert (keys + more)[|keys + more| - 1] == last;
      assert Collect(c, keys + more) == Collect(c, keys + init) + SlotField(c, last);
      assert Collect(c, more) == Collect(c, init) + SlotField(c, last);
      AppendAssoc(Collect(c, keys), Collect(c, init), SlotField(c, last));
    }
  }

  /** Key `n` of the documented order adds its field, if it has one, to the texts. */
  lemma TextsStep(c: Options, n: nat)
    requires n < |NetworkKeyOrder|
    ensures TextsUpTo(c, n + 1) == TextsUpTo(c, n) + FieldTexts(SlotField(c, NetworkKeyOrder[n]))
  {
    CollectStep(c, NetworkKeyOrder, n);
    FieldTextsAppend(Collect(c, NetworkKeyOrder[..n]), SlotField(c, NetworkKeyOrder[n]));
  }

  /** Key `k` at position `n` of the documented order, written `prefix` (its name and `=`),
      adds `prefix` and its value when the declaration gives it a value. */
  lemma SlotStep(c: Options, n: nat, k: NetKey, prefix: string)
    requires n < |NetworkKeyOrder| && NetworkKeyOrder[n] == k && KeyName(k) + "=" == prefix
    ensures TextsUpTo(c, n + 1) ==
              TextsUpTo(c, n) + if NetworkSlot(c, k).Some? then [prefix + NetworkSlot(c, k).value] else []
  {
    TextsStep(c, n);
  }

  /** The keys whose value is copied from the declaration as it stands. */
  predicate CopiedKey(k: NetKey) {
    !(k.Name? || k.Ip? || k.Ip6? || k.Type?)
  }

  /** A copied key adds `key=value` exactly when the declaration has it. */
  lemma CopiedText(c: Options, k: NetKey)
    requires CopiedKey(k)
    ensures FieldTexts(SlotField(c, k)) == if KeyName(k) in c then [KeyName(k) + "=" + Render(c[KeyName(k)])] else []
  {
  }

  lemma NameText(c: Options)
    ensures TextsUpTo(c, 1) == ["name=" + Render(Lookup(c, "interface"))]
  {
    SlotStep(c, 0, Name, "name=");
    assert TextsUpTo(c, 0) == [] by {
      assert NetworkKeyOrder[..0] == [];
    }
  }

  lemma IpText(c: Options)
    ensures TextsUpTo(c, 7) == TextsUpTo(c, 6) + (if Ipv4Value(c).Some? then ["ip=" + Ipv4Value(c).value] else [])
  {
    SlotStep(c, 6, Ip, "ip=");
  }

  lemma Ip6Text(c: Options)
    ensures TextsUpTo(c, 8) == TextsUpTo(c, 7) + (if Ipv6Value(c).Some? then ["ip6=" + Ipv6Value(c).value] else [])
  {
    SlotStep(c, 7, Ip6, "ip6=");
  }

  lemma TypeText(c: Options)
    ensures TextsUpTo(c, 13) == TextsUpTo(c, 12) + ["type=veth"]
  {
    SlotStep(c, 12, Type, "type=");
    assert "type=" + "veth" == "type=veth";
  }

  lemma AllTexts(c: Options)
    ensures NetworkEntry(c) == Join(TextsUpTo(c, 13), ",")
  {
    assert NetworkKeyOrder[..13] == NetworkKeyOrder;
  }

  /** The keys `keys`, standing at positions `lo` up to `hi` of the documented order, add
      their fields to the texts. */
  lemma TextsRange(c: Options, lo: nat, hi: nat)
    requires lo <= hi <= |NetworkKeyOrder|
    ensures TextsUpTo(c, hi) == TextsUpTo(c, lo) + FieldTexts(Collect(c, NetworkKeyOrder[lo..hi]))
  {
    var keys := NetworkKeyOrder[lo..hi];
    assert NetworkKeyOrder[..hi] == NetworkKeyOrder[..lo] + keys;
    CollectAppend(c, NetworkKeyOrder[..lo], keys);
    FieldTextsAppend(Collect(c, NetworkKeyOrder[..lo]), Collect(c, keys));
  }

  /** The two lists of copied keys of lines 100 and 121 are positions 1-5 and 8-11 of the
      documented order. */
  lemma CopiedLists()
    ensures NetworkKeyOrder[1..6] == [Bridge, Firewall, Gw, Gw6, Hwaddr]
    ensures NetworkKeyOrder[8..12] == [Mtu, Rate, Tag, Trunks]
  {
  }

  /** Lines 100-103 and 121-124: for each of `keys`, push `key=value` when the declaration
      has the key. */
  method PushCopied(c: Options, cfg: seq<string>, keys: seq<NetKey>) returns (r: seq<string>)
    requires Name !in keys && Ip !in keys && Ip6 !in keys && Type !in keys
    ensures r == cfg + FieldTexts(Collect(c, keys))
  {
    r := cfg;
    for j := 0 to |keys|
      invariant r == cfg + FieldTexts(Collect(c, keys[..j]))
    {
      var k := keys[j];
      assert CopiedKey(k) by {
        assert k in keys;
      }
      CollectStep(c, keys, j);
      FieldTextsAppend(Collect(c, keys[..j]), SlotField(c, k));
      CopiedText(c, k);
      if KeyName(k) in c {
        r := r + [KeyName(k) + "=" + Render(c[KeyName(k)])];
      }
    }
    assert keys[..|keys|] == keys;
  }

  /** The `ip` text of lines 105-111, when there is one. */
  function Ipv4Texts(c: Options): seq<string> {
    if Ipv4Value(c).Some? then ["ip=" + Ipv4Value(c).value] else []
  }

  /** The `ip6` text of lines 113-119, when there is one. */
  function Ipv6Texts(c: Options): seq<string> {
    if Ipv6Value(c).Some? then ["ip6=" + Ipv6Value(c).value] else []
  }

  /** The network parameter string in the sections the source builds it in. */
  lemma EntryInSections(c: Options)
    ensures NetworkEntry(c) ==
              Join(["name=" + Render(Lookup(c, "interface"))]
                   + FieldTexts(Collect(c, [Bridge, Firewall, Gw, Gw6, Hwaddr]))
                   + Ipv4Texts(c) + Ipv6Texts(c)
                   + FieldTexts(Collect(c, [Mtu, Rate, Tag, Trunks]))
                   + ["type=veth"], ",")
  {
    NameText(c);
    CopiedLists();
    TextsRange(c, 1, 6);
    IpText(c);
    Ip6Text(c);
    TextsRange(c, 8, 12);
    TypeText(c);
    AllTexts(c);
  }

  /** Lines 105-111: `ip=dhcp` when `:type` or `:ip` is "dhcp", else `ip=<ip>/<cidr>` when
      get_ip_cidr4 gives a value. */
  method PushIpv4(c: Options, cfg: seq<string>) returns (r: seq<string>)
    ensures r == cfg + Ipv4Texts(c)
  {
    if Lookup(c, "type") == Str("dhcp") || ("ip" in c && c["ip"] == Str("dhcp")) {
      assert "ip=" + "dhcp" == "ip=dhcp";
      r := cfg + ["ip=dhcp"];
    } else {
      var v := GetIpCidr4(c);
      r := if v.Some? then cfg + ["ip=" + v.value] else cfg;
    }
  }

  /** Lines 113-119: `ip6=dhcp` when `:ip6` is "dhcp", else `ip6=<ip6>/<cidr>` when
      get_ip_cidr6 gives a value. */
  method PushIpv6(c: Options, cfg: seq<string>) returns (r: seq<string>)
    ensures r == cfg + Ipv6Texts(c)
  {
    if "ip6" in c && c["ip6"] == Str("dhcp") {
      assert "ip6=" + "dhcp" == "ip6=dhcp";
      r := cfg + ["ip6=dhcp"];
    } else {
      var v := GetIpCidr6(c);
      r := if v.Some? then cfg + ["ip6=" + v.value] else cfg;
    }
  }

  /** Lines 96-125: the configuration entry of one declaration `c`, built by pushing
      `key=value` texts onto `cfg` in the documented order and joining them with commas. */
  method BuildNetworkEntry(c: Options) returns (entry: string)
    ensures entry == NetworkEntry(c)
  {
    var cfg := ["name=" + Render(Lookup(c, "interface"))];
    cfg := PushCopied(c, cfg, [Bridge, Firewall, Gw, Gw6, Hwaddr]);
    cfg := PushIpv4(c, cfg);
    cfg := PushIpv6(c, cfg);
    cfg := PushCopied(c, cfg, [Mtu, Rate, Tag, Trunks]);
    cfg := cfg + ["type=veth"];
    EntryInSections(c);
    entry := Join(cfg, ",");
  }

  /* ---------------- all network declarations ---------------- */

  /** The state at the end of the loop, given the declarations already handled (`done`,
      as they now stand), the ones still to come with what each does, and the hash so far. */
  function Resumed(done: seq<Network>, rest: seq<Network>, steps: seq<StepResult>, params: Params): NetPass
    requires |steps| == |rest|
  {
    var r := Apply(rest, steps, params);
    NetPass(done + r.networks, r.params, r.outcome)
  }

  /** An iteration that does not raise moves one declaration from `rest` to `done`. */
  lemma ResumeStep(done: seq<Network>, rest: seq<Network>, steps: seq<StepResult>, params: Params)
    requires |steps| == |rest| > 0 && !steps[0].Rejected?
    ensures steps[0].Skipped? ==>
              Resumed(done, rest, steps, params) == Resumed(done + [rest[0]], rest[1..], steps[1..], params)
    ensures steps[0].Compiled? ==>
              Resumed(done, rest, steps, params) ==
              Resumed(done + [steps[0].updated], rest[1..], steps[1..], params[steps[0].key := steps[0].entry])
  {
    match steps[0]
    case Skipped =>
      var r := Apply(rest[1..], steps[1..], params);
      assert done + ([rest[0]] + r.networks) == done + [rest[0]] + r.networks;
    case Compiled(n, k, v) =>
      var r := Apply(rest[1..], steps[1..], params[k := v]);
      assert done + ([n] + r.networks) == done + [n] + r.networks;
  }

  /** Writing declaration `n` over the first of `rest`, and moving it to `done`. */
  lemma Splice(done: seq<Network>, rest: seq<Network>, n: Network)
    requires |rest| > 0
    ensures (done + rest)[|done| := n] == done + [n] + rest[1..]
    ensures rest[0] == n ==> done + rest == done + [n] + rest[1..]
  {
    assert rest == [rest[0]] + rest[1..];
  }

  /** An iteration that raises ends the loop with the hash as it is. */
  lemma ResumeRejected(done: seq<Network>, rest: seq<Network>, steps: seq<StepResult>, params: Params)
    requires |steps| == |rest| > 0 && steps[0].Rejected?
    ensures Resumed(done, rest, steps, params) ==
              NetPass(done + [steps[0].updated] + rest[1..], params, Fail(steps[0].error))
  {
    assert done + ([steps[0].updated] + rest[1..]) == done + [steps[0].updated] + rest[1..];
  }

  /** One iteration of add_lxc_network_config (lines 64-130) on declaration `n`: whether
      it is skipped, the error it raises, or the key and entry it stores, together with
      the declaration as it stands afterwards (line 81 may have stored an `:interface`
      into it, also when a later check raises). */
  method NetworkStep(n: Network) returns (s: StepResult)
    ensures s == Step(n)
  {
    if n.kind == ForwardedPort {
      return Skipped;
    }
    var c := n.options;
    if "net_id" !in c {
      return Rejected(n, VMConfigError(NoNetId));
    }
    var auto := GetLxcInterfaceName(c);
    if auto.Failure? {
      return Rejected(n, auto.error);
    }
    if auto.value.Some? {
      c := c["interface" := Str(auto.value.value)];
    }
    if "interface" !in c {
      // Lines 83-87: never taken, since `:net_id` is present and detection succeeded.
      assert false;
    }
    if "bridge" !in c {
      return Rejected(Network(n.kind, c), VMConfigError(NoBridge));
    }
    var entry := BuildNetworkEntry(c);
    s := Compiled(Network(n.kind, c), StrKey(Render(c["net_id"])), entry);
  }

  /** add_lxc_network_config (lines 63-131). Each declaration in turn is handled by
      NetworkStep; the declaration as updated is written back into the machine's list and
      a compiled entry into the parameter hash; the first error ends the loop. The result
      is the outcome (Pass, or the error raised), and the new declarations and parameter
      hash are those CompileNetworks gives. */
  method AddLxcNetworkConfig(machine: MachineNetworks, params: ParamHash) returns (outcome: Outcome<Error>)
    modifies machine, params
    ensures NetPass(machine.networks, params.entries, outcome) ==
              CompileNetworks(old(machine.networks), old(params.entries))
  {
    ghost var done: seq<Network> := [];
    ghost var rest := machine.networks;
    ghost var steps := Steps(rest);
    assert done + rest == rest;
    var i := 0;
    while i < |machine.networks|
      invariant machine.networks == done + rest && i == |done|
      invariant steps == Steps(rest)
      invariant Resumed(done, rest, steps, params.entries) == CompileNetworks(old(machine.networks), old(params.entries))
      decreases |rest|
    {
      var s := NetworkStep(machine.networks[i]);
      assert s == steps[0];
      StepsTail(rest, 1);
      match s {
        case Skipped =>
          ResumeStep(done, rest, steps, params.entries);
          Splice(done, rest, rest[0]);
          done := done + [rest[0]];
        case Rejected(n, e) =>
          ResumeRejected(done, rest, steps, params.entries);
          Splice(done, rest, n);
          machine.networks := machine.networks[i := n];
          return Fail(e);
        case Compiled(n, k, entry) =>
          ResumeStep(done, rest, steps, params.entries);
          Splice(done, rest, n);
          machine.networks := machine.networks[i := n];
          params.entries := params.entries[k := entry];
          done := done + [n];
      }
      rest, steps := rest[1..], steps[1..];
      i := i + 1;
    }
    assert done + rest == done;
    outcome := Pass;
  }

  /* ---------------- all mount points ---------------- */

  /** add_lxc_mount_points (lines 202-231): each configured mount point in turn is compiled
      against the mount-point defaults and stored under `mp.to_sym`; the first mount point
      that is rejected raises and ends the loop. The configuration is not changed. */
  method AddLxcMountPoints(config: ProviderConfig.Config, params: ParamHash) returns (outcome: Outcome<Error>)
    modifies params
    ensures MountPass(params.entries, outcome) ==
              CompileMounts(config.lxcMountPoints, config.lxcMountPointDefaults, old(params.entries))
  {
    var mps := config.lxcMountPoints;
    var defaults := config.lxcMountPointDefaults;
    ghost var names := Names(mps);
    ghost var results := Entries(mps, defaults);
    for i := 0 to |mps|
      invariant ApplyMounts(names[i..], results[i..], params.entries) ==
                  CompileMounts(mps, defaults, old(params.entries))
    {
      assert names[i..][1..] == names[i + 1..] && results[i..][1..] == results[i + 1..];
      var r := CompileMountPoint(mps[i].name, mps[i].options, defaults);
      if r.Failure? {
        return Fail(r.error);
      }
      params.entries := params.entries[SymKey(mps[i].name) := r.value];
    }
    outcome := Pass;
  }
}
