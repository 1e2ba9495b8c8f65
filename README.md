# vagrant-proxmox: a verified model of the LXC parameter compiler and the provider settings

This project models two parts of the vagrant-proxmox Vagrant provider in Dafny and proves
properties about them.

1. **The LXC parameter compiler of `ProxmoxAction`.**
   - `add_lxc_network_config` turns the machine's network declarations into one
     parameter string each, keyed by `net_id.to_s`. It skips forwarded ports, requires `:net_id` and
     `:bridge`, detects `:interface` from `:net_id`, and emits the fields in the
     documented order.
   - `add_lxc_mount_points` turns each configured mount point, merged over the
     mount-point defaults, into one `mp<N>` parameter string.
   - The helpers they use: the CIDR helpers, interface-name detection and
     `get_rest_boolean`.
   - The `get_machine_*` extractors that SSH bootstrapping reads the machine address
     from.
2. **The provider settings lifecycle of `Config`.**
   - `initialize` installs the defaults.
   - `finalize!` resolves the `UNSET_VALUE` sentinel and derives template and ISO
     volume names.
   - `validate` builds the ordered error list for the machine type.
   - `convert_disk_size_to_gigabyte` strips one trailing `G`.

Files and modules:

- `values.dfy`
  - `Wrappers`: `Option`, `Result`, `Outcome`.
  - `Errors`: the exception classes the plugin raises. `RuntimeFault` stands for a
    NoMethodError or TypeError raised by Ruby itself.
  - `RubyValues`: the values a Vagrantfile puts into a descriptor, with Ruby
    truthiness, `Hash#[]` and string interpolation.
- `network.dfy` (`LxcNetwork`): the network compiler as functions on values.
  - `Step` is one declaration.
  - `CompileNetworks` is the whole loop, fail-fast, with the descriptor list and the
    parameter hash it leaves.
- `mount.dfy` (`LxcMount`): the mount-point compiler.
  - `CompileMountPoint` is one iteration, written with the source's three loops.
  - `MountEntry` is its specification.
  - `CompileMounts` is the whole loop.
- `proxmox_action.dfy` (`ProxmoxAction`): the two drivers as imperative methods over
  mutable objects (`MachineNetworks`, `ParamHash`, `ProviderConfig.Config`). Each is
  proved to leave exactly the state `CompileNetworks` or `CompileMounts` describes.
- `machine_info.dfy` (`MachineInfo`): the extractors, and the `{host:, port:}` wrapping
  that ReadSSHInfo applies to the address.
- `config.dfy` (`ProviderConfig`): class `Config`. Its constructor is `initialize`; its
  methods are `Finalize` and `Validate`.

## Model

| member | source | states |
|---|---|---|
| LxcNetwork.GetLxcInterfaceName | lib/vagrant-proxmox/action/proxmox_action.rb:183-192 | Returns nil exactly when `:net_id` is absent or `:interface` is present. Raises exactly when `:net_id` is neither a String nor a Symbol. Any detected name starts with `eth`, so the nil guard of line 189 never fires. |
| LxcNetwork.InterfaceFromSlotNumber | lib/vagrant-proxmox/action/proxmox_action.rb:186-190 | With no `:interface`, a `net_id` of `net` followed by one or more digits yields `eth` followed by the same digits as written (`net007` gives `eth007`). |
| LxcNetwork.InterfaceForOtherNetId | lib/vagrant-proxmox/action/proxmox_action.rb:186-190 | With no `:interface`, a `net_id` that is not `net<digits>` yields the bare `"eth"`. |
| LxcNetwork.DetectInterface | lib/vagrant-proxmox/action/proxmox_action.rb:80-81 | An explicit `:interface` is never overwritten. When get_lxc_interface_name detects a name, exactly that name is stored under `:interface`. When it returns nil, the hash is unchanged. When `:net_id` is present and detection succeeds, `:interface` is present afterwards. It fails exactly when detection raises. |
| LxcNetwork.GetIpCidr4 | lib/vagrant-proxmox/action/proxmox_action.rb:161-165 | Gives a value exactly when both `:ip` and `:ip_cidr` are present, and that value is `"#{ip}/#{ip_cidr}"`. |
| LxcNetwork.GetIpCidr6 | lib/vagrant-proxmox/action/proxmox_action.rb:172-176 | Gives a value exactly when both `:ip6` and `:ip6_cidr` are present, and that value is `"#{ip6}/#{ip6_cidr}"`. |
| LxcNetwork.GetIpCidr | lib/vagrant-proxmox/action/proxmox_action.rb:141-154 | A missing `:id` raises InternalPluginError whatever the selector. With `:id` present, `'ip'` and `'ip6'` return exactly what the v4 and v6 helpers return. Any other selector raises InvalidCidrTypeError carrying the selector. |
| LxcNetwork.CollectMember | lib/vagrant-proxmox/action/proxmox_action.rb:96-126 | A field is emitted exactly when its key is listed and the descriptor gives that key a value. |
| LxcNetwork.CollectOrdered | lib/vagrant-proxmox/action/proxmox_action.rb:96-126 | The emitted fields follow the order of the key list. |
| LxcNetwork.NetworkFieldsFormat | lib/vagrant-proxmox/action/proxmox_action.rb:57-62 | The field list starts with `name=<interface>` and ends with `type=veth`. Every field is in the documented order, so each key appears at most once. |
| LxcNetwork.NetworkFieldMember | lib/vagrant-proxmox/action/proxmox_action.rb:96-126 | A field is in the parameter string exactly when the descriptor gives its key a value. |
| LxcNetwork.PlainKeyCopied | lib/vagrant-proxmox/action/proxmox_action.rb:100-103 | `bridge`, `firewall`, `gw`, `gw6`, `hwaddr`, `mtu`, `rate`, `tag` and `trunks` are copied raw exactly when present. In particular `firewall` is not coerced to 1/0. |
| LxcNetwork.Ipv4Addressing | lib/vagrant-proxmox/action/proxmox_action.rb:104-111 | There is at most one `ip` field. It is `dhcp` when `:type` or `:ip` is "dhcp". Otherwise it is `<ip>/<ip_cidr>` when both keys are present, and absent when either is missing. |
| LxcNetwork.Ipv6Addressing | lib/vagrant-proxmox/action/proxmox_action.rb:112-119 | The same for `ip6` with `:ip6`/`:ip6_cidr`, without the `:type` shortcut. |
| LxcNetwork.NetworkEntryBounds | lib/vagrant-proxmox/action/proxmox_action.rb:96-126 | The joined parameter string begins with `name=<interface>` and ends with `,type=veth`. |
| LxcNetwork.StepOutcomes | lib/vagrant-proxmox/action/proxmox_action.rb:64-131 | Forwarded ports, and only they, are skipped. A missing `:net_id` raises VMConfigError, and so does a missing `:bridge` (after detection). Detection may raise. The `:interface` check of lines 83-87 never fails. A compiled entry is stored under `net_id.to_s`. The descriptor changes at most by the detected `:interface`, and the descriptor kept is exactly the one line 81 leaves. |
| LxcNetwork.SlotDeclarationCompiled | lib/vagrant-proxmox/action/proxmox_action.rb:80-98 | A declaration with `net_id` "net<digits>", a `:bridge` and no `:interface` is compiled. `:interface` "eth<digits>" is stored into it, its entry goes under "net<digits>", and that entry begins with `name=eth<digits>`. |
| LxcNetwork.ForwardedPortsIgnored | lib/vagrant-proxmox/action/proxmox_action.rb:66-70 | A list of forwarded ports only leaves the declarations and the parameter hash unchanged and raises nothing. |
| LxcNetwork.FailFastWithoutRollback | lib/vagrant-proxmox/action/proxmox_action.rb:64-93 | When declaration `i` is the first rejected one, its error is raised. The parameter hash is exactly what the earlier declarations wrote, with nothing written for `i`. Declaration `i` keeps the interface line 81 stored into it. Later declarations are untouched. |
| LxcNetwork.EveryDescriptorCompiled | lib/vagrant-proxmox/action/proxmox_action.rb:64-131 | A pass that raises nothing compiles every declaration that is not a forwarded port, including private networks. Each gets an entry under its `net_id` and keeps an `:interface`. The entry is that declaration's parameter string unless a later declaration uses the same `net_id`. |
| LxcNetwork.KeysKept | lib/vagrant-proxmox/action/proxmox_action.rb:131 | No key of the caller's parameter hash is ever removed. |
| LxcMount.GetRestBoolean | lib/vagrant-proxmox/action/proxmox_action.rb:47-53 | Returns 1 for a truthy value and 0 for nil and false. |
| LxcMount.CompileMountPoint | lib/vagrant-proxmox/action/proxmox_action.rb:203-227 | One iteration, with its loops over the required keys, the flags and the output keys, computes exactly the entry or error of `MountEntry`. |
| LxcMount.MountErrors | lib/vagrant-proxmox/action/proxmox_action.rb:204-216 | A bad slot name is reported exactly when the name is not `mp<digit>`, whatever the hash holds. Missing key `k` is reported exactly when the name is good, `k` is the first of `volume`, `mp`, `backup`, `size` that `defaults.merge(cfg)` lacks. Success comes exactly when all four are present. |
| LxcMount.MissingKeyReported | lib/vagrant-proxmox/action/proxmox_action.rb:211-216 | Required key `i` is reported missing exactly when the name is good, the merged hash lacks it and has every required key before it. |
| LxcMount.TwoDigitSlotRejected | lib/vagrant-proxmox/action/proxmox_action.rb:206-209 | `mp10` is rejected as an invalid mount point. |
| LxcMount.MountFieldTextsDocumented | lib/vagrant-proxmox/action/proxmox_action.rb:217-227 | The six emitted texts are `volume=<volume>:<size>`, `mp=<mp>` and `acl=`/`backup=`/`quota=`/`ro=` followed by 1 for a truthy value and 0 otherwise. |
| LxcMount.MountEntryFormat | lib/vagrant-proxmox/action/proxmox_action.rb:197-199 | A valid mount point yields exactly those six fields joined with commas, with no separate `size` field. |
| LxcMount.MountFailFastWithoutRollback | lib/vagrant-proxmox/action/proxmox_action.rb:202-230 | When mount point `i` is the first rejected one, its error is raised. The parameter hash holds exactly what the earlier mount points wrote, and nothing is written for `i`. |
| LxcMount.EveryMountPointStored | lib/vagrant-proxmox/action/proxmox_action.rb:229-230 | A pass that raises nothing stores every mount point's entry under its Symbol key. The entry stays unless a later mount point has the same name. |
| LxcMount.OtherKeysKept | lib/vagrant-proxmox/action/proxmox_action.rb:229-230 | Entries under keys no mount point writes, such as the network slots, are kept. |
| ProxmoxAction.PushCopied | lib/vagrant-proxmox/action/proxmox_action.rb:100-103 | The loop appends `key=value` for exactly the listed keys the descriptor has, in list order. |
| ProxmoxAction.PushIpv4 | lib/vagrant-proxmox/action/proxmox_action.rb:104-111 | Appends the IPv4 text of the documented format, or nothing. |
| ProxmoxAction.PushIpv6 | lib/vagrant-proxmox/action/proxmox_action.rb:112-119 | Appends the IPv6 text of the documented format, or nothing. |
| ProxmoxAction.EntryInSections | lib/vagrant-proxmox/action/proxmox_action.rb:96-126 | Building the string section by section, as the source does, gives the string of the documented key order. |
| ProxmoxAction.BuildNetworkEntry | lib/vagrant-proxmox/action/proxmox_action.rb:95-126 | The pushes onto `cfg`, joined with commas, give the parameter string of the documented format. |
| ProxmoxAction.NetworkStep | lib/vagrant-proxmox/action/proxmox_action.rb:64-130 | One iteration, with its early `next` and `raise` exits and the assignment of line 81, does what `Step` says. |
| ProxmoxAction.AddLxcNetworkConfig | lib/vagrant-proxmox/action/proxmox_action.rb:63-133 | The loop leaves the machine's declarations, the caller's parameter hash and the outcome exactly as `CompileNetworks` gives them. |
| ProxmoxAction.AddLxcMountPoints | lib/vagrant-proxmox/action/proxmox_action.rb:201-233 | The loop leaves the caller's parameter hash and the outcome exactly as `CompileMounts` gives them, and changes nothing else, the configuration and its defaults included. |
| MachineInfo.OrNil | lib/vagrant-proxmox/action/proxmox_action.rb:16 | `v \|\| nil` is a value exactly when `v` is truthy, and then it is `v`. |
| MachineInfo.GetMachineIpAddress | lib/vagrant-proxmox/action/proxmox_action.rb:12-21 | Raises exactly when there is no descriptor of the kind read: forwarded port for `:qemu`, public network otherwise. Never returns a falsy value. |
| MachineInfo.GetMachineInterfaceName | lib/vagrant-proxmox/action/proxmox_action.rb:23-26 | Raises exactly when no public network is declared; never returns a falsy value. |
| MachineInfo.GetMachineBridgeName | lib/vagrant-proxmox/action/proxmox_action.rb:28-31 | Raises exactly when no public network is declared; never returns a falsy value. |
| MachineInfo.GetMachineGwIp | lib/vagrant-proxmox/action/proxmox_action.rb:33-36 | Raises exactly when no public network is declared; never returns a falsy value. |
| MachineInfo.GetMachineMacaddress | lib/vagrant-proxmox/action/proxmox_action.rb:38-41 | Raises exactly when no public network is declared; never returns a falsy value. |
| MachineInfo.ExtractsFromFirst | lib/vagrant-proxmox/action/proxmox_action.rb:15-16 | Every extractor reads the named key of the first descriptor of its kind, giving nil for an absent, nil or false value. |
| MachineInfo.RaisesWithoutDescriptor | lib/vagrant-proxmox/action/proxmox_action.rb:18-19 | `.first[1]` raises a runtime error exactly when no descriptor of the kind exists. |
| MachineInfo.OtherKindsIgnored | lib/vagrant-proxmox/action/proxmox_action.rb:18-19 | Descriptors of other kinds placed before the list do not change what `select` keeps. |
| MachineInfo.PublicNetworkReaders | lib/vagrant-proxmox/action/proxmox_action.rb:18-41 | For any vm_type other than `:qemu` (`:lxc`, `:openvz`, nil), the address is the `:ip` of the first public network. The interface, bridge, gateway and MAC readers return `:interface`, `:bridge`, `:gw` and `:macaddress` of the same network. Each reading is nil when its key is absent, nil or false. |
| MachineInfo.QemuAddressFromForwardedPort | lib/vagrant-proxmox/action/proxmox_action.rb:14-16 | For `:qemu` the address is `:host_ip` of the first forwarded port. |
| MachineInfo.GatewayReadings | lib/vagrant-proxmox/action/proxmox_action.rb:33-36 | A missing `:gw` and `gw: false` both read as nil; a gateway string reads as itself, whatever other keys the declaration has. |
| MachineInfo.SshInfoFollowsAddress | lib/vagrant-proxmox/action/read_ssh_info.rb:16-20 | The ssh info is present exactly when the address is. It pairs that (truthy) address with the guest port. It raises exactly when the extractor does. |
| MachineInfo.NoPublicNetworkRaises | lib/vagrant-proxmox/action/proxmox_action.rb:18-19 | An lxc machine declaring only a private network raises when its address is read, and so does ReadSSHInfo. |
| MachineInfo.FieldOfFirstOrNilAgrees | lib/vagrant-proxmox/action/proxmox_action.rb:15-16 | The nil-safe extractor gives nil without a descriptor of the kind, and otherwise agrees with the extractor as written. |
| MachineInfo.SshInfoOrNilIntended | lib/vagrant-proxmox/action/read_ssh_info.rb:16-20 | On the nil-safe address, the ssh info is nil when no descriptor is declared, and agrees with ReadSSHInfo whenever ReadSSHInfo does not raise. |
| ProviderConfig.Config.constructor | lib/vagrant-proxmox/config.rb:304-358 | Every modelled setting is UNSET except `vm_disk_size` "20G" and `lxc_cmode` "tty". There are no mount points, and the mount-point defaults are `acl`/`backup`/`quota`/`ro` false with `size` 8. |
| ProviderConfig.Config.Finalize | lib/vagrant-proxmox/config.rb:362-384 | The new settings are `Finalized` of the old ones, with one statement per source line. Mount points are unchanged. |
| ProviderConfig.Config.FinalizeAsIntended | lib/vagrant-proxmox/config.rb:362-384 | finalize! with lines 364 and 371 corrected. |
| ProviderConfig.Config.Validate | lib/vagrant-proxmox/config.rb:386-410 | Returns a single-key hash `{"Proxmox Provider" => errors}` whose list is `ValidationErrors` of the settings. |
| ProviderConfig.CommonChecks | lib/vagrant-proxmox/config.rb:387-391 | Appends the missing endpoint, user name, password and vm_type errors, in that order. |
| ProviderConfig.OpenvzChecks | lib/vagrant-proxmox/config.rb:392-394 | Adds the openvz check's error to the list so far. |
| ProviderConfig.QemuChecks | lib/vagrant-proxmox/config.rb:395-402 | Adds the three qemu checks' errors, or none when a template is set. |
| ProviderConfig.LxcChecks | lib/vagrant-proxmox/config.rb:403-408 | Adds the two lxc checks' errors. |
| ProviderConfig.ValidationErrorMember | lib/vagrant-proxmox/config.rb:387-408 | An error is reported exactly when its check fails. |
| ProviderConfig.ValidationErrorsOrdered | lib/vagrant-proxmox/config.rb:387-408 | Errors appear in the order of the checks, each at most once. |
| ProviderConfig.OpenvzValidation | lib/vagrant-proxmox/config.rb:392-394 | For `:openvz`, the error is added exactly when neither `openvz_os_template` nor `openvz_template_file` is set, and no qemu or lxc error is added. |
| ProviderConfig.QemuValidation | lib/vagrant-proxmox/config.rb:395-402 | For `:qemu`, a set `qemu_template` suppresses every qemu error. Otherwise missing `qemu_os`, missing both ISO settings, and missing `qemu_disk_size` are each reported exactly when so. |
| ProviderConfig.LxcValidation | lib/vagrant-proxmox/config.rb:403-408 | For `:lxc`, an error is reported exactly when `lxc_cmode` is not tty/shell/console, and another exactly when `lxc_tty` is not an Integer. No openvz or qemu error is reported. |
| ProviderConfig.DiskSizeConversion | lib/vagrant-proxmox/config.rb:414-421 | One trailing `G` is removed; a string without one is returned unchanged. |
| ProviderConfig.BaseName | lib/vagrant-proxmox/config.rb:369 | The result is the longest `/`-free suffix of the path. |
| ProviderConfig.BaseNameOfPath | lib/vagrant-proxmox/config.rb:374 | `dir/name` has base name `name`. |
| ProviderConfig.FinalizeResolvesSentinels | lib/vagrant-proxmox/config.rb:363-381 | Each UNSET `endpoint`, `user_name`, `password`, `vm_type`, `openvz_template_file`, `qemu_os`, `qemu_iso_file`, `lxc_ostype` and `lxc_nameserver` becomes nil after finalize!, and each of them that the user gave keeps its value. |
| ProviderConfig.FinalizeDefaultsAndSizes | lib/vagrant-proxmox/config.rb:376-383 | An UNSET `lxc_tty`, `pool` and `description` become 2, "all" and "", and given values are kept. A given `qemu_disk_size` or `vm_disk_size` is converted to gigabytes, and an unset `qemu_disk_size` becomes nil. `lxc_cmode` is untouched. |
| ProviderConfig.SelectedNodeStaysUnset | lib/vagrant-proxmox/config.rb:363-364 | `selected_node` is never changed, so an unset one stays UNSET. |
| ProviderConfig.QemuTemplateFollowsQemuOs | lib/vagrant-proxmox/config.rb:371-372 | `qemu_template` becomes nil exactly when `qemu_os` was unset, and is kept otherwise. |
| ProviderConfig.FileNamesOverride | lib/vagrant-proxmox/config.rb:368-375 | A set template or ISO file overrides any explicit value with `local:vztmpl/<base>` or `local:iso/<base>`. Without one, an UNSET name becomes nil and a given name is kept. |
| ProviderConfig.DefaultsFinalized | lib/vagrant-proxmox/config.rb:316-378 | The defaults, finalized: `vm_disk_size` "20", `lxc_tty` 2, `pool` "all", `description` "", the other unset strings nil, `selected_node` UNSET. |
| ProviderConfig.DefaultsReportMissingConnection | lib/vagrant-proxmox/config.rb:387-391 | A Vagrantfile that sets nothing gets exactly the four connection errors, in order. |
| ProviderConfig.UnsetTemplateSuppressesQemuChecks | lib/vagrant-proxmox/config.rb:371 | With `:qemu` and a `qemu_os` but no template, ISO or disk size, the template stays UNSET (truthy), so validate reports nothing. |
| ProviderConfig.IntendedFinalizeClearsAll | lib/vagrant-proxmox/config.rb:362-384 | Corrected finalize! leaves no UNSET in any setting finalize! touches (`lxc_cmode` is not one of them) and keeps user-given values of `selected_node` and `qemu_template`. |
| ProviderConfig.IntendedFinalizeReportsMissingIso | lib/vagrant-proxmox/config.rb:395-402 | With the correction, a qemu machine without a template reports each missing `qemu_os`, ISO and disk size. |

## Left out

- User feedback: the `env[:ui]` notices, `I18n.t` message lookup and logging. Errors are datatype variants without message text.
- Middleware plumbing: `connection(env)`, `next_action`, the Proxmox REST client and the rest of ReadSSHInfo. Only its `{host:, port:}` wrapping of the address is modelled.
- `env` is replaced by what the code reads from it. That is the machine's declaration list and `vm_type` for the extractors, and the configuration object and the parameter hash for the drivers.
- Aliasing of descriptor hashes: line 81 writes into the descriptor hash, which is shared with the machine's configuration. The model writes the updated descriptor back into `MachineNetworks.networks`. Other references to the same Hash object are not modelled.
- `File.basename` is a foreign call. It is modelled as the last `/`-separated segment (`BaseName`), without Ruby's handling of trailing slashes.
- The patterns `^net(\d+)$` and `^mp\d$` are read as whole-string patterns. Ruby's `^`/`$` also match at line breaks, so names containing a newline behave differently in Ruby.
- Regex indexing is modelled for Strings and Symbols. Any other `net_id` raises `RuntimeFault`.
- String interpolation is modelled for nil, booleans, Integers, Strings and Symbols. Other Ruby objects (floats, arrays, nested hashes) cannot appear in a descriptor here.
- `lxc_mount_points` is taken as a sequence in the Hash's iteration order. A Ruby Hash cannot repeat a key, but a String key and a Symbol key (`"mp0"` and `:mp0`) name the same slot after `mp.to_sym`, and the later one wins. The model's list may repeat a name, and the lemmas are stated for such lists.
- Settings that `initialize` installs but that `finalize!` and `validate` never read are not modelled: timeouts, memory, storage names, the `replace_*` flags and so on.
- The settings `finalize!` and `validate` touch are held together in one `Settings` value in `Config.settings`, not one field each. `Finalize` still assigns them one source line at a time.
- `UNSET_VALUE` is the `Unset` variant of `Setting`. Its object identity and truthiness are the two facts used: it is never nil, so it is truthy.
- `vm_disk_size` is typed as an optional String, since `initialize` gives it "20G" and a Vagrantfile sets a String.
- The settings typed `Setting<string>` hold only Strings. Examples are `endpoint`, `qemu_os` and `lxc_cmode`. A Vagrantfile that assigns them another Ruby value, such as `false` or a Symbol `lxc_cmode`, is not modelled. Validate's truthiness and `include?` tests would treat such values differently.
- `get_ip_cidr4`/`get_ip_cidr6` return `false` for "no value". The model returns `None`; callers test only truthiness.

## Findings

| source | as written | input that shows it | evidently intended | confidence | as-written member | corrected member |
|---|---|---|---|---|---|---|
| lib/vagrant-proxmox/config.rb:364 | `selected_node` is cleared only if `endpoint` is still UNSET, which line 363 has just ruled out | any settings with `selected_node` unset: it stays UNSET after finalize! | `@selected_node = nil if @selected_node == UNSET_VALUE` | not executed; high | ProviderConfig.SelectedNodeStaysUnset | ProviderConfig.IntendedFinalizeClearsAll |
| lib/vagrant-proxmox/config.rb:371 | `qemu_template` is cleared when `qemu_os` is unset, so an unset template stays UNSET (truthy) whenever `qemu_os` is given | `vm_type :qemu`, `qemu_os "l26"`, no template, ISO or disk size: validate reports nothing | `@qemu_template = nil if @qemu_template == UNSET_VALUE` | not executed; medium | ProviderConfig.UnsetTemplateSuppressesQemuChecks | ProviderConfig.IntendedFinalizeReportsMissingIso |
| lib/vagrant-proxmox/action/proxmox_action.rb:18-19 | `.first[1]` is indexed although `.first` is nil when no public network is declared | an lxc machine whose only network is a private network: reading its address, and ReadSSHInfo, raise NoMethodError | the address reads as nil, which ReadSSHInfo's `.try` already handles | not executed; medium | MachineInfo.NoPublicNetworkRaises | MachineInfo.SshInfoOrNilIntended |
