/** The LXC mount-point compiler of ProxmoxAction (add_lxc_mount_points and
    get_rest_boolean). CompileMountPoint is one iteration of the loop, written as the
    source writes it; MountEntry is its specification, and the lemmas below state what
    that specification promises. The outer loop over all mount points is in module
    ProxmoxAction and is proved equal to CompileMounts. */
module LxcMount {
  import opened Wrappers
  import opened Errors
  import opened RubyValues

  /** One entry of the `lxc_mount_points` hash: the slot name and its options hash. */
  datatype MountPoint = MountPoint(name: string, options: Options)

  /** get_rest_boolean: 1 for a truthy value, 0 for nil and false. */
  function GetRestBoolean(v: Value): (r: int)
    ensures r == 0 || r == 1
    ensures r == 1 <==> Truthy(v)
  {
    if Truthy(v) then 1 else 0
  }

  /** `mp =~ /^mp\d$/` read as a whole-string pattern: "mp" followed by exactly one digit. */
  predicate IsMountSlotName(name: string) {
    |name| == 3 && name[..2] == "mp" && IsDigit(name[2])
  }

  /** The symbols add_lxc_mount_points reads and writes. */
  datatype MountKey = Volume | Mp | Acl | Backup | Quota | Ro | Size

  function KeyText(k: MountKey): string {
    match k
    case Volume => "volume"
    case Mp => "mp"
    case Acl => "acl"
    case Backup => "backup"
    case Quota => "quota"
    case Ro => "ro"
    case Size => "size"
  }

  lemma KeyTextInjective()
    ensures forall a, b :: KeyText(a) == KeyText(b) ==> a == b
  {
    forall a, b | KeyText(a) == KeyText(b) ensures a == b {
      assert |KeyText(a)| == |KeyText(b)| && KeyText(a)[0] == KeyText(b)[0];
    }
  }

  /** `c[k]` for a key of this module. */
  function Get(c: Options, k: MountKey): Value {
    Lookup(c, KeyText(k))
  }

  /** The keys a mount point must have, checked in this order (line 211). */
  const RequiredMountKeys: seq<MountKey> := [Volume, Mp, Backup, Size]

  /** The keys coerced to 1/0 (line 220). */
  const MountFlagKeys: seq<MountKey> := [Acl, Backup, Quota, Ro]

  /** The position of `k` in MountFlagKeys, or -1 when `k` is not a flag. */
  function FlagIndex(k: MountKey): int {
    match k
    case Acl => 0
    case Backup => 1
    case Quota => 2
    case Ro => 3
    case _ => -1
  }

  /** The keys of the output string, in this order (line 225). */
  const MountOutputKeys: seq<MountKey> := [Volume, Mp, Acl, Backup, Quota, Ro]

  /** The first of `keys` that `c` lacks, or None when it has them all. */
  function FirstMissing(c: Options, keys: seq<MountKey>): (r: Option<MountKey>)
    ensures r.None? <==> forall j :: 0 <= j < |keys| ==> KeyText(keys[j]) in c
    ensures r.Some? ==> r.value in keys && KeyText(r.value) !in c
  {
    if keys == [] then None
    else if KeyText(keys[0]) !in c then Some(keys[0])
    else FirstMissing(c, keys[1..])
  }

  /** The value key `k` holds after lines 218-222: `volume` becomes `volume:size`, each
      flag key the Integer 1 or 0 that get_rest_boolean gives for it, and every other key
      keeps its value. */
  function PreparedValue(c: Options, k: MountKey): Value {
    match k
    case Volume => Str(Render(Get(c, Volume)) + ":" + Render(Get(c, Size)))
    case Acl => Int(GetRestBoolean(Get(c, k)))
    case Backup => Int(GetRestBoolean(Get(c, k)))
    case Quota => Int(GetRestBoolean(Get(c, k)))
    case Ro => Int(GetRestBoolean(Get(c, k)))
    case _ => Get(c, k)
  }

  /** The `key=value` texts of lines 224-227 for the merged hash `c`. */
  function MountFieldTexts(c: Options): seq<string> {
    seq(|MountOutputKeys|, i requires 0 <= i < |MountOutputKeys| =>
      KeyText(MountOutputKeys[i]) + "=" + Render(PreparedValue(c, MountOutputKeys[i])))
  }

  /** The entry add_lxc_mount_points stores for mount point `name` with hash `cfg`, or the
      error it raises. The effective hash is `defaults.merge(cfg)`. */
  function MountEntry(name: string, cfg: Options, defaults: Options): Result<string, Error> {
    var c := defaults + cfg;
    if !IsMountSlotName(name) then Failure(VMConfigError(InvalidMountPoint))
    else
      match FirstMissing(c, RequiredMountKeys)
      case Some(k) => Failure(VMConfigError(MissingMountKey(KeyText(k))))
      case None => Success(Join(MountFieldTexts(c), ","))
  }

  /** One iteration of the loop of add_lxc_mount_points (lines 203-230), without the
      write into `params`: merge with the defaults, check the slot name, check the
      required keys in order, rewrite `volume`, coerce the flags, build the string. */
  method CompileMountPoint(name: string, cfg: Options, defaults: Options) returns (r: Result<string, Error>)
    ensures r == MountEntry(name, cfg, defaults)
  {
    var c := defaults + cfg;
    if !IsMountSlotName(name) {
      return Failure(VMConfigError(InvalidMountPoint));
    }
    for i := 0 to |RequiredMountKeys|
      invariant forall j :: 0 <= j < i ==> KeyText(RequiredMountKeys[j]) in c
    {
      var k := KeyText(RequiredMountKeys[i]);
      if k !in c {
        FirstMissingIsFirst(c, RequiredMountKeys, i);
        return Failure(VMConfigError(MissingMountKey(k)));
      }
    }
    var merged := c;
    c := c[KeyText(Volume) := Str(Render(Get(c, Volume)) + ":" + Render(Get(c, Size)))];
    VolumeRewritten(merged);
    for i := 0 to |MountFlagKeys|
      invariant FlagsCoerced(c, merged, i)
    {
      var k := MountFlagKeys[i];
      CoerceFlagStep(c, merged, i);
      c := c[KeyText(k) := Int(GetRestBoolean(Lookup(c, KeyText(k))))];
    }
    assert forall k :: Get(c, k) == PreparedValue(merged, k);
    var cs: seq<string> := [];
    ghost var texts := MountFieldTexts(merged);
    for i := 0 to |MountOutputKeys|
      invariant cs == texts[..i]
    {
      var k := MountOutputKeys[i];
      cs := cs + [KeyText(k) + "=" + Render(Lookup(c, KeyText(k)))];
      assert texts[..i + 1] == texts[..i] + [texts[i]];
    }
    assert cs == texts;
    assert FirstMissing(merged, RequiredMountKeys) == None;
    r := Success(Join(cs, ","));
  }

  /** After line 218 and the first `i` coercions of line 221, every key holds its final
      value if it has been rewritten and its merged value otherwise. */
  predicate FlagsCoerced(c: Options, merged: Options, i: int) {
    forall k :: Get(c, k) == if k == Volume || 0 <= FlagIndex(k) < i then PreparedValue(merged, k) else Get(merged, k)
  }

  lemma VolumeRewritten(merged: Options)
    ensures FlagsCoerced(merged[KeyText(Volume) := Str(Render(Get(merged, Volume)) + ":" + Render(Get(merged, Size)))], merged, 0)
  {
    var c := merged[KeyText(Volume) := Str(Render(Get(merged, Volume)) + ":" + Render(Get(merged, Size)))];
    forall k ensures Get(c, k) == if k == Volume then PreparedValue(merged, k) else Get(merged, k) {
      if k != Volume {
        KeyTextInjective();
        assert KeyText(k) != KeyText(Volume);
      }
    }
  }

  lemma CoerceFlagStep(c: Options, merged: Options, i: nat)
    requires i < |MountFlagKeys| && FlagsCoerced(c, merged, i)
    ensures var k := MountFlagKeys[i];
            FlagsCoerced(c[KeyText(k) := Int(GetRestBoolean(Lookup(c, KeyText(k))))], merged, i + 1)
  {
    var key := MountFlagKeys[i];
    assert FlagIndex(key) == i;
    var c' := c[KeyText(key) := Int(GetRestBoolean(Lookup(c, KeyText(key))))];
    forall k ensures Get(c', k) == if k == Volume || 0 <= FlagIndex(k) < i + 1 then PreparedValue(merged, k) else Get(merged, k) {
      if k != key {
        KeyTextInjective();
        assert KeyText(k) != KeyText(key);
      }
    }
  }

  /** The key FirstMissing reports is the first missing one in list order. */
  lemma {:induction false} FirstMissingIsFirst(c: Options, keys: seq<MountKey>, i: nat)
    requires i < |keys| && KeyText(keys[i]) !in c
    requires forall j :: 0 <= j < i ==> KeyText(keys[j]) in c
    ensures FirstMissing(c, keys) == Some(keys[i])
    decreases i
  {
    if i > 0 {
      FirstMissingIsFirst(c, keys[1..], i - 1);
    }
  }

  /** `b` of the output format: "1" for a truthy value, "0" otherwise. */
  function Bit(c: Options, k: MountKey): string {
    if Truthy(Get(c, k)) then "1" else "0"
  }

  /** The six fields of the mount output for the merged hash `c`, as the format of lines
      197-199 writes them. */
  function DocumentedMountFields(c: Options): seq<string> {
    [ "volume=" + (Render(Get(c, Volume)) + ":" + Render(Get(c, Size))),
      "mp=" + Render(Get(c, Mp)),
      "acl=" + Bit(c, Acl),
      "backup=" + Bit(c, Backup),
      "quota=" + Bit(c, Quota),
      "ro=" + Bit(c, Ro) ]
  }

  /** A coerced flag is written as the digit 1 or 0. */
  lemma FlagRendered(c: Options, k: MountKey)
    requires k in MountFlagKeys
    ensures Render(PreparedValue(c, k)) == Bit(c, k)
  {
    assert NatToString(1) == "1" && NatToString(0) == "0";
  }

  /** Field `i` of the output is key `k`, written `prefix` (its name and `=`), and its
      prepared value. */
  lemma OutputText(c: Options, i: nat, k: MountKey, prefix: string)
    requires i < |MountOutputKeys| && MountOutputKeys[i] == k && KeyText(k) + "=" == prefix
    ensures MountFieldTexts(c)[i] == prefix + Render(PreparedValue(c, k))
  {
  }

  lemma MountFieldTextsDocumented(c: Options)
    ensures MountFieldTexts(c) == DocumentedMountFields(c)
  {
    var ts := MountFieldTexts(c);
    var ds := DocumentedMountFields(c);
    forall i | 0 <= i < 6 ensures ts[i] == ds[i] {
      KeyEqualsPrefixes();
      if i == 0 {
        OutputText(c, 0, Volume, "volume=");
      } else if i == 1 {
        OutputText(c, 1, Mp, "mp=");
      } else if i == 2 {
        OutputText(c, 2, Acl, "acl=");
        FlagRendered(c, Acl);
      } else if i == 3 {
        OutputText(c, 3, Backup, "backup=");
        FlagRendered(c, Backup);
      } else if i == 4 {
        OutputText(c, 4, Quota, "quota=");
        FlagRendered(c, Quota);
      } else {
        OutputText(c, 5, Ro, "ro=");
        FlagRendered(c, Ro);
      }
    }
  }

  /** The mount output: the six fields `volume=<volume>:<size>`, `mp=<mp>`, `acl=<b>`,
      `backup=<b>`, `quota=<b>` and `ro=<b>` of the merged hash, in that order, joined
      with commas; `size` has no field of its own. */
  lemma MountEntryFormat(name: string, cfg: Options, defaults: Options)
    requires IsMountSlotName(name)
    requires forall k :: k in RequiredMountKeys ==> KeyText(k) in defaults + cfg
    ensures MountEntry(name, cfg, defaults) == Success(Join(DocumentedMountFields(defaults + cfg), ","))
  {
    assert forall j :: 0 <= j < |RequiredMountKeys| ==> RequiredMountKeys[j] in RequiredMountKeys;
    MountFieldTextsDocumented(defaults + cfg);
  }

  lemma KeyEqualsPrefixes()
    ensures KeyText(Volume) + "=" == "volume="
    ensures KeyText(Mp) + "=" == "mp="
    ensures KeyText(Acl) + "=" == "acl="
    ensures KeyText(Backup) + "=" == "backup="
    ensures KeyText(Quota) + "=" == "quota="
    ensures KeyText(Ro) + "=" == "ro="
  {
  }

  /** The key FirstMissing reports sits at a position before which no key is missing. */
  lemma {:induction false} FirstMissingIndex(c: Options, keys: seq<MountKey>) returns (m: nat)
    requires FirstMissing(c, keys).Some?
    ensures m < |keys| && keys[m] == FirstMissing(c, keys).value
    ensures forall j :: 0 <= j < m ==> KeyText(keys[j]) in c
  {
    if KeyText(keys[0]) !in c {
      m := 0;
    } else {
      var m' := FirstMissingIndex(c, keys[1..]);
      m := m' + 1;
      assert forall j :: 0 < j < m ==> keys[j] == keys[1..][j - 1];
    }
  }

  /** FirstMissing names key `i` exactly when key `i` is missing and the keys before it are
      present (the keys being distinct). */
  lemma FirstMissingExactly(c: Options, keys: seq<MountKey>, i: nat)
    requires i < |keys|
    requires forall a, b :: 0 <= a < b < |keys| ==> keys[a] != keys[b]
    ensures FirstMissing(c, keys) == Some(keys[i]) <==>
              KeyText(keys[i]) !in c && forall j :: 0 <= j < i ==> KeyText(keys[j]) in c
  {
    if KeyText(keys[i]) !in c && forall j :: 0 <= j < i ==> KeyText(keys[j]) in c {
      FirstMissingIsFirst(c, keys, i);
    }
    if FirstMissing(c, keys) == Some(keys[i]) {
      var m := FirstMissingIndex(c, keys);
      assert m == i;
    }
  }

  /** Missing key `i` is reported exactly when the slot name is valid, the merged hash
      lacks key `i` and has every required key before it. */
  lemma MissingKeyReported(name: string, cfg: Options, defaults: Options, i: nat)
    requires i < |RequiredMountKeys|
    ensures MountEntry(name, cfg, defaults) == Failure(VMConfigError(MissingMountKey(KeyText(RequiredMountKeys[i])))) <==>
              && IsMountSlotName(name) && KeyText(RequiredMountKeys[i]) !in defaults + cfg
              && forall j :: 0 <= j < i ==> KeyText(RequiredMountKeys[j]) in defaults + cfg
  {
    KeyTextInjective();
    FirstMissingExactly(defaults + cfg, RequiredMountKeys, i);
  }

  /** The errors, in the order the source checks them: a bad slot name first, whatever
      the hash holds; then the first of `volume`, `mp`, `backup`, `size` that the merged
      hash lacks; and no error at all otherwise. */
  lemma MountErrors(name: string, cfg: Options, defaults: Options)
    ensures var r := MountEntry(name, cfg, defaults);
            && (r == Failure(VMConfigError(InvalidMountPoint)) <==> !IsMountSlotName(name))
            && (forall i :: 0 <= i < |RequiredMountKeys| ==>
                  (r == Failure(VMConfigError(MissingMountKey(KeyText(RequiredMountKeys[i])))) <==>
                     && IsMountSlotName(name) && KeyText(RequiredMountKeys[i]) !in defaults + cfg
                     && forall j :: 0 <= j < i ==> KeyText(RequiredMountKeys[j]) in defaults + cfg))
            && (r.Success? <==> IsMountSlotName(name) && forall k :: k in RequiredMountKeys ==> KeyText(k) in defaults + cfg)
  {
    forall i | 0 <= i < |RequiredMountKeys|
      ensures MountEntry(name, cfg, defaults) == Failure(VMConfigError(MissingMountKey(KeyText(RequiredMountKeys[i])))) <==>
                && IsMountSlotName(name) && KeyText(RequiredMountKeys[i]) !in defaults + cfg
                && forall j :: 0 <= j < i ==> KeyText(RequiredMountKeys[j]) in defaults + cfg
    {
      MissingKeyReported(name, cfg, defaults, i);
    }
  }

  /** A slot name of two or more digits, such as mp10, is rejected. */
  lemma TwoDigitSlotRejected(cfg: Options, defaults: Options)
    ensures MountEntry("mp10", cfg, defaults) == Failure(VMConfigError(InvalidMountPoint))
  {
  }

  /* ---------------- all mount points ---------------- */

  /** The parameter hash after the loop of add_lxc_mount_points, and whether it raised. */
  datatype MountPass = MountPass(params: Params, outcome: Outcome<Error>)

  /** The loop of add_lxc_mount_points given each iteration's result: entries are stored
      under `name.to_sym` in order, and the first error ends the loop. */
  function ApplyMounts(names: seq<string>, results: seq<Result<string, Error>>, params: Params): MountPass
    requires |results| == |names|
    decreases |names|
  {
    if names == [] then MountPass(params, Pass)
    else
      match results[0]
      case Failure(e) => MountPass(params, Fail(e))
      case Success(s) => ApplyMounts(names[1..], results[1..], params[SymKey(names[0]) := s])
  }

  function Names(mps: seq<MountPoint>): (ns: seq<string>)
    ensures |ns| == |mps| && forall i :: 0 <= i < |mps| ==> ns[i] == mps[i].name
  {
    seq(|mps|, i requires 0 <= i < |mps| => mps[i].name)
  }

  function Entries(mps: seq<MountPoint>, defaults: Options): (es: seq<Result<string, Error>>)
    ensures |es| == |mps| && forall i :: 0 <= i < |mps| ==> es[i] == MountEntry(mps[i].name, mps[i].options, defaults)
  {
    seq(|mps|, i requires 0 <= i < |mps| => MountEntry(mps[i].name, mps[i].options, defaults))
  }

  /** add_lxc_mount_points on mount points `mps` (in hash order) and parameter hash `params`. */
  function CompileMounts(mps: seq<MountPoint>, defaults: Options, params: Params): MountPass {
    ApplyMounts(Names(mps), Entries(mps, defaults), params)
  }

  lemma {:induction false} ApplyMountsFailFast(names: seq<string>, results: seq<Result<string, Error>>, params: Params, i: nat)
    requires |results| == |names| && i < |names| && results[i].Failure?
    requires forall j :: 0 <= j < i ==> results[j].Success?
    ensures var r := ApplyMounts(names, results, params);
            var before := ApplyMounts(names[..i], results[..i], params);
            r == MountPass(before.params, Fail(results[i].error)) && before.outcome == Pass
    decreases i
  {
    if i > 0 {
      assert names[..i][0] == names[0] && names[..i][1..] == names[1..][..i - 1];
      assert results[..i][0] == results[0] && results[..i][1..] == results[1..][..i - 1];
      ApplyMountsFailFast(names[1..], results[1..], params[SymKey(names[0]) := results[0].value], i - 1);
    }
  }

  /** Fail-fast without rollback: when mount point `i` is the first rejected one, its
      error is raised and the parameter hash holds exactly what the mount points before
      it wrote; nothing is written for mount point `i`. */
  lemma MountFailFastWithoutRollback(mps: seq<MountPoint>, defaults: Options, params: Params, i: nat)
    requires i < |mps| && MountEntry(mps[i].name, mps[i].options, defaults).Failure?
    requires forall j :: 0 <= j < i ==> MountEntry(mps[j].name, mps[j].options, defaults).Success?
    ensures var before := CompileMounts(mps[..i], defaults, params);
            && before.outcome == Pass
            && CompileMounts(mps, defaults, params) ==
                 MountPass(before.params, Fail(MountEntry(mps[i].name, mps[i].options, defaults).error))
  {
    ApplyMountsFailFast(Names(mps), Entries(mps, defaults), params, i);
    assert Names(mps)[..i] == Names(mps[..i]);
    assert Entries(mps, defaults)[..i] == Entries(mps[..i], defaults);
  }

  lemma {:induction false} ApplyMountsKeeps(names: seq<string>, results: seq<Result<string, Error>>, params: Params, k: ParamKey)
    requires |results| == |names| && k in params
    requires forall j :: 0 <= j < |names| ==> SymKey(names[j]) != k
    ensures k in ApplyMounts(names, results, params).params
    ensures ApplyMounts(names, results, params).params[k] == params[k]
    decreases |names|
  {
    if names != [] && results[0].Success? {
      ApplyMountsKeeps(names[1..], results[1..], params[SymKey(names[0]) := results[0].value], k);
    }
  }

  lemma {:induction false} ApplyMountsWrites(names: seq<string>, results: seq<Result<string, Error>>, params: Params, i: nat)
    requires |results| == |names| && ApplyMounts(names, results, params).outcome == Pass && i < |names|
    ensures results[i].Success?
    ensures SymKey(names[i]) in ApplyMounts(names, results, params).params
    ensures (forall j :: i < j < |names| ==> names[j] != names[i]) ==>
              ApplyMounts(names, results, params).params[SymKey(names[i])] == results[i].value
    decreases |names|
  {
    var p' := params[SymKey(names[0]) := results[0].value];
    if i > 0 {
      ApplyMountsWrites(names[1..], results[1..], p', i - 1);
    } else {
      ApplyMountsGrows(names[1..], results[1..], p');
      if forall j :: 0 < j < |names| ==> names[j] != names[0] {
        ApplyMountsKeeps(names[1..], results[1..], p', SymKey(names[0]));
      }
    }
  }

  /** Keys already in the hash stay there. */
  lemma {:induction false} ApplyMountsGrows(names: seq<string>, results: seq<Result<string, Error>>, params: Params)
    requires |results| == |names|
    ensures params.Keys <= ApplyMounts(names, results, params).params.Keys
    decreases |names|
  {
    if names != [] && results[0].Success? {
      ApplyMountsGrows(names[1..], results[1..], params[SymKey(names[0]) := results[0].value]);
    }
  }

  /** A pass that raises nothing stores every mount point's entry under its Symbol key,
      where it stays unless a later mount point has the same name. */
  lemma EveryMountPointStored(mps: seq<MountPoint>, defaults: Options, params: Params, i: nat)
    requires CompileMounts(mps, defaults, params).outcome == Pass && i < |mps|
    ensures MountEntry(mps[i].name, mps[i].options, defaults).Success?
    ensures SymKey(mps[i].name) in CompileMounts(mps, defaults, params).params
    ensures (forall j :: i < j < |mps| ==> mps[j].name != mps[i].name) ==>
              CompileMounts(mps, defaults, params).params[SymKey(mps[i].name)] ==
                MountEntry(mps[i].name, mps[i].options, defaults).value
  {
    ApplyMountsWrites(Names(mps), Entries(mps, defaults), params, i);
  }

  /** Entries under keys no mount point writes (all network slots, for instance) are kept. */
  lemma OtherKeysKept(mps: seq<MountPoint>, defaults: Options, params: Params, k: ParamKey)
    requires k in params && forall j :: 0 <= j < |mps| ==> SymKey(mps[j].name) != k
    ensures k in CompileMounts(mps, defaults, params).params
    ensures CompileMounts(mps, defaults, params).params[k] == params[k]
  {
    ApplyMountsKeeps(Names(mps), Entries(mps, defaults), params, k);
  }
}
