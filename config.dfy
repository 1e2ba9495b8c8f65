/** The provider settings of lib/vagrant-proxmox/config.rb: the defaults `initialize`
    installs, the clean-up `finalize!` performs and the error list `validate` builds.
    Settings the plugin only stores (timeouts, memory, storage names, ...) are not part
    of this model. */
module ProviderConfig {
  import opened Wrappers
  import R = RubyValues
  import opened LxcMount

  /** A setting the user may leave alone (`UNSET_VALUE`, a truthy sentinel object),
      set to nil, or set to a value. */
  datatype Setting<T> = Unset | Nil | Set(value: T)

  /** Ruby truthiness of a String-valued setting: only nil is false. */
  predicate Given<T>(s: Setting<T>) {
    !s.Nil?
  }

  /** Ruby truthiness of a setting holding an arbitrary value. */
  predicate GivenValue(s: Setting<R.Value>) {
    s.Unset? || (s.Set? && R.Truthy(s.value))
  }

  /** `x = nil if x == UNSET_VALUE`. */
  function NilIfUnset<T>(s: Setting<T>): Setting<T> {
    if s.Unset? then Nil else s
  }

  /** `x = nil if cond`. */
  function NilIf<T>(cond: bool, s: Setting<T>): Setting<T> {
    if cond then Nil else s
  }

  /** `x = d if x == UNSET_VALUE`. */
  function DefaultIfUnset<T>(s: Setting<T>, d: T): Setting<T> {
    if s.Unset? then Set(d) else s
  }

  /** The settings `finalize!` and `validate` read or write. `vm_type` and `lxc_tty` hold
      arbitrary values (a Symbol and an Integer when well formed); the other settings
      hold Strings. `vm_disk_size` starts as a String, so it is never UNSET. */
  datatype Settings = Settings(
    endpoint: Setting<string>,
    selectedNode: Setting<string>,
    userName: Setting<string>,
    password: Setting<string>,
    vmType: Setting<R.Value>,
    openvzOsTemplate: Setting<string>,
    openvzTemplateFile: Setting<string>,
    vmDiskSize: Option<string>,
    pool: Setting<string>,
    qemuOs: Setting<string>,
    qemuTemplate: Setting<string>,
    qemuIso: Setting<string>,
    qemuIsoFile: Setting<string>,
    qemuDiskSize: Setting<string>,
    lxcOstype: Setting<string>,
    lxcNameserver: Setting<string>,
    lxcCmode: Setting<string>,
    lxcTty: Setting<R.Value>,
    description: Setting<string>)

  /** The values `initialize` gives these settings (lines 305-357). */
  function Defaults(): Settings {
    Settings(
      endpoint := Unset, selectedNode := Unset, userName := Unset, password := Unset,
      vmType := Unset, openvzOsTemplate := Unset, openvzTemplateFile := Unset,
      vmDiskSize := Some("20G"), pool := Unset, qemuOs := Unset, qemuTemplate := Unset,
      qemuIso := Unset, qemuIsoFile := Unset, qemuDiskSize := Unset, lxcOstype := Unset,
      lxcNameserver := Unset, lxcCmode := Set("tty"), lxcTty := Unset, description := Unset)
  }

  /** The mount-point defaults `initialize` installs (lines 349-353). */
  function DefaultMountPointOptions(): R.Options {
    map["acl" := R.Bool(false), "backup" := R.Bool(false), "quota" := R.Bool(false),
        "ro" := R.Bool(false), "size" := R.Int(8)]
  }

  /** convert_disk_size_to_gigabyte: drop one trailing 'G'; anything else is unchanged. */
  function ConvertDiskSizeToGigabyte(size: string): string {
    if |size| > 0 && size[|size| - 1] == 'G' then size[..|size| - 1] else size
  }

  /** The part of `path` after its last '/' (the whole path when it has none). */
  function BaseName(path: string): (b: string)
    ensures '/' !in b
    ensures |b| <= |path| && path[|path| - |b|..] == b
    ensures '/' !in path ==> b == path
    ensures |b| < |path| ==> path[|path| - |b| - 1] == '/'
  {
    if |path| == 0 then ""
    else if path[|path| - 1] == '/' then ""
    else BaseName(path[..|path| - 1]) + [path[|path| - 1]]
  }

  /** The storage volume of an OpenVZ template file, `local:vztmpl/<base name>` (line 369). */
  function TemplateVolume(file: string): string {
    "local:vztmpl/" + BaseName(file)
  }

  /** The storage volume of an ISO file, `local:iso/<base name>` (line 374). */
  function IsoVolume(file: string): string {
    "local:iso/" + BaseName(file)
  }

  /** Lines 369 and 374: a (cleared) file setting, when present, replaces the volume name
      it names. */
  function TemplateOf(file: Setting<string>, current: Setting<string>): Setting<string> {
    if file.Set? then Set(TemplateVolume(file.value)) else current
  }

  function IsoOf(file: Setting<string>, current: Setting<string>): Setting<string> {
    if file.Set? then Set(IsoVolume(file.value)) else current
  }

  /** Lines 377 and 378: a disk size, when present, is converted. */
  function SizeInGigabytes(size: Setting<string>): Setting<string> {
    if size.Set? then Set(ConvertDiskSizeToGigabyte(size.value)) else size
  }

  function VmDiskSizeInGigabytes(size: Option<string>): Option<string> {
    if size.Some? then Some(ConvertDiskSizeToGigabyte(size.value)) else size
  }

  /** finalize! (lines 362-384) as written, one line after another. */
  function Finalized(s: Settings): Settings {
    var endpoint := NilIfUnset(s.endpoint);                                          // 363
    var openvzTemplateFile := NilIfUnset(s.openvzTemplateFile);                      // 368
    var qemuIsoFile := NilIfUnset(s.qemuIsoFile);                                    // 373
    s.(
      endpoint := endpoint,
      selectedNode := NilIf(endpoint.Unset?, s.selectedNode),                        // 364
      userName := NilIfUnset(s.userName),
      password := NilIfUnset(s.password),
      vmType := NilIfUnset(s.vmType),
      openvzTemplateFile := openvzTemplateFile,
      openvzOsTemplate := NilIfUnset(TemplateOf(openvzTemplateFile, s.openvzOsTemplate)),
      qemuTemplate := NilIf(s.qemuOs.Unset?, s.qemuTemplate),                        // 371
      qemuOs := NilIfUnset(s.qemuOs),
      qemuIsoFile := qemuIsoFile,
      qemuIso := NilIfUnset(IsoOf(qemuIsoFile, s.qemuIso)),
      qemuDiskSize := SizeInGigabytes(NilIfUnset(s.qemuDiskSize)),
      vmDiskSize := VmDiskSizeInGigabytes(s.vmDiskSize),
      lxcOstype := NilIfUnset(s.lxcOstype),
      lxcNameserver := NilIfUnset(s.lxcNameserver),
      lxcTty := DefaultIfUnset(s.lxcTty, R.Int(2)),
      pool := DefaultIfUnset(s.pool, "all"),
      description := DefaultIfUnset(s.description, ""))
  }

  /** finalize! as its authors evidently meant lines 364 and 371: `selected_node` and
      `qemu_template` are cleared when they themselves are unset. */
  function FinalizedAsIntended(s: Settings): Settings {
    Finalized(s).(selectedNode := NilIfUnset(s.selectedNode), qemuTemplate := NilIfUnset(s.qemuTemplate))
  }

  /** The errors `validate` can report, in the order it checks them. */
  datatype ValidationError =
    | NoEndpointSpecified
    | NoUserNameSpecified
    | NoPasswordSpecified
    | NoVmTypeSpecified
    | NoOpenvzOsTemplateOrOpenvzTemplateFile
    | NoQemuOs
    | NoQemuIsoOrQemuIsoFile
    | NoQemuDiskSize
    | LxcNoValidCmode
    | LxcNoValidTty

  /** The number of checks validate performs. */
  const CheckCount: nat := 10

  /** The check validate performs in position `i` (lines 388-407). */
  function CheckAt(i: nat): ValidationError
    requires i < CheckCount
  {
    match i
    case 0 => NoEndpointSpecified
    case 1 => NoUserNameSpecified
    case 2 => NoPasswordSpecified
    case 3 => NoVmTypeSpecified
    case 4 => NoOpenvzOsTemplateOrOpenvzTemplateFile
    case 5 => NoQemuOs
    case 6 => NoQemuIsoOrQemuIsoFile
    case 7 => NoQemuDiskSize
    case 8 => LxcNoValidCmode
    case _ => LxcNoValidTty
  }

  /** The position of error `e` among the checks. */
  function CheckRank(e: ValidationError): nat {
    match e
    case NoEndpointSpecified => 0
    case NoUserNameSpecified => 1
    case NoPasswordSpecified => 2
    case NoVmTypeSpecified => 3
    case NoOpenvzOsTemplateOrOpenvzTemplateFile => 4
    case NoQemuOs => 5
    case NoQemuIsoOrQemuIsoFile => 6
    case NoQemuDiskSize => 7
    case LxcNoValidCmode => 8
    case LxcNoValidTty => 9
  }

  /** The console modes validate accepts for `lxc_cmode` (line 403). */
  const ValidCmodes: seq<string> := ["tty", "shell", "console"]

  /** The symbol `vm_type` is compared with. */
  predicate IsVmType(s: Settings, name: string) {
    s.vmType == Set(R.Sym(name))
  }

  /** The condition under which `validate` reports `e` (lines 387-408). */
  predicate Applies(e: ValidationError, s: Settings) {
    match e
    case NoEndpointSpecified => !Given(s.endpoint)
    case NoUserNameSpecified => !Given(s.userName)
    case NoPasswordSpecified => !Given(s.password)
    case NoVmTypeSpecified => !GivenValue(s.vmType)
    case NoOpenvzOsTemplateOrOpenvzTemplateFile =>
      IsVmType(s, "openvz") && !Given(s.openvzOsTemplate) && !Given(s.openvzTemplateFile)
    case NoQemuOs => IsVmType(s, "qemu") && !Given(s.qemuTemplate) && !Given(s.qemuOs)
    case NoQemuIsoOrQemuIsoFile =>
      IsVmType(s, "qemu") && !Given(s.qemuTemplate) && !Given(s.qemuIso) && !Given(s.qemuIsoFile)
    case NoQemuDiskSize => IsVmType(s, "qemu") && !Given(s.qemuTemplate) && !Given(s.qemuDiskSize)
    case LxcNoValidCmode =>
      IsVmType(s, "lxc") && !(s.lxcCmode.Set? && s.lxcCmode.value in ValidCmodes)
    case LxcNoValidTty => IsVmType(s, "lxc") && !(s.lxcTty.Set? && s.lxcTty.value.Int?)
  }

  /** The errors of the first `n` checks that apply to `s`, in the order of the checks. */
  function ErrorsUpTo(s: Settings, n: nat): seq<ValidationError>
    requires n <= CheckCount
  {
    if n == 0 then []
    else ErrorsUpTo(s, n - 1) + (if Applies(CheckAt(n - 1), s) then [CheckAt(n - 1)] else [])
  }

  /** The error list `validate` returns for settings `s`. */
  function ValidationErrors(s: Settings): seq<ValidationError> {
    ErrorsUpTo(s, CheckCount)
  }

  /** The key of the single-entry hash `validate` returns. */
  const ProviderSection: string := "Proxmox Provider"

  /** The provider settings object. The Vagrantfile assigns its public attributes;
      finalize! and validate are the methods below. The instance variables they touch
      are held together in `settings`. */
  class Config {
    var settings: Settings
    var lxcMountPoints: seq<MountPoint>
    var lxcMountPointDefaults: R.Options

    /** initialize (lines 304-358). */
    constructor ()
      ensures settings == Defaults()
      ensures lxcMountPoints == [] && lxcMountPointDefaults == DefaultMountPointOptions()
    {
      settings := Defaults();
      lxcMountPoints := [];
      lxcMountPointDefaults := DefaultMountPointOptions();
    }

    /** finalize! (lines 362-384), one statement per source line. */
    method Finalize()
      modifies this
      ensures settings == Finalized(old(settings))
      ensures lxcMountPoints == old(lxcMountPoints) && lxcMountPointDefaults == old(lxcMountPointDefaults)
    {
      var s := settings;
      s := s.(endpoint := NilIfUnset(s.endpoint));
      s := s.(selectedNode := NilIf(s.endpoint.Unset?, s.selectedNode));
      s := s.(userName := NilIfUnset(s.userName));
      s := s.(password := NilIfUnset(s.password));
      s := s.(vmType := NilIfUnset(s.vmType));
      s := s.(openvzTemplateFile := NilIfUnset(s.openvzTemplateFile));
      s := s.(openvzOsTemplate := TemplateOf(s.openvzTemplateFile, s.openvzOsTemplate));
      s := s.(openvzOsTemplate := NilIfUnset(s.openvzOsTemplate));
      s := s.(qemuTemplate := NilIf(s.qemuOs.Unset?, s.qemuTemplate));
      s := s.(qemuOs := NilIfUnset(s.qemuOs));
      s := s.(qemuIsoFile := NilIfUnset(s.qemuIsoFile));
      s := s.(qemuIso := IsoOf(s.qemuIsoFile, s.qemuIso));
      s := s.(qemuIso := NilIfUnset(s.qemuIso));
      s := s.(qemuDiskSize := NilIfUnset(s.qemuDiskSize));
      s := s.(qemuDiskSize := SizeInGigabytes(s.qemuDiskSize));
      s := s.(vmDiskSize := VmDiskSizeInGigabytes(s.vmDiskSize));
      s := s.(lxcOstype := NilIfUnset(s.lxcOstype));
      s := s.(lxcNameserver := NilIfUnset(s.lxcNameserver));
      s := s.(lxcTty := DefaultIfUnset(s.lxcTty, R.Int(2)));
      s := s.(pool := DefaultIfUnset(s.pool, "all"));
      s := s.(description := DefaultIfUnset(s.description, ""));
      settings := s;
    }

    /** finalize! with lines 364 and 371 corrected. */
    method FinalizeAsIntended()
      modifies this
      ensures settings == FinalizedAsIntended(old(settings))
      ensures lxcMountPoints == old(lxcMountPoints) && lxcMountPointDefaults == old(lxcMountPointDefaults)
    {
      var given := settings;
      Finalize();
      settings := settings.(selectedNode := NilIfUnset(given.selectedNode),
                            qemuTemplate := NilIfUnset(given.qemuTemplate));
    }

    /** validate (lines 386-410): one error per failed check, appended in order, returned
        as the only entry of a hash keyed "Proxmox Provider". */
    method Validate() returns (r: map<string, seq<ValidationError>>)
      ensures r.Keys == {ProviderSection} && r[ProviderSection] == ValidationErrors(settings)
    {
      var s := settings;
      var errors := CommonChecks(s);
      errors := OpenvzChecks(s, errors);
      errors := QemuChecks(s, errors);
      errors := LxcChecks(s, errors);
      r := map[ProviderSection := errors];
    }
  }

  /** Lines 388-391: the checks every machine type gets. */
  method CommonChecks(s: Settings) returns (errors: seq<ValidationError>)
    ensures errors == ErrorsUpTo(s, 4)
  {
    ChecksInOrder(s);
    errors := [];
    if !Given(s.endpoint) { errors := errors + [NoEndpointSpecified]; }
    assert errors == ErrorsUpTo(s, 1);
    if !Given(s.userName) { errors := errors + [NoUserNameSpecified]; }
    assert errors == ErrorsUpTo(s, 2);
    if !Given(s.password) { errors := errors + [NoPasswordSpecified]; }
    assert errors == ErrorsUpTo(s, 3);
    if !GivenValue(s.vmType) { errors := errors + [NoVmTypeSpecified]; }
  }

  /** Lines 392-394: the openvz check. */
  method OpenvzChecks(s: Settings, errors: seq<ValidationError>) returns (r: seq<ValidationError>)
    requires errors == ErrorsUpTo(s, 4)
    ensures r == ErrorsUpTo(s, 5)
  {
    ChecksInOrder(s);
    r := errors;
    if s.vmType == Set(R.Sym("openvz")) {
      if !(Given(s.openvzOsTemplate) || Given(s.openvzTemplateFile)) {
        r := r + [NoOpenvzOsTemplateOrOpenvzTemplateFile];
      }
    }
  }

  /** Lines 395-402: the qemu checks, skipped when a template is set. */
  method QemuChecks(s: Settings, errors: seq<ValidationError>) returns (r: seq<ValidationError>)
    requires errors == ErrorsUpTo(s, 5)
    ensures r == ErrorsUpTo(s, 8)
  {
    ChecksInOrder(s);
    r := errors;
    if s.vmType == Set(R.Sym("qemu")) {
      if Given(s.qemuTemplate) {
        QemuChecksSkipped(s);
      } else {
        if !Given(s.qemuOs) { r := r + [NoQemuOs]; }
        assert r == ErrorsUpTo(s, 6);
        if !(Given(s.qemuIso) || Given(s.qemuIsoFile)) { r := r + [NoQemuIsoOrQemuIsoFile]; }
        assert r == ErrorsUpTo(s, 7);
        if !Given(s.qemuDiskSize) { r := r + [NoQemuDiskSize]; }
      }
    } else {
      QemuChecksSkipped(s);
    }
  }

  /** Lines 403-408: the lxc checks. */
  method LxcChecks(s: Settings, errors: seq<ValidationError>) returns (r: seq<ValidationError>)
    requires errors == ErrorsUpTo(s, 8)
    ensures r == ValidationErrors(s)
  {
    ChecksInOrder(s);
    r := errors;
    if s.vmType == Set(R.Sym("lxc")) {
      if !(s.lxcCmode.Set? && s.lxcCmode.value in ValidCmodes) { r := r + [LxcNoValidCmode]; }
      assert r == ErrorsUpTo(s, 9);
      if !(s.lxcTty.Set? && s.lxcTty.value.Int?) { r := r + [LxcNoValidTty]; }
    } else {
      LxcChecksSkipped(s);
    }
  }

  /* ---------------- validate ---------------- */

  /** Each check of validate, spelled out in position order. */
  lemma ChecksInOrder(s: Settings)
    ensures CheckAt(0) == NoEndpointSpecified && CheckAt(1) == NoUserNameSpecified
    ensures CheckAt(2) == NoPasswordSpecified && CheckAt(3) == NoVmTypeSpecified
    ensures CheckAt(4) == NoOpenvzOsTemplateOrOpenvzTemplateFile && CheckAt(5) == NoQemuOs
    ensures CheckAt(6) == NoQemuIsoOrQemuIsoFile && CheckAt(7) == NoQemuDiskSize
    ensures CheckAt(8) == LxcNoValidCmode && CheckAt(9) == LxcNoValidTty
  {
  }

  /** Without vm_type :qemu, or with a qemu_template, the three qemu checks add nothing. */
  lemma QemuChecksSkipped(s: Settings)
    requires !IsVmType(s, "qemu") || Given(s.qemuTemplate)
    ensures ErrorsUpTo(s, 8) == ErrorsUpTo(s, 5)
  {
    assert ErrorsUpTo(s, 6) == ErrorsUpTo(s, 5);
    assert ErrorsUpTo(s, 7) == ErrorsUpTo(s, 6);
  }

  /** Without vm_type :lxc, the two lxc checks add nothing. */
  lemma LxcChecksSkipped(s: Settings)
    requires !IsVmType(s, "lxc")
    ensures ErrorsUpTo(s, 10) == ErrorsUpTo(s, 8)
  {
    assert ErrorsUpTo(s, 9) == ErrorsUpTo(s, 8);
  }

  /** CheckAt and CheckRank are inverse: the checks are the ten errors, each once. */
  lemma CheckAtRank(e: ValidationError, i: nat)
    requires i < CheckCount
    ensures CheckRank(e) < CheckCount && CheckAt(CheckRank(e)) == e
    ensures CheckRank(CheckAt(i)) == i
  {
  }

  lemma {:induction false} ErrorsUpToMember(s: Settings, n: nat, e: ValidationError)
    requires n <= CheckCount
    ensures e in ErrorsUpTo(s, n) <==> CheckRank(e) < n && Applies(e, s)
  {
    if n > 0 {
      ErrorsUpToMember(s, n - 1, e);
      CheckAtRank(e, n - 1);
    }
  }

  /** Every error of `es` comes from one of the first `n` checks, in increasing order. */
  predicate RanksIncreasingBelow(es: seq<ValidationError>, n: nat) {
    && (forall i :: 0 <= i < |es| ==> CheckRank(es[i]) < n)
    && (forall i, j :: 0 <= i < j < |es| ==> CheckRank(es[i]) < CheckRank(es[j]))
  }

  lemma {:induction false} ErrorsUpToOrdered(s: Settings, n: nat)
    requires n <= CheckCount
    ensures RanksIncreasingBelow(ErrorsUpTo(s, n), n)
  {
    if n > 0 {
      ErrorsUpToOrdered(s, n - 1);
      CheckAtRank(CheckAt(n - 1), n - 1);
      var ei := ErrorsUpTo(s, n - 1);
      var es := ErrorsUpTo(s, n);
      assert forall i :: 0 <= i < |ei| ==> es[i] == ei[i];
    }
  }

  /** validate reports exactly the errors whose check fails ... */
  lemma ValidationErrorMember(s: Settings, e: ValidationError)
    ensures e in ValidationErrors(s) <==> Applies(e, s)
  {
    ErrorsUpToMember(s, CheckCount, e);
    CheckAtRank(e, 0);
  }

  /** ... each at most once, in the order of the checks: endpoint, user name, password,
      vm_type, then the checks of the machine type. */
  lemma ValidationErrorsOrdered(s: Settings)
    ensures var es := ValidationErrors(s);
            && (forall i, j :: 0 <= i < j < |es| ==> CheckRank(es[i]) < CheckRank(es[j]))
            && (forall i, j :: 0 <= i < j < |es| ==> es[i] != es[j])
  {
    ErrorsUpToOrdered(s, CheckCount);
    assert RanksIncreasingBelow(ValidationErrors(s), CheckCount);
  }

  /** For :openvz, an error is added exactly when neither a template nor a template file
      is set; machine-type errors of other types are never added. */
  lemma OpenvzValidation(s: Settings)
    requires IsVmType(s, "openvz")
    ensures NoOpenvzOsTemplateOrOpenvzTemplateFile in ValidationErrors(s) <==>
              !Given(s.openvzOsTemplate) && !Given(s.openvzTemplateFile)
    ensures forall e :: e in ValidationErrors(s) ==> CheckRank(e) <= 4
  {
    ValidationErrorMember(s, NoOpenvzOsTemplateOrOpenvzTemplateFile);
    forall e | e in ValidationErrors(s) ensures CheckRank(e) <= 4 {
      ValidationErrorMember(s, e);
    }
  }

  /** For :qemu, a set `qemu_template` suppresses every qemu error; otherwise the three
      qemu checks each report their error. */
  lemma QemuValidation(s: Settings)
    requires IsVmType(s, "qemu")
    ensures Given(s.qemuTemplate) ==> forall e :: e in ValidationErrors(s) ==> CheckRank(e) < 4
    ensures !Given(s.qemuTemplate) ==>
              && (NoQemuOs in ValidationErrors(s) <==> !Given(s.qemuOs))
              && (NoQemuIsoOrQemuIsoFile in ValidationErrors(s) <==> !Given(s.qemuIso) && !Given(s.qemuIsoFile))
              && (NoQemuDiskSize in ValidationErrors(s) <==> !Given(s.qemuDiskSize))
  {
    forall e | e in ValidationErrors(s) || e in {NoQemuOs, NoQemuIsoOrQemuIsoFile, NoQemuDiskSize}
      ensures e in ValidationErrors(s) <==> Applies(e, s)
    {
      ValidationErrorMember(s, e);
    }
  }

  /** For :lxc, `lxc_cmode` must be one of tty, shell, console and `lxc_tty` an Integer. */
  lemma LxcValidation(s: Settings)
    requires IsVmType(s, "lxc")
    ensures LxcNoValidCmode in ValidationErrors(s) <==> !(s.lxcCmode.Set? && s.lxcCmode.value in ValidCmodes)
    ensures LxcNoValidTty in ValidationErrors(s) <==> !(s.lxcTty.Set? && s.lxcTty.value.Int?)
    ensures forall e :: e in ValidationErrors(s) ==> CheckRank(e) < 4 || CheckRank(e) >= 8
  {
    ValidationErrorMember(s, LxcNoValidCmode);
    ValidationErrorMember(s, LxcNoValidTty);
    forall e | e in ValidationErrors(s) ensures CheckRank(e) < 4 || CheckRank(e) >= 8 {
      ValidationErrorMember(s, e);
    }
  }

  /* ---------------- finalize! ---------------- */

  /** One trailing 'G' is removed and nothing else changes. */
  lemma DiskSizeConversion(size: string)
    ensures ConvertDiskSizeToGigabyte(size + "G") == size
    ensures (|size| == 0 || size[|size| - 1] != 'G') ==> ConvertDiskSizeToGigabyte(size) == size
  {
    assert (size + "G")[..|size|] == size;
  }

  /** After finalize!, an UNSET setting is cleared to nil or given its default, and a
      setting the user gave keeps its value; the disk sizes are converted to gigabytes.
      The derived template and ISO names are stated in FileNamesOverride. */
  lemma FinalizeResolvesSentinels(s: Settings)
    ensures var f := Finalized(s);
            && (s.endpoint.Unset? ==> f.endpoint == Nil) && (!s.endpoint.Unset? ==> f.endpoint == s.endpoint)
            && (s.userName.Unset? ==> f.userName == Nil) && (!s.userName.Unset? ==> f.userName == s.userName)
            && (s.password.Unset? ==> f.password == Nil) && (!s.password.Unset? ==> f.password == s.password)
            && (s.vmType.Unset? ==> f.vmType == Nil) && (!s.vmType.Unset? ==> f.vmType == s.vmType)
            && (s.openvzTemplateFile.Unset? ==> f.openvzTemplateFile == Nil)
            && (!s.openvzTemplateFile.Unset? ==> f.openvzTemplateFile == s.openvzTemplateFile)
            && (s.qemuOs.Unset? ==> f.qemuOs == Nil) && (!s.qemuOs.Unset? ==> f.qemuOs == s.qemuOs)
            && (s.qemuIsoFile.Unset? ==> f.qemuIsoFile == Nil)
            && (!s.qemuIsoFile.Unset? ==> f.qemuIsoFile == s.qemuIsoFile)
            && (s.lxcOstype.Unset? ==> f.lxcOstype == Nil) && (!s.lxcOstype.Unset? ==> f.lxcOstype == s.lxcOstype)
            && (s.lxcNameserver.Unset? ==> f.lxcNameserver == Nil)
            && (!s.lxcNameserver.Unset? ==> f.lxcNameserver == s.lxcNameserver)
  {
  }

  /** The settings finalize! gives a default, and the disk sizes it converts. */
  lemma FinalizeDefaultsAndSizes(s: Settings)
    ensures var f := Finalized(s);
            && (s.lxcTty.Unset? ==> f.lxcTty == Set(R.Int(2))) && (!s.lxcTty.Unset? ==> f.lxcTty == s.lxcTty)
            && (s.pool.Unset? ==> f.pool == Set("all")) && (!s.pool.Unset? ==> f.pool == s.pool)
            && (s.description.Unset? ==> f.description == Set(""))
            && (!s.description.Unset? ==> f.description == s.description)
            && (s.qemuDiskSize.Set? ==> f.qemuDiskSize == Set(ConvertDiskSizeToGigabyte(s.qemuDiskSize.value)))
            && (!s.qemuDiskSize.Set? ==> f.qemuDiskSize == Nil)
            && (s.vmDiskSize.Some? ==> f.vmDiskSize == Some(ConvertDiskSizeToGigabyte(s.vmDiskSize.value)))
            && (s.vmDiskSize.None? ==> f.vmDiskSize == None)
            && f.lxcCmode == s.lxcCmode
  {
  }

  /** Line 364 tests `endpoint` after line 363 cleared it, so `selected_node` is never
      touched: an unset one stays UNSET. */
  lemma SelectedNodeStaysUnset(s: Settings)
    ensures Finalized(s).selectedNode == s.selectedNode
  {
  }

  /** Line 371 clears `qemu_template` when `qemu_os` was unset, whatever the template. */
  lemma QemuTemplateFollowsQemuOs(s: Settings)
    ensures s.qemuOs.Unset? ==> Finalized(s).qemuTemplate == Nil
    ensures !s.qemuOs.Unset? ==> Finalized(s).qemuTemplate == s.qemuTemplate
  {
  }

  /** A template or ISO file overrides any explicit template or ISO name (lines 369, 374). */
  lemma FileNamesOverride(s: Settings)
    ensures s.openvzTemplateFile.Set? ==>
              Finalized(s).openvzOsTemplate == Set(TemplateVolume(s.openvzTemplateFile.value))
    ensures !s.openvzTemplateFile.Set? && s.openvzOsTemplate.Unset? ==> Finalized(s).openvzOsTemplate == Nil
    ensures !s.openvzTemplateFile.Set? && !s.openvzOsTemplate.Unset? ==>
              Finalized(s).openvzOsTemplate == s.openvzOsTemplate
    ensures s.qemuIsoFile.Set? ==> Finalized(s).qemuIso == Set(IsoVolume(s.qemuIsoFile.value))
    ensures !s.qemuIsoFile.Set? && s.qemuIso.Unset? ==> Finalized(s).qemuIso == Nil
    ensures !s.qemuIsoFile.Set? && !s.qemuIso.Unset? ==> Finalized(s).qemuIso == s.qemuIso
  {
  }

  /** A path `dir/name` has base name `name`. */
  lemma {:induction false} BaseNameOfPath(dir: string, name: string)
    requires '/' !in name
    ensures BaseName(dir + "/" + name) == name
    decreases |name|
  {
    var p := dir + "/" + name;
    if name != [] {
      var init := name[..|name| - 1];
      BaseNameOfPath(dir, init);
      assert p[..|p| - 1] == dir + "/" + init;
      assert init + [name[|name| - 1]] == name;
    }
  }

  /** The settings `initialize` installs, finalized: the disk size becomes "20", `lxc_tty`
      2, `pool` "all", `description` "", every other UNSET string setting nil, and
      `selected_node` stays UNSET (line 364). */
  lemma DefaultsFinalized()
    ensures Finalized(Defaults()) == FinalizedDefaults
  {
    assert "20G"[..2] == "20";
  }

  const FinalizedDefaults: Settings :=
    Settings(
      endpoint := Nil, selectedNode := Unset, userName := Nil, password := Nil,
      vmType := Nil, openvzOsTemplate := Nil, openvzTemplateFile := Nil,
      vmDiskSize := Some("20"), pool := Set("all"), qemuOs := Nil, qemuTemplate := Nil,
      qemuIso := Nil, qemuIsoFile := Nil, qemuDiskSize := Nil, lxcOstype := Nil,
      lxcNameserver := Nil, lxcCmode := Set("tty"), lxcTty := Set(R.Int(2)), description := Set(""))

  /** A Vagrantfile that sets nothing is told the four connection settings are missing. */
  lemma DefaultsReportMissingConnection()
    ensures ValidationErrors(FinalizedDefaults) ==
              [NoEndpointSpecified, NoUserNameSpecified, NoPasswordSpecified, NoVmTypeSpecified]
  {
  }

  /* ---------------- lines 364 and 371 as intended ---------------- */

  /** With vm_type :qemu and a qemu_os but no template, ISO or disk size, finalize! as
      written leaves `qemu_template` UNSET, which is truthy, so validate reports nothing. */
  lemma UnsetTemplateSuppressesQemuChecks(s: Settings)
    requires s == Defaults().(endpoint := Set("https://pve:8006/api2/json"), userName := Set("root"),
                              password := Set("secret"), vmType := Set(R.Sym("qemu")), qemuOs := Set("l26"))
    ensures Finalized(s).qemuTemplate == Unset
    ensures ValidationErrors(Finalized(s)) == []
  {
    var f := Finalized(s);
    forall e | e in ValidationErrors(f) ensures false {
      ValidationErrorMember(f, e);
    }
  }

  /** finalize! as intended leaves no UNSET behind in the settings validate reads ... */
  lemma IntendedFinalizeClearsAll(s: Settings)
    ensures var f := FinalizedAsIntended(s);
            && !f.endpoint.Unset? && !f.selectedNode.Unset? && !f.userName.Unset? && !f.password.Unset?
            && !f.vmType.Unset? && !f.openvzTemplateFile.Unset? && !f.openvzOsTemplate.Unset?
            && !f.qemuOs.Unset? && !f.qemuTemplate.Unset? && !f.qemuIsoFile.Unset? && !f.qemuIso.Unset?
            && !f.qemuDiskSize.Unset? && !f.lxcOstype.Unset? && !f.lxcNameserver.Unset?
            && !f.lxcTty.Unset? && !f.pool.Unset? && !f.description.Unset?
            && (!s.selectedNode.Unset? ==> f.selectedNode == s.selectedNode)
            && (!s.qemuTemplate.Unset? ==> f.qemuTemplate == s.qemuTemplate)
  {
  }

  /** ... so a qemu machine without a template, ISO or disk size is reported. */
  lemma IntendedFinalizeReportsMissingIso(s: Settings)
    requires IsVmType(s, "qemu") && s.qemuTemplate.Unset?
    ensures var es := ValidationErrors(FinalizedAsIntended(s));
            && (NoQemuOs in es <==> !s.qemuOs.Set?)
            && (NoQemuIsoOrQemuIsoFile in es <==> !s.qemuIso.Set? && !s.qemuIsoFile.Set?)
            && (NoQemuDiskSize in es <==> !s.qemuDiskSize.Set?)
  {
    var f := FinalizedAsIntended(s);
    assert IsVmType(f, "qemu") && !Given(f.qemuTemplate);
    assert Given(f.qemuOs) <==> s.qemuOs.Set?;
    assert Given(f.qemuIso) || Given(f.qemuIsoFile) <==> s.qemuIso.Set? || s.qemuIsoFile.Set?;
    assert Given(f.qemuDiskSize) <==> s.qemuDiskSize.Set?;
    QemuValidation(f);
  }
}
