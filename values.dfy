/** Optional values and failure outcomes, used for Ruby's nil results and raised errors. */
module Wrappers {

  datatype Option<+T> = None | Some(value: T)

  /** The value of a Ruby call that either returns `value` or raises `error`. */
  datatype Result<+R, +E> = Success(value: R) | Failure(error: E)

  /** The outcome of a Ruby call that is made for its side effects and may raise. */
  datatype Outcome<+E> = Pass | Fail(error: E)
}

/** The exceptions the plugin raises (lib/vagrant-proxmox/errors.rb is not part of this
    model: only the class of each error and the check that raised it are kept, not the
    I18n message text). */
module Errors {

  /** Which configuration check raised a `VMConfigError`. */
  datatype ConfigFault =
    | NoNetId                        // network descriptor without :net_id
    | NoInterface                    // network descriptor without :interface after detection
    | NoBridge                       // network descriptor without :bridge
    | InvalidMountPoint              // mount point name not of the form mp<digit>
    | MissingMountKey(key: string)   // mount point without one of volume, mp, backup, size

  datatype Error =
    | VMConfigError(fault: ConfigFault)
    | InternalPluginError
    | InvalidCidrTypeError(selector: string)
      /** A Ruby runtime error (NoMethodError or TypeError) raised by calling a method on a
          value that does not have it, such as `nil[1]` or a regex index into `false`. */
    | RuntimeFault
}

/** The Ruby values that the user's Vagrantfile puts into network and mount descriptors,
    with the two pieces of Ruby semantics the plugin relies on: truthiness and `to_s`
    (string interpolation). */
module RubyValues {

  datatype Value =
    | Nil
    | Bool(b: bool)
    | Int(i: int)
    | Str(s: string)
    | Sym(name: string)

  /** A descriptor: a Ruby Hash from symbol keys (written here without the colon) to values. */
  type Options = map<string, Value>

  /** Keys of the parameter hash sent to Proxmox: network slots are stored under
      `net_id.to_s` (a String), mount points under `mp.to_sym` (a Symbol), so "mp0" and
      :mp0 are different keys. */
  datatype ParamKey = StrKey(s: string) | SymKey(name: string)

  /** The parameter hash: every value the compilers write is a String. */
  type Params = map<ParamKey, string>

  /** Ruby truthiness: everything except `nil` and `false` is true. */
  predicate Truthy(v: Value) {
    !(v.Nil? || v == Bool(false))
  }

  /** `hash[key]`: the stored value, or `nil` when the key is absent. */
  function Lookup(c: Options, key: string): (v: Value)
    ensures key !in c ==> v == Nil
    ensures key in c ==> v == c[key]
  {
    if key in c then c[key] else Nil
  }

  predicate IsDigit(ch: char) {
    '0' <= ch <= '9'
  }

  predicate AllDigits(s: string) {
    forall k :: 0 <= k < |s| ==> IsDigit(s[k])
  }

  /** Decimal notation of a natural number, as `Integer#to_s` writes it. */
  function NatToString(n: nat): (s: string)
    ensures |s| > 0 && AllDigits(s)
    ensures n < 10 <==> |s| == 1
  {
    if n < 10 then ["0123456789"[n]] else NatToString(n / 10) + ["0123456789"[n % 10]]
  }

  function IntToString(i: int): string {
    if i < 0 then "-" + NatToString(-i) else NatToString(i)
  }

  /** `"#{v}"`: the text Ruby interpolates for a value. */
  function Render(v: Value): string {
    match v
    case Nil => ""
    case Bool(b) => if b then "true" else "false"
    case Int(i) => IntToString(i)
    case Str(s) => s
    case Sym(name) => name
  }

  /** `parts.join(sep)`. */
  function Join(parts: seq<string>, sep: string): string
    decreases |parts|
  {
    if |parts| == 0 then ""
    else if |parts| == 1 then parts[0]
    else Join(parts[..|parts| - 1], sep) + sep + parts[|parts| - 1]
  }

  /** Appending a part appends the separator and the part. */
  lemma JoinSnoc(parts: seq<string>, x: string, sep: string)
    requires |parts| > 0
    ensures Join(parts + [x], sep) == Join(parts, sep) + sep + x
  {
    assert (parts + [x])[..|parts|] == parts;
  }

  /** The joined string begins with the first part ... */
  lemma {:induction false} JoinStartsWithFirst(parts: seq<string>, sep: string)
    requires |parts| > 0
    ensures |parts[0]| <= |Join(parts, sep)|
    ensures Join(parts, sep)[..|parts[0]|] == parts[0]
  {
    if |parts| > 1 {
      var init := parts[..|parts| - 1];
      JoinStartsWithFirst(init, sep);
      assert init[0] == parts[0];
      var j := Join(init, sep);
      assert Join(parts, sep) == j + sep + parts[|parts| - 1];
      assert (j + sep + parts[|parts| - 1])[..|parts[0]|] == j[..|parts[0]|];
    }
  }

  /** ... and, when there are at least two parts, ends with the separator and the last one. */
  lemma JoinEndsWithLast(parts: seq<string>, sep: string)
    requires |parts| > 1
    ensures var j := Join(parts, sep);
            var tail := sep + parts[|parts| - 1];
            |tail| <= |j| && j[|j| - |tail|..] == tail
  {
    var j := Join(parts, sep);
    var tail := sep + parts[|parts| - 1];
    var init := Join(parts[..|parts| - 1], sep);
    assert j == init + tail;
    assert j[|init|..] == tail;
  }
}
