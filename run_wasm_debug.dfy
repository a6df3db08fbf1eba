// Command-line handling of the WASM debug runner: parsing the arguments
// that follow the program name, and deriving the binary name, the
// profile directory and the cargo invocation from them.

module RunWasmDebug {
  import opened Wrappers
  import opened Text
  import opened Bytes

  datatype Args = Args(
    example: Option<string>,
    bin: Option<string>,
    package: Option<string>,
    release: bool,
    profile: Option<string>,
    port: nat)

  datatype ParseError = InvalidPort | Usage

  /// Nothing selected, a debug build, and port 8000.
  const Defaults: Args := Args(None, None, None, false, None, 8000)

  /// Rust's `str::parse::<u32>`: an optional '+', then at least one
  /// decimal digit, and a value that fits in 32 bits.
  function ParseU32(s: string): (r: Option<nat>)
    ensures r.Some? ==> r.value < U32Modulus
  {
    var digits := if |s| > 0 && s[0] == '+' then s[1..] else s;
    if |digits| == 0 || exists i | 0 <= i < |digits| :: !IsDigit(digits[i]) then None
    else if DigitsValue(digits) < U32Modulus then Some(DigitsValue(digits))
    else None
  }

  /// Every 32-bit value's decimal text parses back to it.
  lemma ParseU32OfString(n: nat)
    requires n < U32Modulus
    ensures ParseU32(NatToString(n)) == Some(n)
  {
    var s := NatToString(n);
    assert IsDigit(s[0]);
  }

  /// The text after `prefix`, when `arg` starts with it.
  function After(arg: string, prefix: string): (rest: string)
    requires StartsWith(arg, prefix)
    ensures arg == prefix + rest
  {
    arg[|prefix|..]
  }

  /// The fields a flag can set to a string.
  datatype Field = ExampleField | BinField | PackageField | ProfileField

  /// What one argument means, tried in the order the parser tries them.
  datatype Flag =
    | TakesValue(field: Field)             // --example, --bin, -p/--package, --profile
    | ReleaseFlag                          // --release
    | PortFlag                             // --port
    | SetsValue(field: Field, value: string) // --example=, --bin=, -p=, --package=, --profile=
    | PortValue(text: string)              // --port=
    | Ignored

  /// The long flag of each field; the package also answers to `-p`.
  function FlagName(field: Field): string
  {
    match field
    case ExampleField => "--example"
    case BinField => "--bin"
    case PackageField => "--package"
    case ProfileField => "--profile"
  }

  predicate NamesField(arg: string, field: Field)
  {
    arg == FlagName(field) || (field == PackageField && arg == "-p")
  }

  /// One argument decoded: a bare flag names its field, a joined flag is
  /// that flag, "=" and the value, and anything else is ignored.
  function Classify(arg: string): (r: Flag)
    ensures r.TakesValue? <==> arg in ["--example", "--bin", "-p", "--package", "--profile"]
    ensures r.TakesValue? ==> NamesField(arg, r.field)
    ensures r.ReleaseFlag? <==> arg == "--release"
    ensures r.PortFlag? <==> arg == "--port"
    ensures r.SetsValue? ==>
      (arg == FlagName(r.field) + "=" + r.value) || (r.field == PackageField && arg == "-p=" + r.value)
    ensures r.PortValue? ==> arg == "--port=" + r.text
    ensures r.Ignored? <==>
      arg !in ["--example", "--bin", "-p", "--package", "--profile", "--release", "--port"] &&
      !StartsWith(arg, "--example=") && !StartsWith(arg, "--bin=") && !StartsWith(arg, "-p=") &&
      !StartsWith(arg, "--package=") && !StartsWith(arg, "--profile=") && !StartsWith(arg, "--port=")
  {
    if arg == "--example" then TakesValue(ExampleField)
    else if arg == "--bin" then TakesValue(BinField)
    else if arg == "-p" || arg == "--package" then TakesValue(PackageField)
    else if arg == "--release" then ReleaseFlag
    else if arg == "--profile" then TakesValue(ProfileField)
    else if arg == "--port" then PortFlag
    else if StartsWith(arg, "--example=") then SetsValue(ExampleField, After(arg, "--example="))
    else if StartsWith(arg, "--bin=") then SetsValue(BinField, After(arg, "--bin="))
    else if StartsWith(arg, "-p=") then SetsValue(PackageField, After(arg, "-p="))
    else if StartsWith(arg, "--package=") then SetsValue(PackageField, After(arg, "--package="))
    else if StartsWith(arg, "--profile=") then SetsValue(ProfileField, After(arg, "--profile="))
    else if StartsWith(arg, "--port=") then PortValue(After(arg, "--port="))
    else Ignored
  }

  function SetField(acc: Args, field: Field, value: Option<string>): (r: Args)
    ensures field == ExampleField ==> r == acc.(example := value)
    ensures field == BinField ==> r == acc.(bin := value)
    ensures field == PackageField ==> r == acc.(package := value)
    ensures field == ProfileField ==> r == acc.(profile := value)
  {
    match field
    case ExampleField => acc.(example := value)
    case BinField => acc.(bin := value)
    case PackageField => acc.(package := value)
    case ProfileField => acc.(profile := value)
  }

  /// Reference definition of the loop: the arguments read front to back
  /// starting from `acc`. A value-taking flag takes the next argument,
  /// or None when it is the last one.
  function Apply(acc: Args, args: seq<string>): (r: Result<Args, ParseError>)
    ensures r.Err? ==> r.error == InvalidPort
    ensures r.Ok? && acc.release ==> r.value.release
    ensures |args| == 0 ==> r == Ok(acc)
    decreases |args|
  {
    if |args| == 0 then Ok(acc)
    else
      var rest := args[1..];
      var value := if |rest| > 0 then Some(rest[0]) else None;
      var afterValue := if |rest| > 0 then rest[1..] else [];
      match Classify(args[0])
      case TakesValue(field) => Apply(SetField(acc, field, value), afterValue)
      case ReleaseFlag => Apply(acc.(release := true), rest)
      case PortFlag =>
        if |rest| == 0 then Ok(acc)
        else (
          match ParseU32(rest[0])
          case None => Err(InvalidPort)
          case Some(p) => Apply(acc.(port := p), afterValue))
      case SetsValue(field, v) => Apply(SetField(acc, field, Some(v)), rest)
      case PortValue(text) => (
        match ParseU32(text)
        case None => Err(InvalidPort)
        case Some(p) => Apply(acc.(port := p), rest))
      case Ignored => Apply(acc, rest)
  }

  predicate Selects(a: Args)
  {
    a.example.Some? || a.bin.Some? || a.package.Some?
  }

  /// `Args::parse` on the arguments after the program name.
  function Parse(args: seq<string>): (r: Result<Args, ParseError>)
    ensures r.Ok? ==> Selects(r.value) && r.value.port < U32Modulus
    ensures r.Ok? <==> Apply(Defaults, args).Ok? && Selects(Apply(Defaults, args).value)
  {
    ApplyPort(Defaults, args);
    match Apply(Defaults, args)
    case Err(e) => Err(e)
    case Ok(a) => if Selects(a) then Ok(a) else Err(Usage)
  }

  /// The port only ever comes from the defaults or from a parsed u32.
  lemma {:induction false} ApplyPort(acc: Args, args: seq<string>)
    requires acc.port < U32Modulus
    ensures Apply(acc, args).Ok? ==> Apply(acc, args).value.port < U32Modulus
    decreases |args|
  {
    if |args| > 0 {
      var rest := args[1..];
      var value := if |rest| > 0 then Some(rest[0]) else None;
      var afterValue := if |rest| > 0 then rest[1..] else [];
      match Classify(args[0])
      case TakesValue(field) => ApplyPort(SetField(acc, field, value), afterValue);
      case ReleaseFlag => ApplyPort(acc.(release := true), rest);
      case PortFlag =>
        if |rest| > 0 && ParseU32(rest[0]).Some? {
          ApplyPort(acc.(port := ParseU32(rest[0]).value), afterValue);
        }
      case SetsValue(field, v) => ApplyPort(SetField(acc, field, Some(v)), rest);
      case PortValue(text) =>
        if ParseU32(text).Some? {
          ApplyPort(acc.(port := ParseU32(text).value), rest);
        }
      case Ignored => ApplyPort(acc, rest);
    }
  }

  /// The parse loop, one or two arguments per iteration.
  method ParseArgs(args: seq<string>) returns (r: Result<Args, ParseError>)
    ensures r == Parse(args)
  {
    var result := Defaults;
    var i := 0;
    while i < |args|
      invariant 0 <= i <= |args|
      invariant Apply(result, args[i..]) == Apply(Defaults, args)
      decreases |args| - i
    {
      assert args[i..][1..] == args[i + 1..];
      assert i + 1 < |args| ==> args[i + 1..][1..] == args[i + 2..];
      var value := if i + 1 < |args| then Some(args[i + 1]) else None;
      var next := if i + 1 < |args| then i + 2 else i + 1;
      match Classify(args[i])
      case TakesValue(field) =>
        result := SetField(result, field, value);
        i := next;
      case ReleaseFlag =>
        result := result.(release := true);
        i := i + 1;
      case PortFlag =>
        if value.Some? {
          var p := ParseU32(value.value);
          if p.None? {
            return Err(InvalidPort);
          }
          result := result.(port := p.value);
        }
        i := next;
      case SetsValue(field, v) =>
        result := SetField(result, field, Some(v));
        i := i + 1;
      case PortValue(text) =>
        var p := ParseU32(text);
        if p.None? {
          return Err(InvalidPort);
        }
        result := result.(port := p.value);
        i := i + 1;
      case Ignored =>
        i := i + 1;
    }
    if result.example.None? && result.bin.None? && result.package.None? {
      return Err(Usage);
    }
    r := Ok(result);
  }

  /// Of two settings of the same flag the later one wins, and a
  /// value-taking flag given last clears its field.
  lemma LaterFlagWins(acc: Args, field: Field, flag: string, first: string, second: string)
    requires Classify(flag) == TakesValue(field)
    ensures Apply(acc, [flag, first, flag, second]) == Ok(SetField(acc, field, Some(second)))
    ensures Apply(acc, [flag, first, flag]) == Ok(SetField(acc, field, None))
  {
    var once := SetField(acc, field, Some(first));
    assert [flag, first, flag, second][1..][1..] == [flag, second];
    assert [flag, second][1..][1..] == [];
    assert Apply(once, [flag, second]) == Apply(SetField(once, field, Some(second)), []);
    assert SetField(once, field, Some(second)) == SetField(acc, field, Some(second));
    assert [flag, first, flag][1..][1..] == [flag];
    assert Apply(once, [flag]) == Apply(SetField(once, field, None), []);
    assert SetField(once, field, None) == SetField(acc, field, None);
  }

  /// The value-taking flags are the two-token spellings.
  lemma ValueFlags()
    ensures Classify("--example") == TakesValue(ExampleField)
    ensures Classify("--bin") == TakesValue(BinField)
    ensures Classify("-p") == TakesValue(PackageField)
    ensures Classify("--package") == TakesValue(PackageField)
    ensures Classify("--profile") == TakesValue(ProfileField)
  {
  }

  /// A trailing bare --port keeps the port; a value that does not parse
  /// as a u32 fails the whole parse, in either spelling.
  lemma PortFlags(acc: Args, value: string, rest: seq<string>)
    ensures Apply(acc, ["--port"]) == Ok(acc)
    ensures ParseU32(value).None? ==> Apply(acc, ["--port", value] + rest) == Err(InvalidPort)
    ensures ParseU32(value).None? ==> Apply(acc, ["--port=" + value] + rest) == Err(InvalidPort)
  {
    assert (["--port", value] + rest)[1..][0] == value;
    ClassifyPortEquals(value);
  }

  /// Two strings differing at position `i` are neither equal nor
  /// prefixed one by the other.
  lemma DiffersAt(a: string, b: string, i: nat)
    requires i < |a| && i < |b| && a[i] != b[i]
    ensures a != b && !StartsWith(a, b)
  {
  }

  /// How each `--flag=value` spelling is classified: each differs from
  /// every spelling tried before it in length or at an early position.
  lemma ClassifyExampleEquals(value: string)
    ensures Classify("--example=" + value) == SetsValue(ExampleField, value)
  {
    var a := "--example=" + value;
    assert a[..10] == "--example=";
    assert |a| >= 10;
  }

  lemma ClassifyBinEquals(value: string)
    ensures Classify("--bin=" + value) == SetsValue(BinField, value)
  {
    var a := "--bin=" + value;
    assert a[..6] == "--bin=" && a[2] == 'b';
    DiffersAt(a, "--example", 2);
    DiffersAt(a, "--package", 2);
    DiffersAt(a, "--release", 2);
    DiffersAt(a, "--profile", 2);
    DiffersAt(a, "--port", 2);
    DiffersAt(a, "-p", 1);
    DiffersAt(a, "--example=", 2);
  }

  lemma ClassifyShortPackageEquals(value: string)
    ensures Classify("-p=" + value) == SetsValue(PackageField, value)
  {
    var a := "-p=" + value;
    assert a[..3] == "-p=" && a[1] == 'p' && a[2] == '=';
    DiffersAt(a, "--example", 1);
    DiffersAt(a, "--bin", 1);
    DiffersAt(a, "--package", 1);
    DiffersAt(a, "--release", 1);
    DiffersAt(a, "--profile", 1);
    DiffersAt(a, "--port", 1);
    DiffersAt(a, "--example=", 1);
    DiffersAt(a, "--bin=", 1);
  }

  lemma ClassifyPackageEquals(value: string)
    ensures Classify("--package=" + value) == SetsValue(PackageField, value)
  {
    var a := "--package=" + value;
    assert a[..10] == "--package=" && a[2] == 'p' && a[3] == 'a' && a[9] == '=';
    DiffersAt(a, "--example", 2);
    DiffersAt(a, "--bin", 2);
    DiffersAt(a, "-p", 1);
    DiffersAt(a, "--release", 2);
    DiffersAt(a, "--profile", 3);
    DiffersAt(a, "--port", 3);
    DiffersAt(a, "--example=", 2);
    DiffersAt(a, "--bin=", 2);
    DiffersAt(a, "-p=", 1);
  }

  lemma ClassifyProfileEquals(value: string)
    ensures Classify("--profile=" + value) == SetsValue(ProfileField, value)
  {
    var a := "--profile=" + value;
    assert a[..10] == "--profile=" && a[2] == 'p' && a[3] == 'r' && a[4] == 'o' && a[9] == '=';
    DiffersAt(a, "--example", 2);
    DiffersAt(a, "--bin", 2);
    DiffersAt(a, "-p", 1);
    DiffersAt(a, "--package", 3);
    DiffersAt(a, "--release", 2);
    DiffersAt(a, "--port", 4);
    DiffersAt(a, "--example=", 2);
    DiffersAt(a, "--bin=", 2);
    DiffersAt(a, "-p=", 1);
    DiffersAt(a, "--package=", 3);
  }

  lemma ClassifyPortEquals(value: string)
    ensures Classify("--port=" + value) == PortValue(value)
  {
    var a := "--port=" + value;
    assert a[..7] == "--port=" && a[2] == 'p' && a[3] == 'o' && a[4] == 'r' && a[6] == '=';
    DiffersAt(a, "--example", 2);
    DiffersAt(a, "--bin", 2);
    DiffersAt(a, "-p", 1);
    DiffersAt(a, "--package", 3);
    DiffersAt(a, "--release", 2);
    DiffersAt(a, "--profile", 4);
    DiffersAt(a, "--example=", 2);
    DiffersAt(a, "--bin=", 2);
    DiffersAt(a, "-p=", 1);
    DiffersAt(a, "--package=", 3);
    DiffersAt(a, "--profile=", 4);
  }

  /// A `--flag=value` argument that sets the field `--flag` takes a value
  /// for reads the rest exactly as `--flag value` does.
  lemma {:induction false} EqualsForm(acc: Args, flag: string, joined: string, field: Field, value: string, rest: seq<string>)
    requires Classify(flag) == TakesValue(field)
    requires Classify(joined) == SetsValue(field, value)
    ensures Apply(acc, [joined] + rest) == Apply(acc, [flag, value] + rest)
  {
    assert ([flag, value] + rest)[1..] == [value] + rest;
    assert ([value] + rest)[1..] == rest;
    assert ([joined] + rest)[1..] == rest;
  }

  /// The `--flag=value` spellings set the same field as `--flag value`.
  lemma EqualsForms(acc: Args, value: string, rest: seq<string>)
    ensures Apply(acc, ["--example=" + value] + rest) == Apply(acc, ["--example", value] + rest)
    ensures Apply(acc, ["--bin=" + value] + rest) == Apply(acc, ["--bin", value] + rest)
    ensures Apply(acc, ["--package=" + value] + rest) == Apply(acc, ["--package", value] + rest)
    ensures Apply(acc, ["-p=" + value] + rest) == Apply(acc, ["-p", value] + rest)
    ensures Apply(acc, ["--profile=" + value] + rest) == Apply(acc, ["--profile", value] + rest)
  {
    ValueFlags();
    ClassifyExampleEquals(value);
    EqualsForm(acc, "--example", "--example=" + value, ExampleField, value, rest);
    ClassifyBinEquals(value);
    EqualsForm(acc, "--bin", "--bin=" + value, BinField, value, rest);
    ClassifyPackageEquals(value);
    EqualsForm(acc, "--package", "--package=" + value, PackageField, value, rest);
    ClassifyShortPackageEquals(value);
    EqualsForm(acc, "-p", "-p=" + value, PackageField, value, rest);
    ClassifyProfileEquals(value);
    EqualsForm(acc, "--profile", "--profile=" + value, ProfileField, value, rest);
  }

  lemma ParsePort9000()
    ensures ParseU32("9000") == Some(9000)
  {
    ParseU32OfString(9000);
    assert NatToString(9000) == "9000";
  }

  /// Without a selection there is nothing to build.
  lemma NothingSelected()
    ensures Parse([]) == Err(Usage)
    ensures Parse(["--release", "--port", "9000"]) == Err(Usage)
  {
    var args := ["--release", "--port", "9000"];
    var released := Defaults.(release := true);
    ParsePort9000();
    assert Apply(released, ["--port", "9000"]) == Ok(released.(port := 9000)) by {
      assert Classify("--port") == PortFlag;
      assert ["--port", "9000"][1..][1..] == [];
    }
    assert Apply(Defaults, args) == Apply(released, ["--port", "9000"]) by {
      assert Classify("--release") == ReleaseFlag;
      assert args[1..] == ["--port", "9000"];
    }
  }

  /// `binary_name`: the example, else the bin, else the package.
  function BinaryName(a: Args): (name: string)
    requires Selects(a)
    ensures a.example.Some? ==> name == a.example.value
    ensures a.example.None? && a.bin.Some? ==> name == a.bin.value
    ensures a.example.None? && a.bin.None? ==> name == a.package.value
  {
    if a.example.Some? then a.example.value
    else if a.bin.Some? then a.bin.value
    else a.package.value
  }

  /// `profile_dir`: the cargo target sub-directory of the build.
  function ProfileDir(a: Args): (dir: string)
    ensures a.release ==> dir == "release"
    ensures !a.release && (a.profile.None? || a.profile.value == "dev") ==> dir == "debug"
    ensures !a.release && a.profile.Some? && a.profile.value != "dev" ==> dir == a.profile.value
  {
    if a.release then "release"
    else match a.profile
      case Some(profile) => if profile == "dev" then "debug" else profile
      case None => "debug"
  }

  function FlagPair(flag: string, value: Option<string>): seq<string>
  {
    if value.Some? then [flag, value.value] else []
  }

  /// The profile part of the cargo invocation: --release wins over --profile.
  function ProfileArgs(a: Args): (r: seq<string>)
    ensures a.release ==> r == ["--release"]
    ensures !a.release ==> r == FlagPair("--profile", a.profile)
  {
    if a.release then ["--release"] else FlagPair("--profile", a.profile)
  }

  const CargoBase: seq<string> := ["build", "--target", "wasm32-unknown-unknown"]

  /// `cargo_args`: pushes the target, then each selected pair in the
  /// order example, bin, package, then the profile.
  method CargoArgs(a: Args) returns (args: seq<string>)
    ensures args == CargoBase + FlagPair("--example", a.example) + FlagPair("--bin", a.bin) +
                    FlagPair("-p", a.package) + ProfileArgs(a)
    ensures args[..3] == CargoBase
  {
    args := ["build", "--target", "wasm32-unknown-unknown"];
    if a.example.Some? {
      args := args + ["--example", a.example.value];
    }
    if a.bin.Some? {
      args := args + ["--bin", a.bin.value];
    }
    if a.package.Some? {
      args := args + ["-p", a.package.value];
    }
    if a.release {
      args := args + ["--release"];
    } else if a.profile.Some? {
      args := args + ["--profile", a.profile.value];
    }
  }

  /// A release build never passes --profile: --release comes last;
  /// otherwise a profile adds its pair at the end, and no profile adds nothing.
  lemma ReleaseExcludesProfile(a: Args)
    ensures var args := CargoBase + FlagPair("--example", a.example) + FlagPair("--bin", a.bin) +
                        FlagPair("-p", a.package) + ProfileArgs(a);
      var selected := |FlagPair("--example", a.example)| + |FlagPair("--bin", a.bin)| + |FlagPair("-p", a.package)|;
      && (a.release ==> |args| == 3 + selected + 1 && args[|args| - 1] == "--release")
      && (!a.release && a.profile.Some? ==>
            |args| == 3 + selected + 2 && args[|args| - 2..] == ["--profile", a.profile.value])
      && (!a.release && a.profile.None? ==> |args| == 3 + selected)
  {
  }
}
