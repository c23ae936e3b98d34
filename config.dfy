/**
 * The configuration package (internal/config/parse.go and config.go):
 * validation of the application settings and of the bootstrap token, and
 * the choice of command from the command-line flags.
 */
module Config {
  import opened Wrappers
  import Luks

  // ---------------------------------------------------------------------
  // AppConfig.Validate

  /** The settings `Validate` requires, in the order it checks them. */
  datatype Field = VolumePath | MapperName | MountPoint | PasswordLength | Size {
    /** The message of the error `Validate` returns for a missing field. */
    function Message(): string {
      match this
      case VolumePath => "luks.volume-path is required"
      case MapperName => "luks.mapper-name is required"
      case MountPoint => "luks.mount-point is required"
      case PasswordLength => "luks.password-length is required"
      case Size => "luks.size (MB) is required"
    }
  }

  const RequiredOrder: seq<Field> := [VolumePath, MapperName, MountPoint, PasswordLength, Size]

  /** The LUKS settings as a value: what `Validate` reads and writes. */
  datatype Settings = Settings(
    volumePath: string,
    mapperName: string,
    mountPoint: string,
    passwordLength: int,
    size: int,
    useTPM: bool,
    user: string,
    group: string)

  /** A field counts as missing when it holds Go's zero value: the empty
      string, or 0 for the two numbers (a negative number is not missing). */
  predicate Missing(s: Settings, f: Field) {
    match f
    case VolumePath => s.volumePath == ""
    case MapperName => s.mapperName == ""
    case MountPoint => s.mountPoint == ""
    case PasswordLength => s.passwordLength == 0
    case Size => s.size == 0
  }

  /** The field `Validate` complains about, checked in source order. */
  function FirstMissing(s: Settings): Option<Field> {
    if s.volumePath == "" then Some(VolumePath)
    else if s.mapperName == "" then Some(MapperName)
    else if s.mountPoint == "" then Some(MountPoint)
    else if s.passwordLength == 0 then Some(PasswordLength)
    else if s.size == 0 then Some(Size)
    else None
  }

  /** An empty user or group defaults to "root". */
  function RootDefault(name: string): (r: string)
    ensures r != ""
    ensures name != "" ==> r == name
  {
    if name == "" then "root" else name
  }

  /** What `Validate` returns and what it leaves in the settings. */
  datatype Validation = Validation(missing: Option<Field>, settings: Settings)

  function Validated(s: Settings): Validation {
    var missing := FirstMissing(s);
    if missing.Some? then Validation(missing, s)
    else Validation(None, s.(user := RootDefault(s.user), group := RootDefault(s.group)))
  }

  /** The error names the first field of `RequiredOrder` that is missing,
      and there is none exactly when every required field is present. */
  lemma FirstMissingIsFirst(s: Settings)
    ensures FirstMissing(s).None? <==> forall i :: 0 <= i < |RequiredOrder| ==> !Missing(s, RequiredOrder[i])
    ensures forall i :: 0 <= i < |RequiredOrder| ==>
              (FirstMissing(s) == Some(RequiredOrder[i]) <==>
                 Missing(s, RequiredOrder[i]) && forall j :: 0 <= j < i ==> !Missing(s, RequiredOrder[j]))
  {
    assert RequiredOrder[0] == VolumePath && RequiredOrder[1] == MapperName && RequiredOrder[2] == MountPoint;
    assert RequiredOrder[3] == PasswordLength && RequiredOrder[4] == Size;
  }

  /** A failed validation changes nothing; a successful one changes at most
      the user and group, each only if it was empty, and to "root". */
  lemma ValidatedDefaults(s: Settings)
    ensures var v := Validated(s);
            && (v.missing.Some? ==> v.settings == s)
            && (v.missing.None? ==>
                  && v.settings.(user := s.user, group := s.group) == s
                  && v.settings.user == (if s.user == "" then "root" else s.user)
                  && v.settings.group == (if s.group == "" then "root" else s.group))
  {
  }

  /** Validating settings that already passed returns nil and changes nothing. */
  lemma {:induction false} ValidatedIdempotent(s: Settings)
    requires Validated(s).missing.None?
    ensures Validated(Validated(s).settings) == Validated(s)
  {
    var t := Validated(s).settings;
    assert FirstMissing(t) == FirstMissing(s);
    assert RootDefault(t.user) == t.user && RootDefault(t.group) == t.group;
  }

  /** The `AppConfig` struct: optional command-line values and the LUKS
      settings, which `Validate` completes in place. */
  class AppConfig {
    var bootstrapFile: Option<string>
    var deauthorize: Option<bool>
    var verbose: Option<bool>
    const luks: Luks.Config

    constructor (luks: Luks.Config)
      ensures this.luks == luks
      ensures bootstrapFile == None && deauthorize == None && verbose == None
    {
      this.luks := luks;
      bootstrapFile, deauthorize, verbose := None, None, None;
    }

    /** The LUKS settings of this configuration as a value. */
    function Current(): Settings
      reads this, luks
    {
      Settings(luks.volumePath, luks.mapperName, luks.mountPoint, luks.passwordLength, luks.size,
               luks.useTPM, luks.user, luks.group)
    }

    /** AppConfig.Validate: returns the first missing field, or None after
        filling in the root defaults. */
    method Validate() returns (missing: Option<Field>)
      modifies luks`user, luks`group
      ensures Validation(missing, Current()) == Validated(old(Current()))
    {
      if luks.volumePath == "" {
        return Some(VolumePath);
      }
      if luks.mapperName == "" {
        return Some(MapperName);
      }
      if luks.mountPoint == "" {
        return Some(MountPoint);
      }
      if luks.passwordLength == 0 {
        return Some(PasswordLength);
      }
      if luks.size == 0 {
        return Some(Size);
      }
      if luks.user == "" {
        luks.user := "root";
      }
      if luks.group == "" {
        luks.group := "root";
      }
      return None;
    }
  }

  // ---------------------------------------------------------------------
  // BootstrapToken.Validate

  /** The fields of a bootstrap token `Validate` requires. */
  datatype TokenField = TokenId | Version {
    function Message(): string {
      match this
      case TokenId => "bootstrap.token-id is required"
      case Version => "bootstrap.version is required"
    }
  }

  datatype BootstrapSection = BootstrapSection(tokenId: string, version: string)

  /** The `BootstrapToken` struct; a value, since `Validate` only reads it. */
  datatype BootstrapToken = BootstrapToken(bootstrap: BootstrapSection) {
    /** BootstrapToken.Validate: the token id is checked before the version. */
    function Validate(): (r: Option<TokenField>)
      ensures r == Some(TokenId) <==> bootstrap.tokenId == ""
      ensures r == Some(Version) <==> bootstrap.tokenId != "" && bootstrap.version == ""
      ensures r == None <==> bootstrap.tokenId != "" && bootstrap.version != ""
    {
      if bootstrap.tokenId == "" then Some(TokenId)
      else if bootstrap.version == "" then Some(Version)
      else None
    }
  }

  // ---------------------------------------------------------------------
  // ParseCommandLine

  /** The parsed command-line flags. */
  datatype Flags = Flags(
    authorize: bool,
    bootstrap: string,
    config: string,
    deauthorize: bool,
    mount: bool,
    unmount: bool,
    addPersistentMount: bool,
    removePersistentMount: bool,
    keyfile: string)

  /** The command the program runs. */
  datatype Command = Command(commandName: string, bootstrap: string, config: string, keyfile: string)

  /** Why the program exits instead of returning a command. */
  datatype Exit = ExecutableUnknown | ConfigRequired | KeyfileRequired {
    function Message(): string {
      match this
      case ExecutableUnknown => "Error determining executable path"
      case ConfigRequired => "Error: --config is required and no default config.yml found in the current directory"
      case KeyfileRequired => "Error: --keyfile is required for --authorize"
    }
  }

  datatype Outcome = Parsed(command: Command) | Exited(reason: Exit)

  /** The command names that have a flag of their own, highest precedence
      first; with none of them set the command is "help". */
  const CommandOrder: seq<string> :=
    ["authorize", "deauthorize", "mount", "unmount", "addPersistentMount", "removePersistentMount"]

  /** Whether the flag of the command named `name` is set. */
  predicate FlagSet(f: Flags, name: string) {
    if name == "authorize" then f.authorize
    else if name == "deauthorize" then f.deauthorize
    else if name == "mount" then f.mount
    else if name == "unmount" then f.unmount
    else if name == "addPersistentMount" then f.addPersistentMount
    else if name == "removePersistentMount" then f.removePersistentMount
    else false
  }

  /** ParseCommandLine after flag parsing. Without --config the program
      looks up its own executable, and exits if that fails
      (`executableFound` false); it then uses `defaultConfigPath` (config.yml
      next to the executable) unless `os.Stat` reports that it does not
      exist (`defaultConfigExists` false), in which case it exits. Any other
      Stat error counts as existing: the path is used all the same. */
  function ParseCommandLine(f: Flags, executableFound: bool, defaultConfigPath: string, defaultConfigExists: bool): Outcome {
    if f.config == "" && !executableFound then Exited(ExecutableUnknown)
    else if f.config == "" && !defaultConfigExists then Exited(ConfigRequired)
    else
      var config := if f.config == "" then defaultConfigPath else f.config;
      if f.authorize then
        if f.keyfile == "" then Exited(KeyfileRequired)
        else Parsed(Command("authorize", f.bootstrap, config, f.keyfile))
      else
        var name :=
          if f.deauthorize then "deauthorize"
          else if f.mount then "mount"
          else if f.unmount then "unmount"
          else if f.addPersistentMount then "addPersistentMount"
          else if f.removePersistentMount then "removePersistentMount"
          else "help";
        Parsed(Command(name, "", config, f.keyfile))
  }

  /** The program exits exactly when, without --config, its executable
      cannot be located or os.Stat reports that no config.yml exists next to
      it, or when
      --authorize comes without --keyfile. */
  lemma ParseCommandLineExits(f: Flags, executableFound: bool, defaultConfigPath: string, defaultConfigExists: bool)
    ensures var r := ParseCommandLine(f, executableFound, defaultConfigPath, defaultConfigExists);
            && (r == Exited(ExecutableUnknown) <==> f.config == "" && !executableFound)
            && (r == Exited(ConfigRequired) <==> f.config == "" && executableFound && !defaultConfigExists)
            && (r == Exited(KeyfileRequired) <==>
                  (f.config != "" || (executableFound && defaultConfigExists)) && f.authorize && f.keyfile == "")
  {
  }

  /** The command chosen is the first of `CommandOrder` whose flag is set,
      or "help" when none is. */
  lemma ParseCommandLinePrecedence(f: Flags, executableFound: bool, defaultConfigPath: string, defaultConfigExists: bool)
    requires ParseCommandLine(f, executableFound, defaultConfigPath, defaultConfigExists).Parsed?
    ensures var name := ParseCommandLine(f, executableFound, defaultConfigPath, defaultConfigExists).command.commandName;
            && (name == "help" <==> forall i :: 0 <= i < |CommandOrder| ==> !FlagSet(f, CommandOrder[i]))
            && forall i :: 0 <= i < |CommandOrder| ==>
                 (name == CommandOrder[i] <==> FlagSet(f, CommandOrder[i]) && forall j :: 0 <= j < i ==> !FlagSet(f, CommandOrder[j]))
  {
    assert CommandOrder[0] == "authorize" && CommandOrder[1] == "deauthorize" && CommandOrder[2] == "mount";
    assert CommandOrder[3] == "unmount" && CommandOrder[4] == "addPersistentMount";
    assert CommandOrder[5] == "removePersistentMount";
  }

  /** The configuration path and the key file are copied into every command;
      the bootstrap path only into authorize. */
  lemma ParseCommandLineFields(f: Flags, executableFound: bool, defaultConfigPath: string, defaultConfigExists: bool)
    requires ParseCommandLine(f, executableFound, defaultConfigPath, defaultConfigExists).Parsed?
    ensures var c := ParseCommandLine(f, executableFound, defaultConfigPath, defaultConfigExists).command;
            && c.config == (if f.config == "" then defaultConfigPath else f.config)
            && c.keyfile == f.keyfile
            && c.bootstrap == (if c.commandName == "authorize" then f.bootstrap else "")
            && (c.commandName == "authorize" ==> c.keyfile != "")
  {
  }
}
