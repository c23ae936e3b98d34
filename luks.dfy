/**
 * Data model of the LUKS volume manager (internal/luks/luks.go): the volume
 * configuration record, the external commands the code issues, the part of
 * the outside world those commands change, and an oracle that decides how
 * each command turns out.
 *
 * Every `exec.Command`, `os.*` file operation and device probe of the Go code
 * is one `Cmd`. Whether it succeeds, and what it prints, comes from the
 * `Oracle`; what a successful command does to the world is `Effect`. A world
 * that started in state `s` and has seen the commands `t` is therefore in
 * state `Replay(o, s, t)`.
 */
module Luks {
  import opened Wrappers

  newtype byte = b: int | 0 <= b < 256

  /** The TPM NV index the password is escrowed at (one per host). */
  const DefaultNVIndex: string := "0x1500016"
  /** The key script a TPM-mode crypttab entry names. */
  const KeyscriptPath: string := "/usr/local/bin/tpm-luks-keyscript.sh"
  const MiB: int := 1024 * 1024
  const NewlineByte: byte := 10
  /** Permission bits 0700, 0600 and 0755. */
  const PermPrivateDir: int := 448
  const PermPrivateFile: int := 384
  const PermMountDir: int := 493

  /** The `LUKS` configuration struct. The Go code passes it by pointer and
      overwrites `Password`, `User` and `Group` in place, so it is a class. */
  class Config {
    var volumePath: string
    var mapperName: string
    var mountPoint: string
    var passwordLength: int
    var size: int
    var useTPM: bool
    var user: string
    var group: string
    /** Not read from the configuration file; set while the volume is set up. */
    var password: seq<byte>

    constructor (volumePath: string, mapperName: string, mountPoint: string,
                 passwordLength: int, size: int, useTPM: bool, user: string, group: string)
      ensures this.volumePath == volumePath && this.mapperName == mapperName
      ensures this.mountPoint == mountPoint && this.passwordLength == passwordLength
      ensures this.size == size && this.useTPM == useTPM
      ensures this.user == user && this.group == group && this.password == []
    {
      this.volumePath := volumePath;
      this.mapperName := mapperName;
      this.mountPoint := mountPoint;
      this.passwordLength := passwordLength;
      this.size := size;
      this.useTPM := useTPM;
      this.user := user;
      this.group := group;
      this.password := [];
    }
  }

  /** The two boot-time tables the code edits. */
  datatype Table = Crypttab | Fstab {
    function Path(): string {
      match this
      case Crypttab => "/etc/crypttab"
      case Fstab => "/etc/fstab"
    }
  }

  /** One external step. Device arguments are written as the mapper name;
      the command line names `/dev/mapper/<name>`. */
  datatype Cmd =
    | MkdirAll(path: string, perm: int)          // os.MkdirAll
    | CreateFile(path: string, perm: int)        // os.OpenFile(O_RDWR|O_CREATE|O_TRUNC)
    | Truncate(path: string, bytes: int)         // file.Truncate
    | LuksFormat(path: string, key: seq<byte>)   // cryptsetup luksFormat --type=luks2 ... --key-file
    | LuksOpen(path: string, name: string, stdin: seq<byte>) // cryptsetup luksOpen <path> <name>
    | LuksClose(name: string)                    // cryptsetup luksClose <name>
    | MkfsExt4(name: string)                     // mkfs.ext4 /dev/mapper/<name>
    | Mount(name: string, mountPoint: string)    // mount /dev/mapper/<name> <mountPoint>
    | Umount(mountPoint: string)                 // umount <mountPoint>
    | UmountLazy(mountPoint: string)             // umount -l <mountPoint>
    | Chown(owner: string, path: string)         // chown <user:group> <path>
    | RemoveAll(path: string)                    // os.RemoveAll
    | Remove(path: string)                       // os.Remove
    | NvDefine(index: string, size: nat)         // tpm2_nvdefine <index> --size=<n>
    | NvWrite(index: string, stdin: seq<byte>)   // tpm2_nvwrite <index> --input=-
    | NvRead(index: string, count: int)          // tpm2_nvread <index> --size=<n>
    | NvUndefine(index: string)                  // tpm2_nvundefine <index>
    | GetRandom(count: int)                      // tpm2_getrandom <n> --hex
    | Lsblk(name: string)                        // lsblk -o MOUNTPOINT --noheadings /dev/mapper/<name>
    | Blkid(name: string)                        // blkid -p -s UUID -o value /dev/mapper/<name>
    | ReadTable(table: Table)                    // os.Open of the table for scanning
    | AppendLine(table: Table, line: string)     // append line + "\n" to the table
    | ReplaceTable(table: Table, lines: seq<string>) // write lines to <table>.tmp, rename over the table

  /** What `os.Stat("/dev/tpmrm0")` reports. */
  datatype Probe = Present | Absent | ProbeFailed

  /** How the outside world answers. `succeeds` is the exit status of every
      command; `output` the text lsblk and blkid print; `nvData` the bytes
      tpm2_nvread prints; `randomHex` the bytes decoded from tpm2_getrandom's
      hex output (None when it is not valid hex); `cryptoRand` the bytes
      crypto/rand yields, unless `cryptoRandFails`. */
  datatype Oracle = Oracle(
    succeeds: Cmd -> bool,
    output: Cmd -> string,
    nvData: Cmd -> seq<byte>,
    randomHex: Cmd -> Option<seq<byte>>,
    tpmDevice: Probe,
    cryptoRandFails: bool,
    cryptoRand: nat -> byte)

  /** The part of the outside world the commands change: active device-mapper
      names, mounts (mount point to mapper name), existing paths, the TPM NV
      slot at the well-known index, and the two tables as lines. */
  datatype State = State(
    mappers: set<string>,
    mounts: map<string, string>,
    paths: set<string>,
    nvSlot: Option<seq<byte>>,
    crypttab: seq<string>,
    fstab: seq<string>)
  {
    function Lines(t: Table): seq<string> {
      match t
      case Crypttab => crypttab
      case Fstab => fstab
    }

    /** This state with table `t` holding `lines`. */
    function WithLines(t: Table, lines: seq<string>): (r: State)
      ensures r.Lines(t) == lines
    {
      match t
      case Crypttab => this.(crypttab := lines)
      case Fstab => this.(fstab := lines)
    }
  }

  /** What a command that succeeded did to the world; queries change nothing. */
  function Effect(s: State, c: Cmd): State {
    match c
    case MkdirAll(p, _) => s.(paths := s.paths + {p})
    case CreateFile(p, _) => s.(paths := s.paths + {p})
    case LuksOpen(_, name, _) => s.(mappers := s.mappers + {name})
    case LuksClose(name) => s.(mappers := s.mappers - {name})
    case Mount(name, mp) => s.(mounts := s.mounts[mp := name])
    case Umount(mp) => s.(mounts := s.mounts - {mp})
    case UmountLazy(mp) => s.(mounts := s.mounts - {mp})
    case RemoveAll(p) => s.(paths := s.paths - {p})
    case Remove(p) => s.(paths := s.paths - {p})
    case NvDefine(_, n) => s.(nvSlot := Some(seq(n, _ => 0 as byte)))
    case NvWrite(_, data) => s.(nvSlot := Some(data))
    case NvUndefine(_) => s.(nvSlot := None)
    case AppendLine(Crypttab, line) => s.(crypttab := s.crypttab + [line])
    case AppendLine(Fstab, line) => s.(fstab := s.fstab + [line])
    case ReplaceTable(Crypttab, lines) => s.(crypttab := lines)
    case ReplaceTable(Fstab, lines) => s.(fstab := lines)
    case _ => s
  }

  /** One command against the world: its effect if it succeeded, else nothing. */
  function Apply(o: Oracle, s: State, c: Cmd): State {
    if o.succeeds(c) then Effect(s, c) else s
  }

  /** The world after the commands `cmds`, in order. */
  function Replay(o: Oracle, s: State, cmds: seq<Cmd>): State
    decreases |cmds|
  {
    if cmds == [] then s
    else Apply(o, Replay(o, s, cmds[..|cmds| - 1]), cmds[|cmds| - 1])
  }

  /** Replaying two runs is replaying the second from where the first ended. */
  lemma {:induction false} ReplayAppend(o: Oracle, s: State, a: seq<Cmd>, b: seq<Cmd>)
    ensures Replay(o, s, a + b) == Replay(o, Replay(o, s, a), b)
  {
    if b == [] {
      assert a + b == a;
    } else {
      assert (a + b)[..|a + b| - 1] == a + b[..|b| - 1];
      ReplayAppend(o, s, a, b[..|b| - 1]);
    }
  }

  /** Replaying one more command applies it to where the replay stood. */
  lemma ReplaySnoc(o: Oracle, s: State, a: seq<Cmd>, c: Cmd)
    ensures Replay(o, s, a + [c]) == Apply(o, Replay(o, s, a), c)
  {
    assert (a + [c])[..|a + [c]| - 1] == a;
  }

  /** Replaying a short, explicit list of commands is applying them one
      after another. */
  lemma ReplayOne(o: Oracle, s: State, x: Cmd)
    ensures Replay(o, s, [x]) == Apply(o, s, x)
  {
    ReplaySnoc(o, s, [], x);
    assert [] + [x] == [x];
  }

  /** lsblk only reads: replaying it alone leaves the world as it was. */
  lemma ReplayLsblk(o: Oracle, s: State, name: string)
    ensures Replay(o, s, [Lsblk(name)]) == s
  {
    ReplayOne(o, s, Lsblk(name));
  }

  lemma ReplayTwo(o: Oracle, s: State, x: Cmd, y: Cmd)
    ensures Replay(o, s, [x, y]) == Apply(o, Apply(o, s, x), y)
  {
    ReplayOne(o, s, x);
    ReplaySnoc(o, s, [x], y);
    assert [x] + [y] == [x, y];
  }

  lemma ReplayThree(o: Oracle, s: State, x: Cmd, y: Cmd, z: Cmd)
    ensures Replay(o, s, [x, y, z]) == Apply(o, Apply(o, Apply(o, s, x), y), z)
  {
    ReplayTwo(o, s, x, y);
    ReplaySnoc(o, s, [x, y], z);
    assert [x, y] + [z] == [x, y, z];
  }

  lemma ReplayFour(o: Oracle, s: State, w: Cmd, x: Cmd, y: Cmd, z: Cmd)
    ensures Replay(o, s, [w, x, y, z]) == Apply(o, Apply(o, Apply(o, Apply(o, s, w), x), y), z)
  {
    ReplayThree(o, s, w, x, y);
    ReplaySnoc(o, s, [w, x, y], z);
    assert [w, x, y] + [z] == [w, x, y, z];
  }

  lemma ReplayFive(o: Oracle, s: State, v: Cmd, w: Cmd, x: Cmd, y: Cmd, z: Cmd)
    ensures Replay(o, s, [v, w, x, y, z]) == Apply(o, Apply(o, Apply(o, Apply(o, Apply(o, s, v), w), x), y), z)
  {
    ReplayFour(o, s, v, w, x, y);
    ReplaySnoc(o, s, [v, w, x, y], z);
    assert [v, w, x, y] + [z] == [v, w, x, y, z];
  }

  /** Why an operation failed. `Failed(c)` names the external step that
      reported an error. */
  datatype Error =
    | NilConfig              // "LUKS configuration is nil"
    | TpmUnavailable         // "TPM 2.0 not availabile on this system"
    | KeyLengthInvalid       // GenerateLUKSKey's bound
    | RandomFailed           // crypto/rand failed
    | SizeOutOfRange         // CreateLUKSVolume's bound
    | PasswordLengthInvalid  // storePasswordInTPM's bound
    | OwnerRequired          // "user and group must be specified"
    | NoUuid                 // blkid printed nothing
    | NotMounted             // AddPersistentMount's guard
    | StillMounted           // RemovePersistentMount's guard
    | Failed(cmd: Cmd)

  datatype Result<+T> = Ok(value: T) | Err(error: Error)
}
