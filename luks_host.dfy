/**
 * The functions of internal/luks/luks.go as the Go code runs them: one
 * statement after another against a host whose state they change. The host
 * is the outside world (device mapper, mounts, files, TPM, the two tables),
 * and every external step goes through `Exec`, which records it in the
 * append-only `trace`. Each method is proved to issue exactly the commands
 * of the matching function in LuksSpec and to return its result, so every
 * lemma proved there is a statement about these methods.
 */
module LuksHost {
  import opened Wrappers
  import opened Strings
  import opened Luks
  import opened LuksSpec

  /** Appending to a trace in two steps is appending once. */
  lemma Extend(t0: seq<Cmd>, done: seq<Cmd>, next: seq<Cmd>)
    ensures t0 + done + next == t0 + (done + next)
  {
  }

  class Host {
    var mappers: set<string>
    var mounts: map<string, string>
    var paths: set<string>
    var nvSlot: Option<seq<byte>>
    var crypttab: seq<string>
    var fstab: seq<string>
    /** Every external step issued so far, oldest first. */
    var trace: seq<Cmd>
    /** How this host answers each command. */
    const oracle: Oracle
    /** The state the host started in. */
    ghost const init: State

    /** The host's state as a value. */
    function Now(): State
      reads this
    {
      State(mappers, mounts, paths, nvSlot, crypttab, fstab)
    }

    /** The state is what the recorded commands did to the initial state. */
    ghost predicate Valid()
      reads this
    {
      Now() == Replay(oracle, init, trace)
    }

    constructor (oracle: Oracle, s: State)
      ensures Valid() && this.oracle == oracle && init == s && Now() == s && trace == []
    {
      this.oracle := oracle;
      init := s;
      mappers, mounts, paths, nvSlot, crypttab, fstab := s.mappers, s.mounts, s.paths, s.nvSlot, s.crypttab, s.fstab;
      trace := [];
    }

    /** Issues one external step: records it and, if the oracle lets it
        succeed, applies its effect. */
    method Exec(c: Cmd) returns (ok: bool)
      requires Valid()
      modifies this
      ensures Valid()
      ensures ok == oracle.succeeds(c)
      ensures trace == old(trace) + [c]
      ensures Now() == Apply(oracle, old(Now()), c)
    {
      ReplaySnoc(oracle, init, trace, c);
      ok := oracle.succeeds(c);
      var s := Apply(oracle, Now(), c);
      mappers, mounts, paths, nvSlot, crypttab, fstab := s.mappers, s.mounts, s.paths, s.nvSlot, s.crypttab, s.fstab;
      trace := trace + [c];
    }

    // -------------------------------------------------------------------
    // Secret handling

    /** storePasswordInTPM */
    method StorePasswordInTPM(password: seq<byte>, nvIndex: string) returns (r: Result<()>)
      requires Valid()
      modifies this
      ensures Valid()
      ensures trace == old(trace) + StorePasswordInTPMRun(oracle, password, nvIndex).cmds
      ensures r == StorePasswordInTPMRun(oracle, password, nvIndex).result
    {
      if |password| < 1 || |password| > 64 {
        return Err(PasswordLengthInvalid);
      }
      var ok := Exec(NvDefine(nvIndex, |password|));
      if !ok {
        return Err(Failed(NvDefine(nvIndex, |password|)));
      }
      ok := Exec(NvWrite(nvIndex, PasswordInput(password, false)));
      if !ok {
        return Err(Failed(NvWrite(nvIndex, PasswordInput(password, false))));
      }
      return Ok(());
    }

    /** removePasswordFromTPM */
    method RemovePasswordFromTPM(nvIndex: string) returns (r: Result<()>)
      requires Valid()
      modifies this
      ensures Valid()
      ensures trace == old(trace) + RemovePasswordFromTPMRun(oracle, nvIndex).cmds
      ensures r == RemovePasswordFromTPMRun(oracle, nvIndex).result
    {
      var ok := Exec(NvUndefine(nvIndex));
      r := if ok then Ok(()) else Err(Failed(NvUndefine(nvIndex)));
    }

    /** retrievePasswordFromTPM */
    method RetrievePasswordFromTPM(nvIndex: string, size: int) returns (r: Result<seq<byte>>)
      requires Valid()
      modifies this
      ensures Valid()
      ensures trace == old(trace) + RetrievePasswordFromTPMRun(oracle, nvIndex, size).cmds
      ensures r == RetrievePasswordFromTPMRun(oracle, nvIndex, size).result
    {
      var c := NvRead(nvIndex, size);
      var ok := Exec(c);
      if !ok {
        return Err(Failed(c));
      }
      return Ok(oracle.nvData(c));
    }

    /** getRandomBytesFromTPM2 */
    method GetRandomBytesFromTPM2(size: int) returns (r: Result<seq<byte>>)
      requires Valid()
      modifies this
      ensures Valid()
      ensures trace == old(trace) + GetRandomBytesFromTPM2Run(oracle, size).cmds
      ensures r == GetRandomBytesFromTPM2Run(oracle, size).result
    {
      var c := GetRandom(size);
      var ok := Exec(c);
      if !ok {
        return Err(Failed(c));
      }
      var decoded := oracle.randomHex(c);
      if decoded.None? {
        return Err(Failed(c));
      }
      return Ok(decoded.value);
    }

    /** GenerateLUKSKey: the software fallback fills the key byte by byte. */
    method GenerateLUKSKey(length: int) returns (r: Result<seq<byte>>)
      requires Valid()
      modifies this
      ensures Valid()
      ensures trace == old(trace) + GenerateLUKSKeyRun(oracle, length).cmds
      ensures r == GenerateLUKSKeyRun(oracle, length).result
    {
      if length <= 8 {
        return Err(KeyLengthInvalid);
      }
      if oracle.tpmDevice == Present {
        var key := GetRandomBytesFromTPM2(length);
        if key.Ok? {
          return key;
        }
      }
      if oracle.cryptoRandFails {
        return Err(RandomFailed);
      }
      var key := CryptoRandRead(length);
      return Ok(key);
    }

    /** `rand.Read` into a fresh buffer of `length` bytes, byte by byte. */
    method CryptoRandRead(length: nat) returns (key: seq<byte>)
      ensures |key| == length
      ensures key == CryptoRandKey(oracle, length)
    {
      var buffer := new byte[length];
      var i := 0;
      while i < length
        invariant 0 <= i <= length
        invariant forall j :: 0 <= j < i ==> buffer[j] == oracle.cryptoRand(j)
      {
        buffer[i] := oracle.cryptoRand(i);
        i := i + 1;
      }
      key := buffer[..];
    }

    // -------------------------------------------------------------------
    // Provisioning

    /** createSparseFile */
    method CreateSparseFile(filePath: string, sizeMB: int) returns (r: Result<()>)
      requires Valid()
      modifies this
      ensures Valid()
      ensures trace == old(trace) + CreateSparseFileRun(oracle, filePath, sizeMB).cmds
      ensures r == CreateSparseFileRun(oracle, filePath, sizeMB).result
    {
      var mkdir := MkdirAll(Dir(filePath), PermPrivateDir);
      var ok := Exec(mkdir);
      if !ok {
        return Err(Failed(mkdir));
      }
      var create := CreateFile(filePath, PermPrivateFile);
      ok := Exec(create);
      if !ok {
        return Err(Failed(create));
      }
      var truncate := Truncate(filePath, sizeMB * 1024 * 1024);
      ok := Exec(truncate);
      if !ok {
        return Err(Failed(truncate));
      }
      return Ok(());
    }

    /** luksFormat */
    method LuksFormatImage(filePath: string, password: seq<byte>) returns (r: Result<()>)
      requires Valid()
      modifies this
      ensures Valid()
      ensures trace == old(trace) + LuksFormatRun(oracle, filePath, password).cmds
      ensures r == LuksFormatRun(oracle, filePath, password).result
    {
      var ok := Exec(LuksFormat(filePath, password));
      r := if ok then Ok(()) else Err(Failed(LuksFormat(filePath, password)));
    }

    /** CreateLUKSVolume */
    method CreateLUKSVolume(filePath: string, password: seq<byte>, sizeMB: int, useTPM: bool) returns (r: Result<()>)
      requires Valid()
      modifies this
      ensures Valid()
      ensures trace == old(trace) + CreateLUKSVolumeRun(oracle, filePath, password, sizeMB, useTPM).cmds
      ensures r == CreateLUKSVolumeRun(oracle, filePath, password, sizeMB, useTPM).result
    {
      if sizeMB < 1 || sizeMB > 64 {
        return Err(SizeOutOfRange);
      }
      ghost var t0 := trace;
      r := CreateSparseFile(filePath, sizeMB);
      if r.Err? {
        return;
      }
      ghost var done := CreateSparseFileRun(oracle, filePath, sizeMB).cmds;
      if useTPM {
        var removed := RemovePasswordFromTPM(DefaultNVIndex);
        r := StorePasswordInTPM(password, DefaultNVIndex);
        ghost var escrow := EscrowCmds(oracle, password);
        Extend(t0, done, escrow);
        done := done + escrow;
        if r.Err? {
          return;
        }
      }
      r := LuksFormatImage(filePath, password);
      Extend(t0, done, LuksFormatRun(oracle, filePath, password).cmds);
    }

    // -------------------------------------------------------------------
    // Sessions

    /** OpenLUKSVolume: `cfg.Password` is replaced by the TPM copy in TPM mode. */
    method OpenLUKSVolume(cfg: Config) returns (r: Result<()>)
      requires Valid()
      modifies this, cfg`password
      ensures Valid()
      ensures var run := old(OpenLUKSVolumeRun(oracle, Now(), cfg.mapperName, cfg.volumePath, cfg.useTPM,
                                               cfg.passwordLength, cfg.password));
              && trace == old(trace) + run.run.cmds
              && r == run.run.result
              && cfg.password == run.password
    {
      var name, volumePath, useTPM, passwordLength := cfg.mapperName, cfg.volumePath, cfg.useTPM, cfg.passwordLength;
      ghost var spec := OpenLUKSVolumeRun(oracle, Now(), name, volumePath, useTPM, passwordLength, cfg.password);
      ghost var t0 := trace;
      ghost var done: seq<Cmd> := [];
      if name in mappers {
        var ok := Exec(LuksClose(name));
        done := [LuksClose(name)];
        if !ok {
          assert spec == PasswordRun(Run(done, Err(Failed(LuksClose(name)))), cfg.password);
          return Err(Failed(LuksClose(name)));
        }
      } else {
        assert t0 + done == t0;
      }
      if useTPM {
        var password := RetrievePasswordFromTPM(DefaultNVIndex, passwordLength);
        ghost var get := RetrievePasswordFromTPMRun(oracle, DefaultNVIndex, passwordLength);
        Extend(t0, done, get.cmds);
        done := done + get.cmds;
        if password.Err? {
          assert spec == PasswordRun(Run(done, Err(password.error)), cfg.password);
          return Err(password.error);
        }
        cfg.password := password.value;
      }
      var open := LuksOpen(volumePath, name, PasswordInput(cfg.password, true));
      var ok := Exec(open);
      Extend(t0, done, [open]);
      r := if ok then Ok(()) else Err(Failed(open));
      assert spec == PasswordRun(Run(done + [open], r), cfg.password);
    }

    /** FormatLUKSVolume */
    method FormatLUKSVolume(name: string) returns (r: Result<()>)
      requires Valid()
      modifies this
      ensures Valid()
      ensures trace == old(trace) + FormatLUKSVolumeRun(oracle, name).cmds
      ensures r == FormatLUKSVolumeRun(oracle, name).result
    {
      var ok := Exec(MkfsExt4(name));
      r := if ok then Ok(()) else Err(Failed(MkfsExt4(name)));
    }

    /** MountLUKSVolume */
    method MountLUKSVolume(cfg: Config) returns (r: Result<()>)
      requires Valid()
      modifies this
      ensures Valid()
      ensures trace == old(trace) + MountLUKSVolumeRun(oracle, cfg.mapperName, cfg.mountPoint, cfg.user, cfg.group).cmds
      ensures r == MountLUKSVolumeRun(oracle, cfg.mapperName, cfg.mountPoint, cfg.user, cfg.group).result
    {
      var ok := Exec(MkdirAll(cfg.mountPoint, PermMountDir));
      if !ok {
        return Err(Failed(MkdirAll(cfg.mountPoint, PermMountDir)));
      }
      ok := Exec(Mount(cfg.mapperName, cfg.mountPoint));
      if !ok {
        return Err(Failed(Mount(cfg.mapperName, cfg.mountPoint)));
      }
      if cfg.user == "" || cfg.group == "" {
        return Err(OwnerRequired);
      }
      var chown := Chown(cfg.user + ":" + cfg.group, cfg.mountPoint);
      ok := Exec(chown);
      r := if ok then Ok(()) else Err(Failed(chown));
    }

    /** UnmountLUKSVolume */
    method UnmountLUKSVolume(mountPoint: string) returns (r: Result<()>)
      requires Valid()
      modifies this
      ensures Valid()
      ensures trace == old(trace) + UnmountLUKSVolumeRun(oracle, mountPoint).cmds
      ensures r == UnmountLUKSVolumeRun(oracle, mountPoint).result
    {
      var ok := Exec(Umount(mountPoint));
      if !ok {
        ok := Exec(UmountLazy(mountPoint));
        if !ok {
          return Err(Failed(UmountLazy(mountPoint)));
        }
      }
      return Ok(());
    }

    /** CloseLUKSVolume */
    method CloseLUKSVolume(name: string) returns (r: Result<()>)
      requires Valid()
      modifies this
      ensures Valid()
      ensures trace == old(trace) + CloseLUKSVolumeRun(oracle, name).cmds
      ensures r == CloseLUKSVolumeRun(oracle, name).result
    {
      var ok := Exec(LuksClose(name));
      r := if ok then Ok(()) else Err(Failed(LuksClose(name)));
    }

    /** SetupLUKSVolume: a nil configuration is refused; every later failure
        (a `log.Fatalf` in the Go code) ends the run with that step's error. */
    method SetupLUKSVolume(cfg: Config?) returns (r: Result<()>)
      requires Valid()
      modifies this, ({cfg} - {null})`password
      ensures Valid()
      ensures cfg == null ==> trace == old(trace) && r == Err(NilConfig)
      ensures cfg != null ==>
                var run := old(SetupLUKSVolumeRun(oracle, Now(), cfg.volumePath, cfg.mapperName, cfg.mountPoint,
                                                  cfg.passwordLength, cfg.size, cfg.useTPM, cfg.user, cfg.group,
                                                  cfg.password));
                && trace == old(trace) + run.run.cmds
                && r == run.run.result
                && cfg.password == run.password
    {
      if cfg == null {
        return Err(NilConfig);
      }
      var volumePath, name, passwordLength, size, useTPM := cfg.volumePath, cfg.mapperName, cfg.passwordLength, cfg.size, cfg.useTPM;
      ghost var s := Now();
      ghost var t0 := trace;
      if useTPM && oracle.tpmDevice == Absent {
        assert t0 + [] == t0;
        return Err(TpmUnavailable);
      }
      var key := GenerateLUKSKey(passwordLength);
      ghost var done := GenerateLUKSKeyRun(oracle, passwordLength).cmds;
      if key.Err? {
        return Err(key.error);
      }
      cfg.password := key.value;
      r := CreateLUKSVolume(volumePath, key.value, size, useTPM);
      Extend(t0, done, CreateLUKSVolumeRun(oracle, volumePath, key.value, size, useTPM).cmds);
      done := done + CreateLUKSVolumeRun(oracle, volumePath, key.value, size, useTPM).cmds;
      if r.Err? {
        return;
      }
      ReplayAppend(oracle, init, t0, done);
      assert Now() == Replay(oracle, s, done);
      r := OpenLUKSVolume(cfg);
      ghost var open := OpenLUKSVolumeRun(oracle, Replay(oracle, s, done), name, volumePath, useTPM, passwordLength, key.value);
      Extend(t0, done, open.run.cmds);
      done := done + open.run.cmds;
      if r.Err? {
        return;
      }
      r := FormatLUKSVolume(name);
      Extend(t0, done, FormatLUKSVolumeRun(oracle, name).cmds);
      done := done + FormatLUKSVolumeRun(oracle, name).cmds;
      if r.Err? {
        return;
      }
      r := MountLUKSVolume(cfg);
      Extend(t0, done, MountLUKSVolumeRun(oracle, name, cfg.mountPoint, cfg.user, cfg.group).cmds);
    }

    /** UnmountAndCloseLUKSVolume: a nil configuration is refused. */
    method UnmountAndCloseLUKSVolume(cfg: Config?) returns (r: Result<()>)
      requires Valid()
      modifies this
      ensures Valid()
      ensures cfg == null ==> trace == old(trace) && r == Err(NilConfig)
      ensures cfg != null ==> trace == old(trace) + UnmountAndCloseLUKSVolumeRun(oracle, cfg.mountPoint, cfg.mapperName).cmds
                              && r == Ok(())
    {
      if cfg == null {
        return Err(NilConfig);
      }
      var mountPoint, name := cfg.mountPoint, cfg.mapperName;
      ghost var t0 := trace;
      var unmounted := UnmountLUKSVolume(mountPoint);
      var closed := CloseLUKSVolume(name);
      Extend(t0, UnmountLUKSVolumeRun(oracle, mountPoint).cmds, CloseLUKSVolumeRun(oracle, name).cmds);
      return Ok(());
    }

    /** RemoveLUKSVolume: every step is attempted, failures only logged. */
    method RemoveLUKSVolume(cfg: Config) returns (r: Result<()>)
      requires Valid()
      modifies this
      ensures Valid()
      ensures trace == old(trace) + RemoveLUKSVolumeRun(oracle, cfg.mountPoint, cfg.mapperName, cfg.volumePath, cfg.useTPM).cmds
      ensures r == Ok(())
    {
      var mountPoint, name, volumePath := cfg.mountPoint, cfg.mapperName, cfg.volumePath;
      ghost var t0 := trace;
      var unmounted := UnmountLUKSVolume(mountPoint);
      ghost var done := UnmountLUKSVolumeRun(oracle, mountPoint).cmds;
      var closed := CloseLUKSVolume(name);
      Extend(t0, done, CloseLUKSVolumeRun(oracle, name).cmds);
      done := done + CloseLUKSVolumeRun(oracle, name).cmds;
      var ok := Exec(RemoveAll(mountPoint));
      Extend(t0, done, [RemoveAll(mountPoint)]);
      done := done + [RemoveAll(mountPoint)];
      ok := Exec(Remove(volumePath));
      Extend(t0, done, [Remove(volumePath)]);
      done := done + [Remove(volumePath)];
      if cfg.useTPM {
        var removed := RemovePasswordFromTPM(DefaultNVIndex);
        Extend(t0, done, RemovePasswordFromTPMRun(oracle, DefaultNVIndex).cmds);
      } else {
        assert done + [] == done;
      }
      return Ok(());
    }

    // -------------------------------------------------------------------
    // Persistent mounts

    /** isLUKSMounted */
    method IsLUKSMounted(cfg: Config) returns (r: Result<bool>)
      requires Valid()
      modifies this
      ensures Valid()
      ensures trace == old(trace) + IsLUKSMountedRun(oracle, cfg.mapperName, cfg.mountPoint).cmds
      ensures r == IsLUKSMountedRun(oracle, cfg.mapperName, cfg.mountPoint).result
      ensures Now() == old(Now())
    {
      var c := Lsblk(cfg.mapperName);
      var ok := Exec(c);
      if !ok {
        return Err(Failed(c));
      }
      return Ok(TrimSpace(oracle.output(c)) == cfg.mountPoint);
    }

    /** getFilesystemUUID */
    method GetFilesystemUUID(name: string) returns (r: Result<string>)
      requires Valid()
      modifies this
      ensures Valid()
      ensures trace == old(trace) + GetFilesystemUUIDRun(oracle, name).cmds
      ensures r == GetFilesystemUUIDRun(oracle, name).result
      ensures Now() == old(Now())
    {
      var c := Blkid(name);
      var ok := Exec(c);
      if !ok {
        return Err(Failed(c));
      }
      var uuid := TrimSpace(oracle.output(c));
      if uuid == "" {
        return Err(NoUuid);
      }
      return Ok(uuid);
    }

    /** appendToFile: the table keeps its lines and gains `line` at the end. */
    method AppendToFile(t: Table, line: string) returns (r: Result<()>)
      requires Valid()
      modifies this
      ensures Valid()
      ensures trace == old(trace) + [AppendLine(t, line)]
      ensures r == Status(oracle, AppendLine(t, line))
      ensures Now() == if r.Ok? then old(Now()).WithLines(t, old(Now()).Lines(t) + [line]) else old(Now())
    {
      ghost var s := Now();
      var ok := Exec(AppendLine(t, line));
      r := if ok then Ok(()) else Err(Failed(AppendLine(t, line)));
      if ok {
        AppendToFileKeepsText(oracle, s, t, line);
      }
    }

    /** removeLineFromFile: scans the table line by line and writes back the
        lines that do not contain `token`. */
    method RemoveLineFromFile(t: Table, token: string) returns (r: Result<()>)
      requires Valid()
      modifies this
      ensures Valid()
      ensures trace == old(trace) + RemoveLineFromFileRun(oracle, old(Now()), t, token).cmds
      ensures r == RemoveLineFromFileRun(oracle, old(Now()), t, token).result
      ensures Now() == if r.Ok? then old(Now()).WithLines(t, Without(old(Now()).Lines(t), token)) else old(Now())
    {
      ghost var s := Now();
      var ok := Exec(ReadTable(t));
      ApplyReadReplace(oracle, s, t, Without(s.Lines(t), token));
      if !ok {
        return Err(Failed(ReadTable(t)));
      }
      var lines := Now().Lines(t);
      var kept: seq<string> := [];
      var i := 0;
      while i < |lines|
        invariant 0 <= i <= |lines|
        invariant kept == Without(lines[..i], token)
      {
        assert lines[..i + 1][..i] == lines[..i];
        if !Contains(lines[i], token) {
          kept := kept + [lines[i]];
        }
        i := i + 1;
      }
      assert lines[..i] == lines;
      var replace := ReplaceTable(t, kept);
      ok := Exec(replace);
      r := if ok then Ok(()) else Err(Failed(replace));
    }

    /** AddPersistentMount */
    method AddPersistentMount(cfg: Config, keyFile: string) returns (r: Result<()>)
      requires Valid()
      modifies this
      ensures Valid()
      ensures var run := old(AddPersistentMountRun(oracle, cfg.mapperName, cfg.volumePath, cfg.mountPoint,
                                                   cfg.useTPM, keyFile));
              trace == old(trace) + run.cmds && r == run.result
    {
      var name, volumePath, mountPoint, useTPM := cfg.mapperName, cfg.volumePath, cfg.mountPoint, cfg.useTPM;
      ghost var t0 := trace;
      var mounted := IsLUKSMounted(cfg);
      ghost var done := IsLUKSMountedRun(oracle, name, mountPoint).cmds;
      if mounted.Err? {
        return Err(mounted.error);
      }
      if !mounted.value {
        return Err(NotMounted);
      }
      var line := CrypttabLine(name, volumePath, useTPM, keyFile);
      r := AppendToFile(Crypttab, line);
      Extend(t0, done, [AppendLine(Crypttab, line)]);
      done := done + [AppendLine(Crypttab, line)];
      if r.Err? {
        return;
      }
      var uuid := GetFilesystemUUID(name);
      Extend(t0, done, GetFilesystemUUIDRun(oracle, name).cmds);
      done := done + GetFilesystemUUIDRun(oracle, name).cmds;
      if uuid.Err? {
        return Err(uuid.error);
      }
      var fstab := FstabLine(uuid.value, mountPoint, name);
      r := AppendToFile(Fstab, fstab);
      Extend(t0, done, [AppendLine(Fstab, fstab)]);
    }

    /** RemovePersistentMount */
    method RemovePersistentMount(cfg: Config) returns (r: Result<()>)
      requires Valid()
      modifies this
      ensures Valid()
      ensures trace == old(trace) + RemovePersistentMountRun(oracle, old(Now()), cfg.mapperName, cfg.mountPoint).cmds
      ensures r == RemovePersistentMountRun(oracle, old(Now()), cfg.mapperName, cfg.mountPoint).result
    {
      var name, mountPoint := cfg.mapperName, cfg.mountPoint;
      ghost var s := Now();
      ghost var t0 := trace;
      var mounted := IsLUKSMounted(cfg);
      if mounted.Err? {
        return Err(mounted.error);
      }
      if mounted.value {
        return Err(StillMounted);
      }
      r := RemoveLineFromFile(Fstab, mountPoint);
      ghost var fstab := RemoveLineFromFileRun(oracle, s, Fstab, mountPoint);
      Extend(t0, [Lsblk(name)], fstab.cmds);
      if r.Err? {
        return;
      }
      ghost var s1 := Now();
      assert s1.Lines(Crypttab) == s.Lines(Crypttab);
      ghost var crypttab := RemoveLineFromFileRun(oracle, s, Crypttab, name);
      assert RemoveLineFromFileRun(oracle, s1, Crypttab, name) == crypttab;
      r := RemoveLineFromFile(Crypttab, name);
      Extend(t0, [Lsblk(name)] + fstab.cmds, crypttab.cmds);
    }
  }
}
