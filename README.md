# LUKS bootstrap tool — a Dafny model

This project models the control logic of a small Go tool. The tool provisions a LUKS2-encrypted, file-backed volume and tears it down again. It can optionally escrow the volume's passphrase in a TPM 2.0 NV index. It also registers the volume in `/etc/crypttab` and `/etc/fstab` so that it is mounted at boot.

Nearly every step of the tool runs an external program: `cryptsetup`, `mount`, `umount`, `chown`, `mkfs.ext4`, `tpm2_*`, `lsblk` or `blkid`. The model therefore treats the outside world as data:

- **`Luks`** (`luks.dfy`) holds the data model:
  - the `LUKS` configuration record, as the class `Config`;
  - every external step, as one `Cmd`;
  - the part of the world those steps change, as `State`: active device-mapper names, mounts, existing paths, the TPM NV slot, and the two tables as lines;
  - an `Oracle` that decides whether each command succeeds and what it prints.

  `Replay(o, s, cmds)` is the world after a list of commands.
- **`LuksSpec`** (`luks_spec.dfy`) describes each Go operation as a pure function of the oracle and the state.
  - Each `...Run` function returns the list of commands the operation issues and its result.
  - The lemmas next to each function state what `luks.go` promises: ordering, which failures abort and which are only logged, the bounds, the line formats, the guards, and the effect on the world.
- **`LuksHost`** (`luks_host.dfy`) is the imperative layer.
  - A `Host` object holds the world's state and an append-only `trace` of issued commands.
  - Its methods mirror the Go functions step by step, including the loop of `removeLineFromFile` and the in-place writes to `cfg.Password`.
  - Each method is proved to issue exactly the commands of its `LuksSpec` run and to return that run's result.
  - The invariant `Valid()` ties the fields to `Replay(oracle, init, trace)`.
- **`Strings`** (`strings.dfy`) holds the string functions the Go code relies on:
  - `strings.TrimSpace` (with Go's Unicode white space);
  - `strings.Contains`;
  - the line filter;
  - the text of a list of lines;
  - splitting on single spaces.
- **`Config`** (`config.dfy`) covers the configuration package:
  - `AppConfig.Validate`, which fills in root defaults in place;
  - `BootstrapToken.Validate`;
  - the choice of command from the parsed flags in `ParseCommandLine`.
- **`Password`** (`password.dfy`) covers `GeneratePassword`, which fills a buffer from a fixed character set using a stream of random draws.

The model follows the code where its messages disagree with its checks:

- `CreateLUKSVolume` says "between 1MB and 10MB" but accepts 1..64.
- `GenerateLUKSKey` says "greater than 0" but refuses every length up to 8.

Two consequences of the line filter are stated as lemmas rather than corrected:

- `RemovePersistentMount` deletes every fstab line that merely *contains* the mount point.
- It deletes every crypttab line that merely *contains* the mapper name. So a mapper named `l`, `lu`, `luk` or `luks` also deletes every other entry of the shape this tool writes (`LuksSpec.CrypttabFilterIsSubstring`). Entries written by other means are covered only when they contain the name.

## Model

| member | source | states |
|---|---|---|
| Luks.Config.constructor | internal/luks/luks.go:17-27 | A new configuration holds the given settings and an empty password (`Password` is never read from YAML). |
| LuksSpec.PasswordInput | internal/luks/luks.go:333-346 | The bytes piped to a command are the password, followed by exactly one newline byte when one is asked for, and nothing else. |
| LuksSpec.CrypttabLineShape | internal/luks/luks.go:475-481 | The crypttab entry is `<mapper> <volume> none luks,keyscript=/usr/local/bin/tpm-luks-keyscript.sh` in TPM mode and `<mapper> <volume> <keyfile> luks` otherwise. |
| LuksSpec.CrypttabFields | internal/luks/luks.go:475-481 | For space-free names, splitting the crypttab entry on spaces gives exactly the four crypttab fields: target, source, key file ("none" in TPM mode) and options. |
| LuksSpec.FstabLineShape | internal/luks/luks.go:495-496 | The fstab entry is `UUID=<uuid> <mountpoint> ext4 defaults,nofail,x-systemd.requires=cryptsetup@<mapper>.service 0 2`. |
| LuksSpec.FstabFields | internal/luks/luks.go:495-496 | For space-free arguments, splitting the fstab entry gives exactly its six fields, the last two being "0" and "2". |
| LuksSpec.GenerateLUKSKeyBound | internal/luks/luks.go:405-409 | A key length of 8 or less is refused before any command is issued, and every key produced has a requested length above 8. |
| LuksSpec.GenerateLUKSKeyFallback | internal/luks/luks.go:411-428 | Key generation asks tpm2_getrandom only when the TPM device is present. It succeeds if and only if the TPM answered or crypto/rand did not fail. A failed or absent TPM falls back to crypto/rand, which yields exactly `length` bytes. |
| LuksSpec.StorePasswordInTPMBound | internal/luks/luks.go:349-355 | A password outside 1..64 bytes is refused with no TPM command issued, and only such a password is. |
| LuksSpec.StorePasswordInTPMWrites | internal/luks/luks.go:357-375 | The NV index is defined first, with `--size` equal to the password length. The write is issued if and only if the define succeeded, and carries the password with no trailing newline. On success the slot holds the password. |
| LuksSpec.CreateLUKSVolumeSize | internal/luks/luks.go:109-139 | A size outside 1..64 MiB is refused with no file or TPM step. Inside the range the first step creates the image's directory; once the directory and file can be created, the first three steps are mkdir, create and truncate. Every truncate issued cuts the image to exactly sizeMB·1024·1024 bytes, which fits a signed 64-bit length. |
| LuksSpec.CreateLUKSVolumeEscrowSurvivesFormat | internal/luks/luks.go:109-139 | In TPM mode, once luksFormat is issued, the NV slot holds the password whatever luksFormat returns: a failed format leaves the secret retrievable. |
| LuksSpec.CreateLUKSVolumeEscrowsFirst | internal/luks/luks.go:109-139 | When luksFormat is reached, the steps were exactly mkdir, create and truncate; then, in TPM mode, undefine, define and write; then luksFormat. Every file step and TPM store step before it succeeded. |
| LuksSpec.CreateLUKSVolumeStoreFailureAborts | internal/luks/luks.go:128-130 | A failed TPM store is the result of the creation, and luksFormat is never issued. |
| LuksSpec.CreateLUKSVolumeIgnoresUndefine | internal/luks/luks.go:123-126 | Whether the initial tpm2_nvundefine succeeds changes neither the commands issued nor the result. |
| LuksSpec.CreateLUKSVolumeFormats | internal/luks/luks.go:133-138 | A successful creation issued luksFormat with the given password and had a size within 1..64. |
| LuksSpec.OpenLUKSVolumeClosesFirst | internal/luks/luks.go:144-153 | luksClose is issued if and only if the mapping already exists, and then as the first step. If it fails, nothing else is issued and the password is unchanged. |
| LuksSpec.OpenLUKSVolumePassword | internal/luks/luks.go:155-166 | luksOpen receives the password plus one newline on stdin. In TPM mode that password is the TPM read of `PasswordLength` bytes and overwrites `cfg.Password`. The commands are exactly the optional close, the optional read and the open. |
| LuksSpec.OpenLUKSVolumeActivates | internal/luks/luks.go:165-171 | After a successful open, the mapper name is active. |
| LuksSpec.OpenLUKSVolumeEndsWithOpen | internal/luks/luks.go:165-171 | A successful open ends with a successful luksOpen fed the final password and a newline. |
| LuksSpec.MountLUKSVolumeOrder | internal/luks/luks.go:218-240 | The mount point is created first. The mount is issued if and only if that succeeded. Any chown is for exactly `user:group`. With an empty user or group, no chown is issued and the call fails. |
| LuksSpec.MountLUKSVolumeOwnerLate | internal/luks/luks.go:224-233 | The missing owner is detected only after mounting, so that error leaves the volume mounted. |
| LuksSpec.MountLUKSVolumeSuccess | internal/luks/luks.go:218-240 | A successful mount issued exactly mkdir, mount and chown, with a non-empty user and group. |
| LuksSpec.MountLUKSVolumeMounts | internal/luks/luks.go:218-240 | After a successful mount the world is the old one with the mount point created and mounted to the mapper, and nothing else changed. |
| LuksSpec.UnmountLUKSVolumeRetry | internal/luks/luks.go:243-256 | The call fails if and only if both the plain and the lazy unmount fail. On success the mount point is no longer mounted. |
| LuksSpec.UnmountLUKSVolumeLazyAfterFailure | internal/luks/luks.go:243-256 | The plain unmount always comes first. The lazy unmount is issued, as the second and last command, if and only if the plain one failed. |
| LuksSpec.UnmountAndCloseLUKSVolumeBestEffort | internal/luks/luks.go:90-106 | Unmounting and closing always returns nil. luksClose is issued whatever the unmount did. The world ends exactly as `UnmountedAndClosed` says: each step that worked took effect, and nothing else changed. |
| LuksSpec.RemoveLUKSVolumeBestEffort | internal/luks/luks.go:188-215 | Teardown always returns nil. It issues unmount, luksClose, the two removals and, in TPM mode only, tpm2_nvundefine, in that order. The world ends exactly as `TornDown` says: each step that worked took effect whatever the others did, and the tables are untouched. |
| LuksSpec.TeardownIgnoresFailures | internal/luks/luks.go:188-215 | Both teardowns issue the same commands under any two outcomes that agree on the plain unmount. No failure of a later step stops or adds a step. |
| LuksSpec.RemoveLUKSVolumeClears | internal/luks/luks.go:188-215 | When every teardown step succeeds, the mapper is closed, the mount point is unmounted, and the mount directory and image are gone. The NV slot is erased in TPM mode and left alone in key-file mode. The tables are unchanged. |
| LuksSpec.IsLUKSMountedTrims | internal/luks/luks.go:452-461 | White space around lsblk's answer is ignored. A mount point that itself starts or ends with white space is never reported as mounted. |
| LuksSpec.GetFilesystemUUIDRun | internal/luks/luks.go:529-543 | blkid is the only command. The UUID is returned if and only if blkid succeeds with non-blank output, and it is then non-empty and trimmed. |
| LuksSpec.AddPersistentMountGuard | internal/luks/luks.go:466-472 | Unless lsblk reports the volume mounted at its mount point, only lsblk is issued, the call fails and the world is unchanged. |
| LuksSpec.AddPersistentMountCrypttabFails | internal/luks/luks.go:474-485 | If appending the crypttab entry fails, blkid is never issued and both tables are unchanged. |
| LuksSpec.AddPersistentMountNoUuid | internal/luks/luks.go:487-492 | The UUID is resolved only after the crypttab entry is appended. Without a UUID the call fails, leaving that entry in place and fstab unchanged. |
| LuksSpec.AddPersistentMountSuccess | internal/luks/luks.go:464-503 | A success issued lsblk, the crypttab append, blkid and the fstab append, in that order. The new world is the old one with exactly one line added at the end of each table. |
| LuksSpec.AppendToFileKeepsText | internal/luks/luks.go:599-611 | A successful append keeps the table's earlier text and adds the line and a newline at its end. |
| LuksSpec.RemoveLineFromFstab | internal/luks/luks.go:545-596 | After the filter, fstab holds the lines without the token, in order, if the rewrite succeeded, and is untouched otherwise. |
| LuksSpec.RemoveLineFromCrypttab | internal/luks/luks.go:545-596 | The same for crypttab. |
| LuksSpec.RemovePersistentMountGuard | internal/luks/luks.go:508-514 | Unless lsblk reports the volume not mounted, only lsblk is issued, the call fails and the world is unchanged. |
| LuksSpec.RemovePersistentMountSteps | internal/luks/luks.go:516-526 | After the guard, fstab is filtered by the mount point and then crypttab by the mapper name. A failed fstab step aborts before crypttab. |
| LuksSpec.RemovePersistentMountTables | internal/luks/luks.go:506-527 | On success, exactly the fstab lines containing the mount point and the crypttab lines containing the mapper name are gone. A failure leaves fstab filtered or nothing changed, according to the failing step. |
| LuksSpec.RemovePersistentMountIdempotent | internal/luks/luks.go:506-527 | Removing the persistent mount a second time changes nothing more. |
| LuksSpec.RemoveUndoesAddCrypttab | internal/luks/luks.go:522 | Filtering crypttab by the mapper name removes the entry that AddPersistentMount appended and keeps the rest as it was. |
| LuksSpec.RemoveUndoesAddFstab | internal/luks/luks.go:517 | Filtering fstab by the mount point removes the entry that AddPersistentMount appended and keeps the rest as it was. |
| LuksSpec.CrypttabFilterIsSubstring | internal/luks/luks.go:569 | A token that is a prefix of "luks" matches every crypttab entry of the shape this tool writes (`CrypttabLine`), whatever its mapper. |
| LuksSpec.SetupLUKSVolumeSteps | internal/luks/luks.go:60-85 | A successful setup ran key generation, creation, open, mkfs and mount in that order, each succeeding. `cfg.Password` ends up as the password the open used. |
| LuksSpec.SetupLUKSVolumeOrder | internal/luks/luks.go:45-88 | A successful setup had a size within 1..64, a key length above 8 and a user and group. It formatted the image with the generated key, and its last five steps are luksOpen, mkfs.ext4, mkdir, mount and chown. |
| LuksSpec.SetupLUKSVolumeEndState | internal/luks/luks.go:45-88 | After a successful setup the mapping is active, the mount point exists and it is mounted to that mapping. |
| LuksSpec.SetupLUKSVolumeTpmGate | internal/luks/luks.go:51-58 | In TPM mode an absent TPM device stops the setup before any command, with cfg.Password untouched. No other failure is reported as an unavailable TPM (if and only if). |
| LuksSpec.SetupLUKSVolumeProbeGoesOn | internal/luks/luks.go:51-62 | In key-file mode, or with a TPM present or a failed probe (only logged), the setup goes on to key generation, whose commands come first. A failed key generation is returned as is, with the configuration's password untouched; otherwise the create commands for the generated key follow directly. |
| LuksHost.Host.StorePasswordInTPM | internal/luks/luks.go:349-376 | Issues exactly the bound-checked define/write sequence and returns its result. |
| LuksHost.Host.RemovePasswordFromTPM | internal/luks/luks.go:379-385 | Issues tpm2_nvundefine and reports its status. |
| LuksHost.Host.RetrievePasswordFromTPM | internal/luks/luks.go:388-401 | Issues tpm2_nvread for the requested size and returns what it printed. |
| LuksHost.Host.GetRandomBytesFromTPM2 | internal/luks/luks.go:432-450 | Issues tpm2_getrandom and returns the decoded bytes, or an error when the command or the hex decoding fails. |
| LuksHost.Host.GenerateLUKSKey | internal/luks/luks.go:405-429 | Issues the commands of the key-generation run and returns its key. The crypto/rand fallback fills a `length`-byte buffer in a loop. |
| LuksHost.Host.CryptoRandRead | internal/luks/luks.go:423-424 | The crypto/rand fallback fills a fresh buffer of exactly `length` bytes, byte i being the i-th byte crypto/rand yields. |
| LuksHost.Host.CreateSparseFile | internal/luks/luks.go:269-294 | Issues mkdir of the parent, create and truncate to sizeMB MiB, stopping at the first failure. |
| LuksHost.Host.LuksFormatImage | internal/luks/luks.go:297-330 | Issues luksFormat with the password as key and reports its status. |
| LuksHost.Host.CreateLUKSVolume | internal/luks/luks.go:109-139 | Issues exactly the commands of the creation run (bound, sparse file, TPM escrow, format) and returns its result. |
| LuksHost.Host.OpenLUKSVolume | internal/luks/luks.go:142-172 | Issues the commands of the open run from the current world, returns its result and leaves in `cfg.Password` the password that run used. |
| LuksHost.Host.FormatLUKSVolume | internal/luks/luks.go:175-185 | Issues mkfs.ext4 on the mapper and reports its status. |
| LuksHost.Host.MountLUKSVolume | internal/luks/luks.go:218-240 | Issues the commands of the mount run and returns its result. |
| LuksHost.Host.UnmountLUKSVolume | internal/luks/luks.go:243-256 | Issues umount, then umount -l only after a failure, and returns the run's result. |
| LuksHost.Host.CloseLUKSVolume | internal/luks/luks.go:259-266 | Issues luksClose and reports its status. |
| LuksHost.Host.SetupLUKSVolume | internal/luks/luks.go:45-88 | A nil configuration fails with no command. Otherwise the method issues the commands of the setup run, returns its result and leaves the run's password in `cfg.Password`. |
| LuksHost.Host.UnmountAndCloseLUKSVolume | internal/luks/luks.go:90-106 | A nil configuration fails with no command. Otherwise the method attempts both the unmount and the close and always succeeds. |
| LuksHost.Host.RemoveLUKSVolume | internal/luks/luks.go:188-215 | Attempts unmount, close, removal of the mount directory, removal of the image and, in TPM mode, the undefine, each whatever came before. Always succeeds. |
| LuksHost.Host.IsLUKSMounted | internal/luks/luks.go:452-461 | Issues lsblk, answers whether its trimmed output is the mount point, and leaves the world unchanged. |
| LuksHost.Host.GetFilesystemUUID | internal/luks/luks.go:529-543 | Issues blkid, returns the trimmed non-empty UUID or an error, and leaves the world unchanged. |
| LuksHost.Host.AppendToFile | internal/luks/luks.go:599-611 | On success, the table is its old lines plus the new one and nothing else in the world changed. On failure, nothing changed. |
| LuksHost.Host.RemoveLineFromFile | internal/luks/luks.go:545-596 | The scan loop keeps exactly the lines that do not contain the token. On success, the table is those lines in their original order. On failure, nothing changed. |
| LuksHost.Host.AddPersistentMount | internal/luks/luks.go:464-503 | Issues the commands of the add run (guard, crypttab append, blkid, fstab append) and returns its result. |
| LuksHost.Host.RemovePersistentMount | internal/luks/luks.go:506-527 | Issues the commands of the remove run (guard, fstab filter, crypttab filter) and returns its result. |
| Strings.TrimSpaceOfPadded | internal/luks/luks.go:460 | Trimming text made of white space, a trimmed core and white space gives back exactly the core. |
| Strings.TrimSpaceIsSlice | internal/luks/luks.go:538 | The trimmed text is a contiguous slice of the input, with only white space cut from either end. |
| Strings.TrimLeftCutsSpace | internal/luks/luks.go:460 | What trimming the front removes is all white space. |
| Strings.TrimRightCutsSpace | internal/luks/luks.go:460 | What trimming the back removes is all white space. |
| Strings.TrimSpaceIdempotent | internal/luks/luks.go:538 | Trimming twice is trimming once. |
| Strings.WithoutMembers | internal/luks/luks.go:567-574 | A line survives the filter if and only if it was in the input and does not contain the token. |
| Strings.WithoutAppend | internal/luks/luks.go:567-574 | The filter works line by line: filtering a concatenation is concatenating the filtered parts, so order is kept. |
| Strings.WithoutClean | internal/luks/luks.go:567-574 | Lines that do not contain the token are all kept unchanged. |
| Strings.WithoutIdempotent | internal/luks/luks.go:567-574 | Filtering twice by the same token is filtering once. |
| Strings.TextAppend | internal/luks/luks.go:570 | The text of newline-terminated lines is the text of the first lines followed by the text of the rest. |
| Strings.SplitJoin | internal/luks/luks.go:477-480 | Joining space-free fields with single spaces and splitting the result on spaces gives back the fields. |
| Config.FirstMissingIsFirst | internal/config/parse.go:136-150 | The reported field is the first missing one in the order VolumePath, MapperName, MountPoint, PasswordLength, Size. Nothing is reported if and only if none is missing. Numbers are missing only when 0. |
| Config.RootDefault | internal/config/parse.go:151-156 | The default is never empty, and a given name is kept. |
| Config.ValidatedDefaults | internal/config/parse.go:151-157 | A failed validation changes nothing. A successful one only sets an empty user or group to "root". |
| Config.ValidatedIdempotent | internal/config/parse.go:134-158 | Validating settings that already passed returns nil and changes nothing. |
| Config.AppConfig.constructor | internal/config/config.go:14-19 | A new configuration holds the given LUKS settings and no optional values. |
| Config.AppConfig.Validate | internal/config/parse.go:134-158 | Returns the first missing field, and writes the root defaults into the shared LUKS record only when none is missing. |
| Config.BootstrapToken.Validate | internal/config/parse.go:99-107 | The token id is checked before the version, and the token is valid if and only if both are non-empty. |
| Config.ParseCommandLineExits | internal/config/parse.go:29-45 | The program exits if and only if one of three things holds. Without --config, either the executable cannot be located (the exit inside getCurrentDirectory, parse.go:161-166) or it can but `os.Stat` reports that config.yml next to it does not exist (any other Stat error goes on with that path). Or --authorize comes without --keyfile. Each exit reason holds exactly under its own condition. |
| Config.ParseCommandLinePrecedence | internal/config/parse.go:39-60 | The command is the first of authorize, deauthorize, mount, unmount, addPersistentMount and removePersistentMount whose flag is set, and "help" if and only if none is. |
| Config.ParseCommandLineFields | internal/config/parse.go:46-64 | The configuration path (given or default) and the key file are copied into every command. The bootstrap path is copied only into authorize, which always has a key file. |
| Password.GeneratePassword | cmd/udm/utils.go:9-29 | A length outside 1..64 gives "" and the length error, and only such a length does. A failed draw gives "" and the random error. Otherwise the password has exactly `length` characters, the i-th being the charset entry of the i-th draw. Every character is from the charset. |
| Password.DrawnInCharset | cmd/udm/utils.go:15-25 | A password built from draws into the charset contains only charset characters. |

## Left out

- Processes and pipes:
  - `exec.Command`, stdout/stderr capture and the pipe goroutine of `createPasswordInput` are not modelled as processes.
  - Each command is one `Cmd` whose success and output come from the oracle.
  - Only the bytes written to the pipe are modelled.
- The oracle is fixed for the lifetime of a `Host`. A command's outcome depends on the command, not on when it is issued. So what the world's state says is never read back:
  - what tpm2_nvread prints (`nvData`) is not tied to the NV slot (`State.nvSlot`) that tpm2_nvdefine/nvwrite/nvundefine change;
  - what lsblk prints is not tied to the mounts (`State.mounts`) that mount and umount change;
  - `nvSlot` and `mounts` are written but never consulted, and no property ties the key luksOpen receives in TPM mode to the key that was escrowed and formatted.
- `NvDefine(index, size)` leaves out tpm2_nvdefine's fixed `--attributes=ownerread|ownerwrite|authread|authwrite` argument. It is the same on every call, and the model does not model TPM access control.
- LuksHost.Host.RemoveLUKSVolume: takes a non-null `Config`. Go's `RemoveLUKSVolume` (internal/luks/luks.go:188) dereferences its configuration with no nil check and panics on nil. The model does not represent that panic.
- LuksHost.Host.OpenLUKSVolume: takes a non-null `Config`. Go's `OpenLUKSVolume` (internal/luks/luks.go:142) dereferences its configuration with no nil check and panics on nil. The model does not represent that panic.
- LuksHost.Host.MountLUKSVolume: takes a non-null `Config`. Go's `MountLUKSVolume` (internal/luks/luks.go:218) dereferences its configuration with no nil check and panics on nil. The model does not represent that panic.
- LuksHost.Host.IsLUKSMounted: takes a non-null `Config`. Go's `isLUKSMounted` (internal/luks/luks.go:452) dereferences its configuration with no nil check and panics on nil. The model does not represent that panic.
- LuksHost.Host.AddPersistentMount: takes a non-null `Config`. Go's `AddPersistentMount` (internal/luks/luks.go:464) dereferences its configuration with no nil check and panics on nil. The model does not represent that panic.
- LuksHost.Host.RemovePersistentMount: takes a non-null `Config`. Go's `RemovePersistentMount` (internal/luks/luks.go:506) dereferences its configuration with no nil check and panics on nil. The model does not represent that panic.
- `luksFormat`'s temporary key file is one `LuksFormat(path, key)` step. Its creation, write, close and removal are not modelled.
- `checkTPM2Availability` is the oracle's `tpmDevice` probe:
  - `ProbeFailed` is the stat error that is only logged.
  - `SetupLUKSVolume` continues after it.
- Randomness is read from the oracle: crypto/rand's bytes, the hex output of tpm2_getrandom and `rand.Int`'s draws. The hex decoding is the oracle's `randomHex`.
- LuksHost.Host.GetRandomBytesFromTPM2: the key length the TPM returns is not checked against the request, as in the source.
- `log.Fatalf` in `SetupLUKSVolume` is not a process exit. The model returns the failing step's error.
- Error wrapping and message texts are flattened into the `Error` datatype. `Failed(c)` names the step that failed.
- Console output (`fmt.Println`, `log.Printf`) is left out.
- Tables are sequences of lines without their "\n". `AppendLine` assumes the appended content is one line.
  - A table file that does not end in "\n", or that has CRLF line ends, has no representation.
  - On such a file Go's `appendToFile` glues the new entry onto the last line, so a later `removeLineFromFile` by either name deletes both entries.
  - `removeLineFromFile`'s scanner also drops a "\r" before each "\n" and ends the rewritten file with "\n".
- LuksSpec.AppendToFileKeepsText, LuksSpec.RemoveUndoesAddCrypttab and LuksSpec.RemoveUndoesAddFstab: these hold only for table files whose every line, the last included, ends in "\n".
- The separate I/O errors of `removeLineFromFile` are all one failed `ReplaceTable` step, which leaves the table untouched. A failed `os.Open` is the failed `ReadTable` step.
  - That covers temp-file creation, write, scan, flush, close and rename.
  - The temp file is not modelled.
- The `/dev/mapper/<name>` stat in `OpenLUKSVolume` is `name in mappers`.
- `os.RemoveAll` and `os.Remove` both just delete the path from `paths`. Contents of directories are not modelled.
- LuksSpec.Dir: `filepath.Dir` is modelled for cleaned paths only (no `.`/`..` handling).
- Strings.TrimSpace works on characters, not UTF-8 bytes.
- `LoadBootstrap`, `LoadConfig`, YAML decoding, the environment lookup and the `flag` package are left out. `ParseCommandLine` is modelled from the parsed flags on.
- The `os.Exit` paths of `ParseCommandLine` are the `Exited` outcome, including the one in `getCurrentDirectory` when `os.Executable` fails. Whether the executable was found, the default config path next to it and whether `os.Stat` did not report `config.yml` as not existing are parameters.
- `AppConfig` embeds the LUKS record by value. The model shares a `Luks.Config` reference; only `Validate` writes through it.
- `cmd/udm/main.go` and `internal/luks/luks_test.go` are not part of this model: the first is signal-handling glue, and the second needs real devices.
- Integers are unbounded. `int64(sizeMB) * 1024 * 1024` cannot overflow within the accepted 1..64 range, so no wrap-around is modelled.
