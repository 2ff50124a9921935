# libteal core, modelled in Dafny

libteal is a small Python toolkit for writing shell-script replacements. This
project models its core and proves what the code promises:

- **parse_time.py**: `TimeParser`. Its unit table is `DEFAULT_UNIT_MAP` and its colon weights are `COLONS`.
  - `get_seconds` scans a time string such as `"1h 30m"`, `"4 4"` or `"5:12:05:02 1d"` once, character by character, with a small state machine.
  - `resolve_unit` looks a unit up in the table.
  - `add_unit` and `del_unit` edit the table.
- **size.py**: `DataSize`.
  - `parse_size` reads strings such as `"125.2 K"` or `"4 GiB"` into whole bytes. A capital K means Ki, bits round up to whole bytes, and an unknown prefix is ignored.
  - `human_size` picks an IEC or SI prefix automatically, or a forced one.
  - The module functions `get_size` and `human_size` wrap these two.
- **filetest.py**: `test_file_mode` decides read, write and execute permission the way a shell does. Root has special rules; otherwise the owner's bits, the group's bits (effective or supplementary) or the other bits apply. `is_readable`, `is_writable` and `is_executable` are built on it.
- **peek_reader.py**: `PeekReader`, a cursor that reads a descriptor with `pread` at its own position. Its operations are `read`, `read_to` (which takes a size and a sentinel), `readline`, `seek` and `tell`.
- **pipeline.py**: `Pipeline`, a chain of subprocesses.
  - The constructor merges the environment.
  - `append` applies the per-command fallbacks and the `PIPE_*` wiring.
  - `launch` spawns each command reading its predecessor's stdout or stderr, and closes the parent's copy of that pipe end.
  - `is_running`, `poll`, `wait`, `send_signal`, `terminate` and `kill` act on the launched processes.
- **subpipe.py**: a second pipeline, left unfinished. It is modelled as written, defects included.
  - `__init__` raises `NameError`.
  - Each command's stream selector is overwritten with `None`.
  - `launch` never remembers the previous command, so no command reads another's output and nothing is closed.
  - `poll` folds the exit codes into one, and `wait` returns as soon as that fold is not `None`.
  - `subpipe()` is a stub.
- **lockfile.py**: `PIDLock`, a single-instance lock that writes the holder's pid to a lock file. `check_lock` clears stale locks, and `lock` and `unlock` are built on it.

Modelling choices:

- **Python values.**
  - Python floats are exact reals.
  - Strings are `seq<char>`, and bytes are a `byte` newtype.
  - Python dicts that are iterated in order are sequences of pairs. Where the source compares two such dicts, the model compares the maps they denote (`Size.Dict`), so order does not matter.
- **Side effects become state.** The operating system is a `Processes.System` object:
  - a process table (pid to `None` while running, or the exit code);
  - the exit code each process will end with;
  - an ordered log of what the parent asked for: spawns with their wiring, pipe ends closed, and signals.
- **Stateful source becomes imperative code.**
  - `TimeParser`, `DataSize`, `PeekReader`, both `Pipeline` classes and `PIDLock` are classes whose methods update their fields.
  - Each such method is proved against a functional specification, and the lemmas about it state what the source promises.

## Model

| member | source | states |
|---|---|---|
| `ParseTime.UnitConstants` | libteal/parse_time.py:26-35 | Each unit constant is the number of days, hours, minutes or seconds its name says: a leap year is 366 days, a workweek 5 days, an hour 60 minutes. |
| `ParseTime.Resolve` | libteal/parse_time.py:79-91 | A unit resolves exactly when it is in the table, to its entry; otherwise the result is the unknown-unit ValueError. |
| `ParseTime.Seconds` | libteal/parse_time.py:136-138 | A string with more colons than COLONS has entries is refused before any scanning. |
| `ParseTime.TimeParser.constructor` | libteal/parse_time.py:75-77 | A new parser starts from a copy of DEFAULT_UNIT_MAP. |
| `ParseTime.TimeParser.ScanChar` | libteal/parse_time.py:143-181 | One pass of the loop body over a character: the branches for digit, dot, colon, whitespace, unit start, unit letter and unit end, and the errors each can raise. |
| `ParseTime.TimeParser.GetSeconds` | libteal/parse_time.py:93-197 | get_seconds: checks the colon count, runs the loop over the lower-cased string, then resolves a trailing unit or adds a trailing number. |
| `ParseTime.TimeParser.AddUnit` | libteal/parse_time.py:199-216 | The new unit is worth get_seconds of its spec, and overrides any old entry. A spec get_seconds rejects raises its error and leaves the table unchanged. |
| `ParseTime.TimeParser.DelUnit` | libteal/parse_time.py:218-224 | Removes exactly that unit. A missing unit is a KeyError, and the table is unchanged. |
| `TimeTheorems.DefaultDay` | libteal/parse_time.py:38-69 | The default table maps "d" to 86400 seconds. |
| `TimeTheorems.Meaning` | libteal/parse_time.py:100-197 | For every well-formed time expression, get_seconds of its rendering is its denotation. Quantities separated by a space, or written straight after a unit when they start with a digit ("1h30m"), add up. Colon fields are weighted by COLONS from the position the colon count fixes. A unit, right after the last field or after one space ("2 weeks"), scales that field. An unknown unit is the ValueError, and so are more than four colons. |
| `TimeMeaning.GlueValue` | libteal/parse_time.py:174-183 | A digit straight after a unit word resolves the unit (or raises its ValueError) and starts the next number, just as a space and then the digit would. |
| `TimeTheorems.FourFour` | libteal/parse_time.py:122-123 | "4 4" yields 8 seconds. |
| `TimeTheorems.MixedExample` | libteal/parse_time.py:118-120 | "5:12:05:02 1d" is 6 days, 12 hours, 5 minutes and 2 seconds. |
| `TimeTheorems.IgnoresCase` | libteal/parse_time.py:142 | The string is lower-cased before scanning, so get_seconds of a string and of its lower-case form agree. |
| `TimeTheorems.TwoWeeksExample` | libteal/parse_time.py:229 | "2 weeks", the spec the module's demo passes to add_unit, is two weeks of seconds: a space between the number and its unit is allowed. |
| `TimeTheorems.HourAndHalfExample` | libteal/parse_time.py:174-183 | "1h30m" is an hour and 30 minutes: no space is needed between a unit and the next number. |
| `TimeTheorems.AddedUnitUsable` | libteal/parse_time.py:199-216 | A unit added under a lower-case name can be used at once: "1" followed by its name is worth its value. |
| `TimeTheorems.NoColonIndex` | libteal/parse_time.py:136-141 | The colon count checked before the loop keeps every colons[colon] access in range, so get_seconds never raises IndexError. |
| `TimeFindings.LeadingSpaceSplitsNumber` | libteal/parse_time.py:164-165 | As written, " 12" is read as 1 + 2 = 3 seconds, whatever the unit table. |
| `TimeFindings.CorrectedStepInvariant` | libteal/parse_time.py:143-181 | The corrected loop body differs from the original only on whitespace with nothing pending. It keeps space_mode set only while a number is pending. |
| `TimeFindings.CorrectedLeadingSpace` | libteal/parse_time.py:164-165 | With the correction, leading whitespace does not change the result. |
| `TimeFindings.CorrectedTwelve` | libteal/parse_time.py:164-165 | With the correction, " 12" is 12 seconds. |
| `Size.Lookup` | libteal/size.py:167-169 | `key in table` holds exactly when some entry has that name, and `table[key]` is that entry's exponent. |
| `Size.DataSize.constructor` | libteal/size.py:55-61 | A DataSize holds its start size. |
| `Size.DataSize.ParseSize` | libteal/size.py:63-138 | parse_size: the loop over the characters, then the b/B/o marker, the capital-K rule, the IEC or SI scaling, the truncation to int and the rounding of bits up to bytes. The result is stored and returned. |
| `Size.DataSize.HumanSize` | libteal/size.py:140-194 | human_size: the base and suffix of the table and unit, then the forced or automatic prefix with its divisor, the exact bit count for base-unit bits, and the joined text. |
| `Size.GetSize` | libteal/size.py:217-221 | get_size is parse_size on a fresh DataSize. |
| `Size.HumanSizeOf` | libteal/size.py:199-214 | The module human_size as written: force is not passed on, so the prefix is always chosen automatically. |
| `Size.CorrectedHumanSizeOf` | libteal/size.py:199-214 | The module human_size as its docstring describes it, with force passed on. |
| `SizeProperties.FloatNeverRaises` | libteal/size.py:78-117 | After the loop the accumulator is empty or a well-formed numeral: digits first, at most one dot. So float(accumulator) never raises. |
| `SizeProperties.SkipsLeading` | libteal/size.py:78-89 | Every character before the first digit is skipped, including '-' and '.'. |
| `SizeProperties.NoDigitsZero` | libteal/size.py:114-117 | A string without digits is worth 0 bytes. |
| `SizeProperties.ScanWord` | libteal/size.py:90-95 | Once the prefix has started, letters extend it and the first non-letter ends the scan. |
| `SizeProperties.SpaceThenWord` | libteal/size.py:82-88 | Whitespace between the number and the prefix is skipped. |
| `SizeProperties.ParseScaled` | libteal/size.py:63-138 | "num w", where num is a decimal numeral (a digit first, at most one dot) and w names a known prefix worth m, is num·m truncated toward zero by int(), in bytes. With a bit marker it is that many bits, rounded up to bytes. |
| `SizeProperties.ParseUnscaled` | libteal/size.py:63-138 | "num w", where num is a decimal numeral and w names no known prefix, is num truncated toward zero by int(), in bytes. With a bit marker it is that many bits, rounded up to bytes. |
| `SizeProperties.WholeScaled` | libteal/size.py:63-138 | For a whole number n written in decimal, "n w" with a known prefix worth m is n·m bytes, or n·m bits rounded up to bytes. |
| `SizeProperties.WholeUnscaled` | libteal/size.py:63-138 | For a whole number n written in decimal, "n w" with no known prefix is n bytes, or n bits rounded up to bytes. |
| `SizeProperties.FractionalKibi` | libteal/size.py:68 | The docstring's "125.2 K" is int(125.2 · 1024) = 128204 bytes. |
| `SizeProperties.UnscaledTruncates` | libteal/size.py:126 | "2.5 B" is 2 bytes: int() truncates the fraction. |
| `SizeProperties.IecMultiplier` | libteal/size.py:28-37 | Every IEC prefix is a two-letter word other than K, and parse_size scales by 2 to its exponent. |
| `SizeProperties.SiMultiplier` | libteal/size.py:39-48 | Every SI prefix is a one-letter word other than K, and parse_size scales by 10 to its exponent. |
| `SizeProperties.KibiKilo` | libteal/size.py:108-123 | K and Ki are 1024 and k is 1000. |
| `SizeProperties.CapitalK` | libteal/size.py:108-112 | "n K" is n·1024 bytes. |
| `SizeProperties.Kilo` | libteal/size.py:98-123 | "n kB" is n·1000 bytes, and the B marker is stripped. |
| `SizeProperties.Kibi` | libteal/size.py:98-121 | "n KiB" is n·1024 bytes. |
| `SizeProperties.BitsCeiling` | libteal/size.py:128-135 | Rounding bits up to bytes is the ceiling of n/8. |
| `SizeProperties.BitsRoundUp` | libteal/size.py:98-135 | "n b" is n bits, rounded up to whole bytes. |
| `SizeProperties.UnknownPrefix` | libteal/size.py:119-124 | An unknown prefix is neither an error nor a scale: the number stands as bytes. |
| `SizeProperties.StandardBase` | libteal/size.py:153-154 | The IEC table has base 2 and the SI table base 10. |
| `SizeProperties.DictLookup` | libteal/size.py:153-154 | The dict a table denotes holds a name exactly when Lookup finds it, with the same exponent. |
| `SizeProperties.SameDict` | libteal/size.py:153-154 | Two tables are equal as dicts exactly when every name looks up the same in both. |
| `SizeProperties.BaseByContents` | libteal/size.py:153-154 | A table gets base 10 exactly when it has SI's entries, in any order, and base 2 exactly when some name looks up differently. |
| `SizeProperties.SwappedSi` | libteal/size.py:153-154 | SI with its first two entries swapped still gets base 10, as Python's dict equality ignores order. |
| `SizeDisplay.ForceCases` | libteal/size.py:164-171 | force "" shows base units, and the exact bit count for bits. A forced table entry fixes the prefix and divides by base to its exponent. Any other forced prefix is the ValueError, and only that. |
| `SizeDisplay.FirstBelow` | libteal/size.py:174-180 | The index of the first table entry whose exponent the magnitude is below, with none before it. |
| `SizeDisplay.AutoScanFirst` | libteal/size.py:174-180 | The automatic loop stops at the first entry whose exponent the magnitude is below, and keeps the entry before it. |
| `SizeDisplay.AutoBounds` | libteal/size.py:157-180 | For any non-empty table of named prefixes with exponents above 1, IEC and SI among them, and a positive size, the automatic prefix is empty exactly when the size is below the first power. Otherwise the divisor is at most the size, and the size is below the next power when there is one. |
| `SizeDisplay.NonPositiveUnscaled` | libteal/size.py:157-160 | For any such table, a size of zero or less is always shown in base units. |
| `SizeDisplay.ForcedRoundTrip` | libteal/size.py:140-194 | A size shown with a forced standard prefix, when its quotient is whole, is read back by parse_size as the same size. |
| `SizeDisplay.BitsRoundTrip` | libteal/size.py:184-186 | force "" with bits shows the exact bit count with " b", and parse_size reads it back as the size. |
| `SizeDisplay.BytesShown` | libteal/size.py:164-193 | force "" with bytes shows size/1 with " B". |
| `SizeDisplay.BytesRoundTrip` | libteal/size.py:63-138 | parse_size reads "size.0 B" back as size. |
| `SizeDisplay.ForceDropped` | libteal/size.py:214 | The module human_size(2048, force="") shows "2.0 KiB", where the forced call gives base units. |
| `FileTest.TestFileMode` | libteal/filetest.py:53-147 | An invalid permission is the OSError, and only that. True is only possible for a path that exists and could be probed. |
| `FileTest.IsReadable` | libteal/filetest.py:156-161 | is_readable is test_file_mode(READ). |
| `FileTest.IsWritable` | libteal/filetest.py:163-168 | is_writable is test_file_mode(WRITE). |
| `FileTest.IsExecutable` | libteal/filetest.py:149-154 | is_executable is test_file_mode(EXECUTE). |
| `FileTestTheorems.ModeBitsShifted` | libteal/filetest.py:64-77 | The user, group and other bits chosen for READ, WRITE or EXECUTE are the permission shifted into the user, group and other octal digits. |
| `FileTestTheorems.GroupScanMembership` | libteal/filetest.py:128-135 | The loop over the supplementary groups matches exactly when the file's group is among them, and then the result is the group bit. |
| `FileTestTheorems.DecideMeaning` | libteal/filetest.py:97-141 | For an existing path and any mode bits, the decision is the reference rule. Root reads and writes anything, and executes when any of the three execute bits is set. Otherwise the owner gets the user bit, a member of the file's group the group bit, and anyone else the other bit. |
| `FileTestTheorems.TestFileModeMeaning` | libteal/filetest.py:53-147 | test_file_mode is the OSError for an invalid permission. Otherwise it is True exactly when the path exists, could be probed and the reference rule allows it. |
| `FileTestTheorems.RootReadsAndWrites` | libteal/filetest.py:97-101 | Root can read and write any existing path. |
| `FileTestTheorems.RootExecutes` | libteal/filetest.py:102-107 | Root can execute exactly the paths with at least one execute bit. |
| `FileTestTheorems.OwnerUserBitOnly` | libteal/filetest.py:111-116 | The owner gets exactly the user bit, whatever the group and other bits say. |
| `FileTestTheorems.MemberGroupBitOnly` | libteal/filetest.py:117-141 | A group member who is not the owner gets exactly the group bit. The other bits are not a fallback. |
| `FileTestTheorems.OtherBitOnly` | libteal/filetest.py:137-141 | Anyone else gets exactly the other bit. |
| `FileTestTheorems.NotFoundIsFalse` | libteal/filetest.py:83-84 | A missing path, or a PermissionError while probing it, gives False for all three tests. |
| `PeekReading.Pread` | libteal/peek_reader.py:68 | pread returns at most size bytes, all from the file at the position. It returns some bytes whenever the position is inside the file and size > 0. |
| `PeekReading.FindFrom` | libteal/peek_reader.py:86-87 | The first occurrence of the sentinel in the chunk, or none. This is `sentinel in chunk` and the split point of partition. |
| `PeekReading.SeekTarget` | libteal/peek_reader.py:107-119 | SEEK_CUR moves relative to the position. SEEK_END is relative to the wrapped file's tell(), or to the position for a bare descriptor. Anything else is SEEK_SET. |
| `PeekReading.PeekReader.constructor` | libteal/peek_reader.py:36-49 | A new reader is open at position 0, over a file object or a bare descriptor. |
| `PeekReading.PeekReader.Close` | libteal/peek_reader.py:51-52 | close only sets the flag. The reader is then neither readable nor seekable, and the position is unchanged. |
| `PeekReading.PeekReader.Readable` | libteal/peek_reader.py:63-64 | Readable exactly while open. |
| `PeekReading.PeekReader.Seekable` | libteal/peek_reader.py:121-122 | Seekable exactly while open. |
| `PeekReading.PeekReader.Writable` | libteal/peek_reader.py:127-128 | Never writable. |
| `PeekReading.PeekReader.IsAtty` | libteal/peek_reader.py:60-61 | Never a tty. |
| `PeekReading.PeekReader.Tell` | libteal/peek_reader.py:124-125 | tell is the position. |
| `PeekReading.PeekReader.Read` | libteal/peek_reader.py:66-73 | read is pread at the position, which then moves past the bytes returned. A closed reader raises ValueError and does not move. |
| `PeekReading.PeekReader.ReadTo` | libteal/peek_reader.py:75-99 | read_to runs the loop of chunked reads: it stops at the end of the file, or at the sentinel, putting the bytes after the sentinel back. It is proved against its functional specification. |
| `PeekReading.PeekReader.ReadLine` | libteal/peek_reader.py:101-102 | readline is read_to with the newline sentinel. |
| `PeekReading.PeekReader.Seek` | libteal/peek_reader.py:107-119 | Only the position changes, to the target of offset and whence. |
| `PeekTheorems.SentinelStep` | libteal/peek_reader.py:86-90 | The iteration that finds the sentinel consumes up to and including it, and gives the rest of the chunk back. |
| `PeekTheorems.ChunkStep` | libteal/peek_reader.py:91-95 | An iteration that takes a whole chunk and goes on consumes what the rest of the loop consumes. |
| `PeekTheorems.ReadToConsumes` | libteal/peek_reader.py:75-99 | read_to returns exactly the bytes it moves past, and never more than a non-negative size. |
| `PeekTheorems.ReadToResult` | libteal/peek_reader.py:75-99 | A successful read_to returns data[pos..position], at most size bytes when size >= 0. |
| `PeekTheorems.ReadAll` | libteal/peek_reader.py:75-99 | read_to with no size and no sentinel returns the rest of the file and leaves the position at its end. |
| `PeekTheorems.ReadUpTo` | libteal/peek_reader.py:75-99 | read_to(size) with no sentinel returns the next size bytes, or fewer at the end of the file. |
| `PeekTheorems.LineEnd` | libteal/peek_reader.py:101-102 | Just past the first newline from a position, or the end of the file. |
| `PeekTheorems.OccursByte` | libteal/peek_reader.py:86 | A one-byte sentinel occurs exactly where that byte is. |
| `PeekTheorems.LineInChunk` | libteal/peek_reader.py:86-90 | When the chunk holds a newline, readline stops just after the first one. |
| `PeekTheorems.NoLineInChunk` | libteal/peek_reader.py:91-95 | When the chunk has no newline, readline takes the whole chunk and goes on from the next position. |
| `PeekTheorems.ReadLineMeaning` | libteal/peek_reader.py:101-102 | readline returns the file from the position to just past the next newline, or to the end of the file, and the position moves there. |
| `PeekTheorems.HelloLine` | libteal/peek_reader.py:137-143 | On "Hello\nWorld\n1234\n" from 0, readline returns "Hello\n" and moves to 6. |
| `PeekTheorems.HelloDemo` | libteal/peek_reader.py:140-144 | read, then seek(0), then readline gives "Hello\n", and tell gives 6. |
| `Processes.Overlay` | libteal/pipeline.py:108-110 | The merged environment has the keys of both. Exported values win, and every other key keeps its base value. |
| `Processes.MergeEnv` | libteal/pipeline.py:108-110 | The loop that copies the base environment and writes each export over it computes the overlay. |
| `Processes.RunningFromHolds` | libteal/pipeline.py:217-221 | After n spawns from a first pid, the table holds every earlier process unchanged and the n new ones running, and nothing else. |
| `Processes.SignalLog` | libteal/pipeline.py:290-292 | The signal loop sends at most one signal per command. |
| `Processes.SignalLogExact` | libteal/pipeline.py:290-292 | The signal loop signals exactly the launched handles, with the given signal. |
| `Processes.System.Spawn` | libteal/pipeline.py:217-221 | Popen: a fresh pid, not in the table before, now running. The call is logged with its wiring. |
| `Processes.System.Close` | libteal/pipeline.py:224-228 | Closing a pipe end is logged and changes no process. |
| `Processes.System.Signal` | libteal/pipeline.py:292 | A signal request is logged and changes no process state. |
| `Processes.System.WaitFor` | libteal/pipeline.py:279 | Popen.wait returns the code the process already has, or else the one it exits with, and records it. |
| `Pipelines.Wiring` | libteal/pipeline.py:35-39 | Every mode feeds stream 1 or 2, and the stream it feeds is a PIPE. |
| `Pipelines.Fd` | libteal/pipeline.py:210-214 | Stream 2 reads the predecessor's stderr, and any other value its stdout. |
| `Pipelines.Wired` | libteal/pipeline.py:201-203 | Only the last command changes, to the pipeline's stdout and stderr. |
| `Pipelines.StartedAt` | libteal/pipeline.py:217-221 | After n spawns, each of the first n commands has the handle first + j, and the others are untouched. |
| `Pipelines.StageInput` | libteal/pipeline.py:207-214 | Every command but the first reads the read end of its predecessor's captured stream. |
| `Pipelines.LaunchLog` | libteal/pipeline.py:209-231 | The launch loop makes one spawn per command and one close per command after the first. |
| `Pipelines.Observed` | libteal/pipeline.py:258-262 | A command polls False exactly when it was never launched, and None exactly when its process is running. |
| `Pipelines.SettleFirst` | libteal/pipeline.py:277-281 | Waiting for the commands' processes keeps the same set of known pids; it only records exit codes. |
| `Pipelines.Pipeline.constructor` | libteal/pipeline.py:63-139 | The environment is the base (or the ambient os.environ) overlaid with the exports. The other settings are kept as given, and the command list starts empty. |
| `Pipelines.Pipeline.Append` | libteal/pipeline.py:141-198 | Appends exactly one command. Each setting falls back to the pipeline's, with a negative umask meaning unset. The environment is the overlay of the command's base, or of the pipeline's environment. The streams come from the pipe mode, and the captured stream is a PIPE. Nothing else changes. |
| `Pipelines.Pipeline.Launch` | libteal/pipeline.py:200-233 | The last command's output goes to the pipeline's stdout and stderr. Every command is spawned in order, reading its predecessor's captured stream. The parent's end is closed after each spawn. Each command gets a new running process. |
| `Pipelines.Pipeline.SpawnThenClose` | libteal/pipeline.py:217-228 | One iteration: spawn, then close the predecessor's stream when there is one. |
| `Pipelines.Pipeline.SpawnStages` | libteal/pipeline.py:205-231 | The loop of launch, proved against the launch log, the started commands and the process table. |
| `Pipelines.Pipeline.IsRunning` | libteal/pipeline.py:235-247 | True exactly when some launched command polls None. |
| `Pipelines.Pipeline.Poll` | libteal/pipeline.py:249-265 | One entry per command: False before launch, None while running, otherwise the return code. |
| `Pipelines.Pipeline.Wait` | libteal/pipeline.py:267-284 | Every launched process is waited for in order. Each entry is False or the process's return code, and the table records those codes. |
| `Pipelines.Pipeline.SendSignal` | libteal/pipeline.py:286-292 | The signal goes to every launched command in order, and to nothing else. |
| `Pipelines.Pipeline.Terminate` | libteal/pipeline.py:294-298 | SIGTERM goes to every launched command. |
| `Pipelines.Pipeline.Kill` | libteal/pipeline.py:300-304 | SIGKILL goes to every launched command. |
| `PipelineTheorems.LaunchOrder` | libteal/pipeline.py:205-231 | Command i is spawned at log position 2i-1 (0 for the first). It reads the pipeline's stdin, or the predecessor's stream that stream 2 or 1 selects. The close of that stream is the very next entry. |
| `PipelineTheorems.ReadsCapturedPipe` | libteal/pipeline.py:194-214 | For commands built by append, each command after the first reads a stream its predecessor was spawned with as PIPE. |
| `PipelineTheorems.LaunchedDistinct` | libteal/pipeline.py:217-221 | Launch gives each command its own new process: the handles are distinct and none was in the table before. |
| `PipelineTheorems.RunningAfterLaunch` | libteal/pipeline.py:235-262 | Right after launch every command polls None, so is_running holds for a non-empty pipeline. |
| `PipelineTheorems.PollAfterWait` | libteal/pipeline.py:249-284 | After wait, poll reports for each command exactly what wait returned for it, and nothing is running. |
| `SubPipe.NewCommand` | libteal/subpipe.py:45-66 | The command keeps its arguments, cwd, env and text. Its streams come from the pipe mode, and it inherits stdin. The stream selector ends as None, because line 66 overwrites it. |
| `SubPipe.InitAsWritten` | libteal/subpipe.py:72-78 | The constructor as written always fails with NameError on pipe_stdin. |
| `SubPipe.BuildEnv` | libteal/subpipe.py:92-110 | The environment is a copy of env, or of os.environ when env is None, with export written over it. |
| `SubPipe.Prepared` | libteal/subpipe.py:130-133 | The first command gets the pipeline's stdin. The last gets stdout PIPE and the pipeline's stderr. The others are unchanged. |
| `SubPipe.SubLaunchLog` | libteal/subpipe.py:136-157 | One spawn per command, and nothing else. |
| `SubPipe.SubStartedAt` | libteal/subpipe.py:146-150 | After n spawns, each of the first n commands has the handle first + j. |
| `SubPipe.Codes` | libteal/subpipe.py:164-166 | One poll result per launched command. |
| `SubPipe.FirstFailureMeaning` | libteal/subpipe.py:168-172 | The combined code is 0 exactly when every exit code is 0. Otherwise it is the code at the first non-zero position. |
| `SubPipe.FoldMeaning` | libteal/subpipe.py:162-174 | The fold in poll's loop agrees with the reference from every state the loop can be in: None while nothing has exited, else the first non-zero exit code, else 0. |
| `SubPipe.ScheduleKnown` | libteal/subpipe.py:179-183 | Every table that wait polls again still knows every launched process. |
| `SubPipe.SubPipeline.constructor` | libteal/subpipe.py:72-90 | The constructor with the undefined name corrected: the settings are kept as given, and the command list starts empty. |
| `SubPipe.SubPipeline.Append` | libteal/subpipe.py:112-127 | Appends one command with the cwd and text fallbacks and the env from _build_env. The pipeline's env and export are not used. |
| `SubPipe.SubPipeline.Launch` | libteal/subpipe.py:129-160 | Prepares the first and last commands, then spawns each command with its own stdin, one new running process each. Nothing is closed. |
| `SubPipe.SubPipeline.SpawnEach` | libteal/subpipe.py:136-157 | The loop of launch, proved against the launch log, the started commands and the process table. |
| `SubPipe.SubPipeline.Poll` | libteal/subpipe.py:162-174 | poll returns the reference result: None while nothing has exited, else the first non-zero code, else 0. |
| `SubPipe.SubPipeline.PollOf` | libteal/subpipe.py:163-174 | The loop of poll, over any process table that knows the commands, folds the codes to the reference result. |
| `SubPipe.SubPipeline.WaitOn` | libteal/subpipe.py:176-191 | The loop of wait keeps the process table consistent and the pid counter and launch log unchanged, and returns the first settled poll over the snapshots. |
| `SubPipe.SubPipeline.Wait` | libteal/subpipe.py:176-191 | wait returns the first poll result that is not None, over the process tables it polls in turn. |
| `SubPipe.SubPipeline.SendSignal` | libteal/subpipe.py:193-196 | The signal goes to every launched command in order. |
| `SubPipe.SubPipeline.Terminate` | libteal/subpipe.py:198-201 | SIGTERM goes to every launched command. |
| `SubPipe.SubPipeline.Kill` | libteal/subpipe.py:203-206 | SIGKILL goes to every launched command. |
| `SubPipe.Subpipe` | libteal/subpipe.py:211-221 | The stub builds nothing and returns None. |
| `SubPipeTheorems.SubLaunchLogAt` | libteal/subpipe.py:146-150 | The i-th log entry is the spawn of command i, with pid first + i. |
| `SubPipeTheorems.LaunchUnconnected` | libteal/subpipe.py:129-160 | For commands built by append, the first reads the pipeline's stdin and every later one inherits the parent's stdin. No command reads its predecessor's output. |
| `SubPipeTheorems.NothingClosed` | libteal/subpipe.py:152-157 | Launch closes no pipe end. |
| `SubPipeTheorems.SettledIffExited` | libteal/subpipe.py:162-174 | poll is not None exactly when some launched command has exited. |
| `SubPipeTheorems.ExitsAccumulate` | libteal/subpipe.py:162-174 | As processes exit, the exit codes only accumulate, so once poll has a code it never returns to None. |
| `SubPipeTheorems.FirstFailureWins` | libteal/subpipe.py:168-172 | Codes 0, running, 3, 4 poll as 3. |
| `SubPipeTheorems.SettledNever` | libteal/subpipe.py:176-191 | wait finds nothing exactly when every table it polls shows nothing exited. |
| `SubPipeTheorems.WaitReturnsWhileRunning` | libteal/subpipe.py:176-191 | With the first command done (code 0) and the second still running, wait already returns 0. |
| `PidLocking.PidLock.constructor` | libteal/lockfile.py:42-51 | A lock over a lock file, a process table and this process's pid. |
| `PidLocking.PidLock.CheckLock` | libteal/lockfile.py:53-92 | check_lock as its branches decide. No file, or our own pid, passes. Another pid with no /proc entry, or whose status does not mention python, is stale: it passes and the file is removed. A live python holder fails, and the file stays. |
| `PidLocking.PidLock.Lock` | libteal/lockfile.py:94-115 | On success our pid is in the file and the re-check passes, so the result is True. When the check fails, the result is False and the file is unchanged. |
| `PidLocking.PidLock.Unlock` | libteal/lockfile.py:117-131 | When the check passes, the file is removed and the result is True. Otherwise the result is False and the file is unchanged. |
| `PidLockTheorems.CheckMeaning` | libteal/lockfile.py:53-92 | The check passes exactly when no live python process other than us holds the file. It only keeps or removes the file, and keeps it when it fails or when the file is ours. |
| `PidLockTheorems.StaleRemoved` | libteal/lockfile.py:83-86 | A lock file naming a pid with no /proc entry is stale: the check passes and removes it. |
| `PidLockTheorems.ReusedPidRemoved` | libteal/lockfile.py:73-81 | A pid reused by a process that is not python does not hold the lock: the check passes and removes it. |
| `PidLockTheorems.Exclusive` | libteal/lockfile.py:35-41 | While a live python process holds the lock, every other process fails the check, and the file still names the holder. |
| `PidLockTheorems.LockIdempotent` | libteal/lockfile.py:67-69 | Once we hold the file, the check passes and keeps it, so a second lock succeeds. |
| `PidLockTheorems.LockCycle` | libteal/lockfile.py:94-131 | With no other holder, lock, lock again and unlock all return True, and the file is gone. |

## Left out

- I/O and the operating system are abstract.
  - The contents of files are parameters.
  - The process table and the exit codes processes will end with are parameters.
  - /proc status text is given as a map from pid to text.
  - The operating system records requests in a log; it delivers no real signal and opens no descriptor.
- Python floats are exact reals throughout, and float formatting (str, round) is not modelled.
- Character classes (isdigit, isalpha, isspace, lower) are ASCII only, where Python's are Unicode.
- Size.DataSize.HumanSize: displays the exact quotient as a ratio, not round(..., places), str of a float or `places=-1`.
- Size.DataSize.HumanSize: compares the size against powers of the base (size < base^e) instead of comparing log(size) with e in floating point.
- shlex.split of a string command, in both pipeline modules: commands are given as argument lists.
- Pipelines.Pipeline.constructor: takes its stdin, stdout and stderr as streams. The temporary files for `indata` and PIPE, and the opening of a named file (pipeline.py:113-137), are not modelled.
- SubPipe.SubPipeline.constructor: the stdin_text temporary file (subpipe.py:79-82) is not modelled.
- Pipelines.Pipeline.Wait: the timeout (TimeoutExpired) is not modelled. Blocking is modelled by the exit code the system holds for each process.
- SubPipe.SubPipeline.Wait: the sleep and the timeout (subpipe.py:180-186) are not modelled. The passage of time is the given sequence of later process tables; when the tables run out without an exit, the model returns None where the source would keep polling.
- Pipelines.Pipeline.Launch: Popen always succeeds; a Popen that raises part-way through the loop, leaving earlier commands running, is not modelled.
- Command objects are values in a sequence, so aliasing of a Command held elsewhere is not modelled.
- PeekReading.PeekReader.ReadLine: returns bytes; the UTF-8 decoding of readline is not modelled.
- readlines, fileno and flush of PeekReader are not modelled. They are splitlines over read_to, and two pass-throughs.
- Errors that os.pread raises for a bad descriptor are not modelled.
- The pathlib wrappers and glob of filetest.py (lines 39-51 and 173-331) are not part of this model; they forward to pathlib.
- PidLocking.PidLock.CheckLock: a lock file whose content is not an integer, which makes int() raise ValueError (lockfile.py:65), is not modelled; the file holds a pid or is absent.
- PidLocking.PidLock.Lock: the race between two processes writing the file between the check and the re-check (lockfile.py:97-99) is not modelled. The calls run without interleaving, so the re-check after our own write always passes.
- prompt.py and the ui package are not part of this model. The `__main__` demonstration blocks are not modelled, except for the PeekReader one, whose readline and tell results are stated as lemmas, and the "2 weeks" spec parse_time.py's passes to add_unit.

## Findings

| source | as written | input that shows it | evidently intended | confidence | as-written member | corrected member |
|---|---|---|---|---|---|---|
| libteal/parse_time.py:164-165 | whitespace sets space_mode even when no number is pending, so the next digit after leading (or doubled) whitespace ends the number early | get_seconds(" 12") returns 3.0 (1 + 2) | leading whitespace is ignored; " 12" is 12 seconds | not executed | `TimeFindings.LeadingSpaceSplitsNumber` | `TimeFindings.CorrectedLeadingSpace` |
| libteal/size.py:214 | the module human_size does not pass force on to DataSize.human_size | human_size(2048, force="") gives "2.0 KiB" | "2048.0 B", base units as the docstring says for an empty force | not executed | `SizeDisplay.ForceDropped` | `Size.CorrectedHumanSizeOf` |
| libteal/subpipe.py:78 | `__init__` reads the undefined name pipe_stdin instead of its stdin parameter, so every construction raises NameError | Pipeline() | the pipeline keeps the stdin it was given | not executed | `SubPipe.InitAsWritten` | `SubPipe.SubPipeline.constructor` |
