# jzIntv configuration core in Dafny

This project models the part of jzIntv's start-up configuration (`src/cfg/cfg.c`)
that decides how the emulated Intellivision is put together. It covers:

- **Key bindings.** `cfg_get_evtact` looks an action name up in the event action
  table. `cfg_setbind` seeds the four event maps from the default binding table, then
  overlays the keyboard-hack file. That covers `MAP`, `COMBO_DELAY`, `ADD_COMBO`,
  `key action` lines and every way a line can fail. The event object is a class that
  records the `event_map` and `event_combine` calls made on it. The file loop is a
  method proved equal to a fold (`Overlay`) over the pieces `lzoe_fgets` reads from
  the file: a line of at most 255 characters including its newline is one piece,
  and a longer line arrives as several pieces, each handled as a line of its own.
- **Line tokeniser.** A line is cut at its last `;`, `\r` and `\n`, then split into
  up to four fields of at most 255 characters, with a flag for a fifth word. The
  tokeniser is proved to read the line's white-space separated words, so each file
  line's outcome is stated in terms of its words.
- **Resolution strings.** `cfg_parseres` takes a built-in mode number, `WxH` or
  `WxH,D`. Its `sscanf` scan and every check and error message are modelled.
- **Command-line options.** These are the options modelled as `Opt` values:
  - the graphics flags through `CHG_BIT`, with double-buffering and dirty rectangles
    switching each other off;
  - `-m` (the keyboard map);
  - `-c` (the Intellicart cache policy);
  - `-d` (debugging on);
  - `--gui-mode`, which turns the debugger off.
- **Normalisation before the devices are built:**
  - the INTV2PC port numbers are checked and looked up (`DIRECT_INTV2PC` build);
  - unset ECS and Intellivoice choices are taken from the cartridge database;
  - the audio rate drops to 0 when sound fails to start;
  - the executable's directory is taken from `argv[0]`.
- **Construction and registration.** `cfg_init` decides which devices to construct,
  then registers their address windows on the peripheral bus. The bus is a class whose
  window list `periph_register` appends to. `Assemble` is proved equal to `Layout`.
  Lemmas then state:
  - which devices appear, and under which settings;
  - that every device on the bus was constructed;
  - that the CPU comes first and the debugger last;
  - the STIC's four aliases;
  - what the ECS brings along.

Modules: `Options`, `Seqs`, `Text` (the C library helpers used: `isspace`,
`stricmp`, `atoi`, `strrchr`), `FileLines` (`lzoe_fgets`), `EventActions`, `LineTokenizer`, `FieldWords`,
`TokenizerWords`, `KeyBindings`, `KeyBindingFacts`, `LineFacts`, `Resolution`,
`Settings`, `PeriphBus`, `BusFacts`, `Startup`.

## Model

| member | source | states |
|---|---|---|
| EventActions.ActionIndex | src/cfg/cfg.c:68-79 | the index is the first table entry with the given name, and -1 exactly when no entry has it |
| EventActions.GetEvtAct | src/cfg/cfg.c:68-79 | the search loop returns the first matching entry, or -1 exactly when no entry matches |
| FileLines.Pieces | src/cfg/cfg.c:143 | each `lzoe_fgets` piece holds between 1 and 255 characters |
| FileLines.PiecesCoverText | src/cfg/cfg.c:143 | the pieces laid end to end are the whole file: nothing is lost or read twice |
| FileLines.ShortLinesReadWhole | src/cfg/cfg.c:143 | a file of newline-terminated lines of at most 255 characters each, the newline included, is read exactly line by line |
| FileLines.LongLineSplits | src/cfg/cfg.c:143 | a line with no newline in its first 255 characters is cut there, and its rest is read as the following pieces |
| LineTokenizer.StripLine | src/cfg/cfg.c:151-153 | cutting at the last `;`, `\r` and `\n` leaves a prefix of the line |
| LineTokenizer.Tokenize | src/cfg/cfg.c:159-190 | each of the four fields holds at most 255 characters, and `bad` is 0 exactly when none of them filled its buffer |
| LineTokenizer.SkipBlanks | src/cfg/cfg.c:159-160 | the scan stops at the line with its leading white space removed |
| LineTokenizer.CopyField | src/cfg/cfg.c:162-165 | the copied field is the longest run of non-space characters, capped at 255 |
| LineTokenizer.NextField | src/cfg/cfg.c:160-165 | skipping blanks and copying one field agrees with one step of the field scan, and the position advances past what was read |
| LineTokenizer.SplitLine | src/cfg/cfg.c:151-190 | the in-place tokenising loop yields exactly `Tokenize` of the line |
| TokenizerWords.TokenizeFlagsLongWord | src/cfg/cfg.c:159-185 | a line is flagged as having an over-long argument exactly when one of its first four words has 255 or more characters |
| TokenizerWords.TokenizeReadsFourWords | src/cfg/cfg.c:159-190 | an unflagged line's four fields are its first four words, with blanks for missing ones, and the extra-text flag is set exactly when it has a fifth word |
| LineFacts.TokenizeReadsWords | src/cfg/cfg.c:151-190 | the tokeniser reads the stripped line's words, as above |
| KeyBindings.Event.Map | src/cfg/cfg.c:123-126 | `event_map` records one binding call and changes nothing else |
| KeyBindings.Event.Combine | src/cfg/cfg.c:211-215 | `event_combine` records one combo call and reports refusal exactly when the event object declines it |
| KeyBindings.SeedRow | src/cfg/cfg.c:101-127 | one default row binds each of its four non-empty slots whose action is known, in map order |
| KeyBindings.Seed | src/cfg/cfg.c:94-128 | the default table adds exactly the calls of its rows, in order, and keeps the combo window |
| KeyBindings.ApplyLine | src/cfg/cfg.c:145-279 | the loop body for one line either goes on with the state `Step` gives, or stops with the failure `Step` gives |
| KeyBindings.ApplyFields | src/cfg/cfg.c:192-279 | the checks on a tokenised line, in the source's order, agree with `Decide` |
| KeyBindings.SetBind | src/cfg/cfg.c:84-288 | status, calls and combo window after `cfg_setbind` are those of `SetBindSpec`: seeding; then success without a file, exit for an unopenable file, or the overlay of the pieces `lzoe_fgets` reads from the file, stopping at the first failing one |
| KeyBindingFacts.SeedCallsExactly | src/cfg/cfg.c:94-128 | a call is made by the default table exactly when some row's slot names a known action for that key and map |
| KeyBindingFacts.SeedCallsBound | src/cfg/cfg.c:94-128 | the default table makes at most four calls per row |
| KeyBindingFacts.OverlayAppend | src/cfg/cfg.c:142-280 | applying a file in two parts equals applying the second part from where the first left off, unless the first already failed |
| KeyBindingFacts.DecideExtends | src/cfg/cfg.c:192-279 | one line never withdraws a call and makes at most one |
| KeyBindingFacts.OverlayExtends | src/cfg/cfg.c:142-287 | bindings made before a failing line stay in place: the calls so far are a prefix of the final ones |
| KeyBindingFacts.OverlayKeepsRanges | src/cfg/cfg.c:229-255 | the current map stays within 0..3 and the combo window within 0..0.1 seconds or unchanged |
| KeyBindingFacts.StopsAtFatalLine | src/cfg/cfg.c:142-287 | nothing after the first failing line has any effect |
| LineFacts.BlankLineIgnored | src/cfg/cfg.c:257-266 | a line with no words changes nothing |
| LineFacts.LongWordFatal | src/cfg/cfg.c:192-197 | a line with a word of 255 or more characters among its first four fails with the argument-too-long error and makes no call |
| LineFacts.LoneWordIsUnknownCommand | src/cfg/cfg.c:257-266 | a single word that is not a command fails as an unknown command |
| LineFacts.MapLine | src/cfg/cfg.c:245-255 | `MAP n` selects map n when 0 <= n <= 3 and fails as out of range otherwise, the keyword in any case |
| LineFacts.MapNumberLine | src/cfg/cfg.c:245-255 | `MAP 0`..`MAP 3` select that map; larger and negative numbers fail as out of range |
| LineFacts.DelayLine | src/cfg/cfg.c:229-243 | `COMBO_DELAY ms` sets the combo window to ms/1000 seconds when 0 <= ms <= 100 and fails otherwise |
| LineFacts.ComboLine | src/cfg/cfg.c:199-218 | `ADD_COMBO id k1 k2` fails for an id outside 0..31, otherwise records the combo and fails exactly when the event object refuses it |
| LineFacts.BindingLine | src/cfg/cfg.c:268-279 | `key action` binds the key in the current map to the action when the action is known and fails as unknown otherwise |
| LineFacts.ExtraWordsFatal | src/cfg/cfg.c:220-227 | three or more words, other than an `ADD_COMBO` of at most four, fail as too many arguments |
| LineFacts.BindingsFile | src/cfg/cfg.c:142-287 | a file of valid bindings succeeds and adds one binding call per line, in order, all in the current map |
| LineFacts.BindingsText | src/cfg/cfg.c:84-288 | a keyboard-hack file of newline-terminated binding lines of at most 255 characters makes `cfg_setbind` succeed with the default bindings followed by one binding per line, in order, in map 0 |
| Resolution.ParseRes | src/cfg/cfg.c:300-352 | no string gives 320x200x8; every chosen mode has depth 8, 16, 24 or 32 and is at least 320x200; every rejection carries one of the source's messages |
| Resolution.DefaultMode | src/cfg/cfg.c:308-314 | without a resolution string the mode is 320x200 with depth 8 |
| Resolution.BuiltinNumber | src/cfg/cfg.c:322-337 | a lone number below 8 picks that built-in mode, and a larger one is out of range |
| Resolution.NegativeNumber | src/cfg/cfg.c:333-334 | a lone negative number is rejected with an empty message |
| Resolution.ParseTwo | src/cfg/cfg.c:339-351 | width and height give depth 8, chosen exactly when the mode is valid, with the width's error reported before the height's |
| Resolution.ParseThree | src/cfg/cfg.c:339-351 | width, height and depth: the depth is checked first, then width, then height, and the mode is chosen exactly when all pass |
| Resolution.WidthHeight | src/cfg/cfg.c:316-351 | `W<sep>H` in decimal parses as mode (W, H, 8) under the same checks |
| Resolution.WidthHeightDepth | src/cfg/cfg.c:316-351 | `W<sep>H<sep>D` in decimal parses as mode (W, H, D) under the same checks |
| Resolution.NoNumberRejected | src/cfg/cfg.c:316-319 | a string that does not start with a number is a bad resolution string |
| Resolution.ScanIntDecimal | src/cfg/cfg.c:316 | `%d` reads a decimal number back and stops at the first non-digit |
| Text.AtoiDecimal | src/cfg/cfg.c:596 | `atoi` reads a decimal number back, with its sign |
| Settings.ChgBit | src/cfg/cfg.c:644 | `CHG_BIT` sets or clears exactly the named bits and leaves every other bit alone |
| Settings.LastBufferingOptionWins | src/cfg/cfg.c:649-656 | turning on double-buffering turns dirty rectangles off, and the reverse |
| Settings.GfxOptionKeepsBuffering | src/cfg/cfg.c:646-657 | no graphics option leaves double-buffering and dirty rectangles on together when they were not |
| Settings.KbdMapAfter | src/cfg/cfg.c:710-715 | `-m` selects the map when 0..3 and is ignored otherwise |
| Settings.CacheFor | src/cfg/cfg.c:674-692 | `-c` always sets a policy, and it is "cache bankswitched" exactly when the value is not 1, 2 or 3 |
| Settings.CacheChoicesDistinct | src/cfg/cfg.c:678-687 | the four `-c` values select four different policies |
| Settings.OptsAfterAppend | src/cfg/cfg.c:585-724 | options apply left to right, each to the result of those before it |
| Settings.OptsKeepSound | src/cfg/cfg.c:585-724 | no sequence of options makes the map number leave 0..3 or turns on both buffering modes |
| Settings.SettleDebugging | src/cfg/cfg.c:739-741 | the debugger stays on exactly when it was asked for and GUI mode is off, and nothing else changes |
| Settings.Config.constructor | src/cfg/cfg.c:505-529 | the initial configuration: windowed, no buffering flags, map 0, default cache policy, no GUI, no debugger |
| Settings.Config.ApplyGfx | src/cfg/cfg.c:646-657 | a graphics option changes the graphics flags as specified and nothing else |
| Settings.Config.Apply | src/cfg/cfg.c:600-724 | one option changes the configuration as `OptAfter` specifies |
| Settings.Config.ParseOptions | src/cfg/cfg.c:585-741 | the option loop followed by the GUI check yields the options' fold with debugging settled; sound settings stay sound; GUI mode never keeps the debugger |
| Settings.MapPorts | src/cfg/cfg.c:838-857 | the corrected check of Findings row 2, which agrees with the source on non-negative numbers (`MapPortsAgreesInRange`): port numbers are accepted exactly when both are in 0..3 and not the same non-zero number; the result is the port table's entries, 0 meaning none, and two adaptors never share a port |
| Settings.MapPortsAgreesInRange | src/cfg/cfg.c:838-857 | on non-negative port numbers the corrected check accepts and rejects exactly as the source's, with the same error |
| Settings.PortsCheckAsWritten | src/cfg/cfg.c:838-853 | the source's range test, with no lower bound |
| Settings.NegativePortPassesCheck | src/cfg/cfg.c:838-857 | port number -1 passes the source's test although it is not an index of the port table, and the corrected check rejects it as out of range |
| Settings.CartDefaults | src/cfg/cfg.c:1000-1011 | ECS and Intellivoice choices given on the command line are kept; unset ones (-1) take the database entry's values when the game is known |
| Settings.AudioRateAfter | src/cfg/cfg.c:1120-1125 | the audio rate becomes 0 when sound fails to start and is kept otherwise |
| Settings.ExeDir | src/cfg/cfg.c:548-567 | the executable's directory is `argv[0]` cut at its last separator, or "." when it has none |
| PeriphBus.CgcInit | src/cfg/cfg.c:1072-1076 | the corrected call of Findings row 1: it keeps each call's CGC number, differs from the call as written exactly for pad pair 1 when the two options name different device files, and then uses pair 1's own file |
| PeriphBus.CgcOneIndependentOfCgcZero | src/cfg/cfg.c:1072-1076 | what CGC #1 is built with does not depend on the `--cgc0` option |
| PeriphBus.CgcOneIgnoresItsDevice | src/cfg/cfg.c:1072-1076 | as written, CGC #1 is built with CGC #0's device file |
| PeriphBus.CgcOneAsWrittenDependsOnCgcZero | src/cfg/cfg.c:1072-1076 | as written, changing `--cgc0` changes what CGC #1 is built with |
| PeriphBus.Bus.constructor | src/cfg/cfg.c:863 | a new bus has no windows |
| PeriphBus.Bus.Register | src/cfg/cfg.c:1288 | `periph_register` appends one window and changes nothing else |
| PeriphBus.Bus.RegisterChips | src/cfg/cfg.c:1288-1299 | the CPU, PSG0, PSG1 with the ECS, the Intellivoice with sound, graphics, and sound when the rate is non-zero |
| PeriphBus.Bus.RegisterMemory | src/cfg/cfg.c:1301-1315 | scratch and system RAM, plus System RAM B and a two-part EXEC for an EXEC2 |
| PeriphBus.Bus.RegisterEcs | src/cfg/cfg.c:1317-1323 | the ECS RAM and three ROMs exactly when the ECS is enabled |
| PeriphBus.Bus.RegisterPads | src/cfg/cfg.c:1328-1330 | pad pair 0, and pad pair 1 with the ECS |
| PeriphBus.Bus.RegisterAdaptors | src/cfg/cfg.c:1331-1338 | each INTV2PC and CGC under its own gate, the second pair's only with the ECS |
| PeriphBus.Bus.RegisterStic | src/cfg/cfg.c:1339-1344 | the STIC, its three aliases and its two snoopers |
| PeriphBus.Bus.RegisterServices | src/cfg/cfg.c:1346-1349 | the event pump, and the rate controller when rate control is on |
| PeriphBus.Bus.RegisterCart | src/cfg/cfg.c:1358-1364 | the cartridge's windows are appended in order |
| PeriphBus.Assemble | src/cfg/cfg.c:1286-1386 | a fresh bus ends with exactly `Layout`: the machine's windows, then the cartridge's, then the debugger when debugging |
| BusFacts.LayoutRegisters | src/cfg/cfg.c:1288-1386 | a machine device is on the bus exactly when its registration condition holds |
| BusFacts.LayoutRegistersExactly | src/cfg/cfg.c:1288-1386 | for all machine devices at once: each is on the bus exactly when its registration condition holds |
| BusFacts.WindowsPlaced | src/cfg/cfg.c:1288-1386 | every window but the cartridge's lies within 0x0000-0xFFFF, exactly the CPU, graphics, sound, event pump and rate controller sit at 0x0000-0x0000, and every STIC control window starts at one of its four bases |
| BusFacts.SticAliases | src/cfg/cfg.c:1339-1342 | the STIC's registers appear at 0x0000, 0x4000, 0x8000 and 0xC000 |
| BusFacts.CpuFirst | src/cfg/cfg.c:1288 | the CPU is the first device registered |
| BusFacts.DebuggerIffDebugging | src/cfg/cfg.c:1385-1386 | the debugger is on the bus exactly when debugging is on |
| BusFacts.DebuggerLast | src/cfg/cfg.c:1383-1386 | the debugger is the last window, spans the whole address space, and appears nowhere else |
| BusFacts.EcsGating | src/cfg/cfg.c:1291-1338 | with the ECS off, none of its devices or the second pad pair's are on the bus |
| BusFacts.EcsPresent | src/cfg/cfg.c:1291-1330 | with the ECS on, its RAM, ROMs, PSG1 and pad pair 1 are all on the bus |
| BusFacts.IvoiceAndExec2Gating | src/cfg/cfg.c:1294-1315 | the Intellivoice exactly when enabled with a non-zero rate; sound exactly with a non-zero rate; EXEC2's aux ROM and RAM B exactly for an EXEC2 |
| BusFacts.GateIsBuilt | src/cfg/cfg.c:1045-1349 | with a port index and a non-negative audio rate, a device is registered under the same condition it is constructed under |
| BusFacts.RegisteredWereBuilt | src/cfg/cfg.c:1045-1349 | every machine device on the bus was constructed, and every constructed one is on the bus |
| BusFacts.IvoiceGatesDiffer | src/cfg/cfg.c:1254-1294 | with a negative audio rate, the Intellivoice is registered without having been constructed |
| Startup.Normalise | src/cfg/cfg.c:739-1125 | with the corrected port check of Findings row 2 (equal to the source's on non-negative numbers): start-up fails exactly when the INTV2PC numbers are rejected. Otherwise the ports are table entries, debugging is off in GUI mode, ECS and Intellivoice follow the database defaults, and the rate follows sound start-up; all else is kept |
| Startup.BootedRegisteredWereBuilt | src/cfg/cfg.c:838-1386 | after a successful start, exactly the constructed machine devices are on the bus |
| Startup.SoundFailureDropsWindows | src/cfg/cfg.c:1120-1298 | when sound fails to start, neither the sound device nor the Intellivoice is on the bus |
| Startup.GuiModeHasNoDebugger | src/cfg/cfg.c:739-1386 | in GUI mode the debugger is never on the bus |
| Startup.DatabaseChoosesEcs | src/cfg/cfg.c:1000-1322 | with the ECS on automatic, a known game gets the ECS exactly when its database entry asks for it |
| Startup.UserEcsChoiceKept | src/cfg/cfg.c:1000-1322 | an explicit ECS choice is never overridden, and automatic without a database entry means no ECS |

## Left out

- Command-line parsing: `getopt_long` itself and the options that do not change the modelled state. The graphics flags, `-m`, `-c`, `-d` and `--gui-mode` arrive as a sequence of already-parsed `Opt` values.
- The other options the model reads are not `Opt` values: `-s` (`ecs_enable`, cfg.c line 614), `-r` (`rate_ctl`, 617), `-a` (`audio_rate`, 618), `-v` (`ivc_enable`, 620), `-i`/`-I` (the INTV2PC ports, 623-624) and `--cgc0`/`--cgc1` (630-633). The values they leave are taken as the raw `Setup` that `Startup.Normalise` starts from, with `rate_ctl` taken after its clamp at lines 829-832 and only as the boolean `rate_ctl > 0.0`.
- `atof` is a parameter, and floating point in general is left out (`start_dly`, `dvalue`, the combo window only as a real number). `rate_ctl` is modelled as a boolean.
- `sscanf` returning `EOF` on an empty string is treated like a count of 0. Both lead to "Bad resolution string."
- C `int` overflow in `atoi` and `%d` is not modelled: numbers are unbounded.
- Strings are sequences of characters with no terminator: a NUL byte inside a keyboard-hack line, which in C ends the string that `strrchr` and the field scans of lines 151-165 see, is treated by the model as an ordinary non-space character.
- The graphics flag bit values are declared in `gfx.h`, which is not part of this model. The model gives them distinct single bits.
- File and ROM I/O: the keyboard-hack file is a `KbdFile` value (no file, unopenable, or its text), and `lzoe_fgets` is modelled on that text; decompression by the `lzoe` layer and read errors are left out. Calls to `exit(1)` become result values (`Exited`, `Fatal`).
- The devices' own constructors and internals (`cp1600_init`, `snd_init`, `ay8910_init`, ...) are left out. Only the conditions under which each is constructed are modelled (`Built`), with sound start-up as a boolean.
- `event_map` and `event_combine` are recorded as calls. Whether the event object accepts a combo is a fixed predicate of the calls made so far.
- The cartridge's own registration (`legacy_register`, `icart_register`) is an opaque sequence of windows. `cp1600_cacheable` and the source-map loading (`process_source_map`) are left out.
- `emu_link`, ELF and demo recording, the joystick, and `event_init` are left out. So are `jzp_init`, `fcntl`, the serializer and `cfg_dtor`.
- The GP2X, Wii and GCW Zero build paths and the non-`DIRECT_INTV2PC` build are left out.
- The "internal error" check for null output arguments of `cfg_parseres` (lines 305-306) is left out: the model returns the mode as a value.
- BusFacts.RegisteredWereBuilt: requires a non-negative audio rate. Construction tests `audio_rate > 0`, registration tests a non-zero rate, so a negative rate would register an Intellivoice that was never built (`BusFacts.IvoiceGatesDiffer`).
- Startup.BootedRegisteredWereBuilt: requires a non-negative audio rate, for the same reason.
- BusFacts.GateIsBuilt: requires the INTV2PC #0 port to be a table entry (non-negative) and the audio rate non-negative. Those are the states the corrected port check and a non-negative rate produce.

## Findings

| source | as written | input that shows it | evidently intended | confidence | as-written member | corrected member |
|---|---|---|---|---|---|---|
| src/cfg/cfg.c:1072-1076 | CGC #1 is built with `cfg->cgc0_dev`, the device file given for CGC #0 | `--cgc1=/dev/b` with no `--cgc0` device: CGC #1 is built with no device file | CGC #1 uses `cfg->cgc1_dev` | high, not executed | PeriphBus.CgcOneIgnoresItsDevice | PeriphBus.CgcOneIndependentOfCgcZero |
| src/cfg/cfg.c:838-857 | the INTV2PC port numbers are checked only against an upper bound, then used to index `i2pc_ports` | `--i2pc0=-1` passes the check and reads `i2pc_ports[-1]` | port numbers outside 0..3 are rejected | medium (the option's declaration in cfg.h is not part of this model), not executed | Settings.NegativePortPassesCheck | Settings.MapPortsAgreesInRange |
