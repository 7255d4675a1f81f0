# DrunkDeer keyboard driver and CLI, modelled in Dafny

The DrunkDeer CLI configures DrunkDeer magnetic-switch keyboards (A75, A75 Pro,
G65, G60, G75) over USB HID. Its driver package talks to the keyboard through
64-byte reports. Every report starts with report id 0x04. The driver builds
command payloads, and a controller owns the device. It keeps the last known
per-key actuation, downstroke and upstroke arrays (126 slots in the order of
the key layout table), the light state, the turbo and rapid-trigger flags and
the keyboard's identity. The controller queues payloads for a writer goroutine
and decodes the frames the keyboard sends back. The CLI on top parses its
command line, imports profiles exported by the vendor's web driver, expands a
profile's sparse per-key overrides into dense device arrays, and sends them.

The project models this core as pure functions over immutable values:

- `wrappers.dfy`: `Option`, `Result` and the `Fault` kinds. A Go panic or
  `os.Exit(1)` becomes a `Failure`.
- `bytes.dfy`: byte truncation, `strings.HasPrefix`, `HasSuffix`,
  `TrimSuffix` and `Contains`, and decimal formatting.
- `consts.dfy`: the protocol constants, the 126-slot key layout and the index
  lists of the WASD, numeral and letter keys.
- `driver_utils.dfy`: model detection, name/slot lookup and the millimetre to
  device byte conversion.
- `builder.dfy`: the payload builders.
- `controller.dfy`: the controller as a state record. The outbound queue is the
  ordered list `sent` of queued payloads. The inbound side is the frame filter
  `ReadFrame` followed by the state transition `Receive`.
- `converter.dfy`: web-driver profile to CLI profile.
- `profile.dfy`: loading a CLI profile onto the keyboard.
- `hid.dfy`: the filter that picks DrunkDeer interfaces out of a HID enumeration.
- `cli_utils.dfy`: the CLI helpers.
- `args.dfy`: argument handling.

Distances in millimetres are `float32` in the Go code. Here they are whole
tenths of a millimetre (`Converter.Tenths`), the unit of the device bytes.
`int(actuation * 10)` is therefore the identity on the modelled values.

## Model

| member | source | states |
|---|---|---|
| Consts.LayoutShape | driver/consts.go:51-58 | the layout has 126 slots, six lines of 21, which is two rows of 59 keys plus a short row of 8 |
| Consts.PacketIdsDistinct | driver/consts.go:11-17 | the five command ids are pairwise distinct, so dispatch on the command byte is unambiguous |
| Consts.SequenceIds | driver/consts.go:27-48 | "off" is 0 and the 18 effects run consecutively from 0x02 to 0x13 |
| Consts.WasdKeyNames | driver/consts.go:60 | the WASD index list names the slots W, A, S and D |
| Consts.NumeralKeyNames | driver/consts.go:61 | the numeral index list names the slots "1" through "9" and "0", in that order |
| Consts.CharacterKeyNames | driver/consts.go:62-66 | the 26 character indexes are in range and name the letters Q..P, A..L, Z..M in keyboard order |
| Consts.LayoutNamesDistinct | driver/consts.go:51-58 | no non-empty key name occurs twice in the layout, so a name determines its slot |
| DriverUtils.BoolToByte | driver/utils.go:5-10 | true is 1 and false is 0 |
| DriverUtils.DetectKeyboardModel | driver/utils.go:12-67 | each known three-byte signature gives its model name and type (A75/75, A75/750 (the A75 Pro signature), G75/754, G65/65, G60/60); any other signature falls back to A75/75 |
| DriverUtils.GetKeyByIndex | driver/utils.go:69-74 | an index in range gives the layout's name, and any other index gives "" |
| DriverUtils.GetIndexByKey | driver/utils.go:76-83 | the result is -1 exactly when the layout lacks the name; otherwise it is the smallest slot holding the name |
| DriverUtils.KeyOfIndexOfKey | driver/utils.go:69-83 | name to slot and back to name is the identity on layout names |
| DriverUtils.IndexOfKeyOfIndex | driver/utils.go:69-83 | slot to name and back to slot is the identity on every used slot |
| DriverUtils.EmptyNameIndex | driver/utils.go:76-83 | the empty name resolves to slot 1, the first unused slot |
| DriverUtils.GetRowByIndex | driver/utils.go:85-90 | an index in range gives its row of 59 keys, and any other index gives -1 |
| DriverUtils.ActuationToByte | driver/utils.go:92-103 | a negative value becomes 1, a value above 255 becomes 255, and 0..255 is kept |
| Builder.BuildIdentity | driver/builder.go:3-6 | the identity request is [0xA0, 0x02] |
| Builder.BuildLedModeSelect | driver/builder.go:8-21 | the 8-byte LED command carries direction, sequence, speed, brightness and rgb at offsets 3..7 after [0xAE, 0x01, 0x00] |
| Builder.BuildLedModeSelectTurbo | driver/builder.go:23-28 | the turbo variant equals the plain LED command except that byte 2 is 1 |
| Builder.BuildRapidTriggerTurbo | driver/builder.go:30-43 | the 63-byte command has the fixed 7-byte header, the turbo flag at 7, the rapid-trigger flag at 8, and zeros after |
| Builder.BuildKeyTracking | driver/builder.go:45-54 | the 63-byte command is [0xB6, 0x03, track] followed by zeros |
| Builder.BuildModifyRow | driver/builder.go:64-97 | a 63-byte row packet: header [0xB6, 0x01, 0x00, row]; the keys truncated or padded with the default to 59 keys (8 for row 2); zeros after |
| Builder.BuildModifyRowSteps | driver/builder.go:64-97 | the Go truncate, pad and copy loops compute exactly `BuildModifyRow` |
| Builder.FitRowSteps | driver/builder.go:71-90 | the two truncations and the padding loops give the keys fitted to the row width |
| Builder.BuildModifyRowActuation | driver/builder.go:99-104 | the row packet with fill 0x14 and subcommand 0x01 at byte 1 |
| Builder.BuildModifyRowDownstroke | driver/builder.go:106-111 | the row packet with fill 0 and subcommand 0x04 at byte 1 |
| Builder.BuildModifyRowUpstroke | driver/builder.go:113-118 | the row packet with fill 0 and subcommand 0x05 at byte 1 |
| Builder.VariantsDiffer | driver/builder.go:99-118 | the three variants differ only in byte 1 and the fill value; the downstroke and upstroke packets differ in byte 1 alone |
| Builder.RowKeysRoundTrip | driver/builder.go:64-118 | reading the key bytes back from a row packet gives the keys fitted to the row width, and a full-width row unchanged |
| Controller.NewController | driver/controller.go:261-277 | a new controller has 0x14 on every actuation, 0 on every stroke, no identity, flags off and nothing sent |
| Controller.Frame | driver/controller.go:52-67 | a frame is 64 bytes: report id 0x04, then the payload cut to 63 bytes, then zeros |
| Controller.TransmittedInOrder | driver/controller.go:119-121 | frames go out in the order their payloads were queued |
| Controller.QueuePacket | driver/controller.go:119-121 | queuing appends the payload to what was sent; on a closed controller it is a send-on-closed-channel panic |
| Controller.QueueAll | driver/controller.go:84-121 | queuing several payloads appends them all, in order, or fails when closed |
| Controller.RequestIdentity | driver/controller.go:35-44 | with no identity known, `GetIdentity` queues the identity request [0xA0, 0x02]; with one known it sends nothing |
| Controller.Close | driver/controller.go:237-259 | after closing, the controller is marked closed and every other field (identity, light, turbo and RT flags, the three arrays, what was sent) is unchanged |
| Controller.CloseIsFinal | driver/controller.go:237-259 | a second `Close` changes nothing, every send after `Close` fails, and closing keeps what was sent, the identity, the light, the turbo and RT flags and all three arrays; an open controller is changed by closing |
| Controller.RowSlices | driver/controller.go:132-140 | the loop `i += 59` visits the slices starting at 0, 59, 118 and stops at the first start past the end |
| Controller.LoadPackets | driver/controller.go:125-178 | a full array gives exactly three packets: rows 0, 1 and 2 with keys [0..59), [59..118) and [118..126) |
| Controller.LoadPacketsRoundTrip | driver/controller.go:125-178 | the keyboard reads back from the three row packets exactly the array that was loaded |
| Controller.Load | driver/controller.go:125-178 | a length other than 126 panics; otherwise the array is stored, its row packets are queued in row order, and nothing else changes |
| Controller.ModifyActuationsByIndexes | driver/controller.go:192-198 | each slot named by an in-range index gets the value, and every other slot and field is unchanged |
| Controller.ModifyActuationsByNames | driver/controller.go:182-189 | each slot some name resolves to gets the value, names outside the layout are skipped, and the rest is unchanged |
| Controller.NamesModifyTheirSlots | driver/controller.go:182-189 | a used slot changes exactly when its name is listed; slot 1 changes exactly when "" is listed; other unused slots never change |
| Controller.ModifyAllActuations | driver/controller.go:200-204 | every actuation slot gets the value; all else is unchanged |
| Controller.DefaultsPackets | driver/controller.go:207-235 | `WriteDefaults` queues 11 payloads: lights off, rapid trigger and turbo off, then actuation, downstroke and upstroke packets of rows 0, 1 and 2 from the controller's current arrays |
| Controller.DefaultRowsUnrolled | driver/controller.go:217-232 | the row loop of `WriteDefaults` runs for rows 0, 1 and 2 |
| Controller.WriteDefaults | driver/controller.go:207-235 | the defaults payloads are appended to what was sent, or the call fails when closed |
| Controller.FreshWriteDefaults | driver/controller.go:207-235 | on a new controller the row packets carry 2.0 mm actuation and 0 mm strokes on every key |
| Controller.ReadFrame | driver/controller.go:290-309 | a frame not starting with 0x04 or a zero-byte read is dropped; a one-byte read panics on the slice; otherwise it delivers command `buf[1]` and data `buf[2:n]` |
| Controller.FrameRoundTrip | driver/controller.go:52-67 | a framed payload read back whole gives its first byte as command and the rest, zero-padded, as data |
| Controller.FirmwareVersionIsLowByte | driver/controller.go:365 | in byte arithmetic `v0 | v1<<8` is `v0` |
| Controller.DecodeIdentity | driver/controller.go:348-374 | a non-zero byte 1 skips the packet; a short packet panics; otherwise: model from bytes 3..5, type cut to a byte, version "0.0" plus byte 6, turbo from byte 14, rapid trigger from byte 15 |
| Controller.Receive | driver/controller.go:338-399 | identity, LED echo (bytes 2..5) and turbo echo (bytes 6, 7) update their fields; a short echo panics; other commands change nothing; the per-key arrays and the queue never change |
| Controller.FullFramesNeverPanic | driver/controller.go:290-399 | a complete 64-byte read never makes the reader or the decoder panic |
| Controller.LightEchoRoundTrip | driver/controller.go:375-381 | decoding the echo of a framed LED command (plain or turbo) sets the light to the sent direction, sequence, speed and brightness |
| Controller.TurboEchoRoundTrip | driver/controller.go:382-386 | decoding the echo of a framed turbo/rapid-trigger command sets both flags to the sent values |
| Converter.MostUsed | drunkdeer/converter.go:20-72 | for no keys the result is 0; otherwise it is a value of the keys that no other value outnumbers |
| Converter.MostUsedIsMaximal | drunkdeer/converter.go:20-72 | no value at all occurs more often than the most used one |
| Converter.ModelFromStorageName | drunkdeer/converter.go:74-78 | the model is characters 5..7 of the storage name; a shorter name panics |
| Converter.OverridesSpec | drunkdeer/converter.go:97-115 | the override loop holds a name exactly when some key of that name qualifies, with the value of the last such key |
| Converter.ConvertToCLIConfig | drunkdeer/converter.go:80-118 | fails exactly for a storage name under 8 characters; otherwise: the model, the most-used defaults, rapid trigger on, turbo off, light off |
| Converter.ConvertedOverrides | drunkdeer/converter.go:97-115 | a name has an actuation point iff one of its keys has a non-zero non-default actuation, holding the last such value; likewise for rapid-trigger pairs when either stroke is non-zero and non-default |
| Converter.ConvertedKeyValues | drunkdeer/converter.go:97-115 | with distinct key names, each key's own values are what the converted profile holds for its name, and only when they qualify |
| Profile.Dense | drunkdeer/main.go:157-172 | every override lands in the slot of its name, and a slot no override resolves to keeps the default |
| Profile.PrepareKeySettings | drunkdeer/main.go:148-175 | fails exactly when some override name is outside the layout (the -1 index panic); otherwise each named slot holds its converted override and every other slot holds the converted default |
| Profile.PrepareKeySettingsSteps | drunkdeer/main.go:148-175 | the Go loops, visiting the map entries in any order, compute exactly `PrepareKeySettings` |
| Profile.FillActuations | drunkdeer/main.go:163-166 | the actuation loop succeeds exactly when every name is in the layout, giving the dense actuation array |
| Profile.FillRapidTriggers | drunkdeer/main.go:168-172 | the rapid-trigger loop succeeds exactly when every name is in the layout, giving the dense downstroke and upstroke arrays |
| Profile.ApplyLightRule | drunkdeer/main.go:133-135 | a disabled light gets sequence off, an enabled one is kept, and no other field changes |
| Profile.ConfigureLights | drunkdeer/main.go:177-184 | the controller's light holds each profile field cut to a byte |
| Profile.ApplySettings | drunkdeer/main.go:186-199 | sends turbo/rapid trigger, then the LED command from the controller's light, then the three Load operations, in that order; the arrays are stored, while the light, the identity, the turbo and RT flags stay as they were (they change only when the keyboard's echo arrives) and the controller stays open; fails only when closed |
| Profile.LoadProfile | drunkdeer/main.go:120-146 | a profile naming another model exits; a name outside the layout panics; otherwise the dense arrays and the light are stored and the exact payload sequence is sent, while the identity and the turbo and RT flags are unchanged and the controller stays open |
| Profile.DisabledLightSendsOff | drunkdeer/main.go:133-138 | a profile with its light disabled sends the LED command with sequence off, whatever sequence it names |
| Profile.ConvertThenPrepare | drunkdeer/converter.go:80-118 | an imported profile with distinct layout names puts into each key's slot its own actuation (or the most used one for 0) and its own strokes when they differ from the defaults |
| Hid.DDProductsShape | drunkdeer/hid.go:14-22 | five distinct allow-list entries, all on usage page 0xFF00 with usage 0 |
| Hid.IsDrunkDeer | drunkdeer/hid.go:28-33 | a device is accepted exactly when all four of its fields match some allow-list entry |
| Hid.FindDrunkDeerDevices | drunkdeer/hid.go:24-37 | the result is the accepted devices in enumeration order |
| Hid.SelectedAppend | drunkdeer/hid.go:24-37 | selection distributes over concatenation, so devices keep their enumeration order |
| Hid.SelectedCounts | drunkdeer/hid.go:24-37 | an accepted device appears as often as it was enumerated, and a rejected one never; nothing is added twice |
| CliUtils.IsUrl | drunkdeer/utils.go:56-58 | true exactly when the path starts with "http" and contains "://" somewhere |
| CliUtils.ResolveProfilePath | drunkdeer/utils.go:111-122 | an absolute path is kept; a relative one goes under the profile directory and ends in ".json", added only when missing |
| CliUtils.ResolveNeverDoublesSuffix | drunkdeer/utils.go:111-122 | a relative path resolves to a name ending in ".json.json" exactly when it already ended so, and resolving a resolved relative path again adds no second ".json" |
| CliUtils.GetDevice | drunkdeer/utils.go:60-76 | no devices gives "no devices found"; an index out of range gives "invalid keyboard index"; otherwise the device at that index |
| Args.ApplyCommandWord | drunkdeer/args.go:20-35 | "load", "save" and "import" copy the command value into their option and "reset" sets the reset flag; other words change nothing |
| Args.ApplyCommandWordIdempotent | drunkdeer/args.go:20-35 | applying the command word twice is the same as once |
| Args.KeyboardIndex | drunkdeer/args.go:50-53 | the keyboard index is the option with negatives raised to 0 |
| Args.HandleArgs | drunkdeer/args.go:14-54 | the words version, list and profiles exit; past them the first set flag in the order version, list, profiles, import, save decides the exiting action; with none set it proceeds with the updated arguments and the clamped index |
| Args.HandleArgsProceedsIff | drunkdeer/args.go:14-54 | the program goes on past `handleArgs` exactly when neither the command word nor any flag asks for an exiting action |
| Args.Run | drunkdeer/main.go:101-110 | reset wins over load, and with neither the help is shown |
| Args.LoadCommandLoads | drunkdeer/args.go:20-54 | `drunkdeer load <name>` with no other option loads `<name>` |
| Args.ResetCommandResets | drunkdeer/args.go:20-54 | `drunkdeer reset` resets, whatever profile is also named |
| Args.EnsureJsonExtension | drunkdeer/args.go:214-219 | the result ends in ".json", added only when missing |
| Args.EnsureJsonExtensionIdempotent | drunkdeer/args.go:214-219 | ensuring the extension twice is the same as once |
| Args.ProfileName | drunkdeer/args.go:155-156 | the shown name is the file name without one trailing ".json" |
| Args.ProfileNameRoundTrip | drunkdeer/args.go:136-156 | the shown name plus ".json" is the stored file name; a base name without ".json" comes back unchanged |
| Args.ImportedProfileResolves | drunkdeer/args.go:136-159 | `drunkdeer load <shown name>` resolves to the imported file whenever the shown name does not itself end in ".json" |
| Args.DoubleSuffixResolvesElsewhere | drunkdeer/args.go:136-159 | for the base name "x.json.json" the shown name "x.json" resolves to a different file from the stored one |
| Decimal.ParseNatToString | driver/controller.go:369 | the decimal text of the firmware version reads back as the number |

## Left out

- HID I/O is left out. Opening, reading and writing the device are parameters
  or the record's fields: `sent` stands for what the writer goroutine
  transmits, and `ReadFrame` takes the buffer and byte count a read returned.
- Goroutines, channels and timing are left out: the 100 ms pacing and drop
  timeout, the queue capacity of 10, the 5 s close timeout and the sleeps in
  the CLI. A packet the reader drops after 100 ms is not modelled.
- `GetIdentity` polls until the decoder has stored an identity. `LoadProfile`
  takes the model it would return as a parameter.
- `GetActuations`, `SetDebug`, `Log` and the debug output only read state,
  set the debug flag or print, so they are left out.
- Floats are left out. Distances are whole tenths of a millimetre, so
  `ActuationFloatToByte`'s `int(x * 10)` truncation of fractional tenths is
  not modelled.
- JSON parsing and writing, the file system, HTTP downloads, `saveConfig`,
  `displayProfiles`, `displayDeviceList`, `showVersion` and
  `setupProfilePath` are left out. `HandleArgs` only says which of these
  actions runs.
- `filepath.Join` is joining with one '/' and `filepath.IsAbs` is a leading
  '/'. No path cleaning is modelled. `filepath.Base` is not modelled: the
  import lemmas take the base name directly.
- Go's `append` in `BuildModifyRow` may write into the caller's array. The
  model builds fresh sequences.
- Controller.Load: the model stores an independent copy of the array, but Go
  keeps the caller's slice itself. There a later `ModifyActuations*` call also
  writes into the caller's array, and a later write by the caller changes what
  the controller holds. Sequences are values in the model, so that sharing is
  not modelled.
- Strings are sequences of characters, not UTF-8 bytes, so the storage-name
  slice counts characters.
- The `CUSTOM_COLOR_PADDING` and `COLORS_PER_PACKET` constants are unused in
  the source and are left out.
- Converter.MostUsed: the Go loop visits the distinct values in map order, which
  is unspecified. Among tied values the model takes the first in key order.
  The contract promises only what holds for every order: a most frequent
  value, or 0 for no keys.
- DriverUtils.ActuationToByte keeps 0 as 0. Only negative values are raised
  to 1, as the code does, although its comment suggests a floor of 1.
- Controller.DecodeIdentity follows the code: the firmware version uses byte
  6 only, because `versionBytes[1]<<8` is computed in byte arithmetic, and
  the keyboard type is cut to a byte (750 becomes 238, 754 becomes 242).
- Controller.Receive follows the code: a later identity response overwrites
  the stored identity.
- Controller.WriteDefaults follows the code: it sends the controller's
  current arrays, and the local default array it builds is unused.
- Args.ImportedProfileResolves: a base name that ends in ".json.json" is the
  one case where the suggested load command names a different file; the
  lemma requires that this case is excluded, and
  `Args.DoubleSuffixResolvesElsewhere` exhibits it.
