# PAD service tools in Dafny

This project models the deterministic core of the PAD service software: the
command-line tools that flash, boot, monitor and debug embedded devices, and
the small C library they share.

- `lib/pad_common.c` (`PadCommon`, `Crc32Spec`, `Bits`): the bounded string
  copy `pad_strncpy`, the table-driven CRC-32 with its lazily built table, and
  `pad_malloc`. The CRC-32 is the reflected polynomial `0xEDB88320`, the frame
  check sequence of IEEE 802.3 clause 3.2.9.
- `lib/pad_crypto.c` (`PadCrypto`): the repeating-key XOR cipher, the DJB2
  hash, the hash-chained key derivation, the hash "signature" and the memory
  wipe, all working in place on byte buffers.
- `lib/pad_config.c` (`PadConfig`): the global key/value list, with update in
  place or prepend, lookup, removal, clearing, integer values, the
  `key=value` file loader and the saver.
- The three `pad-flasher` variants in C, C++ and Python (`FlasherC`,
  `FlasherCpp`, `FlasherPy`, with the stage sequence they share in
  `Lifecycle`). Each builds its list of device configurations from the command
  line. Each then takes every device through connect, recovery, flash,
  checksum validation and close.
- The PAD-Flasher mass flasher (`FlasherTool`) and its UART link
  (`Uart`): the baud-rate table, the connection state, the write loop and the
  sync handshake.
- PAD-Scope (`Scope`), PAD-BootManager (`BootManager`), PAD-Health (`Health`),
  and PAD-Debugger (`Debugger`, with its logger in `Logging`): their option
  loops, their validation rules and what they do afterwards.
- The three `pad-corebuilder` variants (`CoreBuilderC`, `CoreBuilderCpp`,
  `CoreBuilderPy`, with the shared dispatch and generated file contents in
  `CoreFiles`).

Conventions:

- Operating-system calls, devices, clocks and files are parameters of the
  model. A parameter can be a result `open` returns, the successive counts
  `write` reports, whether a file exists, or a time stamp.
- A `getopt_long` loop receives the sequence of options `getopt_long` would
  return. Each loop is a method proved against a `Scan` function over that
  sequence.
- An integer that `std::stoi` cannot read throws an exception that nothing
  catches, so it ends the program. The model has an outcome for that.
- Objects whose fields the source changes are classes. Their methods state
  the new state through a `Snapshot()` function of the fields.

The shared helpers are `Wrappers` (Option), `Text` and `Bits`. `Text` holds
decimal text, the leading-integer parse of `atoi`/`std::stoi`, ASCII case
mapping, comma splitting and blank trimming. `Bits` holds fixed-width words
and exclusive or.

## Model

| member | source | states |
|---|---|---|
| PadCommon.CopiedFieldHoldsPrefix | lib/pad_common.c:39-47 | after a successful copy the buffer holds the source cut to `dest_size - 1` characters and is NUL-terminated at `dest_size - 1` |
| PadCommon.StrNCopy | lib/pad_common.c:39-47 | returns -1, leaving the buffer alone, exactly for a NULL destination, a NULL source or a zero size; otherwise 0, with the first `dest_size` bytes holding the copied field and the rest of the buffer unchanged |
| PadCommon.Crc32Engine.constructor | lib/pad_common.c:51-52 | the static table starts zeroed and not initialized |
| PadCommon.Crc32Engine.FillTable | lib/pad_common.c:56-66 | after the loop every one of the 256 slots holds its index shifted through eight reflected polynomial steps |
| PadCommon.Crc32Engine.Checksum | lib/pad_common.c:50-75 | the table-driven loop returns the bitwise CRC-32 (reflected polynomial 0xEDB88320, initial and final XOR 0xFFFFFFFF) of the data; the table is built on the first call only and never changed afterwards |
| Crc32Spec.TableUpdateIsBitwise | lib/pad_common.c:72 | one table lookup step equals eight bitwise shift-and-feedback steps on the register XORed with the byte |
| Crc32Spec.Crc32Below | lib/pad_common.c:70-74 | the checksum is a 32-bit value |
| Crc32Spec.Crc32OfEmpty | lib/pad_common.c:70-74 | the checksum of empty data is 0 |
| PadCommon.Malloc | lib/pad_common.c:78-85 | a zero size gives NULL; otherwise a fresh block of exactly `size` bytes when the heap has room, and NULL when it does not |
| PadCrypto.CipheredTwice | lib/pad_crypto.c:8-18 | the XOR cipher is an involution: enciphering twice with the same key restores the data |
| PadCrypto.XorCipher | lib/pad_crypto.c:8-18 | returns -1 and changes nothing exactly for NULL data or key or a zero length; otherwise byte `i` is XORed with key byte `i mod key_length` and bytes past `length` are unchanged |
| PadCrypto.HashFromAppend | lib/pad_crypto.c:26-31 | hashing a concatenation continues from the hash of its first part |
| PadCrypto.HashOfOneByte | lib/pad_crypto.c:26-31 | one byte `c` hashes to 5381 * 33 + c |
| PadCrypto.ShiftAddIsTimes33 | lib/pad_crypto.c:28 | `(h << 5) + h + c` in 32-bit unsigned arithmetic is `h * 33 + c` modulo 2^32 |
| PadCrypto.SimpleHash | lib/pad_crypto.c:21-32 | the loop returns 0 for NULL or empty input and otherwise DJB2 from 5381 modulo 2^32 |
| PadCrypto.FromToLittleEndian | lib/pad_crypto.c:76-94 | reading back the four bytes `memcpy` stores gives the same word |
| PadCrypto.ToFromLittleEndian | lib/pad_crypto.c:76-94 | storing the word read from four bytes gives the same bytes |
| PadCrypto.ChainSaltPrefix | lib/pad_crypto.c:47-53 | the first `k` rounds of the hash chain read only the first `k` salt bytes |
| PadCrypto.DerivedKeyUsesSaltPrefix | lib/pad_crypto.c:47-53 | a key of `n` bytes depends on the salt only through its first `n` bytes |
| PadCrypto.DeriveKey | lib/pad_crypto.c:35-56 | returns -1 and changes nothing exactly for a NULL password, salt or key or a zero key length; otherwise key byte `i` is the low byte of round `i + 1` of the chain from the password hash, with salt byte `i` mixed in while `i < salt_len` |
| PadCrypto.VerifySignature | lib/pad_crypto.c:59-80 | 1 exactly when every pointer is set, data and key are non-empty, the signature has at least four bytes and its first four bytes are the little-endian hash of the data; 0 otherwise |
| PadCrypto.GenerateSignature | lib/pad_crypto.c:83-97 | returns -1 and changes nothing exactly for a NULL pointer, empty data or a signature shorter than four bytes; otherwise the first four bytes hold the data's hash and the rest is unchanged |
| PadCrypto.SignThenVerify | lib/pad_crypto.c:59-97 | a signature made by `pad_generate_signature` verifies against the same data with any non-empty key |
| PadCrypto.MemWipe | lib/pad_crypto.c:100-107 | every byte in `ptr[0..len)` becomes 0 and the bytes after it are unchanged |
| PadConfig.FieldIsStrNCopy | lib/pad_config.c:94-95 | a name or value field holds what `pad_strncpy` leaves there: the string cut to one less than the field size |
| PadConfig.FindAt | lib/pad_config.c:81-88 | the walk from the head stops at the first node whose stored name equals the key |
| PadConfig.FindNone | lib/pad_config.c:106-114 | a key that no node holds is not found |
| PadConfig.GetAfterSet | lib/pad_config.c:77-115 | after `set_string` with a key shorter than the name field, `get_string` with that key returns the value cut to 255 characters |
| PadConfig.SetExistingAddsNoNode | lib/pad_config.c:81-88 | setting a key that is present overwrites its value in place: same length, same names, every other node unchanged |
| PadConfig.SetLeavesOthers | lib/pad_config.c:77-100 | setting one key leaves the lookup of every other key unchanged, unless that key equals the stored, cut name |
| PadConfig.SetKeepsNamesUnique | lib/pad_config.c:77-100 | with keys shorter than the name field no two nodes ever carry the same name |
| PadConfig.SetKeepsFieldsFit | lib/pad_config.c:94-95 | every stored name and value fits its buffer after a set |
| PadConfig.GetAfterRemove | lib/pad_config.c:158-179 | after `remove(key)` on a list with unique names, looking the key up gives the default |
| PadConfig.RemoveLeavesOthers | lib/pad_config.c:158-179 | removing one key leaves the lookup of every other key unchanged |
| PadConfig.GetIntAfterSetInt | lib/pad_config.c:118-135 | `set_int` then `get_int` on a key shorter than the name field gives the number back, through the `%d` text and `atoi` |
| PadConfig.LineEnd | lib/pad_config.c:29-30 | `fgets` with a 512-byte buffer stops after the first newline or after 511 characters |
| PadConfig.LineText | lib/pad_config.c:32 | the line is the buffer cut at its first newline, with no newline left in it |
| PadConfig.ParseLine | lib/pad_config.c:35-52 | a line sets a key exactly when it is non-empty, does not start with `#` or `;` and contains `=`; the key and the value are the text before and after the first `=`, each with leading spaces and tabs skipped |
| PadConfig.LoadLeavesOthers | lib/pad_config.c:23-57 | lines that never set a key leave its lookup as it was before the load |
| PadConfig.LoadLastLineWins | lib/pad_config.c:23-57 | when several lines set the same short key, the last one's value is the one found |
| PadConfig.ConfigStore.constructor | lib/pad_config.c:13 | the list starts empty |
| PadConfig.ConfigStore.Cleanup | lib/pad_config.c:182-189 | the list becomes empty and 0 is returned |
| PadConfig.ConfigStore.Init | lib/pad_config.c:16-20 | the same as a cleanup: the list becomes empty and 0 is returned |
| PadConfig.ConfigStore.SetString | lib/pad_config.c:77-100 | -1 exactly for a NULL key or value, or a new key when the allocation fails; otherwise the list is the old one with the key's value overwritten in place or a new node pushed at the head |
| PadConfig.ConfigStore.GetString | lib/pad_config.c:103-115 | the value of the first node whose name equals the key; the default for a NULL or absent key |
| PadConfig.ConfigStore.SetInt | lib/pad_config.c:118-125 | stores the decimal text of the number, with the errors of `set_string` |
| PadConfig.ConfigStore.GetInt | lib/pad_config.c:128-135 | the default for a NULL or absent key, else the `atoi` value of the stored text |
| PadConfig.ConfigStore.Remove | lib/pad_config.c:158-179 | -1 exactly for a NULL key or a key that is not present; otherwise the first match is unlinked and the other nodes keep their order |
| PadConfig.ConfigStore.Enumerate | lib/pad_config.c:192-202 | -1 without a callback; otherwise the callback sees every node from the head, in order |
| PadConfig.ConfigStore.Save | lib/pad_config.c:60-74 | -1 exactly for a NULL file name or a file that cannot be created; otherwise one `name=value` line per node, from the head |
| PadConfig.ConfigStore.Load | lib/pad_config.c:23-57 | -1 exactly for a NULL file name or a file that cannot be opened; otherwise every line read is applied to the list in order, as `set_string` |
| PadConfig.LongKeyIsLost | lib/pad_config.c:83-108 | a key of 64 characters is stored cut to 63, so `get_string` with it misses right after a successful set |
| PadConfig.LongKeyDuplicates | lib/pad_config.c:83-94 | setting the same 64-character key twice leaves two nodes with the same stored name |
| PadConfig.GetAfterSetStored | lib/pad_config.c:77-115 | when the key is compared as the name field stores it, every key is found after it is set |
| PadConfig.SetStoredKeepsNamesUnique | lib/pad_config.c:77-100 | when the key is compared as the name field stores it, names stay unique for keys of every length |
| Lifecycle.InterfaceNamed | pad-flasher/src/c/main.c:110-126 | an interface name is accepted exactly when it is `uart`, `jtag` or `swd` |
| Lifecycle.DeviceTraceCounts | pad-flasher/src/c/main.c:358-392 | in one device's run the connection is attempted once, and the device is flashed once and closed once exactly when the connection succeeded |
| Lifecycle.DeviceTraceShape | pad-flasher/src/c/main.c:358-392 | one device's run starts with the connection, ends with the close when connected, keeps the stage order connect, recovery, flash, validate, close, and concerns that device only |
| Lifecycle.BatchTraceFacts | pad-flasher/src/c/main.c:358-392 | the batch handles the devices one after another in index order; every device below the count is connected exactly once, and flashed and closed exactly once when its connection succeeded |
| Lifecycle.AppendInOrder | pad-flasher/src/c/main.c:358 | appending the run of the next device keeps the batch in order |
| FlasherC.CappedScanBounded | pad-flasher/src/c/main.c:105-173 | with the corrected `-d` count, the device count and `num_devices` never exceed the eight slots |
| FlasherC.CountOnlyFromDevices | pad-flasher/src/c/main.c:168-172 | only `-d` changes the device count |
| FlasherC.ScanKeepsDeviceFlags | pad-flasher/src/c/main.c:139-144 | `-v` and `-r` set the configuration's flags only: no option ever sets a device's own validation or recovery flag |
| FlasherC.FinishedBaudratesSet | pad-flasher/src/c/main.c:193-198 | after parsing every configured device has a non-zero baud rate |
| FlasherC.NoDeviceGivesOneDefault | pad-flasher/src/c/main.c:185-191 | without devices the configuration holds one UART device `/dev/ttyUSB0` at 115200 baud |
| FlasherC.CountAloneGivesDefaults | pad-flasher/src/c/main.c:175-183 | `-n` without `-d` gives that many UART devices `/dev/ttyUSB<i>` at 115200 baud |
| FlasherC.UncappedDeviceCount | pad-flasher/src/c/main.c:128-172 | as written, `k` options `-d` raise `num_devices` by `k` whatever the number of slots |
| FlasherC.NinthDeviceOverflows | pad-flasher/src/c/main.c:168-198 | as written, nine `-d` options leave `num_devices` at 9, one more than the eight slots the later loops index |
| FlasherC.CappedDeviceCount | pad-flasher/src/c/main.c:128-172 | corrected, `k` options `-d` raise the count by `k` up to the eight slots and no further |
| FlasherC.Closed | pad-flasher/src/c/main.c:290-298 | closing leaves no open descriptor, and a slot without one is left as it was |
| FlasherC.FlashConfig.constructor | pad-flasher/src/c/main.c:58 | the zero-initialised configuration: eight zero slots, no firmware, every flag off, no devices |
| FlasherC.FlashConfig.ApplyOption | pad-flasher/src/c/main.c:106-172 | one option changes the configuration as `Step` does: the firmware, interface, path and baud rate of the current slot, the flags, the count; an unknown interface or option rejects, `-V` and `-h` exit |
| FlasherC.FlashConfig.ParseCommandLine | pad-flasher/src/c/main.c:79-206 | the configuration is the one the option scan and the default rules give, the device count stays within the slots, and the result is -1 exactly for a rejected option or a missing firmware path |
| FlasherC.FlashConfig.Complete | pad-flasher/src/c/main.c:175-205 | applies the default devices and baud rates, and returns -1 exactly when no firmware path was given |
| FlasherC.FlashConfig.DefaultDevices | pad-flasher/src/c/main.c:177-182 | the first `n` slots become UART devices `/dev/ttyUSB<i>` at 115200 baud; the others are unchanged |
| FlasherC.FlashConfig.DefaultBaudrates | pad-flasher/src/c/main.c:194-198 | every slot below `n` with baud rate 0 gets 115200; nothing else changes |
| FlasherC.FlashConfig.InitDeviceConnection | pad-flasher/src/c/main.c:235-288 | a UART succeeds exactly when `open` gives a descriptor and the attributes can be read and set; JTAG and SWD always succeed with descriptor 1; only that slot's descriptor changes |
| FlasherC.FlashConfig.CloseDeviceConnection | pad-flasher/src/c/main.c:290-298 | returns 0; an open slot gets descriptor -1 and a closed one is left alone |
| FlasherC.FlashConfig.EnterRecoveryMode | pad-flasher/src/c/main.c:335-346 | returns 0, and performs recovery exactly when the device's recovery flag is set |
| FlasherC.FlashConfig.ValidateChecksum | pad-flasher/src/c/main.c:316-333 | validates exactly when the device's flag is set, and fails only then on a bad checksum |
| FlasherC.FlashConfig.RunDevice | pad-flasher/src/c/main.c:359-391 | one device's stages are its lifecycle trace, and its slot ends opened and, when connected, closed again |
| FlasherC.FlashConfig.PerformBatchOperation | pad-flasher/src/c/main.c:348-395 | returns 0 whatever fails, appends the runs of devices `0 .. num_devices` in order to the trace and leaves every slot as its run leaves it |
| FlasherC.AttemptsStep | pad-flasher/src/c/main.c:358 | the trace of one more device is the trace so far followed by that device's run |
| FlasherC.AfterRunsStep | pad-flasher/src/c/main.c:358 | the slots after one more device differ from those before only in that device's slot |
| FlasherCpp.Defaults | pad-flasher/src/cpp/main.cpp:111-121 | `-n k` on an empty device list creates `k` devices (none for `k <= 0`) |
| FlasherCpp.Finish | pad-flasher/src/cpp/main.cpp:139-155 | after the defaults there is at least one device, and every device has a non-zero baud rate |
| FlasherCpp.FinishedHasDevices | pad-flasher/src/cpp/main.cpp:60-163 | a scan that reads every argument ends with at least one device, each with a non-zero baud rate |
| FlasherCpp.ParseCodes | pad-flasher/src/cpp/main.cpp:60-163 | `parseCommandLine` returns 0 or -1, and after reading every argument 0 exactly when a firmware path was given |
| FlasherCpp.HelpReturnsAtOnce | pad-flasher/src/cpp/main.cpp:123-128 | `-h` returns 0 at once, leaving the configuration as it was |
| FlasherCpp.UnknownOptionFails | pad-flasher/src/cpp/main.cpp:132-136 | an unknown argument returns -1 at once |
| FlasherCpp.DeviceBeforeInterfaceFails | pad-flasher/src/cpp/main.cpp:87-136 | `-d PATH` before any `-i` does not take its argument, so the path is read as an unknown option and parsing fails |
| FlasherCpp.InterfaceAppendsOne | pad-flasher/src/cpp/main.cpp:71-86 | a valid `-i` appends exactly one fresh device of that interface, with both flags off, and keeps the others |
| FlasherCpp.ValidateReachesAll | pad-flasher/src/cpp/main.cpp:95-99 | `-v` sets the configuration's flag and the flag of every device present, changing nothing else |
| FlasherCpp.CountCreatesDefaults | pad-flasher/src/cpp/main.cpp:107-122 | `-n k` sets the count to `k`; on an empty device list it creates the default devices, otherwise the list is unchanged |
| FlasherCpp.Closed | pad-flasher/src/cpp/main.cpp:211-216 | closing leaves no open descriptor, and a device without one is left as it was |
| FlasherCpp.AfterRun | pad-flasher/src/cpp/main.cpp:280-325 | after its run a device's descriptor is -1 and nothing else about it has changed |
| FlasherCpp.AttemptsStep | pad-flasher/src/cpp/main.cpp:347-349 | the trace of one more device is the trace so far followed by that device's run |
| FlasherCpp.BatchClosesEveryDevice | pad-flasher/src/cpp/main.cpp:327-353 | since connecting always succeeds, every device is connected, flashed and closed exactly once, in index order |
| FlasherCpp.PadFlasher.constructor | pad-flasher/src/cpp/main.cpp:39-53 | the default configuration: no firmware, every flag off, count 0, no devices |
| FlasherCpp.PadFlasher.ApplyArg | pad-flasher/src/cpp/main.cpp:64-136 | one argument changes the configuration as `Step` does and says where the scan goes on, or how it stopped |
| FlasherCpp.PadFlasher.ApplyValued | pad-flasher/src/cpp/main.cpp:67-131 | the same for the options that take a value |
| FlasherCpp.PadFlasher.SetAllFlags | pad-flasher/src/cpp/main.cpp:97-104 | every device's validation (or recovery) flag is set; the rest of the configuration is unchanged |
| FlasherCpp.PadFlasher.AddDefaults | pad-flasher/src/cpp/main.cpp:111-121 | the device list becomes the `-n` defaults; the rest is unchanged |
| FlasherCpp.PadFlasher.ParseCommandLine | pad-flasher/src/cpp/main.cpp:60-163 | the device list is cleared, then the configuration and the result are those of the argument scan; an invalid number to `std::stoi` aborts the run |
| FlasherCpp.PadFlasher.Complete | pad-flasher/src/cpp/main.cpp:139-162 | applies the defaults and returns -1 exactly when no firmware path was given |
| FlasherCpp.PadFlasher.InitDeviceConnection | pad-flasher/src/cpp/main.cpp:194-209 | always returns 0 and sets that device's descriptor to 1, changing nothing else |
| FlasherCpp.PadFlasher.CloseDeviceConnection | pad-flasher/src/cpp/main.cpp:211-216 | returns 0; an open device gets descriptor -1 and a closed one is left alone |
| FlasherCpp.PadFlasher.ProcessSingleDevice | pad-flasher/src/cpp/main.cpp:280-325 | appends that device's lifecycle trace and leaves the device closed; the settings are unchanged |
| FlasherCpp.PadFlasher.PerformBatchOperation | pad-flasher/src/cpp/main.cpp:327-353 | returns 0 and appends the runs of all devices in index order, each device ending closed |
| FlasherPy.StripRight | pad-flasher/src/python/main.py:140-152 | the text is a prefix of the input that ends in no white space, as `int()` ignores trailing blanks |
| FlasherPy.PyInt | pad-flasher/src/python/main.py:140-152 | `int()` of a string succeeds only when it holds a digit |
| FlasherPy.PyIntOfIntToString | pad-flasher/src/python/main.py:140-152 | `int()` reads back the decimal text of every integer |
| FlasherPy.PyBoolIgnoresCase | pad-flasher/src/python/main.py:141-142 | `getboolean` gives the same answer for a text and its lower-case form |
| FlasherPy.PyBoolOfStr | pad-flasher/src/python/main.py:141-142 | `getboolean` reads `True` and `False`, the texts `str` writes for a boolean, back as that boolean, and no text reads as both true and false |
| FlasherPy.GetAfterPut | pad-flasher/src/python/main.py:150-152 | a section's `get` of a key just stored gives the stored value, other keys keep theirs, and a key that is absent gives the default |
| FlasherPy.ArgDevicesShape | pad-flasher/src/python/main.py:97-119 | with `--device` the list is exactly that one device; without it the existing devices are kept and `num_devices` defaults are appended at `/dev/ttyUSB<i>` (or `COM<i+1>` on Windows); every new device has the command line's interface, baud rate and flags and no connection |
| FlasherPy.Header | pad-flasher/src/python/main.py:137-142 | reading `[batch_config]` changes only the count and the parallel and recovery flags, and ends in 0 or -1 |
| FlasherPy.LoadDevices | pad-flasher/src/python/main.py:144-156 | loading the device sections changes only the device list, and ends in 0 or -1 |
| FlasherPy.LoadDevicesBounded | pad-flasher/src/python/main.py:144-156 | `k` sections add at most `k` devices after the existing ones, each with the configuration's flags and no connection |
| FlasherPy.LoadDevicesComplete | pad-flasher/src/python/main.py:144-156 | when every section `device_1 .. device_k` is present and valid, exactly those `k` devices are appended in order and the load succeeds |
| FlasherPy.LoadBatchReplaces | pad-flasher/src/python/main.py:134-156 | the batch file replaces the device list: never more devices than the count, and none when the file has no device sections |
| FlasherPy.LoadDevicesStops | pad-flasher/src/python/main.py:145-160 | the first invalid number ends the load: later sections change nothing |
| FlasherPy.NoSections | pad-flasher/src/python/main.py:145-147 | without device sections the loop adds nothing and succeeds |
| FlasherPy.Closed | pad-flasher/src/python/main.py:191-197 | closing leaves the device without a connection and changes nothing else |
| FlasherPy.AttemptsStep | pad-flasher/src/python/main.py:310-311 | the trace of one more device is the trace so far followed by that device's run |
| FlasherPy.AfterRunsHoldNothing | pad-flasher/src/python/main.py:251-287 | after the batch no device holds a connection |
| FlasherPy.BatchClosesConnected | pad-flasher/src/python/main.py:289-313 | every device is connected once, in index order, and flashed and closed exactly once when its connection opened |
| FlasherPy.PadFlasher.constructor | pad-flasher/src/python/main.py:30-45 | the default configuration: no firmware, every flag off, count 1, no devices |
| FlasherPy.PadFlasher.ParseArguments | pad-flasher/src/python/main.py:53-126 | returns 0; the configuration takes the parsed values and the devices the command line describes, replaced by the batch file's when `--batch` is given |
| FlasherPy.PadFlasher.AddDefaults | pad-flasher/src/python/main.py:108-119 | appends the `num_devices` default devices and changes nothing else |
| FlasherPy.PadFlasher.LoadBatchConfig | pad-flasher/src/python/main.py:128-162 | a file `configparser` rejects gives -1 with the configuration unchanged; otherwise the configuration and result are those `LoadBatch` gives for the file's sections |
| FlasherPy.PadFlasher.LoadSection | pad-flasher/src/python/main.py:146-156 | one section appends its device, or fails the load on an invalid number |
| FlasherPy.PadFlasher.ReadHeader | pad-flasher/src/python/main.py:134-142 | clears the device list and reads `[batch_config]` as `Header` does |
| FlasherPy.PadFlasher.InitDeviceConnection | pad-flasher/src/python/main.py:164-189 | 0 exactly when the device is not a UART or its serial port opens, then the device holds its connection; -1 otherwise, changing nothing |
| FlasherPy.PadFlasher.CloseDeviceConnection | pad-flasher/src/python/main.py:191-197 | returns 0 and leaves the device without a connection |
| FlasherPy.PadFlasher.ProcessSingleDevice | pad-flasher/src/python/main.py:251-287 | appends that device's lifecycle trace and leaves the device as its run does; the settings are unchanged |
| FlasherPy.PadFlasher.PerformBatchOperation | pad-flasher/src/python/main.py:289-313 | returns 0 and appends the runs of all devices in index order |
| FlasherTool.TrimAllFields | PAD-Flasher/src/main.cpp:152-157 | each field of the list is trimmed of leading and trailing blanks |
| FlasherTool.DeviceListTrimmed | PAD-Flasher/src/main.cpp:149-158 | port `j` of a `-D` list is field `j` of the comma split with its blanks trimmed: it holds no comma and neither starts nor ends with a space or tab |
| FlasherTool.DeviceListCons | PAD-Flasher/src/main.cpp:152-157 | the ports of a list are its first field trimmed, then the ports of the rest after the comma |
| FlasherTool.DeviceListOfJoin | PAD-Flasher/src/main.cpp:149-158 | joining trimmed, non-empty, comma-free ports with commas and parsing the list gives back exactly those ports |
| FlasherTool.Normalised | PAD-Flasher/src/main.cpp:138-144 | the protocol is never empty after normalisation and is already lower case |
| FlasherTool.ScanCollectsPorts | PAD-Flasher/src/main.cpp:79-125 | the ports are those already held followed by the ports of every `-d` and `-D` option, in command-line order |
| FlasherTool.ScanValidation | PAD-Flasher/src/main.cpp:99-101 | validation stays on exactly when no `-s` was given |
| FlasherTool.ParseAccepts | PAD-Flasher/src/main.cpp:127-146 | when the loop reads every option and parsing succeeds, there is a firmware file, at least one port and a non-empty lower-case protocol |
| FlasherTool.BatchModeSucceeds | PAD-Flasher/src/main.cpp:112-164 | `-B` returns true at once, skipping the firmware and port checks |
| FlasherTool.StopOptionFails | PAD-Flasher/src/main.cpp:115-123 | `-V`, `-h` and an unknown option return false at once |
| FlasherTool.BadNumberTerminates | PAD-Flasher/src/main.cpp:93-107 | a `-b` or `-P` argument `std::stoi` cannot read ends the program |
| FlasherTool.FirstFailure | PAD-Flasher/src/main.cpp:224-229 | the first port whose flash fails; every port before it flashed |
| FlasherTool.PadFlasherTool.constructor | PAD-Flasher/src/main.cpp:29-30 | baud rate 115200, validation on, one parallel device, everything else empty or off |
| FlasherTool.PadFlasherTool.ParseDeviceList | PAD-Flasher/src/main.cpp:149-158 | appends the trimmed fields of the list to the ports and changes nothing else |
| FlasherTool.PadFlasherTool.ApplyOption | PAD-Flasher/src/main.cpp:80-124 | one option changes the fields as `Step` does, stops the loop with its result, or ends the program |
| FlasherTool.PadFlasherTool.ParseArguments | PAD-Flasher/src/main.cpp:60-147 | the result and the fields are those `Parse` gives, or the program ends on an unreadable number |
| FlasherTool.PadFlasherTool.Run | PAD-Flasher/src/main.cpp:166-233 | false when the firmware file does not open; otherwise the ports are flashed in order up to and including the first failure, and the run succeeds exactly when none fails |
| FlasherTool.PadFlasherTool.Execute | PAD-Flasher/src/main.cpp:236-248 | the program ends exactly when parsing meets an unreadable number; otherwise the settings are the parsed ones, the exit status is 0 exactly when parsing succeeds, the firmware loads and every port flashes, and the ports attempted grow, only after a successful parse with a loaded firmware, by the ports in order up to and including the first that fails |
| Uart.SpeedFor | PAD-Flasher/src/protocols/uart.cpp:118-133 | a rate has its own speed constant exactly when it is one of 9600, 19200, 38400, 57600, 115200, 230400, 460800 and 921600 |
| Uart.SpeedForIsExact | PAD-Flasher/src/protocols/uart.cpp:119-127 | each supported rate maps to the constant of that very rate, and each constant back to its rate |
| Uart.EffectiveRate | PAD-Flasher/src/protocols/uart.cpp:128-131 | after `get_baud_rate` the rate is always supported: a supported rate is kept and any other becomes 115200 |
| Uart.EffectiveRateIdempotent | PAD-Flasher/src/protocols/uart.cpp:118-133 | calling `get_baud_rate` again changes nothing |
| Uart.Accepted | PAD-Flasher/src/protocols/uart.cpp:89-96 | the write loop never counts more bytes than it was asked to send |
| Uart.SentMeansAllAccepted | PAD-Flasher/src/protocols/uart.cpp:89-99 | `send_data` succeeds exactly when the writes accepted every byte before any error |
| Uart.ZeroWritesStall | PAD-Flasher/src/protocols/uart.cpp:89-96 | when `write` keeps accepting nothing, the loop never finishes |
| Uart.UartProtocol.constructor | PAD-Flasher/src/protocols/uart.cpp:9-10 | the port and rate given, descriptor -1, not connected, nothing sent or closed |
| Uart.UartProtocol.GetBaudRate | PAD-Flasher/src/protocols/uart.cpp:118-133 | returns the constant of the rate, which becomes 115200 when it was unsupported; nothing else changes |
| Uart.UartProtocol.Connect | PAD-Flasher/src/protocols/uart.cpp:12-68 | succeeds exactly when `open`, `tcgetattr` and `tcsetattr` all do; the descriptor is what `open` returned; an opened descriptor is closed again on a failure; the rate is normalised once the attributes are read, and the line speed is set on success |
| Uart.UartProtocol.Disconnect | PAD-Flasher/src/protocols/uart.cpp:70-78 | always true; a connected link with a descriptor closes it and ends with descriptor -1 and no connection; otherwise nothing changes |
| Uart.UartProtocol.SendData | PAD-Flasher/src/protocols/uart.cpp:80-100 | without a connection it fails and sends nothing; otherwise its result is that of the write loop, and exactly the accepted prefix of the data reaches the line |
| Uart.UartProtocol.ReceiveData | PAD-Flasher/src/protocols/uart.cpp:102-116 | succeeds exactly when connected and `read` does not fail, and then delivers what was read, at most `max_length` bytes |
| Uart.UartProtocol.SyncConnection | PAD-Flasher/src/protocols/uart.cpp:135-160 | true exactly when connected, all four sync bytes `7E FF FF 7E` were sent and the reply holds the byte 0x7E |
| Scope.ChannelValuesExact | monitoring/PAD-Scope/src/main.cpp:181-188 | a list is read exactly when `std::stoi` reads every trimmed field, and channel `j` is the number in field `j` |
| Scope.ChannelList | monitoring/PAD-Scope/src/main.cpp:172-189 | `all` gives the eight channels 0 to 7; any other list gives one channel per comma-separated field |
| Scope.ChannelValuesOfInts | monitoring/PAD-Scope/src/main.cpp:181-188 | the decimal texts of channel numbers read back as those numbers |
| Scope.ChannelListRoundTrip | monitoring/PAD-Scope/src/main.cpp:172-189 | the channel list the CSV header writes, read back by `parse_channels`, gives the same channels |
| Scope.IntToStringPlain | monitoring/PAD-Scope/src/main.cpp:173-186 | a channel number's text is never empty, never `all`, has no comma and no blank at either end, so it survives the split and the trim |
| Scope.ScanCollectsChannels | monitoring/PAD-Scope/src/main.cpp:87-135 | the channels are those already held followed by the channels of every `-c` list, in command-line order |
| Scope.ParseValidates | monitoring/PAD-Scope/src/main.cpp:137-169 | once every option is read, parsing succeeds exactly when a device port and at least one channel were given |
| Scope.StopOptionFails | monitoring/PAD-Scope/src/main.cpp:125-133 | `-V`, `-h` and an unknown option return false at once |
| Scope.BadChannelTerminates | monitoring/PAD-Scope/src/main.cpp:187 | a channel field `std::stoi` cannot read ends the program |
| Scope.LeadingDoubleExamples | monitoring/PAD-Scope/src/main.cpp:116-118 | `std::stod` reads ` -2.5`, `.5`, `+INF` and `nan`, and rejects `abc`, `.`, `-` and the empty text |
| Scope.BadTriggerLevelTerminates | monitoring/PAD-Scope/src/main.cpp:116-118 | a `--trigger-level` text `std::stod` cannot read ends the program, whatever follows |
| Scope.FormatNamed | monitoring/PAD-Scope/src/main.cpp:255-266 | an export format is supported exactly when it is `csv`, `wav`, `png` or `bin` |
| Scope.ExportWinsOverDisplay | monitoring/PAD-Scope/src/main.cpp:239-249 | with both an export format and a file the capture exports whatever `--no-gui` says; without them the display opens exactly in display mode |
| Scope.ExportNeedsFileOnlyForCsv | monitoring/PAD-Scope/src/main.cpp:252-274 | only a CSV export depends on the file opening; `wav`, `png` and `bin` always succeed and an unsupported format always fails |
| Scope.LabelsAt | monitoring/PAD-Scope/src/main.cpp:289-291 | column `j` of the header names channel `j` as `Channel_<n>(V)` |
| Scope.ColumnsJoined | monitoring/PAD-Scope/src/main.cpp:288-292 | the column header is `Time(s)` and the channel labels joined by commas |
| Scope.ColumnLineFields | monitoring/PAD-Scope/src/main.cpp:288-292 | splitting the column header at its commas gives back `Time(s)` and one label per channel |
| Scope.PadScope.constructor | monitoring/PAD-Scope/src/main.cpp:33-34 | 1 MHz sampling, no trigger channel, display on, everything else empty; nothing written, nothing launched |
| Scope.PadScope.ParseChannels | monitoring/PAD-Scope/src/main.cpp:172-189 | appends the channels of the list, or ends the program when a field is not a number |
| Scope.PadScope.ParseChannelFields | monitoring/PAD-Scope/src/main.cpp:181-188 | the field loop appends one number per field, or ends the program at the first field that is not one |
| Scope.PadScope.ApplyOption | monitoring/PAD-Scope/src/main.cpp:88-134 | one option changes the settings as `Step` does, stops the loop, or ends the program when `std::stoi` or `std::stod` cannot read its number |
| Scope.PadScope.ParseArguments | monitoring/PAD-Scope/src/main.cpp:66-170 | the result and the settings are those `Parse` gives, or the program ends on a number `std::stoi` or `std::stod` cannot read |
| Scope.PadScope.SetupTrigger | monitoring/PAD-Scope/src/main.cpp:212-226 | always succeeds; the trigger is armed exactly when a trigger channel was given |
| Scope.PadScope.ExportCsv | monitoring/PAD-Scope/src/main.cpp:269-320 | succeeds exactly when the file opens, and then writes the header lines: title, date, sample rate, channel list and column names |
| Scope.PadScope.ExportData | monitoring/PAD-Scope/src/main.cpp:252-267 | the result is that of the chosen format's export; only `csv` writes a file |
| Scope.PadScope.RunCapture | monitoring/PAD-Scope/src/main.cpp:228-250 | exports when a format and a file are given, and otherwise launches the display when display mode is on |
| Scope.PadScope.Execute | monitoring/PAD-Scope/src/main.cpp:365-377 | the program ends exactly when parsing meets an unreadable number; otherwise the settings are the parsed ones, the exit status is 0 exactly when parsing succeeds and the export, if one is chosen, does too, the display is launched exactly when parsing succeeds with no export and GUI mode left on, and the CSV header lines are written exactly when parsing succeeds with a csv export whose file opens; nothing is written or launched when the program ends early |
| Scope.ChannelListText | monitoring/PAD-Scope/src/main.cpp:281-284 | the loop writes the channel numbers joined by commas |
| Scope.ColumnHeader | monitoring/PAD-Scope/src/main.cpp:288-292 | the loop writes the column header line |
| Health.InitialSane | PAD-Health/src/main.cpp:33-35 | the defaults have a 5-second interval and the `text` format, with every flag off |
| Health.ScanSplit | PAD-Health/src/main.cpp:90-151 | the option loop over a prefix that does not stop, then over the rest, is the loop over the whole |
| Health.ParseSane | PAD-Health/src/main.cpp:90-151 | a successful parse keeps the interval at least 1 and the format one of `text`, `json` and `csv` |
| Health.IntervalClamped | PAD-Health/src/main.cpp:104-107 | `-i` stores the number read, raised to 1 when it is smaller |
| Health.ScanMqtt | PAD-Health/src/main.cpp:108-125 | MQTT alerts end up on exactly when they were on before or some option was `-m` or `--enable-mqtt` |
| Health.ScanEmail | PAD-Health/src/main.cpp:112-128 | e-mail alerts end up on exactly when they were on before or some option was `-e` or `--enable-email` |
| Health.StopOptionFails | PAD-Health/src/main.cpp:116-149 | an unknown format, `--stats-report`, `-V`, `-h` and an unknown option make parsing fail at once |
| Health.BadIntervalTerminates | PAD-Health/src/main.cpp:105 | an interval `std::stoi` cannot read ends the program |
| Health.Banner | PAD-Health/src/main.cpp:210-224 | the banner is the start line, then one line each for a device port, MQTT publishing and e-mail alerts when they are set, the device first |
| Health.IterationsShape | PAD-Health/src/main.cpp:227-273 | the loop's output is the CSV header once, before the first reading and only for `csv`, followed by one reading per iteration |
| Health.SingleShot | PAD-Health/src/main.cpp:209-276 | without `--daemon` the monitor prints the banner, the CSV header when the format is `csv`, and exactly one reading |
| Health.PadHealth.constructor | PAD-Health/src/main.cpp:33-35 | the fields start at the defaults and nothing is printed |
| Health.PadHealth.ApplyOption | PAD-Health/src/main.cpp:91-150 | one option changes the fields as `Step` does, stops the loop, or ends the program |
| Health.PadHealth.ParseArguments | PAD-Health/src/main.cpp:68-167 | the result and the fields are those `Parse` gives, or the program ends on an unreadable interval |
| Health.PadHealth.PrintBanner | PAD-Health/src/main.cpp:210-224 | appends the banner lines for the current settings |
| Health.PadHealth.RunMonitoring | PAD-Health/src/main.cpp:209-276 | returns true and appends the banner and the readings: one iteration, or one more than the sleeps in daemon mode |
| Health.PadHealth.MonitoringLoop | PAD-Health/src/main.cpp:227-273 | the loop appends one iteration without `--daemon` and `sleeps + 1` with it |
| Health.PadHealth.Run | PAD-Health/src/main.cpp:278-284 | without a configuration file loading succeeds, with one it succeeds exactly when the file opens; the run succeeds exactly when loading does, and only then monitors |
| Health.PadHealth.Execute | PAD-Health/src/main.cpp:287-299 | the exit status is 0 exactly when parsing succeeds and the configuration loads, and then the output is the monitor's |
| BootManager.Validate | PAD-BootManager/src/main.cpp:124-146 | the checks after the loop always give an ordinary (not early) result |
| BootManager.ValidateRules | PAD-BootManager/src/main.cpp:124-146 | the checks pass exactly when the firmware file is given if and only if rollback is not, and the mode is empty or DFU/UF2 in any case; after a pass the mode is "dfu" or "uf2"; nothing but the mode changes |
| BootManager.ValidateMode | PAD-BootManager/src/main.cpp:135-144 | once the firmware rule holds, an empty mode becomes "dfu" and any other is lower-cased |
| BootManager.ModeIgnoresCase | PAD-BootManager/src/main.cpp:139-140 | two modes that agree after lower-casing are accepted or refused alike |
| BootManager.ScanSplit | PAD-BootManager/src/main.cpp:78-122 | the option loop over a prefix that does not stop, then over the rest, is the loop over the whole |
| BootManager.EarlyReturn | PAD-BootManager/src/main.cpp:104-111 | `-c` ends parsing with the signature check's result and `--list-devices` with success, skipping the checks after the loop |
| BootManager.StopOptionFails | PAD-BootManager/src/main.cpp:112-120 | `-V`, `-h` and an unknown option make parsing fail at once, whatever follows |
| BootManager.BadTimeoutTerminates | PAD-BootManager/src/main.cpp:101-102 | a timeout `std::stoi` cannot read ends the program |
| BootManager.ScanReturns | PAD-BootManager/src/main.cpp:104-120 | only `-c` and `--list-devices` can end the loop with success |
| BootManager.CheckSignatureFlashes | PAD-BootManager/src/main.cpp:104-106 | `-f fw.bin -s fw.sig -c` passes the check and then uploads the firmware with an empty mode, exit status 0 |
| BootManager.ListDevicesExitsOne | PAD-BootManager/src/main.cpp:110-111 | `--list-devices` alone lists the devices and then exits with 1, failing to open an unnamed firmware file |
| BootManager.MainIntended | PAD-BootManager/src/main.cpp:269-281 | `-c` and `--list-devices` touch no device; otherwise the result is that of the program as written |
| BootManager.IntendedUploadsSupportedMode | PAD-BootManager/src/main.cpp:135-144 | in the intended program every upload uses a supported mode |
| BootManager.PadBootManager.constructor | PAD-BootManager/src/main.cpp:28-29 | a 30-second timeout, every flag off, every string empty, no operation done |
| BootManager.PadBootManager.HandleSignatureCheck | PAD-BootManager/src/main.cpp:149-166 | the check passes exactly when a signature file was given |
| BootManager.PadBootManager.ApplyOption | PAD-BootManager/src/main.cpp:79-121 | one option changes the fields as `Step` says, returns from parsing, or ends the program |
| BootManager.PadBootManager.ValidateArguments | PAD-BootManager/src/main.cpp:124-146 | the result and the new mode are those of `Validate` |
| BootManager.PadBootManager.ParseArguments | PAD-BootManager/src/main.cpp:59-147 | the result, whether `-c` or `--list-devices` ended it, and the fields are those `Parse` gives, or the program ends on an unreadable timeout |
| BootManager.PadBootManager.Run | PAD-BootManager/src/main.cpp:256-266 | rollback always rolls back and succeeds; otherwise the firmware is uploaded in the chosen mode, and the run succeeds, exactly when its file opens |
| BootManager.PadBootManager.Execute | PAD-BootManager/src/main.cpp:269-281 | the exit status and the new operations are those of the intended `main`, in which `-c` and `--list-devices` end the program; the operations only grow |
| Logging.RankInjective | PAD-Debugger/src/logger.hpp:16-21 | the four levels have four different ranks, DEBUG lowest and ERROR highest |
| Logging.LevelName | PAD-Debugger/src/logger.hpp:44-50 | each level has a name of at least four letters |
| Logging.LevelNameRoundTrip | PAD-Debugger/src/logger.hpp:44-50 | a level's name reads back as that level, so no two levels share a name |
| Logging.FormatLine | PAD-Debugger/src/logger.hpp:52 | a line is as long as the stamp, the level name and the message plus the seven fixed characters |
| Logging.FormatLineFields | PAD-Debugger/src/logger.hpp:40-52 | a line is `[`, the stamp, `] [`, the level's name, `] `, the message and a newline, and each field reads back from it |
| Logging.WarningsAlwaysEmitted | PAD-Debugger/src/logger.hpp:31-56 | a warning or error is written unless the minimum level is above it, and always to standard error |
| Logging.DefaultRouting | PAD-Debugger/src/logger.hpp:31-91 | at the initial INFO level everything but DEBUG is written, warnings and errors to standard error and the rest to standard output |
| Logging.Logger.constructor | PAD-Debugger/src/logger.hpp:90-92 | the minimum level starts at INFO with no log file open and nothing written |
| Logging.Logger.Log | PAD-Debugger/src/logger.hpp:30-66 | a message below the minimum level is dropped; otherwise its line goes to standard error or standard output by the routing rule, and to the log file when one is open and healthy |
| Logging.Logger.SetLevel | PAD-Debugger/src/logger.hpp:72-74 | the minimum level becomes the one given |
| Logging.Logger.SetLogFile | PAD-Debugger/src/logger.hpp:80-83 | the result is whether a file is open; opening again while one is open fails the stream, leaving it open but unusable |
| Debugger.WatchpointsOf | PAD-Debugger/src/main.cpp:147-155 | an option list adds at most one watchpoint per option |
| Debugger.WatchpointsAppend | PAD-Debugger/src/main.cpp:147-155 | the watchpoints of two option lists in a row are those of the first followed by those of the second |
| Debugger.WatchpointAt | PAD-Debugger/src/main.cpp:147-155 | each `-W`, `-R` or `-A` adds a watchpoint on its target with type write, read or access, at the position given by the watch options before it |
| Debugger.ScanWatchpoints | PAD-Debugger/src/main.cpp:119-169 | a loop that runs to the end appends exactly the options' watchpoints, in order, to those already configured |
| Debugger.ScanVerbose | PAD-Debugger/src/main.cpp:156-158 | after the loop the logger is at DEBUG exactly when some option was `-v`; otherwise its level is unchanged |
| Debugger.ScanSplit | PAD-Debugger/src/main.cpp:119-169 | the option loop over a prefix that does not stop, then over the rest, is the loop over the whole |
| Debugger.StopOptionFails | PAD-Debugger/src/main.cpp:133-167 | `-V`, `-h`, an unknown option and an SWO baud rate `std::stoi` cannot read make parsing fail, whatever follows |
| Debugger.ScanCommand | PAD-Debugger/src/main.cpp:119-169 | no option changes the command |
| Debugger.CommandRules | PAD-Debugger/src/main.cpp:171-182 | the first operand, if any, becomes the command; parsing fails exactly when the command is `debug` without a target ELF file |
| Debugger.DispatchKnown | PAD-Debugger/src/main.cpp:74-87 | when the core's calls succeed, the status is 0 exactly for `debug`, `connect`, `list-rtos` and `config`, and 1 for any other command |
| Debugger.NoCommandShowsUsage | PAD-Debugger/src/main.cpp:63-68 | a successful parse with no operand gives status 0 without running a command |
| Debugger.DebuggerConfig.constructor | PAD-Debugger/src/debugger_core.hpp:70-81 | the defaults: SWD, CMSIS-DAP, SWO off, no timeline, no watchpoints, 4000 kHz, the strings empty |
| Debugger.ApplyOption | PAD-Debugger/src/main.cpp:120-168 | one option changes the configuration and the logger level as `Step` says, or stops the loop |
| Debugger.ParseArguments | PAD-Debugger/src/main.cpp:98-183 | the result, the configuration and the logger level are those `Parse` gives |
| Debugger.Execute | PAD-Debugger/src/main.cpp:43-93 | the exit status is that of `main` (1 when SDL fails to start, before any parsing); the logger keeps the level parsing left, its file state is unchanged, and its output grows by exactly the two INFO greeting lines, routed by the level it had before, or by nothing when SDL fails |
| CoreFiles.Dispatch | pad-corebuilder/src/c/main.c:178-197 | a template is applied exactly when it is given with an MCU and an output; generation happens exactly when MCU, output and template type are given and no template, validation or pin map is asked for |
| CoreFiles.ApplyWins | pad-corebuilder/src/c/main.c:178-181 | with a template to apply, an MCU and an output, validation, a pin map and the template type are ignored |
| CoreFiles.ValidateNeedsMcu | pad-corebuilder/src/c/main.c:183-185 | without an MCU, `--validate` has no effect and neither validation, generation nor a template can follow |
| CoreFiles.PinMapPrecedence | pad-corebuilder/src/c/main.c:178-189 | a pin map is checked exactly when neither a template application nor MCU validation came first |
| CoreFiles.GeneratedPathsDiffer | pad-corebuilder/src/cpp/main.cpp:75-88 | the core file's path is one character longer than the header's, so the two never coincide |
| CoreFiles.CoreLines | pad-corebuilder/src/c/main.c:72-76 | the core file has six lines |
| CoreFiles.HeaderLines | pad-corebuilder/src/c/main.c:84-88 | the header has six lines |
| CoreFiles.TemplateLines | pad-corebuilder/src/c/main.c:107-112 | the applied template has seven lines |
| CoreFiles.IncludeOfLine | pad-corebuilder/src/c/main.c:73-108 | an include line reads back as the file name it includes |
| CoreFiles.TemplateIncludesHeader | pad-corebuilder/src/c/main.c:85-108 | the applied template includes exactly `<mcu>_hal.h`, the header generation writes for that MCU |
| CoreFiles.CoreIncludesOtherName | pad-corebuilder/src/c/main.c:73-81 | the core file includes `hal_<mcu>.h`, which is the header written beside it only when the MCU name starts with "hal" |
| CoreFiles.HalNamesCoincide | pad-corebuilder/src/c/main.c:73-81 | for the MCU name "hal" the included name and the written header's name are the same |
| CoreFiles.GuardConsistent | pad-corebuilder/src/c/main.c:85-88 | the `#ifndef`, `#define` and `#endif` lines name the same macro `HAL_<guard>_H_` |
| CoreFiles.PrototypeMatchesDefinition | pad-corebuilder/src/c/main.c:74-87 | the header declares exactly the `init_<mcu>` function the core file defines |
| CoreBuilderC.PathBuffer | pad-corebuilder/src/c/main.c:68-81 | a path built into the 512-byte buffer keeps at most 511 characters, is a prefix of the intended path, and is the whole path when it fits |
| CoreBuilderC.GenerateCoreWrites | pad-corebuilder/src/c/main.c:53-95 | when the files open, two files are written, the core file's lines then the header's with the MCU name as guard; otherwise none |
| CoreBuilderC.Perform | pad-corebuilder/src/c/main.c:178-197 | the status is 1 exactly for missing arguments, a missing pin-map file or, with the corrected path check, a core path longer than 511 characters, else 0; files are written exactly when a template is applied or a core is generated successfully and the files open |
| CoreBuilderC.ScanSplit | pad-corebuilder/src/c/main.c:145-176 | the option loop over a prefix that does not stop, then over the rest, is the loop over the whole |
| CoreBuilderC.HelpAndBadOptionExit | pad-corebuilder/src/c/main.c:169-174 | `-h` exits with 0 and an unknown option with 1, whatever follows, writing nothing |
| CoreBuilderC.EmptyMcuGenerates | pad-corebuilder/src/c/main.c:124-191 | an empty `-m` argument still counts as given: `-m "" -o cores -t arduino` writes `cores/_core.c` and `cores/_hal.h` |
| CoreBuilderC.TruncatedPathsCollide | pad-corebuilder/src/c/main.c:68-81 | a 300-character output directory and a 240-character MCU name make both paths the same 511 characters, so the header overwrites the core file |
| CoreBuilderC.CheckedPathsDistinct | pad-corebuilder/src/c/main.c:68-81 | with the path length checked, generation fails exactly when the path does not fit, and otherwise writes two files at two different, untruncated paths |
| CoreBuilderC.Run | pad-corebuilder/src/c/main.c:121-198 | the exit status and the files written are those of `Main`, which uses the corrected path check |
| CoreBuilderCpp.GenerateCoreWrites | pad-corebuilder/src/cpp/main.cpp:62-103 | when the files open, two files are written, the core file's lines then the header's with the MCU name as guard; otherwise none |
| CoreBuilderCpp.GeneratedFilesDistinct | pad-corebuilder/src/cpp/main.cpp:75-88 | the two generated files are at their exact, different paths |
| CoreBuilderCpp.Perform | pad-corebuilder/src/cpp/main.cpp:189-208 | the status is 1 exactly for missing arguments or a missing pin-map file, else 0; files are written exactly when a template or a core is generated and the files open |
| CoreBuilderCpp.ScanSplit | pad-corebuilder/src/cpp/main.cpp:156-187 | the option loop over a prefix that does not stop, then over the rest, is the loop over the whole |
| CoreBuilderCpp.HelpAndBadOptionExit | pad-corebuilder/src/cpp/main.cpp:180-185 | `-h` exits with 0 and an unknown option with 1, whatever follows, writing nothing |
| CoreBuilderCpp.ScanAgrees | pad-corebuilder/src/cpp/main.cpp:156-187 | when no option has an empty argument, the C++ and C loops stop with the same status or end with the same request |
| CoreBuilderCpp.DispatchAgrees | pad-corebuilder/src/cpp/main.cpp:189-208 | so without empty arguments the C++ and C programs choose the same action |
| CoreBuilderCpp.EmptyMcuMissing | pad-corebuilder/src/cpp/main.cpp:202-206 | `-m "" -o cores -t arduino` counts as missing the MCU: status 1, no files |
| CoreBuilderCpp.Run | pad-corebuilder/src/cpp/main.cpp:131-209 | the exit status and the files written are those of `Main` |
| CoreBuilderPy.GenerateCoreWrites | pad-corebuilder/src/python/main.py:63-96 | two files are written, the core file's lines then the header's with the upper-cased MCU name as guard |
| CoreBuilderPy.Perform | pad-corebuilder/src/python/main.py:145-159 | a file that cannot be opened raises exactly for a template or a generation; otherwise the status is 1 exactly for missing arguments or a missing pin-map file |
| CoreBuilderPy.HelpFirst | pad-corebuilder/src/python/main.py:140-142 | `--help` gives status 0 and no files, whatever else was given |
| CoreBuilderPy.SameRequestAsCpp | pad-corebuilder/src/python/main.py:145-159 | Python's truth test and the C++ emptiness test make the same request, so both choose the same action |
| CoreBuilderPy.HeaderGuardDetermines | pad-corebuilder/src/python/main.py:89-92 | two headers for one MCU are equal exactly when their guards are |
| CoreBuilderPy.GuardMatchesCppIff | pad-corebuilder/src/python/main.py:89-92 | the Python header equals the C++ one exactly when the MCU name has no lower-case ASCII letter |
| CoreBuilderPy.LowerCaseGuard | pad-corebuilder/src/python/main.py:89 | "stm32f4" gets the guard `HAL_STM32F4_H_` |

## Left out

- Sleeps, progress printing, usage, version and banner text are left out: they are timing and output only. Where the tools print a result that matters (the Health readings, the Scope CSV header), the model records it as lines.
- `pad_sleep_ms` and `pad_get_timestamp_ms` in `lib/pad_common.c` are clock access and are not modelled. `pad_free` only passes its pointer to `free`, and there is no heap in the model.
- The floating-point parts are left out: `pad_config_set_float`/`get_float`, the value of the PAD-Scope trigger level and the sample rows, and the PAD-Health readings and alert thresholds. A Health reading is a line that records only its format and iteration. Whether `std::stod` can read the trigger level at all is modelled (`Scope.LeadingDouble`).
- Scope.PadScope.ParseArguments: a `--trigger-level` that `std::stod` reads but whose value a `double` cannot hold (`1e999`) throws `std::out_of_range` and ends the program. The model does not evaluate the number and lets it pass, in `Scope.Step`, `Scope.PadScope.ApplyOption` and `Scope.PadScope.Execute` alike.
- `atoi` and `std::stoi` are modelled as reading a leading decimal integer. Overflow is not modelled, and neither is `std::out_of_range`. A value that `std::stoi` cannot read ends the program, except in PAD-Debugger, which catches it.
- Python `argparse` and `configparser` are taken as having run already. Their results (a namespace, a map of sections) are the inputs, so their own error messages, the exit status 2 and the `int()` forms with underscores are not modelled. A batch file that `configparser` rejects is an input of its own (`None`), and `load_batch_config` then returns -1 with the devices untouched.
- Threads and the parallel branches of the C++ and Python flashers are not modelled; only the sequential order is. PAD-Flasher only prints a parallel count (the smaller of `--parallel` and the number of ports), and that printed line is left out with the rest of the output.
- The simulated flash, recovery and checksum stages, and the serial port opening of the Python flasher, are parameters. In the source they mostly always succeed.
- The termios settings written by `UARTProtocol::connect` (character size, parity, flags) are not modelled. Only whether `tcgetattr`/`tcsetattr` succeed and the chosen line speed are.
- Uart.UartProtocol.SendData: the write loop is given a finite list of `write` results. When the list runs out before every byte is accepted, the outcome is `Stalled`, where the source would go on calling `write` indefinitely.
- Creating the output directory (`mkdir -p` through `system`, `create_directories`, `Path.mkdir`) is not modelled. Neither is the 512-byte truncation of that command in the C core builder. Files written are `Write` records of a path and lines.
- Python `pathlib` joins paths with one `/` and normalises them. The model joins the output directory, `/` and the file name as plain text.
- `str.upper()` in the Python core builder is modelled for ASCII letters only.
- SDL, the debugger core and the RTOS integration have declarations only in this repository and are not part of this model. Whether SDL starts and the results of a debug session and of a target connection are parameters.
- The PAD-Health daemon loop runs until the process is stopped. The model takes the number of completed sleeps as a parameter, so a daemon run performs one more iteration than that. `--stats-report`, `*-only` output selection and verbose output are modelled only through their effect on parsing.
- `--secure-boot` in PAD-BootManager only prints a message, and the model only lets it pass through the option loop.
- `lib/pad_serial.c`, `lib/pad_network.c`, the SDL and pygame demo programs and the bootloader handlers that only print are not part of this model.
- PadCrypto: the byte order in which `pad_derive_key` and `pad_verify_signature` read a 32-bit word depends on the host. The model fixes it to little-endian.
- CoreBuilderC.GenerateCoreWrites: one `writable` flag says whether both generated files open, and the same holds in CoreBuilderCpp and CoreBuilderPy. A core file that opens beside a header that does not is not represented: the C and C++ programs would then write the core file alone and still return 0, and the Python one would write it and then raise.
- PadConfig.ConfigStore.SetString: with keys of 64 characters or more the stored names can repeat (`PadConfig.LongKeyDuplicates`), so `ConfigStore.Valid` does not promise unique names. Unique names are proved for keys that fit the name field (`PadConfig.SetKeepsNamesUnique`) and for the comparison of keys as stored (`PadConfig.SetStoredKeepsNamesUnique`).

## Findings

| source | as written | input that shows it | evidently intended | confidence | as-written member | corrected member |
|---|---|---|---|---|---|---|
| pad-flasher/src/c/main.c:168-172 | every `-d` increments `device_count` and `num_devices`, even past `MAX_DEVICES` (8), and the later loops index `devices[num_devices - 1]` | nine `-d` options | count devices only while a slot is free, so that at most eight are configured | not executed | FlasherC.NinthDeviceOverflows | FlasherC.CappedDeviceCount |
| PAD-BootManager/src/main.cpp:104-111 | `-c` and `--list-devices` return true from `parse_arguments`, and `main` then goes on to `run`: it uploads after a signature check, and fails after listing | `-f fw.bin -s fw.sig -c`; `--list-devices` | `-c` only checks the signature and `--list-devices` only lists, each ending the program with its own result | not executed | BootManager.CheckSignatureFlashes | BootManager.MainIntended |
| pad-corebuilder/src/c/main.c:68-81 | the core and header paths are built with `snprintf` into 512-byte buffers and silently cut to 511 characters, so both can become the same path | a 300-character output directory and a 240-character MCU name | refuse paths that do not fit, so the two files stay distinct | not executed | CoreBuilderC.TruncatedPathsCollide | CoreBuilderC.CheckedPathsDistinct |
