# LK8000: BLE serial port lifecycle and MD5 hex digest, in Dafny

This project models two pieces of the LK8000 flight computer.

**The Bluetooth Low Energy serial port** is `BluetoothGattClientPort` on Android
(`gatt_client_port.dfy`, module `GattPort`). The port talks to an HM-10 style
serial-over-BLE module. Its lifecycle is driven by the Android GATT callbacks:

- a CONNECTED event starts service discovery, and a DISCONNECTED event outside
  shutdown starts a reconnect;
- a successful discovery asks for an MTU of 85 from SDK 21 on, and below that
  configures the characteristics at once;
- a granted MTU sets the chunk size to `mtu - 3` and configures the characteristics;
- configuration looks up the RX/TX and device-name characteristics, enables
  notifications, and ends the port in `READY` or `FAILED`.

The class keeps the source's own fields: `portState`, both characteristic
handles, `maxChunkSize`, `shutdown`, `gattState`, the scan callback, the `gatt`
handle and both listeners. No method changes a field outside its `modifies`
clause.

Calls the port makes into Android, into the HM-10 write buffer and into its
listeners are appended, in order, to a field `effects`. Where the port uses what
such a call returns, that return value is a parameter of the method:

- `discoverServices()` and `connect()`;
- `setCharacteristicNotification`;
- `connectGatt`, which may also throw a `SecurityException`;
- `getType()`, which may also throw a `SecurityException`;
- the write buffer's `write` and `drain`.

The services the remote server offers are a map from service UUID to
characteristic UUID to descriptor UUIDs. The invariant `Valid()` holds
throughout: `READY` only with both characteristics resolved, and each resolved
characteristic is the one the port looked for. Module-level methods drive a
fresh port through whole callback sequences:

- a connection that ends `READY` with 82-byte chunks;
- a refused MTU exchange;
- a link loss followed by `close()`;
- the LE scan for a device of unknown type;
- notifications reaching the input listener.

**MD5 initialisation and hex output** come from `Common/Source/utils/md5.cpp`
(`md5.dfy`, module `Md5`).

- `MD5_Base` keeps the four chaining words A, B, C, D. The keyed `Init`
  overwrites them with the four keys.
- `MD5::Final` reads each byte of the 16-byte digest through a plain `char` and
  appends `Digit[(c & 0xF0) >> 4]`, then `Digit[(c & 0x0F) >> 0]`.
  - The model keeps that loop, with the C integer promotion written out in
    32-bit bit-vectors.
  - Whether `char` is signed is a parameter.
  - The loop is proved equal to a pure hex encoder, `HexEncode`.
  - `HexEncode` is proved to produce lower-case digits and to have an inverse,
    `HexDecode`.
  - The unit test's four expected strings are proved to be the encodings of the
    corresponding digests.

Three behaviours of the code that the model keeps:

- A CONNECTED event keeps the characteristic handles. Only the other link
  states clear them.
- A DISCONNECTED event during shutdown leaves the port in `LIMBO`.
- A refused MTU exchange, that is `onMtuChanged` with a non-success status,
  changes nothing. The port then stays in `LIMBO` with no further transition
  from this sequence (`MtuExchangeRefused`).

## Model

| member | source | states |
|---|---|---|
| `GattPort.DeviceType` | android/src/org/LK8000/BluetoothGattClientPort.java:92-99 | the device's reported type, or DEVICE_TYPE_UNKNOWN when reading it throws a SecurityException |
| `GattPort.IsUnknownType` | android/src/org/LK8000/BluetoothGattClientPort.java:101-103 | a device counts as known exactly when it reports DEVICE_TYPE_LE; classic, dual, unknown and unreadable devices are all "unknown" |
| `GattPort.Lookup` | android/src/org/LK8000/BluetoothGattClientPort.java:152-160 | a characteristic is found iff its service exists and offers it; the result carries the service, the UUID and that characteristic's descriptors |
| `GattPort.BluetoothGattClientPort.constructor` | android/src/org/LK8000/BluetoothGattClientPort.java:73-133 | initial fields (LIMBO, chunk size 20, link DISCONNECTED, no handles, not shut down); an unknown-type device starts an LE scan for its address and is not connected, any other device is connected to with connectGatt |
| `GattPort.BluetoothGattClientPort.StartLeScan` | android/src/org/LK8000/BluetoothGattClientPort.java:105-115 | registers and starts a scan for the address only when no scan callback is registered; otherwise nothing changes |
| `GattPort.BluetoothGattClientPort.StopLeScan` | android/src/org/LK8000/BluetoothGattClientPort.java:117-123 | the callback is null afterwards, and the platform scan is stopped iff one was registered |
| `GattPort.BluetoothGattClientPort.OnScanResult` | android/src/org/LK8000/BluetoothGattClientPort.java:107-112 | a result for another address changes nothing; one for the awaited address stops the scan and then connects to that device |
| `GattPort.BluetoothGattClientPort.ConnectDevice` | android/src/org/LK8000/BluetoothGattClientPort.java:135-145 | connectGatt is called with auto-connect, over the LE transport exactly from SDK 23 (M) on; the returned handle becomes `gatt`, and a SecurityException leaves `gatt` unchanged |
| `GattPort.BluetoothGattClientPort.FindCharacteristics` | android/src/org/LK8000/BluetoothGattClientPort.java:147-177 | both handles are looked up afresh (both null with no open connection); true iff both were found, i.e. iff the server offers both characteristics; found handles have the expected service and UUID |
| `GattPort.BluetoothGattClientPort.OnConnectionStateChange` | android/src/org/LK8000/BluetoothGattClientPort.java:181-206 | CONNECTED requests discovery, keeps the handles and ends FAILED iff discovery is refused; any other state nulls both handles and ends FAILED iff it is DISCONNECTED, not shutting down and the reconnect is refused, reconnecting only in that DISCONNECTED case; always clears the buffer, notifies the listener once, records newState as gattState and never ends in READY |
| `GattPort.BluetoothGattClientPort.OnServicesDiscovered` | android/src/org/LK8000/BluetoothGattClientPort.java:210-224 | success resets the chunk size to 20 and either requests MTU 85 (SDK 21 and later, nothing else changes) or configures the characteristics at once; failure sets FAILED and notifies, and changes nothing else |
| `GattPort.BluetoothGattClientPort.OnMtuChanged` | android/src/org/LK8000/BluetoothGattClientPort.java:227-233 | success sets the chunk size to mtu - 3 in 32-bit wrap-around arithmetic and configures the characteristics; failure leaves every field and the effect log unchanged |
| `GattPort.BluetoothGattClientPort.ConfigureCharacteristics` | android/src/org/LK8000/BluetoothGattClientPort.java:236-256 | ends READY iff both characteristics are found and notification is enabled, FAILED otherwise; the notification descriptor is written only when it exists, and a missing descriptor still gives READY; the listener is notified exactly once |
| `GattPort.BluetoothGattClientPort.OnCharacteristicRead` | android/src/org/LK8000/BluetoothGattClientPort.java:259-262 | resumes the write buffer with the callback's connection and the current data characteristic |
| `GattPort.BluetoothGattClientPort.OnCharacteristicWrite` | android/src/org/LK8000/BluetoothGattClientPort.java:265-276 | an acknowledged write makes the buffer begin the next chunk; a failed one sets the buffer's error flag |
| `GattPort.BluetoothGattClientPort.OnCharacteristicChanged` | android/src/org/LK8000/BluetoothGattClientPort.java:279-290 | the value goes to the input listener, unchanged and with its exact length, iff the data characteristic is resolved, has the notified UUID, a listener is set and the value is non-empty; otherwise nothing happens |
| `GattPort.BluetoothGattClientPort.SetListener` | android/src/org/LK8000/BluetoothGattClientPort.java:292-294 | replaces the port-state listener and nothing else |
| `GattPort.BluetoothGattClientPort.SetInputListener` | android/src/org/LK8000/BluetoothGattClientPort.java:297-299 | replaces the input listener and nothing else |
| `GattPort.BluetoothGattClientPort.Close` | android/src/org/LK8000/BluetoothGattClientPort.java:303-313 | afterwards the scan callback is null, shutdown is set, the buffer was cleared and `gatt` is null; an open connection is disconnected and then closed |
| `GattPort.BluetoothGattClientPort.GetState` | android/src/org/LK8000/BluetoothGattClientPort.java:335-337 | returns the current port state without changing anything |
| `GattPort.BluetoothGattClientPort.Drain` | android/src/org/LK8000/BluetoothGattClientPort.java:340-342 | delegates to the write buffer's drain and returns its answer |
| `GattPort.BluetoothGattClientPort.GetBaudRate` | android/src/org/LK8000/BluetoothGattClientPort.java:345-347 | always 0 |
| `GattPort.BluetoothGattClientPort.SetBaudRate` | android/src/org/LK8000/BluetoothGattClientPort.java:350-352 | always succeeds and changes nothing |
| `GattPort.BluetoothGattClientPort.Write` | android/src/org/LK8000/BluetoothGattClientPort.java:355-359 | hands data and length to the write buffer with the open connection, both characteristics and the current chunk size, and returns the buffer's count |
| `GattPort.BluetoothGattClientPort.StateChanged` | android/src/org/LK8000/BluetoothGattClientPort.java:361-365 | portStateChanged is called once if a port listener is set, never otherwise |
| `GattPort.ConnectLeDevice` | android/src/org/LK8000/BluetoothGattClientPort.java:181-256 | connect, discover and a granted MTU of 85 give 82-byte chunks, and READY iff the server offers both characteristics and notification is enabled, FAILED otherwise |
| `GattPort.ConnectLeDeviceWithoutMtu` | android/src/org/LK8000/BluetoothGattClientPort.java:210-224 | below SDK 21 discovery configures directly: READY with the default 20-byte chunks and no MTU request ever made |
| `GattPort.MtuExchangeRefused` | android/src/org/LK8000/BluetoothGattClientPort.java:227-233 | after a refused MTU exchange the port remains in LIMBO with 20-byte chunks |
| `GattPort.LinkLossThenClose` | android/src/org/LK8000/BluetoothGattClientPort.java:181-313 | a READY port that loses its link has no handles and is LIMBO iff the reconnect is accepted, else FAILED; close then disconnects and closes the connection, and a later DISCONNECTED event only clears the buffer, with no reconnect, leaving LIMBO |
| `GattPort.ScanForUnknownDevice` | android/src/org/LK8000/BluetoothGattClientPort.java:101-133 | a device whose type cannot be read is scanned for; a result for another address is ignored, and the matching one stops the scan and connects, leaving the port connected and no longer scanning |
| `GattPort.ScanForClassicOrDualDevice` | android/src/org/LK8000/BluetoothGattClientPort.java:92-133 | a classic or dual-mode device is scanned for, not connected to: the only call made is the scan start, no connection is open and a scan callback is registered |
| `GattPort.TransientLinkStates` | android/src/org/LK8000/BluetoothGattClientPort.java:181-206 | on a READY port, a DISCONNECTING and then a CONNECTING event each null the handles and leave LIMBO, record CONNECTING as the link state, and ask for neither discovery nor a reconnect: the only calls are two buffer clears |
| `GattPort.NotificationReachesListener` | android/src/org/LK8000/BluetoothGattClientPort.java:279-290 | on a READY port a notification of the data characteristic is delivered once, with its exact value and length, iff it is non-empty; a notification of another characteristic is never delivered |
| `Md5.Md5Base.constructor` | Common/Source/utils/md5.cpp:13-16 | a new context holds the standard initial words of RFC 1321, section 3.3 |
| `Md5.Md5Base.Keyed` | Common/Source/utils/md5.cpp:18-21 | a keyed context holds key1..key4 as A..D |
| `Md5.Md5Base.Init` | Common/Source/utils/md5.cpp:23-26 | restores the standard initial words |
| `Md5.Md5Base.InitKeyed` | Common/Source/utils/md5.cpp:28-35 | A, B, C, D become key1, key2, key3, key4 respectively, whatever they held before |
| `Md5.KeyedWithStandardWords` | Common/Source/utils/md5.cpp:13-21 | keying with the standard words gives the same context as the unkeyed constructor |
| `Md5.DigitTable` | Common/Source/utils/md5.cpp:49-52 | the table has 16 entries, and entry k is the k-th lower-case hex digit |
| `Md5.DigitValue` | Common/Source/utils/md5.cpp:49-52 | inverse of the table: a character has a value iff it is one of the sixteen digits, and that value indexes it |
| `Md5.CharValue` | Common/Source/utils/md5.cpp:60 | `char c` holds the byte's value modulo 256, in -128..127 where char is signed and 0..255 otherwise |
| `Md5.PromoteIsTwosComplement` | Common/Source/utils/md5.cpp:60-62 | the int that `c` is promoted to before masking is the 32-bit two's-complement image of c's value |
| `Md5.HighIndex` | Common/Source/utils/md5.cpp:61 | `(c & 0xF0) >> 4` is in 0..15 even for a negative char |
| `Md5.LowIndex` | Common/Source/utils/md5.cpp:62 | `(c & 0x0F) >> 0` is in 0..15 even for a negative char |
| `Md5.NibbleIndices` | Common/Source/utils/md5.cpp:61-62 | the two indices are the byte's high and low nibble, whether char is signed or not |
| `Md5.HexEncode` | Common/Source/utils/md5.cpp:57-63 | two characters per byte |
| `Md5.HexEncodeAt` | Common/Source/utils/md5.cpp:60-63 | characters 2i and 2i+1 are the digits of byte i's high and low nibble, in byte order |
| `Md5.HexEncodeIsLowerHex` | Common/Source/utils/md5.cpp:49-63 | every output character is one of the sixteen in `Digit` |
| `Md5.HexDecode` | Common/Source/utils/md5.cpp:60-63 | reading pairs back as 16*hi+lo gives half as many bytes as characters |
| `Md5.DecodeEncode` | Common/Source/utils/md5.cpp:60-63 | round trip: decoding the hex text recovers the bytes |
| `Md5.EncodeDecode` | Common/Source/utils/md5.cpp:60-63 | every text that decodes is exactly the encoding of the bytes it decodes to |
| `Md5.HexEncodeInjective` | Common/Source/utils/md5.cpp:60-63 | distinct digests give distinct strings |
| `Md5.Final` | Common/Source/utils/md5.cpp:47-65 | the loop yields 32 characters that equal the hex encoding of the 16 digest bytes, are all lower-case hex digits, and decode back to the digest, for signed and unsigned char alike |
| `Md5.EmptyInputDigestText` | Common/Source/utils/md5.cpp:71-72 | the digest of the empty input encodes as d41d8cd98f00b204e9800998ecf8427e |
| `Md5.TestDigestText` | Common/Source/utils/md5.cpp:74-75 | the digest of "test" encodes as 098f6bcd4621d373cade4e832627b4f6 |
| `Md5.Test123DigestText` | Common/Source/utils/md5.cpp:77-78 | the digest of "test123" encodes as cc03e747a6afbbcbf8be7668acfebee5 |
| `Md5.Test1234DigestText` | Common/Source/utils/md5.cpp:80-81 | the digest of "test1234" encodes as 16d7a4fca7442dda3ad93c9a726597e4 |

## Left out

- `waitForClose` (android/src/org/LK8000/BluetoothGattClientPort.java:315-332) is a bounded wait on a wall clock with wait/notify. `Close` goes straight from `disconnect()` to `close()`.
- Concurrency is not modelled: `synchronized`, `volatile` and `notifyAll`. Each method is one atomic step, and the interleaving of caller threads with the callback thread is not represented.
- The internals of `HM10WriteBuffer` are not part of this model: chunk slicing, the in-flight and error flags, and the blocking drain. Only the calls the port makes into it are recorded, and the results of `write` and `drain` are parameters.
- Logging (`Log.e`, `Log.w`, `printStackTrace`) and the Android `Context` have no effect on the model.
- `getService` returns the first service with a given UUID. The model's service map holds one service per UUID.
- The model records `writeDescriptor` but not its return value, which the source ignores. It also does not model `requestMtu`'s return value, which the source ignores as well.
- In `findCharacteristics`, the only exception modelled is the one from a null `gatt`. Other exceptions caught by `catch (Exception e)` are not.
- `OnCharacteristicChanged` takes the notified value as a sequence. A null `getValue()` would throw a NullPointerException, and that case is not modelled.
- The numeric values of `AndroidPort`'s port states are not modelled, because that interface is not part of this model. They appear as the datatype `PortState`.
- The MD5 compression is not part of this model: `md5_init_ctx`'s byte counter and buffer, `md5_process_bytes`, `md5_finish_ctx`, and `MD5_Base::Update`.
  - `Final` takes the 16 bytes that `md5_finish_ctx` writes into `resbuf` as its input.
  - The unit-test lemmas start from the standard MD5 digests of "", "test", "test123" and "test1234". That the compression produces those bytes is not proved.
- `Md5.Md5Base`: only the words A to D of the context are modelled.
