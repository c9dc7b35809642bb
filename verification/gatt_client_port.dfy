/**
 * Model of LK8000's Bluetooth Low Energy serial port
 * (android/src/org/LK8000/BluetoothGattClientPort.java): the connection
 * lifecycle driven by the GATT callbacks, the characteristic lookup, the LE
 * scan used for devices of unknown type, and the hand-off of writes to the
 * HM-10 write buffer.
 *
 * Every call into Android (connectGatt, discoverServices, connect,
 * requestMtu, setCharacteristicNotification, writeDescriptor, disconnect,
 * close, the LE scanner) and into the write buffer and the listeners is
 * recorded, in order, in the field `effects`; where the port uses the result
 * of such a call, that result is a parameter of the method.
 */
module GattPort {
  import opened Wrappers

  /** Java `int`. */
  newtype int32 = x: int | -0x8000_0000 <= x < 0x8000_0000

  /** Java `byte`. */
  newtype int8 = x: int | -0x80 <= x < 0x80

  /** A 128-bit Bluetooth UUID, as a number. */
  type Uuid = nat

  type Address = string

  /** Identity of a `BluetoothGatt` object handed out by connectGatt. */
  type GattHandle = nat

  /** Identity of a registered PortListener or InputListener. */
  type ListenerId = nat

  const GENERIC_ACCESS_SERVICE: Uuid := 0x0000_1800_0000_1000_8000_0080_5F9B_34FB
  const DEVICE_NAME_CHARACTERISTIC_UUID: Uuid := 0x0000_2A00_0000_1000_8000_0080_5F9B_34FB
  /** The HM-10 module's data service and its RX/TX characteristic. */
  const HM10_SERVICE: Uuid := 0x0000_FFE0_0000_1000_8000_0080_5F9B_34FB
  const RX_TX_CHARACTERISTIC_UUID: Uuid := 0x0000_FFE1_0000_1000_8000_0080_5F9B_34FB
  /** The client characteristic configuration descriptor of the RX/TX characteristic. */
  const RX_TX_DESCRIPTOR_UUID: Uuid := 0x0000_2902_0000_1000_8000_0080_5F9B_34FB

  /** BluetoothProfile connection states. */
  const STATE_DISCONNECTED: int32 := 0
  const STATE_CONNECTING: int32 := 1
  const STATE_CONNECTED: int32 := 2
  const STATE_DISCONNECTING: int32 := 3

  const GATT_SUCCESS: int32 := 0

  /** BluetoothDevice types. */
  const DEVICE_TYPE_UNKNOWN: int32 := 0
  const DEVICE_TYPE_CLASSIC: int32 := 1
  const DEVICE_TYPE_LE: int32 := 2
  const DEVICE_TYPE_DUAL: int32 := 3

  /** Build.VERSION_CODES used by the port. */
  const LOLLIPOP: int := 21
  const M: int := 23

  /** Chunk size before any MTU exchange: the default ATT MTU of 23, less 3 bytes of header. */
  const DefaultChunkSize: int32 := 20
  /** MTU requested after discovery: an 82-character NMEA sentence plus 3 bytes of header. */
  const RequestedMtu: int32 := 85

  /** BluetoothGattDescriptor.ENABLE_NOTIFICATION_VALUE. */
  const EnableNotificationValue: seq<int8> := [0x01, 0x00]

  /** AndroidPort's port states. */
  datatype PortState = Limbo | Ready | Failed

  /** A remote device: its address and what getType() reports (None: it threw a SecurityException). */
  datatype Device = Device(address: Address, reportedType: Option<int32>)

  /** A characteristic as the GATT server reports it: its service, its UUID, its descriptors. */
  datatype Characteristic = Characteristic(service: Uuid, uuid: Uuid, descriptors: set<Uuid>)

  /** The services of the remote GATT server: service UUID to characteristic UUID to descriptor UUIDs. */
  type GattDatabase = map<Uuid, map<Uuid, set<Uuid>>>

  /** The LE scan callback registered by startLeScan, which waits for `address`. */
  datatype ScanCallback = ScanCallback(address: Address)

  /** How connectGatt ended: it returned a (possibly null) handle, or threw a SecurityException. */
  datatype ConnectOutcome = Returned(result: Option<GattHandle>) | SecurityDenied

  /** One call the port makes into Android, the write buffer or a listener. */
  datatype Effect =
    | StartScan(scan: ScanCallback)
    | StopScan(scan: ScanCallback)
    | ConnectGatt(address: Address, autoConnect: bool, transportLe: bool)
    | DiscoverServices(gatt: GattHandle)
    | Reconnect(gatt: GattHandle)
    | RequestMtu(gatt: GattHandle, mtu: int32)
    | EnableNotification(gatt: GattHandle, characteristic: Characteristic)
    | WriteDescriptor(gatt: GattHandle, characteristic: Characteristic, descriptor: Uuid, value: seq<int8>)
    | Disconnect(gatt: GattHandle)
    | CloseGatt(gatt: GattHandle)
    | BufferClear
    | BufferBeginWriteNextChunk(gatt: GattHandle, dataCharacteristic: Option<Characteristic>)
    | BufferSetError
    | BufferWrite(openGatt: Option<GattHandle>, dataCharacteristic: Option<Characteristic>,
                  deviceNameCharacteristic: Option<Characteristic>, data: seq<int8>, length: int32,
                  maxChunkSize: int32)
    | BufferDrain
    | PortStateChanged(portListener: ListenerId)
    | DataReceived(inputListener: ListenerId, data: seq<int8>, length: int32)

  /** BluetoothGattClientPort.deviceType: getType(), or DEVICE_TYPE_UNKNOWN when that is refused. */
  function DeviceType(device: Device): (t: int32)
    ensures device.reportedType.None? ==> t == DEVICE_TYPE_UNKNOWN
    ensures device.reportedType.Some? ==> t == device.reportedType.value
  {
    match device.reportedType
    case None => DEVICE_TYPE_UNKNOWN
    case Some(reported) => reported
  }

  /** BluetoothGattClientPort.isUnknownType: anything but a device known to be LE-only is scanned for. */
  function IsUnknownType(device: Device): (unknown: bool)
    ensures !unknown <==> device.reportedType == Some(DEVICE_TYPE_LE)
  {
    DeviceType(device) != DEVICE_TYPE_LE
  }

  /** BluetoothGatt.getService(service).getCharacteristic(uuid), None where either lookup yields null. */
  function Lookup(services: GattDatabase, service: Uuid, uuid: Uuid): (r: Option<Characteristic>)
    ensures r.Some? <==> service in services && uuid in services[service]
    ensures r.Some? ==>
      r.value.service == service && r.value.uuid == uuid && r.value.descriptors == services[service][uuid]
  {
    if service in services && uuid in services[service] then
      Some(Characteristic(service, uuid, services[service][uuid]))
    else
      None
  }

  /** The server offers both the HM-10 RX/TX characteristic and the device name characteristic. */
  predicate HasPortCharacteristics(services: GattDatabase)
  {
    && HM10_SERVICE in services && RX_TX_CHARACTERISTIC_UUID in services[HM10_SERVICE]
    && GENERIC_ACCESS_SERVICE in services
    && DEVICE_NAME_CHARACTERISTIC_UUID in services[GENERIC_ACCESS_SERVICE]
  }

  /** The call to stopLeScan's platform counterpart, made only for a registered callback. */
  function ScanStop(scan: Option<ScanCallback>): (e: seq<Effect>)
  {
    if scan.Some? then [StopScan(scan.value)] else []
  }

  class BluetoothGattClientPort {
    /** Build.VERSION.SDK_INT of the device the port runs on. */
    const sdkInt: int

    var portListener: Option<ListenerId>
    var listener: Option<ListenerId>
    var gatt: Option<GattHandle>
    var dataCharacteristic: Option<Characteristic>
    var deviceNameCharacteristic: Option<Characteristic>
    var shutdown: bool
    var maxChunkSize: int32
    var portState: PortState
    var gattState: int32
    var callback: Option<ScanCallback>
    /** Every call made so far into Android, the write buffer and the listeners, oldest first. */
    var effects: seq<Effect>

    /**
     * The port's invariant: READY only with both characteristics resolved,
     * and a resolved characteristic is always the one the port looked for.
     */
    predicate Valid()
      reads this
    {
      (portState == Ready ==> dataCharacteristic.Some? && deviceNameCharacteristic.Some?)
      && (dataCharacteristic.Some? ==>
            dataCharacteristic.value.service == HM10_SERVICE
            && dataCharacteristic.value.uuid == RX_TX_CHARACTERISTIC_UUID)
      && (deviceNameCharacteristic.Some? ==>
            deviceNameCharacteristic.value.service == GENERIC_ACCESS_SERVICE
            && deviceNameCharacteristic.value.uuid == DEVICE_NAME_CHARACTERISTIC_UUID)
    }

    /** The call stateChanged makes: portStateChanged on the port listener, if there is one. */
    function Notification(): (e: seq<Effect>)
      reads this
    {
      if portListener.Some? then [PortStateChanged(portListener.value)] else []
    }

    /**
     * The constructor: a device that is not known to be LE-only is looked for
     * by an LE scan; any other device is connected to directly.
     */
    constructor (sdkInt: int, device: Device, outcome: ConnectOutcome)
      ensures Valid() && this.sdkInt == sdkInt
      ensures portListener.None? && listener.None?
      ensures dataCharacteristic.None? && deviceNameCharacteristic.None?
      ensures !shutdown && maxChunkSize == DefaultChunkSize
      ensures portState == Limbo && gattState == STATE_DISCONNECTED
      ensures IsUnknownType(device) ==>
        && callback == Some(ScanCallback(device.address))
        && gatt.None?
        && effects == [StartScan(ScanCallback(device.address))]
      ensures !IsUnknownType(device) ==>
        && callback.None?
        && gatt == (if outcome.Returned? then outcome.result else None)
        && effects == [ConnectGatt(device.address, true, sdkInt >= M)]
    {
      this.sdkInt := sdkInt;
      portListener := None;
      listener := None;
      gatt := None;
      dataCharacteristic := None;
      deviceNameCharacteristic := None;
      shutdown := false;
      maxChunkSize := DefaultChunkSize;
      portState := Limbo;
      gattState := STATE_DISCONNECTED;
      callback := None;
      effects := [];
      new;
      if IsUnknownType(device) {
        StartLeScan(device.address);
      } else {
        ConnectDevice(device, outcome);
      }
    }

    /** startLeScan: registers a scan callback for `address`, unless one is registered already. */
    method StartLeScan(address: Address)
      modifies this`callback, this`effects
      ensures old(callback).None? ==>
        callback == Some(ScanCallback(address)) && effects == old(effects) + [StartScan(callback.value)]
      ensures old(callback).Some? ==> callback == old(callback) && effects == old(effects)
    {
      if callback.None? {
        callback := Some(ScanCallback(address));
        effects := effects + [StartScan(callback.value)];
      }
    }

    /** stopLeScan: drops the scan callback, and stops the scan if there was one. */
    method StopLeScan()
      modifies this`callback, this`effects
      ensures callback.None?
      ensures effects == old(effects) + ScanStop(old(callback))
    {
      var registered := callback;
      callback := None;
      if registered.Some? {
        effects := effects + [StopScan(registered.value)];
      }
    }

    /**
     * The scan callback's body: a result for the awaited address stops the
     * scan and connects to the device; any other result is ignored.
     */
    method OnScanResult(scan: ScanCallback, device: Device, outcome: ConnectOutcome)
      modifies this`callback, this`gatt, this`effects
      ensures device.address != scan.address ==>
        callback == old(callback) && gatt == old(gatt) && effects == old(effects)
      ensures device.address == scan.address ==>
        && callback.None?
        && gatt == (if outcome.Returned? then outcome.result else old(gatt))
        && effects == old(effects) + ScanStop(old(callback)) + [ConnectGatt(device.address, true, sdkInt >= M)]
    {
      if device.address == scan.address {
        StopLeScan();
        ConnectDevice(device, outcome);
      }
    }

    /**
     * connectDevice: connectGatt with auto-connect, over the LE transport from
     * Android M on; a SecurityException leaves `gatt` as it was.
     */
    method ConnectDevice(device: Device, outcome: ConnectOutcome)
      modifies this`gatt, this`effects
      ensures gatt == (if outcome.Returned? then outcome.result else old(gatt))
      ensures effects == old(effects) + [ConnectGatt(device.address, true, sdkInt >= M)]
    {
      effects := effects + [ConnectGatt(device.address, true, sdkInt >= M)];
      if outcome.Returned? {
        gatt := outcome.result;
      }
    }

    /**
     * findCharacteristics: looks both characteristics up afresh through
     * `gatt`, whose server offers `services`; true iff both were found. With
     * no `gatt` the lookup fails on the null handle, after both were cleared.
     */
    method FindCharacteristics(services: GattDatabase) returns (found: bool)
      modifies this`dataCharacteristic, this`deviceNameCharacteristic
      ensures gatt.None? ==> dataCharacteristic.None? && deviceNameCharacteristic.None?
      ensures gatt.Some? ==>
        && dataCharacteristic == Lookup(services, HM10_SERVICE, RX_TX_CHARACTERISTIC_UUID)
        && deviceNameCharacteristic == Lookup(services, GENERIC_ACCESS_SERVICE, DEVICE_NAME_CHARACTERISTIC_UUID)
      ensures found <==> dataCharacteristic.Some? && deviceNameCharacteristic.Some?
      ensures found <==>
        gatt.Some? && HasPortCharacteristics(services)
      ensures dataCharacteristic.Some? ==>
        dataCharacteristic.value.service == HM10_SERVICE && dataCharacteristic.value.uuid == RX_TX_CHARACTERISTIC_UUID
      ensures deviceNameCharacteristic.Some? ==>
        deviceNameCharacteristic.value.service == GENERIC_ACCESS_SERVICE
        && deviceNameCharacteristic.value.uuid == DEVICE_NAME_CHARACTERISTIC_UUID
    {
      dataCharacteristic := None;
      deviceNameCharacteristic := None;
      if gatt.None? {
        return false;
      }
      dataCharacteristic := Lookup(services, HM10_SERVICE, RX_TX_CHARACTERISTIC_UUID);
      deviceNameCharacteristic := Lookup(services, GENERIC_ACCESS_SERVICE, DEVICE_NAME_CHARACTERISTIC_UUID);
      if dataCharacteristic.None? {
        return false;
      }
      if deviceNameCharacteristic.None? {
        return false;
      }
      return true;
    }

    /**
     * onConnectionStateChange on the connection `g`. `discoverAccepted` and
     * `reconnectAccepted` are what g.discoverServices() and g.connect() return.
     * The port ends in LIMBO unless the request the event calls for is refused.
     */
    method OnConnectionStateChange(g: GattHandle, status: int32, newState: int32,
                                   discoverAccepted: bool, reconnectAccepted: bool)
      requires Valid()
      modifies this`dataCharacteristic, this`deviceNameCharacteristic, this`portState, this`gattState, this`effects
      ensures Valid()
      ensures portState != Ready
      ensures gattState == newState
      ensures newState == STATE_CONNECTED ==>
        && (portState == Failed <==> !discoverAccepted)
        && dataCharacteristic == old(dataCharacteristic)
        && deviceNameCharacteristic == old(deviceNameCharacteristic)
        && effects == old(effects) + [DiscoverServices(g), BufferClear] + Notification()
      ensures newState != STATE_CONNECTED ==>
        && dataCharacteristic.None? && deviceNameCharacteristic.None?
        && (portState == Failed <==> newState == STATE_DISCONNECTED && !shutdown && !reconnectAccepted)
      ensures newState == STATE_DISCONNECTED && !shutdown ==>
        effects == old(effects) + [Reconnect(g), BufferClear] + Notification()
      ensures newState != STATE_CONNECTED && (newState != STATE_DISCONNECTED || shutdown) ==>
        effects == old(effects) + [BufferClear] + Notification()
    {
      var newPortState := Limbo;
      if newState == STATE_CONNECTED {
        effects := effects + [DiscoverServices(g)];
        if !discoverAccepted {
          newPortState := Failed;
        }
      } else {
        dataCharacteristic := None;
        deviceNameCharacteristic := None;
        if newState == STATE_DISCONNECTED && !shutdown {
          effects := effects + [Reconnect(g)];
          if !reconnectAccepted {
            newPortState := Failed;
          }
        }
      }
      effects := effects + [BufferClear];
      portState := newPortState;
      StateChanged();
      gattState := newState;
    }

    /**
     * onServicesDiscovered on `g`. On success the chunk size returns to 20,
     * then an MTU of 85 is requested from Lollipop on, and below it the
     * characteristics are configured at once. On failure the port is FAILED.
     */
    method OnServicesDiscovered(g: GattHandle, status: int32, services: GattDatabase, notificationAccepted: bool)
      requires Valid()
      modifies this`dataCharacteristic, this`deviceNameCharacteristic, this`portState, this`maxChunkSize, this`effects
      ensures Valid()
      ensures status == GATT_SUCCESS ==> maxChunkSize == DefaultChunkSize
      ensures status == GATT_SUCCESS && sdkInt >= LOLLIPOP ==>
        && portState == old(portState)
        && dataCharacteristic == old(dataCharacteristic)
        && deviceNameCharacteristic == old(deviceNameCharacteristic)
        && effects == old(effects) + [RequestMtu(g, RequestedMtu)]
      ensures status == GATT_SUCCESS && sdkInt < LOLLIPOP ==>
        Configured(g, services, notificationAccepted, old(effects))
      ensures status != GATT_SUCCESS ==>
        && portState == Failed
        && maxChunkSize == old(maxChunkSize)
        && dataCharacteristic == old(dataCharacteristic)
        && deviceNameCharacteristic == old(deviceNameCharacteristic)
        && effects == old(effects) + Notification()
    {
      if status == GATT_SUCCESS {
        maxChunkSize := DefaultChunkSize;
        if sdkInt >= LOLLIPOP {
          effects := effects + [RequestMtu(g, RequestedMtu)];
        } else {
          ConfigureCharacteristics(g, services, notificationAccepted);
        }
      } else {
        portState := Failed;
        StateChanged();
      }
    }

    /**
     * onMtuChanged on `g`: a successful exchange sets the chunk size to
     * mtu - 3 (in Java's 32-bit arithmetic) and configures the
     * characteristics; a failed one changes nothing.
     */
    method OnMtuChanged(g: GattHandle, mtu: int32, status: int32, services: GattDatabase, notificationAccepted: bool)
      requires Valid()
      modifies this`dataCharacteristic, this`deviceNameCharacteristic, this`portState, this`maxChunkSize, this`effects
      ensures Valid()
      ensures status == GATT_SUCCESS ==>
        && maxChunkSize as int == (if mtu as int >= -0x8000_0000 + 3 then mtu as int - 3 else mtu as int - 3 + 0x1_0000_0000)
        && Configured(g, services, notificationAccepted, old(effects))
      ensures status != GATT_SUCCESS ==>
        && portState == old(portState)
        && maxChunkSize == old(maxChunkSize)
        && dataCharacteristic == old(dataCharacteristic)
        && deviceNameCharacteristic == old(deviceNameCharacteristic)
        && effects == old(effects)
    {
      if status == GATT_SUCCESS {
        var chunk := mtu as int - 3;
        maxChunkSize := if chunk < -0x8000_0000 then (chunk + 0x1_0000_0000) as int32 else chunk as int32;
        ConfigureCharacteristics(g, services, notificationAccepted);
      }
    }

    /**
     * What configureCharacteristics leaves behind, given the effects before it:
     * READY iff both characteristics were found and notification was enabled
     * (whether or not the RX/TX descriptor exists), FAILED otherwise, and the
     * port listener told exactly once.
     */
    ghost predicate Configured(g: GattHandle, services: GattDatabase, notificationAccepted: bool, before: seq<Effect>)
      reads this
    {
      var found := gatt.Some? && HasPortCharacteristics(services);
      && (gatt.Some? ==>
            dataCharacteristic == Lookup(services, HM10_SERVICE, RX_TX_CHARACTERISTIC_UUID)
            && deviceNameCharacteristic == Lookup(services, GENERIC_ACCESS_SERVICE, DEVICE_NAME_CHARACTERISTIC_UUID))
      && (gatt.None? ==> dataCharacteristic.None? && deviceNameCharacteristic.None?)
      && (portState == Ready <==> found && notificationAccepted)
      && (portState != Ready ==> portState == Failed)
      && (!found ==> effects == before + Notification())
      && (found ==>
            var data := dataCharacteristic.value;
            var descriptor :=
              if RX_TX_DESCRIPTOR_UUID in data.descriptors && notificationAccepted
              then [WriteDescriptor(g, data, RX_TX_DESCRIPTOR_UUID, EnableNotificationValue)]
              else [];
            effects == before + [EnableNotification(g, data)] + descriptor + Notification())
    }

    /** configureCharacteristics on `g`; `notificationAccepted` is what setCharacteristicNotification returns. */
    method ConfigureCharacteristics(g: GattHandle, services: GattDatabase, notificationAccepted: bool)
      modifies this`dataCharacteristic, this`deviceNameCharacteristic, this`portState, this`effects
      ensures Valid()
      ensures Configured(g, services, notificationAccepted, old(effects))
    {
      var found := FindCharacteristics(services);
      if found {
        var data := dataCharacteristic.value;
        effects := effects + [EnableNotification(g, data)];
        if notificationAccepted {
          if RX_TX_DESCRIPTOR_UUID in data.descriptors {
            effects := effects + [WriteDescriptor(g, data, RX_TX_DESCRIPTOR_UUID, EnableNotificationValue)];
          }
          portState := Ready;
        } else {
          portState := Failed;
        }
      } else {
        portState := Failed;
      }
      StateChanged();
    }

    /** onCharacteristicRead: resumes the write buffer with the current data characteristic. */
    method OnCharacteristicRead(g: GattHandle, characteristic: Characteristic, status: int32)
      modifies this`effects
      ensures effects == old(effects) + [BufferBeginWriteNextChunk(g, dataCharacteristic)]
    {
      effects := effects + [BufferBeginWriteNextChunk(g, dataCharacteristic)];
    }

    /** onCharacteristicWrite: an acknowledged write sends the next chunk, a failed one flags an error. */
    method OnCharacteristicWrite(g: GattHandle, characteristic: Characteristic, status: int32)
      modifies this`effects
      ensures status == GATT_SUCCESS ==> effects == old(effects) + [BufferBeginWriteNextChunk(g, dataCharacteristic)]
      ensures status != GATT_SUCCESS ==> effects == old(effects) + [BufferSetError]
    {
      if status == GATT_SUCCESS {
        effects := effects + [BufferBeginWriteNextChunk(g, dataCharacteristic)];
      } else {
        effects := effects + [BufferSetError];
      }
    }

    /**
     * onCharacteristicChanged: a notification whose characteristic has the
     * data characteristic's UUID hands its value, with its length, to the
     * input listener, if one is set and the value is not empty.
     */
    method OnCharacteristicChanged(g: GattHandle, characteristic: Characteristic, value: seq<int8>)
      requires |value| < 0x8000_0000
      modifies this`effects
      ensures dataCharacteristic.Some? && dataCharacteristic.value.uuid == characteristic.uuid
              && listener.Some? && |value| > 0 ==>
        effects == old(effects) + [DataReceived(listener.value, value, |value| as int32)]
      ensures !(dataCharacteristic.Some? && dataCharacteristic.value.uuid == characteristic.uuid
                && listener.Some? && |value| > 0) ==>
        effects == old(effects)
    {
      if dataCharacteristic.Some? && dataCharacteristic.value.uuid == characteristic.uuid {
        if listener.Some? {
          if |value| > 0 {
            effects := effects + [DataReceived(listener.value, value, |value| as int32)];
          }
        }
      }
    }

    /** setListener. */
    method SetListener(portListener: Option<ListenerId>)
      modifies this`portListener
      ensures this.portListener == portListener
    {
      this.portListener := portListener;
    }

    /** setInputListener. */
    method SetInputListener(listener: Option<ListenerId>)
      modifies this`listener
      ensures this.listener == listener
    {
      this.listener := listener;
    }

    /**
     * close: stops any scan, marks the port as shutting down, clears the
     * write buffer, and disconnects and closes the connection if there is one.
     * The wait for the disconnected state in between is not modelled.
     */
    method Close()
      modifies this`callback, this`shutdown, this`gatt, this`effects
      ensures callback.None? && shutdown && gatt.None?
      ensures old(gatt).None? ==> effects == old(effects) + ScanStop(old(callback)) + [BufferClear]
      ensures old(gatt).Some? ==>
        effects == old(effects) + ScanStop(old(callback))
                   + [BufferClear, Disconnect(old(gatt).value), CloseGatt(old(gatt).value)]
    {
      StopLeScan();
      shutdown := true;
      effects := effects + [BufferClear];
      if gatt.Some? {
        effects := effects + [Disconnect(gatt.value)];
        effects := effects + [CloseGatt(gatt.value)];
        gatt := None;
      }
    }

    /** getState. */
    method GetState() returns (state: PortState)
      ensures state == portState
    {
      return portState;
    }

    /** drain: whatever the write buffer's drain reports, `drained`. */
    method Drain(drained: bool) returns (ok: bool)
      modifies this`effects
      ensures ok == drained
      ensures effects == old(effects) + [BufferDrain]
    {
      effects := effects + [BufferDrain];
      return drained;
    }

    /** getBaudRate: a BLE port has no baud rate. */
    method GetBaudRate() returns (baud: int32)
      ensures baud == 0
    {
      return 0;
    }

    /** setBaudRate: accepted and ignored. */
    method SetBaudRate(baud: int32) returns (ok: bool)
      ensures ok
    {
      return true;
    }

    /**
     * write: hands the data to the write buffer with the open connection,
     * both characteristics and the current chunk size; returns what the
     * buffer's write returns, `accepted`.
     */
    method Write(data: seq<int8>, length: int32, accepted: int32) returns (written: int32)
      modifies this`effects
      ensures written == accepted
      ensures effects == old(effects)
        + [BufferWrite(gatt, dataCharacteristic, deviceNameCharacteristic, data, length, maxChunkSize)]
    {
      effects := effects + [BufferWrite(gatt, dataCharacteristic, deviceNameCharacteristic, data, length, maxChunkSize)];
      return accepted;
    }

    /** stateChanged: tells the port listener, if there is one. */
    method StateChanged()
      modifies this`effects
      ensures effects == old(effects) + Notification()
    {
      if portListener.Some? {
        effects := effects + [PortStateChanged(portListener.value)];
      }
    }
  }

  // ---------------------------------------------------------------------------
  // Whole connection lifecycles, from the constructor through the callbacks
  // ---------------------------------------------------------------------------

  /**
   * An LE device on Lollipop or later: connected, services discovered, MTU 85
   * granted. The port is READY with 82-byte chunks iff the server offers both
   * characteristics and notification is enabled, and FAILED otherwise.
   */
  method ConnectLeDevice(sdkInt: int, address: Address, g: GattHandle, services: GattDatabase,
                         notificationAccepted: bool)
    returns (state: PortState, chunkSize: int32)
    requires sdkInt >= LOLLIPOP
    ensures chunkSize == RequestedMtu - 3
    ensures state == Ready <==> HasPortCharacteristics(services) && notificationAccepted
    ensures state != Ready ==> state == Failed
  {
    var port := new BluetoothGattClientPort(sdkInt, Device(address, Some(DEVICE_TYPE_LE)), Returned(Some(g)));
    port.OnConnectionStateChange(g, GATT_SUCCESS, STATE_CONNECTED, true, true);
    port.OnServicesDiscovered(g, GATT_SUCCESS, services, notificationAccepted);
    port.OnMtuChanged(g, RequestedMtu, GATT_SUCCESS, services, notificationAccepted);
    state, chunkSize := port.portState, port.maxChunkSize;
  }

  /**
   * Before Lollipop no MTU is requested: discovery configures the
   * characteristics at once and the chunk size stays at 20.
   */
  method ConnectLeDeviceWithoutMtu(sdkInt: int, address: Address, g: GattHandle, services: GattDatabase)
    returns (state: PortState, chunkSize: int32, requests: seq<Effect>)
    requires sdkInt < LOLLIPOP && HasPortCharacteristics(services)
    ensures state == Ready && chunkSize == DefaultChunkSize
    ensures forall e | e in requests :: !e.RequestMtu?
  {
    var port := new BluetoothGattClientPort(sdkInt, Device(address, Some(DEVICE_TYPE_LE)), Returned(Some(g)));
    port.OnConnectionStateChange(g, GATT_SUCCESS, STATE_CONNECTED, true, true);
    port.OnServicesDiscovered(g, GATT_SUCCESS, services, true);
    state, chunkSize, requests := port.portState, port.maxChunkSize, port.effects;
  }

  /**
   * A refused MTU exchange changes nothing: the port stays in LIMBO with the
   * default chunk size, and no further event of this sequence moves it on.
   */
  method MtuExchangeRefused(sdkInt: int, address: Address, g: GattHandle, services: GattDatabase,
                            mtu: int32, status: int32)
    returns (state: PortState, chunkSize: int32)
    requires sdkInt >= LOLLIPOP && status != GATT_SUCCESS
    ensures state == Limbo && chunkSize == DefaultChunkSize
  {
    var port := new BluetoothGattClientPort(sdkInt, Device(address, Some(DEVICE_TYPE_LE)), Returned(Some(g)));
    port.OnConnectionStateChange(g, GATT_SUCCESS, STATE_CONNECTED, true, true);
    port.OnServicesDiscovered(g, GATT_SUCCESS, services, true);
    port.OnMtuChanged(g, mtu, status, services, true);
    state, chunkSize := port.portState, port.maxChunkSize;
  }

  /**
   * A READY port loses its link, then is closed, then sees the link go down
   * once more. The loss ends in LIMBO iff the reconnect request is accepted;
   * close disconnects and closes the connection; the last event, during
   * shutdown, only clears the buffer and attempts no reconnect.
   */
  method LinkLossThenClose(sdkInt: int, address: Address, g: GattHandle, services: GattDatabase,
                           reconnectAccepted: bool)
    returns (afterLoss: PortState, resolved: bool, afterClose: PortState, closing: seq<Effect>)
    requires sdkInt >= LOLLIPOP && HasPortCharacteristics(services)
    ensures afterLoss == (if reconnectAccepted then Limbo else Failed)
    ensures !resolved
    ensures afterClose == Limbo
    ensures closing == [BufferClear, Disconnect(g), CloseGatt(g), BufferClear]
  {
    var port := new BluetoothGattClientPort(sdkInt, Device(address, Some(DEVICE_TYPE_LE)), Returned(Some(g)));
    port.OnConnectionStateChange(g, GATT_SUCCESS, STATE_CONNECTED, true, true);
    port.OnServicesDiscovered(g, GATT_SUCCESS, services, true);
    port.OnMtuChanged(g, RequestedMtu, GATT_SUCCESS, services, true);
    assert port.portState == Ready;
    port.OnConnectionStateChange(g, GATT_SUCCESS, STATE_DISCONNECTED, true, reconnectAccepted);
    afterLoss := port.portState;
    resolved := port.dataCharacteristic.Some? || port.deviceNameCharacteristic.Some?;
    var before := |port.effects|;
    port.Close();
    port.OnConnectionStateChange(g, GATT_SUCCESS, STATE_DISCONNECTED, true, true);
    afterClose := port.portState;
    closing := port.effects[before..];
  }

  /**
   * A device whose type cannot be read is scanned for: a result for another
   * address is ignored, the first result for its own address stops the scan
   * and connects to it.
   */
  method ScanForUnknownDevice(sdkInt: int, address: Address, other: Address, g: GattHandle)
    returns (log: seq<Effect>, connection: Option<GattHandle>, scanning: bool)
    requires other != address
    ensures connection == Some(g) && !scanning
    ensures log == [StartScan(ScanCallback(address)), StopScan(ScanCallback(address)),
                    ConnectGatt(address, true, sdkInt >= M)]
  {
    var port := new BluetoothGattClientPort(sdkInt, Device(address, None), SecurityDenied);
    var scan := port.callback.value;
    port.OnScanResult(scan, Device(other, Some(DEVICE_TYPE_LE)), Returned(None));
    port.OnScanResult(scan, Device(address, None), Returned(Some(g)));
    log, connection, scanning := port.effects, port.gatt, port.callback.Some?;
  }

  /**
   * A classic or dual-mode device is not known to be LE-only, so it too is
   * scanned for rather than connected to.
   */
  method ScanForClassicOrDualDevice(sdkInt: int, address: Address, dual: bool, outcome: ConnectOutcome)
    returns (log: seq<Effect>, connection: Option<GattHandle>, scanning: bool)
    ensures connection.None? && scanning
    ensures log == [StartScan(ScanCallback(address))]
  {
    var reported := if dual then DEVICE_TYPE_DUAL else DEVICE_TYPE_CLASSIC;
    var port := new BluetoothGattClientPort(sdkInt, Device(address, Some(reported)), outcome);
    log, connection, scanning := port.effects, port.gatt, port.callback.Some?;
  }

  /**
   * A READY port sees the link go DISCONNECTING and then CONNECTING. Each
   * transient state drops the handles and leaves the port in LIMBO; neither
   * asks for discovery or a reconnect, both only clear the buffer.
   */
  method TransientLinkStates(sdkInt: int, address: Address, g: GattHandle, services: GattDatabase)
    returns (afterDisconnecting: PortState, resolved: bool, afterConnecting: PortState,
             linkState: int32, transient: seq<Effect>)
    requires sdkInt >= LOLLIPOP && HasPortCharacteristics(services)
    ensures afterDisconnecting == Limbo && !resolved
    ensures afterConnecting == Limbo && linkState == STATE_CONNECTING
    ensures transient == [BufferClear, BufferClear]
  {
    var port := new BluetoothGattClientPort(sdkInt, Device(address, Some(DEVICE_TYPE_LE)), Returned(Some(g)));
    port.OnConnectionStateChange(g, GATT_SUCCESS, STATE_CONNECTED, true, true);
    port.OnServicesDiscovered(g, GATT_SUCCESS, services, true);
    port.OnMtuChanged(g, RequestedMtu, GATT_SUCCESS, services, true);
    assert port.portState == Ready;
    var before := |port.effects|;
    port.OnConnectionStateChange(g, GATT_SUCCESS, STATE_DISCONNECTING, false, false);
    afterDisconnecting := port.portState;
    resolved := port.dataCharacteristic.Some? || port.deviceNameCharacteristic.Some?;
    port.OnConnectionStateChange(g, GATT_SUCCESS, STATE_CONNECTING, false, false);
    afterConnecting, linkState := port.portState, port.gattState;
    transient := port.effects[before..];
  }

  /**
   * On a READY port with an input listener, a notification of the data
   * characteristic reaches the listener with its exact value and length iff
   * it is not empty; one from another characteristic never does.
   */
  method NotificationReachesListener(sdkInt: int, address: Address, g: GattHandle, services: GattDatabase,
                                     inputListener: ListenerId, other: Characteristic, value: seq<int8>)
    returns (delivered: seq<Effect>, ignored: seq<Effect>)
    requires sdkInt >= LOLLIPOP && HasPortCharacteristics(services)
    requires other.uuid != RX_TX_CHARACTERISTIC_UUID && |value| < 0x8000_0000
    ensures |value| > 0 ==> delivered == [DataReceived(inputListener, value, |value| as int32)]
    ensures |value| == 0 ==> delivered == []
    ensures ignored == []
  {
    var port := new BluetoothGattClientPort(sdkInt, Device(address, Some(DEVICE_TYPE_LE)), Returned(Some(g)));
    port.OnConnectionStateChange(g, GATT_SUCCESS, STATE_CONNECTED, true, true);
    port.OnServicesDiscovered(g, GATT_SUCCESS, services, true);
    port.OnMtuChanged(g, RequestedMtu, GATT_SUCCESS, services, true);
    port.SetInputListener(Some(inputListener));
    var data := port.dataCharacteristic.value;
    var n := |port.effects|;
    port.OnCharacteristicChanged(g, data, value);
    delivered := port.effects[n..];
    n := |port.effects|;
    port.OnCharacteristicChanged(g, other, value);
    ignored := port.effects[n..];
  }
}
