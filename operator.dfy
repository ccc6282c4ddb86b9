/** The React prototype (App.tsx): the two-byte command encoder, the
    `useBleController` hook's connection state, and the handlers of the
    operator and parent screens that send commands through it.

    The Web Bluetooth objects are reduced to the flags `hasDevice`
    (`deviceRef.current` is set) and `hasChar` (`charRef.current` is set)
    and the log `frames` of byte frames handed to `writeValue`. Intensity
    is an integer, as the slider yields. */
module Operator {
  import opened Bytes

  /** The three game states an operator can send. */
  datatype SendState = Normal | Chance | Pinch

  /** The command byte of "stop" (operator stop and parent emergency stop). */
  const StopCommand := 99
  /** The command byte of an intensity-only update. */
  const IntensityCommand := 10

  const StatusIdle := "未接続"
  const StatusConnecting := "接続中…"
  const StatusConnected := "接続済"
  const StatusFailed := "接続失敗"
  const StatusUnsupported := "この環境ではBluetoothが使えません"

  /** `clamp(n, min, max)` of App.tsx: `Math.max(min, Math.min(max, n))`. */
  function Clamp(n: int, lo: int, hi: int): (r: int)
    ensures lo <= hi ==> lo <= r <= hi
    ensures lo <= n <= hi ==> r == n
    ensures r >= lo
    ensures r == n || r == lo || r == hi
  {
    var m := if hi < n then hi else n;
    if lo > m then lo else m
  }

  /** `encodeCommand(cmd, intensity)`: the frame `[cmd & 0xff, i & 0xff]`
      with `i` the intensity clamped to 0..100. */
  function EncodeCommand(cmd: int, intensity: int): (frame: seq<byte>)
    ensures |frame| == 2
    ensures frame[0] == LowByte(cmd)
    ensures frame[1] <= 100
    ensures 0 <= intensity <= 100 ==> frame[1] as int == intensity
    ensures intensity > 100 ==> frame[1] == 100
    ensures intensity < 0 ==> frame[1] == 0
  {
    var i := Clamp(intensity, 0, 100);
    [LowByte(cmd), LowByte(i)]
  }

  /** The command byte `sendState` uses for a state. */
  function CommandOf(st: SendState): (cmd: int)
    ensures 0 <= cmd <= 2
    ensures cmd == 0 <==> st == Normal
    ensures cmd == 1 <==> st == Chance
  {
    match st
    case Normal => 0
    case Chance => 1
    case Pinch => 2
  }

  /** How far the handshake of `connect` got: the device chooser was
      rejected; a device was chosen but `gatt.connect`, `getPrimaryService`
      or `getCharacteristic` rejected; or every step succeeded. `name` is
      the chosen device's name ("" when it has none). */
  datatype Handshake = NoDevice | GattFailed(name: string) | Ready(name: string)

  /** The name `connect` shows for a chosen device. */
  function DeviceLabel(name: string): (shown: string)
    ensures shown != ""
    ensures name != "" ==> shown == name
  {
    if name == "" then "BLE Device" else name
  }

  /** The state of one `useBleController()` hook. */
  class BleController {
    var isSupported: bool
    var isConnected: bool
    var deviceName: string
    var status: string
    var hasDevice: bool
    var hasChar: bool
    /** Every frame handed to the characteristic's `writeValue`. */
    var frames: seq<seq<byte>>

    /** `isConnected` is set only right after both refs were set, and
        `disconnect` clears all three together. */
    ghost predicate Valid()
      reads this
    {
      isConnected ==> hasChar && hasDevice
    }

    /** The hook's initial state, before its effect has run. */
    constructor ()
      ensures Valid()
      ensures !isSupported && !isConnected && deviceName == "" && status == StatusIdle
      ensures !hasDevice && !hasChar && frames == []
    {
      isSupported, isConnected, deviceName, status := false, false, "", StatusIdle;
      hasDevice, hasChar, frames := false, false, [];
    }

    /** The mount effect: `setIsSupported(Boolean(navigator.bluetooth))`. */
    method DetectSupport(hasBluetooth: bool)
      modifies this`isSupported
      ensures isSupported == hasBluetooth
    {
      isSupported := hasBluetooth;
    }

    /** `disconnect`: whatever the GATT call does, both refs are cleared,
        the hook is idle and the device name empty. The new state does not
        depend on the old one, so a second call changes nothing. */
    method Disconnect()
      modifies this`hasDevice, this`hasChar, this`isConnected, this`deviceName, this`status
      ensures Valid()
      ensures !hasDevice && !hasChar && !isConnected && deviceName == "" && status == StatusIdle
    {
      hasDevice := false;
      hasChar := false;
      isConnected := false;
      deviceName := "";
      status := StatusIdle;
    }

    /** `connect` on how far the handshake got. An unsupported host only
        gets a status message; any failure ends not connected with status
        "接続失敗", keeping a characteristic held from before. */
    method Connect(h: Handshake)
      requires Valid()
      modifies this`hasDevice, this`hasChar, this`isConnected, this`deviceName, this`status
      ensures Valid()
      ensures !isSupported ==>
        && status == StatusUnsupported
        && isConnected == old(isConnected) && hasChar == old(hasChar)
        && hasDevice == old(hasDevice) && deviceName == old(deviceName)
      ensures isSupported ==>
        && isConnected == h.Ready?
        && status == (if h.Ready? then StatusConnected else StatusFailed)
        && hasChar == (h.Ready? || old(hasChar))
        && hasDevice == (!h.NoDevice? || old(hasDevice))
        && deviceName == (if h.NoDevice? then old(deviceName) else DeviceLabel(h.name))
    {
      if !isSupported {
        status := StatusUnsupported;
        return;
      }
      status := StatusConnecting;
      match h
      case NoDevice =>
        isConnected := false;
        status := StatusFailed;
      case GattFailed(name) =>
        hasDevice := true;
        deviceName := DeviceLabel(name);
        isConnected := false;
        status := StatusFailed;
      case Ready(name) =>
        hasDevice := true;
        deviceName := DeviceLabel(name);
        hasChar := true;
        isConnected := true;
        status := StatusConnected;
    }

    /** The `gattserverdisconnected` listener: the refs are left as they are. */
    method OnGattDisconnected()
      modifies this`isConnected, this`status
      ensures Valid()
      ensures !isConnected && status == StatusIdle
    {
      isConnected := false;
      status := StatusIdle;
    }

    /** `send`: fails ("No characteristic") exactly when no characteristic
        is held; otherwise writes the encoded frame. */
    method Send(cmd: int, intensity: int) returns (ok: bool)
      modifies this`frames
      ensures ok == hasChar
      ensures frames == old(frames) + (if ok then [EncodeCommand(cmd, intensity)] else [])
    {
      if !hasChar {
        return false;
      }
      var data := EncodeCommand(cmd, intensity);
      frames := frames + [data];
      ok := true;
    }
  }

  /** The toast a send handler ends with: demo feedback only, "未接続です",
      a sent command, or a failed send. */
  datatype Outcome = DemoOnly | NotConnected | Sent | SendFailed

  /** `OperatorScreen`'s state and its send handlers. */
  class OperatorScreen {
    const ble: BleController
    var demo: bool
    var sending: SendState
    var intensity: int

    constructor ()
      ensures fresh(ble) && ble.Valid()
      ensures !ble.isConnected && ble.frames == []
      ensures demo && sending == Normal && intensity == 60
    {
      ble := new BleController();
      demo, sending, intensity := true, Normal, 60;
    }

    /** `canSend`, which enables the state buttons. */
    predicate CanSend(): (b: bool)
      reads this, ble
      ensures demo ==> b
      ensures !demo ==> (b <==> ble.isConnected)
    {
      demo || ble.isConnected
    }

    /** The demo toggle. */
    method SetDemo(v: bool)
      modifies this`demo
      ensures demo == v
    {
      demo := v;
    }

    /** The intensity slider and presets. */
    method SetIntensity(v: int)
      modifies this`intensity
      ensures intensity == v
    {
      intensity := v;
    }

    /** `sendState(st)`: the state is recorded first; nothing is sent in
        demo mode or while disconnected; otherwise the state's command goes
        out with the current intensity. */
    method SendState(st: SendState) returns (outcome: Outcome)
      requires ble.Valid()
      modifies this`sending, ble`frames
      ensures sending == st
      ensures CanSend() <==> outcome != NotConnected
      ensures outcome == (if demo then DemoOnly else if !ble.isConnected then NotConnected else Sent)
      ensures ble.frames == old(ble.frames) +
        (if !demo && ble.isConnected then [EncodeCommand(CommandOf(st), intensity)] else [])
    {
      sending := st;
      var cmd := CommandOf(st);
      if demo {
        return DemoOnly;
      }
      if !ble.isConnected {
        return NotConnected;
      }
      var ok := ble.Send(cmd, intensity);
      outcome := if ok then Sent else SendFailed;
    }

    /** `stop`: outside demo mode and while connected, sends (99, 0). */
    method Stop() returns (outcome: Outcome)
      requires ble.Valid()
      modifies ble`frames
      ensures outcome == (if demo then DemoOnly else if !ble.isConnected then NotConnected else Sent)
      ensures ble.frames == old(ble.frames) + (if !demo && ble.isConnected then [[99, 0]] else [])
    {
      if demo {
        return DemoOnly;
      }
      if !ble.isConnected {
        return NotConnected;
      }
      var ok := ble.Send(StopCommand, 0);
      outcome := if ok then Sent else SendFailed;
    }
  }

  /** `ParentScreen`'s intensity and its send handlers. */
  class ParentScreen {
    const ble: BleController
    var intensity: int

    constructor ()
      ensures fresh(ble) && ble.Valid()
      ensures !ble.isConnected && ble.frames == []
      ensures intensity == 55
    {
      ble := new BleController();
      intensity := 55;
    }

    /** `emergencyStop`: while connected, sends (99, 0). */
    method EmergencyStop() returns (outcome: Outcome)
      requires ble.Valid()
      modifies ble`frames
      ensures outcome == (if ble.isConnected then Sent else NotConnected)
      ensures ble.frames == old(ble.frames) + (if ble.isConnected then [[99, 0]] else [])
    {
      if !ble.isConnected {
        return NotConnected;
      }
      var ok := ble.Send(StopCommand, 0);
      outcome := if ok then Sent else SendFailed;
    }

    /** `applyIntensity(v)`: the intensity is always stored; the (10, v)
        command goes out only while connected. */
    method ApplyIntensity(v: int)
      requires ble.Valid()
      modifies this`intensity, ble`frames
      ensures intensity == v
      ensures ble.frames == old(ble.frames) + (if ble.isConnected then [EncodeCommand(IntensityCommand, v)] else [])
    {
      intensity := v;
      if !ble.isConnected {
        return;
      }
      var ok := ble.Send(IntensityCommand, v);
    }
  }

  // ---------------------------------------------------------------------
  // Properties

  /** Within range, the frame carries the command byte and the intensity
      unchanged, so a device can read both back. */
  lemma EncodeCommandLossless(cmd: int, intensity: int)
    requires 0 <= cmd < 256 && 0 <= intensity <= 100
    ensures EncodeCommand(cmd, intensity) == [cmd as byte, intensity as byte]
  {
  }

  /** The five commands the screens send have pairwise different first bytes. */
  lemma CommandBytesDistinct(st1: SendState, st2: SendState)
    ensures st1 != st2 ==> EncodeCommand(CommandOf(st1), 0)[0] != EncodeCommand(CommandOf(st2), 0)[0]
    ensures EncodeCommand(CommandOf(st1), 0)[0] != EncodeCommand(StopCommand, 0)[0]
    ensures EncodeCommand(CommandOf(st1), 0)[0] != EncodeCommand(IntensityCommand, 0)[0]
    ensures EncodeCommand(StopCommand, 0)[0] != EncodeCommand(IntensityCommand, 0)[0]
  {
  }

  /** After a spontaneous disconnect the characteristic is still held:
      `send` itself would still write, but `sendState` no longer calls it. */
  method DroppedLinkScenario() returns (direct: bool, outcome: Outcome, frames: seq<seq<byte>>)
    ensures direct && outcome == NotConnected && frames == [[1, 85]]
  {
    var op := new OperatorScreen();
    op.ble.DetectSupport(true);
    op.ble.Connect(Ready("Bat"));
    op.SetDemo(false);
    op.SetIntensity(85);
    op.ble.OnGattDisconnected();
    outcome := op.SendState(Pinch);
    direct := op.ble.Send(CommandOf(Chance), 85);
    frames := op.ble.frames;
  }

  /** Disconnecting twice leaves the same state as disconnecting once. */
  method DisconnectTwiceScenario(h: Handshake) returns (connected: bool, name: string, status: string)
    ensures !connected && name == "" && status == StatusIdle
  {
    var b := new BleController();
    b.DetectSupport(true);
    b.Connect(h);
    b.Disconnect();
    b.Disconnect();
    connected, name, status := b.isConnected, b.deviceName, b.status;
  }
}
