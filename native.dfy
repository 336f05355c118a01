/**
 * The boundary to nvapi64.dll. The DLL itself is not modelled: a `Driver`
 * is an oracle that answers the n-th native call with a status and,
 * for calls that fill a buffer, the bytes it writes there. Every call the
 * wrappers make is appended to `log`, so a contract can say exactly which
 * native calls an operation issued, with which buffer contents, in which
 * order.
 */
module Native {
  import opened NvStruct

  /** The exceptions the NVAPI wrappers raise. */
  datatype Error =
    | NvApiError(func: string, status: int)  // NvApiError(func_name, status)
    | IndexError                             // a handle slot outside the 64-entry handle array
    | StructError                            // struct.pack refused a value outside int32

  /** The NVAPI functions the wrappers know by QueryInterface id. */
  datatype Fn =
    | Initialize | Unload | EnumPhysicalGpus
    | GetFullName | GetBusId
    | GetPstates20 | SetPstates20
    | PowerGetInfo | PowerGetStatus | PowerSetStatus
    | ThermalGetInfo | ThermalGetLimit | ThermalSetLimit
    | FanGetStatus | FanGetControl | FanSetControl
    | SetCoolerLevels
  {
    /** The name the function goes by in the id table and in errors. */
    function Name(): string {
      match this
      case Initialize => "Initialize"
      case Unload => "Unload"
      case EnumPhysicalGpus => "EnumPhysicalGPUs"
      case GetFullName => "GPU_GetFullName"
      case GetBusId => "GPU_GetBusId"
      case GetPstates20 => "GPU_GetPstates20"
      case SetPstates20 => "GPU_SetPstates20"
      case PowerGetInfo => "GPU_ClientPowerPoliciesGetInfo"
      case PowerGetStatus => "GPU_ClientPowerPoliciesGetStatus"
      case PowerSetStatus => "GPU_ClientPowerPoliciesSetStatus"
      case ThermalGetInfo => "GPU_ClientThermalPoliciesGetInfo"
      case ThermalGetLimit => "GPU_ClientThermalPoliciesGetLimit"
      case ThermalSetLimit => "GPU_ClientThermalPoliciesSetLimit"
      case FanGetStatus => "GPU_ClientFanCoolersGetStatus"
      case FanGetControl => "GPU_ClientFanCoolersGetControl"
      case FanSetControl => "GPU_ClientFanCoolersSetControl"
      case SetCoolerLevels => "GPU_SetCoolerLevels"
    }

    /** Its QueryInterface id. */
    function Id(): nat {
      match this
      case Initialize => 0x0150E828
      case Unload => 0xD22BDD7E
      case EnumPhysicalGpus => 0xE5AC921F
      case GetFullName => 0xCEEE8E9F
      case GetBusId => 0x1BE0B8E5
      case GetPstates20 => 0x6FF81213
      case SetPstates20 => 0x0F4DAE6B
      case PowerGetInfo => 0x34206D86
      case PowerGetStatus => 0x70916171
      case PowerSetStatus => 0xAD95F5ED
      case ThermalGetInfo => 0x0D258BB5
      case ThermalGetLimit => 0xE9C425A1
      case ThermalSetLimit => 0x34C0B13D
      case FanGetStatus => 0x35AED5E8
      case FanGetControl => 0x814B209F
      case FanSetControl => 0xA58971A5
      case SetCoolerLevels => 0x891FA0AE
    }
  }

  /** One native call: function, GPU handle slot, cooler index, buffer passed in. */
  datatype NativeCall = NativeCall(op: Fn, gpu: nat, cooler: int, payload: seq<Byte>)

  /** The driver's answer: a status and the bytes it leaves in the buffer. */
  datatype Reply = Reply(status: int, fill: seq<Byte>)

  /**
   * The buffer after a Get call: the driver's bytes when it wrote a whole
   * buffer's worth, otherwise the buffer as passed.
   */
  function Filled(buf: seq<Byte>, reply: Reply): (r: seq<Byte>)
    ensures |r| == |buf|
    ensures |reply.fill| == |buf| ==> r == reply.fill
  {
    if |reply.fill| == |buf| then reply.fill else buf
  }

  class Driver {
    /** The QueryInterface ids for which nvapi_QueryInterface returns a non-null function address. */
    const exports: set<nat>
    /** The reply to the call made when `|log| == n`. */
    const respond: (nat, NativeCall) -> Reply
    var log: seq<NativeCall>

    constructor (exports: set<nat>, respond: (nat, NativeCall) -> Reply)
      ensures this.exports == exports && this.respond == respond && log == []
    {
      this.exports := exports;
      this.respond := respond;
      log := [];
    }

    /** The reply the next call `c` will get. */
    function Next(c: NativeCall): Reply
      reads this
    {
      respond(|log|, c)
    }

    /** A call whose buffer the wrapper does not read back (Initialize, the Set calls). */
    method Invoke(c: NativeCall) returns (status: int)
      modifies this
      ensures log == old(log) + [c]
      ensures status == old(Next(c)).status
    {
      status := Next(c).status;
      log := log + [c];
    }

    /** A Get call: the driver fills `buf` in place. */
    method Query(op: Fn, gpu: nat, buf: array<Byte>) returns (status: int)
      modifies this, buf
      ensures log == old(log) + [NativeCall(op, gpu, 0, old(buf[..]))]
      ensures status == old(Next(NativeCall(op, gpu, 0, buf[..]))).status
      ensures buf[..] == Filled(old(buf[..]), old(Next(NativeCall(op, gpu, 0, buf[..]))))
    {
      var c := NativeCall(op, gpu, 0, buf[..]);
      var reply := Next(c);
      status := reply.status;
      log := log + [c];
      if |reply.fill| == buf.Length {
        forall i | 0 <= i < buf.Length {
          buf[i] := reply.fill[i];
        }
      }
    }
  }
}
