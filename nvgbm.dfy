/** The vendor allocator `libnvgbm`, reached through `dlsym`. Its devices
    and buffer objects are opaque; what its query functions answer for a
    vendor BO is fixed by the library (uninterpreted functions given at
    construction), and whether a create, import or load call succeeds is
    the library's choice (nondeterministic). Loading the library and every
    call that creates, destroys, maps, unmaps or writes is appended to
    `calls`; the per-BO and per-device queries are pure and not logged. The
    objects it has handed out and not yet been asked to destroy are in
    `liveBos` and `liveDevices`. */
module Nvgbm {
  import opened Platform
  import opened Abi

  /** A `struct gbm_device *` of the vendor library. */
  class Device {
    constructor () {}
  }

  /** A `struct gbm_bo *` of the vendor library. */
  class Bo {
    constructor () {}
  }

  /** What a BO-producing call asked for. */
  datatype Request =
    | Create(device: Device?, width: u32, height: u32, format: u32, usage: u32)
    | CreateWithModifiers(device: Device?, width: u32, height: u32, format: u32, modifiers: seq<bv64>)
    | Import(device: Device?, importType: u32, buffer: ImportData, usage: u32)

  datatype Call =
    | Loaded(ok: bool)
    | DeviceRequested(fd: int, granted: bool)
    | DeviceDestroyed(device: Device)
    | BoRequested(request: Request, granted: bool)
    | BoDestroyed(bo: Bo)
    | Mapped(bo: Bo, x: u32, y: u32, width: u32, height: u32, flags: u32,
             addr: Option<nat>, stride: u32, mapData: Option<nat>)
    | Unmapped(bo: Bo, mapData: Option<nat>)
    | Written(bo: Bo, data: seq<bv8>, result: int)

  class Library {
    var liveDevices: set<Device>
    var liveBos: set<Bo>
    var calls: seq<Call>

    // The library's answers to its per-BO queries.
    const width: Bo -> u32
    const height: Bo -> u32
    const format: Bo -> u32
    const handle: Bo -> u64
    const stride: Bo -> u32
    const fd: Bo -> i32
    const planeCount: Bo -> i32
    const handleForPlane: (Bo, i32) -> u64
    const offset: (Bo, i32) -> u32
    // ... and to its per-device queries.
    const isFormatSupported: (Device?, u32, u32) -> int
    const modifierPlaneCount: (Device?, u32, bv64) -> int

    constructor (width: Bo -> u32, height: Bo -> u32, format: Bo -> u32,
                 handle: Bo -> u64, stride: Bo -> u32, fd: Bo -> i32,
                 planeCount: Bo -> i32, handleForPlane: (Bo, i32) -> u64,
                 offset: (Bo, i32) -> u32,
                 isFormatSupported: (Device?, u32, u32) -> int,
                 modifierPlaneCount: (Device?, u32, bv64) -> int)
      ensures liveDevices == {} && liveBos == {} && calls == []
      ensures this.width == width && this.height == height && this.format == format
      ensures this.handle == handle && this.stride == stride && this.fd == fd
      ensures this.planeCount == planeCount && this.handleForPlane == handleForPlane
      ensures this.offset == offset
      ensures this.isFormatSupported == isFormatSupported
      ensures this.modifierPlaneCount == modifierPlaneCount
    {
      this.width, this.height, this.format := width, height, format;
      this.handle, this.stride, this.fd := handle, stride, fd;
      this.planeCount, this.handleForPlane, this.offset := planeCount, handleForPlane, offset;
      this.isFormatSupported, this.modifierPlaneCount := isFormatSupported, modifierPlaneCount;
      liveDevices, liveBos, calls := {}, {}, [];
    }

    /** `dlopen("libnvgbm.so", RTLD_NOW)` succeeding or not. */
    method Load() returns (ok: bool)
      modifies this
      ensures liveDevices == old(liveDevices) && liveBos == old(liveBos)
      ensures calls == old(calls) + [Loaded(ok)]
    {
      ok :| true;
      calls := calls + [Loaded(ok)];
    }

    /** `gbm_create_device(fd)`. */
    method CreateDevice(fd: int) returns (d: Device?)
      modifies this
      ensures liveBos == old(liveBos)
      ensures calls == old(calls) + [DeviceRequested(fd, d != null)]
      ensures d == null ==> liveDevices == old(liveDevices)
      ensures d != null ==> fresh(d) && liveDevices == old(liveDevices) + {d}
    {
      var ok :| true;
      if ok {
        d := new Device();
        liveDevices := liveDevices + {d};
      } else {
        d := null;
      }
      calls := calls + [DeviceRequested(fd, ok)];
    }

    /** `gbm_device_destroy(d)`. */
    method DestroyDevice(d: Device)
      requires d in liveDevices
      modifies this
      ensures liveDevices == old(liveDevices) - {d} && liveBos == old(liveBos)
      ensures calls == old(calls) + [DeviceDestroyed(d)]
    {
      liveDevices := liveDevices - {d};
      calls := calls + [DeviceDestroyed(d)];
    }

    /** `gbm_bo_create`, `gbm_bo_create_with_modifiers` and `gbm_bo_import`:
        NULL, or a fresh vendor BO. */
    method RequestBo(request: Request) returns (b: Bo?)
      modifies this
      ensures liveDevices == old(liveDevices)
      ensures calls == old(calls) + [BoRequested(request, b != null)]
      ensures b == null ==> liveBos == old(liveBos)
      ensures b != null ==> fresh(b) && liveBos == old(liveBos) + {b}
    {
      var ok :| true;
      if ok {
        b := new Bo();
        liveBos := liveBos + {b};
      } else {
        b := null;
      }
      calls := calls + [BoRequested(request, ok)];
    }

    /** `gbm_bo_destroy(b)`. */
    method DestroyBo(b: Bo)
      requires b in liveBos
      modifies this
      ensures liveBos == old(liveBos) - {b} && liveDevices == old(liveDevices)
      ensures calls == old(calls) + [BoDestroyed(b)]
    {
      liveBos := liveBos - {b};
      calls := calls + [BoDestroyed(b)];
    }

    /** `gbm_bo_map`: a pointer or NULL, together with what it stores
        through `stride` and `map_data`. */
    method Map(b: Bo, x: u32, y: u32, w: u32, h: u32, flags: u32)
      returns (addr: Option<nat>, strideOut: u32, mapData: Option<nat>)
      modifies this
      ensures liveBos == old(liveBos) && liveDevices == old(liveDevices)
      ensures calls == old(calls) + [Mapped(b, x, y, w, h, flags, addr, strideOut, mapData)]
    {
      addr :| true;
      strideOut :| true;
      mapData :| true;
      calls := calls + [Mapped(b, x, y, w, h, flags, addr, strideOut, mapData)];
    }

    /** `gbm_bo_unmap`. */
    method Unmap(b: Bo, mapData: Option<nat>)
      modifies this
      ensures liveBos == old(liveBos) && liveDevices == old(liveDevices)
      ensures calls == old(calls) + [Unmapped(b, mapData)]
    {
      calls := calls + [Unmapped(b, mapData)];
    }

    /** `gbm_bo_write`. */
    method Write(b: Bo, data: seq<bv8>) returns (r: int)
      modifies this
      ensures liveBos == old(liveBos) && liveDevices == old(liveDevices)
      ensures calls == old(calls) + [Written(b, data, r)]
    {
      r :| true;
      calls := calls + [Written(b, data, r)];
    }
  }
}
