/** The backend entry points of tegra_udrm_gbm.c: device creation and
    destruction, BO creation, import and destruction, the BO queries, map,
    unmap and write, and surface creation and destruction.

    Each entry point receives the allocator (`libc`) and the vendor library
    (`nv`) it talks to. Contracts state the records it builds, the calls it
    forwards to the vendor (the `nv.calls` log), the errno it sets, and that
    every block and vendor object it acquires is either handed to the caller
    or released again before it returns. */
module TudrmGbm {
  import opened Platform
  import opened Abi
  import opened Formats
  import opened TudrmInt
  import Nvgbm

  // ----- device queries -----

  /** `gbm_tudrm_is_format_supported`: the vendor's answer for the wrapped
      vendor device. */
  function IsFormatSupported(gbm: Device, nv: Nvgbm.Library, format: u32, usage: u32): (r: int)
    reads gbm
    ensures r == nv.isFormatSupported(gbm.nvgbmDevice, format, usage)
  {
    nv.isFormatSupported(gbm.nvgbmDevice, format, usage)
  }

  /** `gbm_tudrm_get_format_modifier_plane_count`: the vendor's answer for
      the wrapped vendor device, with the modifier unmodified. */
  function GetFormatModifierPlaneCount(gbm: Device, nv: Nvgbm.Library, format: u32, modifier: bv64): (r: int)
    reads gbm
    ensures r == nv.modifierPlaneCount(gbm.nvgbmDevice, format, modifier)
  {
    nv.modifierPlaneCount(gbm.nvgbmDevice, format, modifier)
  }

  // ----- BO queries -----

  /** `gbm_tudrm_bo_get_fd`: the dma-buf fd recorded in the BO. */
  function BoGetFd(bo: Bo): (r: i32)
    reads bo
    ensures r == bo.dmabufFd
  {
    bo.dmabufFd
  }

  /** `gbm_tudrm_bo_get_planes`: a BO backed by a vendor BO has the vendor's
      plane count, an imported dma-buf exactly one plane. */
  function BoGetPlanes(bo: Bo, nv: Nvgbm.Library): (r: i32)
    reads bo
    ensures bo.nvgbmBo != null ==> r == nv.planeCount(bo.nvgbmBo)
    ensures bo.nvgbmBo == null ==> r == 1
  {
    if bo.nvgbmBo != null then nv.planeCount(bo.nvgbmBo) else 1
  }

  /** `gbm_tudrm_bo_get_handle_for_plane`: the vendor's per-plane handle, or
      the BO's own handle for every plane of an imported dma-buf. */
  function BoGetHandleForPlane(bo: Bo, nv: Nvgbm.Library, plane: i32): (r: u64)
    reads bo
    ensures bo.nvgbmBo != null ==> r == nv.handleForPlane(bo.nvgbmBo, plane)
    ensures bo.nvgbmBo == null ==> r == bo.handle
  {
    if bo.nvgbmBo != null then nv.handleForPlane(bo.nvgbmBo, plane) else bo.handle
  }

  /** `gbm_tudrm_bo_get_stride`: the recorded stride, whatever the plane. */
  function BoGetStride(bo: Bo, plane: i32): (r: u32)
    reads bo
    ensures r == bo.stride
  {
    bo.stride
  }

  /** `gbm_tudrm_bo_get_offset`: the vendor's plane offset, or 0 for an
      imported dma-buf. */
  function BoGetOffset(bo: Bo, nv: Nvgbm.Library, plane: i32): (r: u32)
    reads bo
    ensures bo.nvgbmBo != null ==> r == nv.offset(bo.nvgbmBo, plane)
    ensures bo.nvgbmBo == null ==> r == 0
  {
    if bo.nvgbmBo != null then nv.offset(bo.nvgbmBo, plane) else 0
  }

  /** `gbm_tudrm_bo_get_modifier`: the modifier recorded in the BO. */
  function BoGetModifier(bo: Bo): (r: bv64)
    reads bo
    ensures r == bo.modifier
  {
    bo.modifier
  }

  /** `calls` is `calls0` followed by `granted` and then by the destruction
      call that gives back what `granted` handed out. */
  predicate GrantedThenUndone(calls0: seq<Nvgbm.Call>, calls: seq<Nvgbm.Call>, granted: Nvgbm.Call)
  {
    |calls| == |calls0| + 2 && calls[..|calls0| + 1] == calls0 + [granted]
    && (granted.BoRequested? ==> calls[|calls0| + 1].BoDestroyed?)
    && (granted.DeviceRequested? ==> calls[|calls0| + 1].DeviceDestroyed?)
  }

  // ----- map, unmap, write -----

  /** `gbm_tudrm_bo_write`: forwarded to the vendor BO, whose result it
      returns; 0 without a vendor BO. */
  method BoWrite(nv: Nvgbm.Library, bo: Bo, data: seq<bv8>) returns (r: int)
    modifies nv
    ensures nv.liveBos == old(nv.liveBos) && nv.liveDevices == old(nv.liveDevices)
    ensures bo.nvgbmBo == null ==> r == 0 && nv.calls == old(nv.calls)
    ensures bo.nvgbmBo != null ==> nv.calls == old(nv.calls) + [Nvgbm.Written(bo.nvgbmBo, data, r)]
  {
    if bo.nvgbmBo != null {
      r := nv.Write(bo.nvgbmBo, data);
    } else {
      r := 0;
    }
  }

  /** `gbm_tudrm_bo_map`: forwarded to the vendor BO, returning its address
      and what it stores through `stride` and `map_data`; without a vendor BO
      NULL, and both out-values left as they were. */
  method BoMap(nv: Nvgbm.Library, bo: Bo, x: u32, y: u32, width: u32, height: u32,
               flags: u32, stride: u32, mapData: Option<nat>)
    returns (addr: Option<nat>, strideOut: u32, mapDataOut: Option<nat>)
    modifies nv
    ensures nv.liveBos == old(nv.liveBos) && nv.liveDevices == old(nv.liveDevices)
    ensures bo.nvgbmBo == null ==>
      addr == None && strideOut == stride && mapDataOut == mapData && nv.calls == old(nv.calls)
    ensures bo.nvgbmBo != null ==>
      nv.calls == old(nv.calls) + [Nvgbm.Mapped(bo.nvgbmBo, x, y, width, height, flags, addr, strideOut, mapDataOut)]
  {
    if bo.nvgbmBo != null {
      addr, strideOut, mapDataOut := nv.Map(bo.nvgbmBo, x, y, width, height, flags);
    } else {
      addr, strideOut, mapDataOut := None, stride, mapData;
    }
  }

  /** `gbm_tudrm_bo_unmap`: forwarded to the vendor BO; nothing without one. */
  method BoUnmap(nv: Nvgbm.Library, bo: Bo, mapData: Option<nat>)
    modifies nv
    ensures nv.liveBos == old(nv.liveBos) && nv.liveDevices == old(nv.liveDevices)
    ensures bo.nvgbmBo == null ==> nv.calls == old(nv.calls)
    ensures bo.nvgbmBo != null ==> nv.calls == old(nv.calls) + [Nvgbm.Unmapped(bo.nvgbmBo, mapData)]
  {
    if bo.nvgbmBo != null {
      nv.Unmap(bo.nvgbmBo, mapData);
    }
  }

  // ----- BO import -----

  /** Whether `bo_import` handles the import type itself, through PRIME. */
  predicate IsDmabufImport(importType: u32)
  {
    importType == GBM_BO_IMPORT_FD_MODIFIER || importType == GBM_BO_IMPORT_FD
  }

  /** The dma-buf fd a dma-buf import turns into a GEM handle. */
  function ImportedFd(importType: u32, buffer: ImportData): i32
    requires importType == GBM_BO_IMPORT_FD_MODIFIER ==> buffer.FdModifierData? && WellFormed(buffer)
    requires importType == GBM_BO_IMPORT_FD ==> buffer.FdData?
    requires IsDmabufImport(importType)
  {
    if importType == GBM_BO_IMPORT_FD_MODIFIER then buffer.fds[0] else buffer.fd
  }

  /** The record of a dma-buf import: the GEM handle, the descriptor's
      geometry, the canonical format, the stride, fd and modifier. */
  method FillDmabufBo(b: Bo, handle: u32, width: u32, height: u32, format: u32,
                      stride: u32, fd: i32, modifier: bv64)
    modifies b
    ensures b.gbm == old(b.gbm) && b.nvgbmBo == old(b.nvgbmBo)
    ensures b.handle == handle && b.width == width && b.height == height
    ensures b.format == FormatCanonicalize(format)
    ensures b.stride == stride && b.dmabufFd == fd && b.modifier == modifier
  {
    b.handle := handle;
    b.width, b.height := width, height;
    b.format := FormatCanonicalize(format);
    b.stride := stride;
    b.dmabufFd := fd;
    b.modifier := modifier;
  }

  /** The record of a vendor import: the vendor BO and its geometry,
      format, handle and stride; fd and modifier keep their values. */
  method FillVendorBo(b: Bo, nv: Nvgbm.Library, nb: Nvgbm.Bo)
    modifies b
    ensures b.gbm == old(b.gbm) && b.dmabufFd == old(b.dmabufFd) && b.modifier == old(b.modifier)
    ensures b.nvgbmBo == nb
    ensures b.width == nv.width(nb) && b.height == nv.height(nb) && b.format == nv.format(nb)
    ensures b.handle == nv.handle(nb) && b.stride == nv.stride(nb)
  {
    b.nvgbmBo := nb;
    b.width, b.height := nv.width(nb), nv.height(nb);
    b.format := nv.format(nb);
    b.handle := nv.handle(nb);
    b.stride := nv.stride(nb);
  }

  /** `gbm_tudrm_bo_import`. The record is allocated first (ENOMEM on
      failure). An `FD_MODIFIER` or `FD` import converts the descriptor's
      (first) fd to a GEM handle with `prime`, the `drmPrimeFDToHandle` of
      the device fd, and records the descriptor's geometry, the canonical
      format, the fd, and for `FD_MODIFIER` the modifier; it never calls the
      vendor. Every other import type is handed to the vendor unchanged and
      the record takes the vendor BO's geometry, format, handle and stride.
      A failed conversion or vendor import frees the record. */
  method BoImport(libc: Libc, nv: Nvgbm.Library, prime: (i32, i32) -> Option<u32>,
                  gbm: Device, importType: u32, buffer: ImportData, usage: u32)
    returns (bo: Bo?)
    requires importType == GBM_BO_IMPORT_FD_MODIFIER ==> buffer.FdModifierData? && WellFormed(buffer)
    requires importType == GBM_BO_IMPORT_FD ==> buffer.FdData?
    modifies libc, nv
    ensures nv.liveDevices == old(nv.liveDevices)
    ensures bo == null ==> libc.live == old(libc.live) && nv.liveBos == old(nv.liveBos)
    ensures bo != null ==> fresh(bo) && libc.live == old(libc.live) + {bo} && bo.Held(libc, nv)
    ensures bo != null ==> bo.gbm == gbm && libc.errno == old(libc.errno)
    // one record allocation; when it is refused, ENOMEM and nothing else
    ensures libc.grants == old(libc.grants) + [false] || libc.grants == old(libc.grants) + [true]
    ensures libc.grants == old(libc.grants) + [false] ==>
      bo == null && libc.errno == ENOMEM && nv.calls == old(nv.calls)
    ensures libc.grants == old(libc.grants) + [true] ==> libc.errno == old(libc.errno)
    // dma-buf imports: the BO is returned exactly when calloc and PRIME succeed
    ensures IsDmabufImport(importType) ==> nv.calls == old(nv.calls) && nv.liveBos == old(nv.liveBos)
    ensures IsDmabufImport(importType) ==>
      (bo != null <==>
         libc.grants == old(libc.grants) + [true] && prime(gbm.fd, ImportedFd(importType, buffer)).Some?)
    ensures IsDmabufImport(importType) && bo != null ==>
      prime(gbm.fd, ImportedFd(importType, buffer)).Some?
      && bo.handle == prime(gbm.fd, ImportedFd(importType, buffer)).value
      && bo.width == buffer.width && bo.height == buffer.height
      && bo.format == FormatCanonicalize(buffer.format)
      && BoGetFd(bo) == ImportedFd(importType, buffer)
      && bo.nvgbmBo == null
    ensures importType == GBM_BO_IMPORT_FD_MODIFIER && bo != null ==>
      bo.stride == ToU32(buffer.strides[0]) && BoGetModifier(bo) == buffer.modifier
    ensures importType == GBM_BO_IMPORT_FD && bo != null ==>
      bo.stride == buffer.stride && BoGetModifier(bo) == 0
    // every other import type goes to the vendor once the record is
    // allocated; the BO is returned exactly when the vendor grants it
    ensures !IsDmabufImport(importType) && libc.grants == old(libc.grants) + [true] ==>
      nv.calls == old(nv.calls) + [Nvgbm.BoRequested(Nvgbm.Import(gbm.nvgbmDevice, importType, buffer, usage), bo != null)]
    ensures !IsDmabufImport(importType) && bo != null ==>
      bo.nvgbmBo != null && fresh(bo.nvgbmBo) && nv.liveBos == old(nv.liveBos) + {bo.nvgbmBo}
      && bo.width == nv.width(bo.nvgbmBo) && bo.height == nv.height(bo.nvgbmBo)
      && bo.format == nv.format(bo.nvgbmBo) && bo.handle == nv.handle(bo.nvgbmBo)
      && bo.stride == nv.stride(bo.nvgbmBo)
      && BoGetFd(bo) == 0 && BoGetModifier(bo) == 0
  {
    var grants0 := libc.grants;
    var ok := libc.CallocSucceeds();
    assert libc.grants[|grants0|] == ok;
    if !ok {
      libc.SetErrno(ENOMEM);
      return null;
    }
    var b := new Bo();
    libc.Track(b);
    b.gbm := gbm;

    if importType == GBM_BO_IMPORT_FD_MODIFIER {
      var handle := prime(gbm.fd, buffer.fds[0]);
      if handle.None? {
        libc.Free(b);
        return null;
      }
      FillDmabufBo(b, handle.value, buffer.width, buffer.height, buffer.format,
                   ToU32(buffer.strides[0]), buffer.fds[0], buffer.modifier);
    } else if importType == GBM_BO_IMPORT_FD {
      var handle := prime(gbm.fd, buffer.fd);
      if handle.None? {
        libc.Free(b);
        return null;
      }
      // the modifier keeps its zero value
      FillDmabufBo(b, handle.value, buffer.width, buffer.height, buffer.format,
                   buffer.stride, buffer.fd, 0);
    } else {
      var nb := nv.RequestBo(Nvgbm.Import(gbm.nvgbmDevice, importType, buffer, usage));
      if nb == null {
        libc.Free(b);
        return null;
      }
      FillVendorBo(b, nv, nb);
    }
    bo := b;
  }

  // ----- BO creation and destruction -----

  /** The modifier list a `bo_create` caller passes: none when the pointer
      is NULL, else the first `count` entries. */
  function GivenModifiers(modifiers: array?<bv64>, count: u32): seq<bv64>
    reads modifiers
    requires modifiers != null ==> count as int <= modifiers.Length
  {
    if modifiers == null then [] else modifiers[..count]
  }

  /** What `bo_create` asks the vendor for: with a non-empty modifier list,
      a modifier-aware creation with the NVIDIA vendor bits stripped from
      each modifier and the usage dropped; otherwise a plain creation with
      the usage. The format is passed as given, not canonicalised. */
  function CreateRequest(device: Nvgbm.Device?, width: u32, height: u32, format: u32,
                         usage: u32, modifiers: seq<bv64>): Nvgbm.Request
  {
    if |modifiers| > 0 then Nvgbm.CreateWithModifiers(device, width, height, format, StripNvidiaVendorAll(modifiers))
    else Nvgbm.Create(device, width, height, format, usage)
  }

  /** The copy loop of `bo_create`: `dst` receives the first `count`
      entries of `src` with the NVIDIA vendor bits stripped. */
  method StripInto(src: array<bv64>, count: nat, dst: array<bv64>)
    requires count <= src.Length && dst.Length == count && src != dst
    modifies dst
    ensures dst[..] == StripNvidiaVendorAll(src[..count])
  {
    var i: nat := 0;
    while i < count
      invariant i <= count
      invariant forall j :: 0 <= j < i ==> dst[j] == StripNvidiaVendor(src[j])
    {
      dst[i] := StripNvidiaVendor(src[i]);
      i := i + 1;
    }
  }

  /** The first half of `bo_create`: the vendor call, with the temporary
      stripped copy of a non-empty modifier list allocated and freed around
      it. */
  method CreateVendorBo(libc: Libc, nv: Nvgbm.Library, device: Nvgbm.Device?, width: u32, height: u32,
                        format: u32, usage: u32, modifiers: array?<bv64>, count: u32)
    returns (nb: Nvgbm.Bo?)
    requires modifiers != null ==> count as int <= modifiers.Length
    modifies libc, nv
    ensures libc.live == old(libc.live) && libc.errno == old(libc.errno)
    ensures nv.liveDevices == old(nv.liveDevices)
    ensures nb == null ==> nv.liveBos == old(nv.liveBos)
    ensures nb != null ==> fresh(nb) && nv.liveBos == old(nv.liveBos) + {nb}
    ensures GivenModifiers(modifiers, count) == [] ==>
      libc.grants == old(libc.grants)
      && nv.calls == old(nv.calls)
           + [Nvgbm.BoRequested(CreateRequest(device, width, height, format, usage, []), nb != null)]
    ensures GivenModifiers(modifiers, count) != [] ==>
      (libc.grants == old(libc.grants) + [false] && nb == null && nv.calls == old(nv.calls))
      || (libc.grants == old(libc.grants) + [true]
          && nv.calls == old(nv.calls)
               + [Nvgbm.BoRequested(CreateRequest(device, width, height, format, usage, GivenModifiers(modifiers, count)), nb != null)])
  {
    if modifiers != null && count > 0 {
      var stripped := libc.CallocU64Array(count as nat);
      if stripped == null {
        return null;
      }
      StripInto(modifiers, count as nat, stripped);
      nb := nv.RequestBo(Nvgbm.CreateWithModifiers(device, width, height, format, stripped[..]));
      libc.Free(stripped);
    } else {
      nb := nv.RequestBo(Nvgbm.Create(device, width, height, format, usage));
    }
  }

  /** The allocations a `bo_create` makes before the record when every one
      is granted: the temporary list, needed only for a non-empty modifier
      list. */
  function TempListGrants(given: seq<bv64>): seq<bool>
  {
    if given != [] then [true] else []
  }

  /** The second half of `bo_create`: the fresh record takes the
      requested geometry, the canonical format, the vendor BO with its
      handle, stride and fd, and the modifier. */
  method FillCreatedBo(b: Bo, nv: Nvgbm.Library, gbm: Device, nb: Nvgbm.Bo, width: u32, height: u32,
                       format: u32, modifier: bv64)
    modifies b
    ensures b.nvgbmBo == nb && b.gbm == gbm && b.width == width && b.height == height
    ensures b.format == FormatCanonicalize(format)
    ensures b.handle == nv.handle(nb) && b.stride == nv.stride(nb) && b.dmabufFd == nv.fd(nb)
    ensures b.modifier == modifier
  {
    b.nvgbmBo := nb;
    b.gbm := gbm;
    b.width, b.height := width, height;
    b.format := FormatCanonicalize(format);
    b.handle := nv.handle(nb);
    b.stride := nv.stride(nb);
    b.dmabufFd := nv.fd(nb);
    b.modifier := modifier;
  }

  /** `gbm_tudrm_bo_create`. The vendor BO is created first; for a modifier
      list a temporary copy with the vendor bits stripped is allocated and
      freed around the vendor call (a failed allocation returns NULL and
      calls nothing). A failed vendor creation returns NULL; a failed record
      allocation destroys the vendor BO again and sets ENOMEM. The record
      takes the requested geometry, the canonical format, the vendor BO's
      handle, stride and fd, and the first requested modifier as given
      (before stripping), or 0 without a list. */
  method BoCreate(libc: Libc, nv: Nvgbm.Library, gbm: Device, width: u32, height: u32,
                  format: u32, usage: u32, modifiers: array?<bv64>, count: u32)
    returns (bo: Bo?)
    requires modifiers != null ==> count as int <= modifiers.Length
    modifies libc, nv
    ensures nv.liveDevices == old(nv.liveDevices)
    ensures bo == null ==> libc.live == old(libc.live) && nv.liveBos == old(nv.liveBos)
    ensures bo != null ==>
      fresh(bo) && libc.live == old(libc.live) + {bo} && bo.Held(libc, nv)
      && bo.nvgbmBo != null && fresh(bo.nvgbmBo) && nv.liveBos == old(nv.liveBos) + {bo.nvgbmBo}
      && libc.errno == old(libc.errno)
    ensures bo != null ==>
      nv.calls == old(nv.calls)
        + [Nvgbm.BoRequested(CreateRequest(gbm.nvgbmDevice, width, height, format, usage, GivenModifiers(modifiers, count)), true)]
      && libc.grants == old(libc.grants) + TempListGrants(GivenModifiers(modifiers, count)) + [true]
    ensures bo != null ==>
      bo.gbm == gbm && bo.width == width && bo.height == height
      && bo.format == FormatCanonicalize(format)
      && bo.handle == nv.handle(bo.nvgbmBo) && bo.stride == nv.stride(bo.nvgbmBo)
      && BoGetFd(bo) == nv.fd(bo.nvgbmBo)
      && BoGetModifier(bo) == (if GivenModifiers(modifiers, count) != [] then modifiers[0] else 0)
    ensures bo == null ==>
      // the temporary list could not be allocated
      (GivenModifiers(modifiers, count) != [] && libc.grants == old(libc.grants) + [false]
       && nv.calls == old(nv.calls) && libc.errno == old(libc.errno))
      // the vendor refused
      || (libc.grants == old(libc.grants) + TempListGrants(GivenModifiers(modifiers, count))
          && nv.calls == old(nv.calls)
               + [Nvgbm.BoRequested(CreateRequest(gbm.nvgbmDevice, width, height, format, usage, GivenModifiers(modifiers, count)), false)]
          && libc.errno == old(libc.errno))
      // the record could not be allocated: the vendor BO is destroyed again
      || (libc.grants == old(libc.grants) + TempListGrants(GivenModifiers(modifiers, count)) + [false]
          && GrantedThenUndone(old(nv.calls), nv.calls,
               Nvgbm.BoRequested(CreateRequest(gbm.nvgbmDevice, width, height, format, usage, GivenModifiers(modifiers, count)), true))
          && libc.errno == ENOMEM)
  {
    var nb := CreateVendorBo(libc, nv, gbm.nvgbmDevice, width, height, format, usage, modifiers, count);
    if nb == null {
      return null;
    }

    var ok := libc.CallocSucceeds();
    if !ok {
      nv.DestroyBo(nb);
      libc.SetErrno(ENOMEM);
      return null;
    }
    var b := new Bo();
    libc.Track(b);
    var modifier := if count > 0 && modifiers != null then modifiers[0] else 0;
    FillCreatedBo(b, nv, gbm, nb, width, height, format, modifier);
    bo := b;
  }

  /** `gbm_tudrm_bo_destroy`: destroys the vendor BO if there is one and
      frees the record. */
  method BoDestroy(libc: Libc, nv: Nvgbm.Library, bo: Bo)
    requires bo.Held(libc, nv)
    modifies libc, nv
    ensures libc.live == old(libc.live) - {bo} && libc.errno == old(libc.errno)
    ensures nv.liveDevices == old(nv.liveDevices)
    ensures bo.nvgbmBo == null ==> nv.liveBos == old(nv.liveBos) && nv.calls == old(nv.calls)
    ensures bo.nvgbmBo != null ==>
      nv.liveBos == old(nv.liveBos) - {bo.nvgbmBo}
      && nv.calls == old(nv.calls) + [Nvgbm.BoDestroyed(bo.nvgbmBo)]
  {
    if bo.nvgbmBo != null {
      nv.DestroyBo(bo.nvgbmBo);
    }
    libc.Free(bo);
  }

  // ----- surfaces -----

  /** The diagnostic case of surface creation: a list holding only
      `DRM_FORMAT_MOD_INVALID`. */
  predicate OnlyInvalid(modifiers: array?<bv64>, count: u32)
    reads modifiers
  {
    count == 1 && modifiers != null && modifiers.Length >= 1 && modifiers[0] == DRM_FORMAT_MOD_INVALID
  }

  /** The filter loop of `surface_create`: the entries of `src[..count]`
      that pass the import test are written, in order, to the front of
      `dst`; `n` is how many. */
  method FilterInto(src: array<bv64>, count: nat, dst: array<bv64>) returns (n: nat)
    requires count <= src.Length && dst.Length == count && src != dst
    modifies dst
    ensures n <= dst.Length && dst[..n] == KeepImportable(src[..count])
  {
    var i: nat := 0;
    n := 0;
    while i < count
      invariant n <= i <= count
      invariant dst[..n] == KeepImportable(src[..i])
    {
      assert src[..i + 1][..i] == src[..i];
      if Importable(src[i]) {
        dst[n] := src[i];
        n := n + 1;
      }
      i := i + 1;
    }
    assert src[..count] == src[..i];
  }

  /** The header fields of a new surface: device, geometry, canonical
      format and flags. */
  method FillSurface(s: Surface, gbm: Device, width: u32, height: u32, format: u32, flags: u32)
    modifies s
    ensures s.modifiers == old(s.modifiers) && s.count == old(s.count)
    ensures s.gbm == gbm && s.width == width && s.height == height
    ensures s.format == FormatCanonicalize(format) && s.flags == flags
  {
    s.gbm := gbm;
    s.width, s.height := width, height;
    s.format := FormatCanonicalize(format);
    s.flags := flags;
  }

  /** `gbm_tudrm_surface_create` (the active branch). A list holding only
      INVALID sets EINVAL and creation carries on. The record is allocated
      (ENOMEM on failure) and takes the geometry, canonical format and
      flags. Without a list the surface has none. Otherwise a list of
      `count` entries is allocated (ENOMEM and the record freed if that
      fails for `count > 0`) and receives, in order, exactly the given
      modifiers that pass the import test. */
  method SurfaceCreate(libc: Libc, gbm: Device, width: u32, height: u32, format: u32,
                       flags: u32, modifiers: array?<bv64>, count: u32)
    returns (surf: Surface?)
    requires modifiers == null ==> count == 0
    requires modifiers != null ==> count as int <= modifiers.Length
    modifies libc
    ensures surf == null ==> libc.live == old(libc.live) && libc.errno == ENOMEM
    // NULL exactly when the record, or a list of count > 0, is refused
    ensures surf == null ==>
      libc.grants == old(libc.grants) + [false]
      || (modifiers != null && count > 0 && libc.grants == old(libc.grants) + [true, false])
    ensures surf != null ==>
      libc.grants == old(libc.grants) + [true] + (if modifiers == null then [] else [surf.modifiers != null])
      && (modifiers != null && count > 0 ==> surf.modifiers != null)
    ensures surf != null ==>
      fresh(surf) && surf.Valid() && surf.Held(libc)
      && (surf.modifiers == null ==> libc.live == old(libc.live) + {surf})
      && (surf.modifiers != null ==>
            fresh(surf.modifiers) && libc.live == old(libc.live) + {surf} + {surf.modifiers})
      && libc.errno == (if OnlyInvalid(modifiers, count) then EINVAL else old(libc.errno))
    ensures surf != null ==>
      surf.gbm == gbm && surf.width == width && surf.height == height
      && surf.format == FormatCanonicalize(format) && surf.flags == flags
    ensures surf != null && modifiers == null ==> surf.modifiers == null
    ensures surf != null ==>
      surf.Modifiers() == if modifiers == null then [] else KeepImportable(modifiers[..count])
  {
    if count == 1 && modifiers[0] == DRM_FORMAT_MOD_INVALID {
      libc.SetErrno(EINVAL);
    }

    var ok := libc.CallocSucceeds();
    if !ok {
      libc.SetErrno(ENOMEM);
      return null;
    }
    var s := new Surface();
    libc.Track(s);
    FillSurface(s, gbm, width, height, format, flags);
    if modifiers == null {
      return s;
    }

    var list := libc.CallocU64Array(count as nat);
    s.modifiers := list;
    if count > 0 && list == null {
      libc.SetErrno(ENOMEM);
      libc.Free(s);
      return null;
    }

    // A NULL list is only possible for `count == 0`, where the loop stores
    // nothing and the count stays 0.
    if list != null {
      var n := FilterInto(modifiers, count as nat, list);
      s.count := n;
    }
    surf := s;
  }

  /** `gbm_tudrm_surface_destroy`: frees the modifier list, if any, and the
      record. */
  method SurfaceDestroy(libc: Libc, surf: Surface)
    requires surf.Held(libc)
    modifies libc
    ensures surf.modifiers == null ==> libc.live == old(libc.live) - {surf}
    ensures surf.modifiers != null ==> libc.live == old(libc.live) - {surf} - {surf.modifiers}
    ensures libc.errno == old(libc.errno)
  {
    if surf.modifiers != null {
      libc.Free(surf.modifiers);
    }
    libc.Free(surf);
  }

  // ----- devices -----

  /** The `gbm_device_v0` slots the backend leaves NULL. */
  const UNSET_SLOTS: set<Slot> :=
    {Slot.BoGetPlaneFd, Slot.SurfaceLockFrontBuffer, Slot.SurfaceReleaseBuffer, Slot.SurfaceHasFreeBuffers}

  /** The slot an entry point is written for. */
  function SlotOf(h: Handler): Slot
  {
    match h
    case TudrmDeviceDestroy => Slot.Destroy
    case TudrmIsFormatSupported => Slot.IsFormatSupported
    case TudrmGetFormatModifierPlaneCount => Slot.GetFormatModifierPlaneCount
    case TudrmBoCreate => Slot.BoCreate
    case TudrmBoDestroy => Slot.BoDestroy
    case TudrmBoImport => Slot.BoImport
    case TudrmBoMap => Slot.BoMap
    case TudrmBoUnmap => Slot.BoUnmap
    case TudrmBoWrite => Slot.BoWrite
    case TudrmBoGetFd => Slot.BoGetFd
    case TudrmBoGetPlanes => Slot.BoGetPlanes
    case TudrmBoGetHandleForPlane => Slot.BoGetHandle
    case TudrmBoGetStride => Slot.BoGetStride
    case TudrmBoGetOffset => Slot.BoGetOffset
    case TudrmBoGetModifier => Slot.BoGetModifier
    case TudrmSurfaceCreate => Slot.SurfaceCreate
    case TudrmSurfaceDestroy => Slot.SurfaceDestroy
  }

  /** The operation table `device_create` installs. */
  function OperationTable(): map<Slot, Handler>
  {
    map[
      Slot.Destroy := TudrmDeviceDestroy,
      Slot.IsFormatSupported := TudrmIsFormatSupported,
      Slot.GetFormatModifierPlaneCount := TudrmGetFormatModifierPlaneCount,
      Slot.BoCreate := TudrmBoCreate,
      Slot.BoDestroy := TudrmBoDestroy,
      Slot.BoImport := TudrmBoImport,
      Slot.BoMap := TudrmBoMap,
      Slot.BoUnmap := TudrmBoUnmap,
      Slot.BoWrite := TudrmBoWrite,
      Slot.BoGetFd := TudrmBoGetFd,
      Slot.BoGetPlanes := TudrmBoGetPlanes,
      Slot.BoGetHandle := TudrmBoGetHandleForPlane,
      Slot.BoGetStride := TudrmBoGetStride,
      Slot.BoGetOffset := TudrmBoGetOffset,
      Slot.BoGetModifier := TudrmBoGetModifier,
      Slot.SurfaceCreate := TudrmSurfaceCreate,
      Slot.SurfaceDestroy := TudrmSurfaceDestroy
    ]
  }

  /** Every slot of the table is bound to the backend's own entry point
      for it, except the four that are left NULL; so no entry point is
      bound to two slots. */
  lemma OperationTableSlot(s: Slot)
    ensures s in OperationTable() <==> s !in UNSET_SLOTS
    ensures s in OperationTable() ==> SlotOf(OperationTable()[s]) == s
  {
    match s
    case Destroy =>
    case IsFormatSupported =>
    case GetFormatModifierPlaneCount =>
    case BoCreate =>
    case BoImport =>
    case BoMap =>
    case BoUnmap =>
    case BoWrite =>
    case BoGetFd =>
    case BoGetPlanes =>
    case BoGetHandle =>
    case BoGetPlaneFd =>
    case BoGetStride =>
    case BoGetOffset =>
    case BoGetModifier =>
    case BoDestroy =>
    case SurfaceCreate =>
    case SurfaceLockFrontBuffer =>
    case SurfaceReleaseBuffer =>
    case SurfaceHasFreeBuffers =>
    case SurfaceDestroy =>
  }

  /** The table binds every `gbm_device_v0` slot except the four left NULL. */
  lemma OperationTableKeys()
    ensures OperationTable().Keys == ALL_SLOTS - UNSET_SLOTS
  {
    AllSlotsListed();
    forall s: Slot
      ensures s in OperationTable().Keys <==> s in ALL_SLOTS - UNSET_SLOTS
    {
      OperationTableSlot(s);
    }
  }

  /** The backend's name, reported in the device and the backend record. */
  const BACKEND_NAME: string := "tegra-udrm"

  /** `gbm_tudrm_device_create`. Loading the vendor library comes first
      (ENODEV), then the ABI version check (EINVAL), both before any vendor
      call; then the vendor device is created (NULL if refused) and the
      record allocated (on failure the vendor device is destroyed again and
      ENOMEM set). The record reports the ABI version, the backend name and
      the fd, carries the operation table and wraps the vendor device. */
  method DeviceCreate(libc: Libc, nv: Nvgbm.Library, fd: i32, backendVersion: u32)
    returns (gbm: Device?)
    modifies libc, nv
    ensures nv.liveBos == old(nv.liveBos)
    ensures gbm == null ==> libc.live == old(libc.live) && nv.liveDevices == old(nv.liveDevices)
    ensures gbm != null ==>
      fresh(gbm) && gbm.Held(libc, nv) && fresh(gbm.nvgbmDevice)
      && libc.live == old(libc.live) + {gbm} && nv.liveDevices == old(nv.liveDevices) + {gbm.nvgbmDevice}
      && gbm.backendVersion == GBM_BACKEND_ABI_VERSION
      && gbm.name == Some(BACKEND_NAME) && gbm.fd == fd && gbm.table == OperationTable()
    // the library could not be loaded
    ensures nv.calls == old(nv.calls) + [Nvgbm.Loaded(false)] ==>
      gbm == null && libc.errno == ENODEV && libc.grants == old(libc.grants)
    // loaded, but the wrong ABI version: no vendor call
    ensures backendVersion != GBM_BACKEND_ABI_VERSION ==>
      gbm == null && libc.grants == old(libc.grants)
      && (nv.calls == old(nv.calls) + [Nvgbm.Loaded(false)]
          || (nv.calls == old(nv.calls) + [Nvgbm.Loaded(true)] && libc.errno == EINVAL))
    // loaded with the right version: the vendor device is requested; the
    // result is the record exactly when both the vendor and calloc agreed
    ensures backendVersion == GBM_BACKEND_ABI_VERSION ==>
      nv.calls == old(nv.calls) + [Nvgbm.Loaded(false)]
      || (nv.calls == old(nv.calls) + [Nvgbm.Loaded(true), Nvgbm.DeviceRequested(fd, false)]
          && gbm == null && libc.errno == old(libc.errno) && libc.grants == old(libc.grants))
      || (GrantedThenUndone(old(nv.calls) + [Nvgbm.Loaded(true)], nv.calls, Nvgbm.DeviceRequested(fd, true))
          && gbm == null && libc.errno == ENOMEM && libc.grants == old(libc.grants) + [false])
      || (nv.calls == old(nv.calls) + [Nvgbm.Loaded(true), Nvgbm.DeviceRequested(fd, true)]
          && gbm != null && libc.errno == old(libc.errno) && libc.grants == old(libc.grants) + [true])
  {
    var calls0 := nv.calls;
    var loaded := nv.Load();
    if !loaded {
      libc.SetErrno(ENODEV);
      return null;
    }
    assert nv.calls[|calls0|] == Nvgbm.Loaded(true);
    if backendVersion != GBM_BACKEND_ABI_VERSION {
      libc.SetErrno(EINVAL);
      return null;
    }
    var nd := nv.CreateDevice(fd);
    if nd == null {
      return null;
    }
    var ok := libc.CallocSucceeds();
    if !ok {
      nv.DestroyDevice(nd);
      libc.SetErrno(ENOMEM);
      return null;
    }
    var d := new Device();
    libc.Track(d);
    d.backendVersion := GBM_BACKEND_ABI_VERSION;
    d.name := Some(BACKEND_NAME);
    d.fd := fd;
    d.table := OperationTable();
    d.nvgbmDevice := nd;
    gbm := d;
  }

  /** `gbm_tudrm_device_destroy`: destroys the vendor device and frees the
      record. */
  method DeviceDestroy(libc: Libc, nv: Nvgbm.Library, gbm: Device)
    requires gbm.Held(libc, nv)
    modifies libc, nv
    ensures libc.live == old(libc.live) - {gbm} && libc.errno == old(libc.errno)
    ensures nv.liveDevices == old(nv.liveDevices) - {gbm.nvgbmDevice} && nv.liveBos == old(nv.liveBos)
    ensures nv.calls == old(nv.calls) + [Nvgbm.DeviceDestroyed(gbm.nvgbmDevice)]
  {
    nv.DestroyDevice(gbm.nvgbmDevice);
    libc.Free(gbm);
  }

  // ----- round trips -----

  /** Destroying a device right after creating it gives back everything
      the creation acquired: no record and no vendor device stays live. */
  method DeviceRoundTrip(libc: Libc, nv: Nvgbm.Library, fd: i32, backendVersion: u32)
    modifies libc, nv
    ensures libc.live == old(libc.live)
    ensures nv.liveDevices == old(nv.liveDevices) && nv.liveBos == old(nv.liveBos)
  {
    var gbm := DeviceCreate(libc, nv, fd, backendVersion);
    if gbm != null {
      DeviceDestroy(libc, nv, gbm);
    }
  }

  /** Destroying a BO right after creating it gives back the record, the
      vendor BO and (already during creation) the temporary modifier list. */
  method BoCreateRoundTrip(libc: Libc, nv: Nvgbm.Library, gbm: Device, width: u32, height: u32,
                           format: u32, usage: u32, modifiers: array?<bv64>, count: u32)
    requires modifiers != null ==> count as int <= modifiers.Length
    modifies libc, nv
    ensures libc.live == old(libc.live)
    ensures nv.liveDevices == old(nv.liveDevices) && nv.liveBos == old(nv.liveBos)
  {
    var bo := BoCreate(libc, nv, gbm, width, height, format, usage, modifiers, count);
    if bo != null {
      BoDestroy(libc, nv, bo);
    }
  }

  /** Destroying an imported BO right after importing it gives back the
      record and any vendor BO the import obtained. */
  method BoImportRoundTrip(libc: Libc, nv: Nvgbm.Library, prime: (i32, i32) -> Option<u32>,
                           gbm: Device, importType: u32, buffer: ImportData, usage: u32)
    requires importType == GBM_BO_IMPORT_FD_MODIFIER ==> buffer.FdModifierData? && WellFormed(buffer)
    requires importType == GBM_BO_IMPORT_FD ==> buffer.FdData?
    modifies libc, nv
    ensures libc.live == old(libc.live)
    ensures nv.liveDevices == old(nv.liveDevices) && nv.liveBos == old(nv.liveBos)
  {
    var bo := BoImport(libc, nv, prime, gbm, importType, buffer, usage);
    if bo != null {
      BoDestroy(libc, nv, bo);
    }
  }

  /** Destroying a surface right after creating it frees the record and its
      modifier list. */
  method SurfaceRoundTrip(libc: Libc, gbm: Device, width: u32, height: u32, format: u32,
                          flags: u32, modifiers: array?<bv64>, count: u32)
    requires modifiers == null ==> count == 0
    requires modifiers != null ==> count as int <= modifiers.Length
    modifies libc
    ensures libc.live == old(libc.live)
  {
    var surf := SurfaceCreate(libc, gbm, width, height, format, flags, modifiers, count);
    if surf != null {
      SurfaceDestroy(libc, surf);
    }
  }
}
