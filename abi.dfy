/** Constants and argument structures the backend takes from its public
    headers: gbm.h (format and import codes, the import descriptors),
    gbm_backend_abi.h (the ABI version and the per-device operation table)
    and drm_fourcc.h (format modifiers). Those headers are not part of this
    model; the values below are the ones they define. */
module Abi {
  import opened Platform

  // gbm.h: the legacy `enum gbm_bo_format` codes
  const GBM_BO_FORMAT_XRGB8888: u32 := 0
  const GBM_BO_FORMAT_ARGB8888: u32 := 1

  /** `__gbm_fourcc_code`: four characters packed little-endian. */
  function FourccCode(a: char, b: char, c: char, d: char): (r: u32)
    requires a < 128 as char && b < 128 as char && c < 128 as char && d < 128 as char
    ensures r % 256 == a as int && r / 0x100_0000 == d as int
  {
    a as int + b as int * 0x100 + c as int * 0x1_0000 + d as int * 0x100_0000
  }

  const GBM_FORMAT_XRGB8888: u32 := FourccCode('X', 'R', '2', '4')
  const GBM_FORMAT_ARGB8888: u32 := FourccCode('A', 'R', '2', '4')

  // gbm.h: import types
  const GBM_BO_IMPORT_WL_BUFFER: u32 := 0x5501
  const GBM_BO_IMPORT_EGL_IMAGE: u32 := 0x5502
  const GBM_BO_IMPORT_FD: u32 := 0x5503
  const GBM_BO_IMPORT_FD_MODIFIER: u32 := 0x5504

  /** The number of per-plane slots in `struct gbm_import_fd_modifier_data`. */
  const GBM_MAX_PLANES: nat := 4

  /** What `void *buffer` of `bo_import` points to. `FdData` is
      `struct gbm_import_fd_data`, `FdModifierData` is
      `struct gbm_import_fd_modifier_data`; `Foreign` is any other object
      (a wl_buffer, an EGLImage), opaque to this backend. */
  datatype ImportData =
    | FdData(fd: i32, width: u32, height: u32, stride: u32, format: u32)
    | FdModifierData(width: u32, height: u32, format: u32, numFds: u32,
                     fds: seq<i32>, strides: seq<i32>, offsets: seq<i32>,
                     modifier: bv64)
    | Foreign(id: nat)

  /** A descriptor that matches the C layout: the fixed-size plane arrays. */
  predicate WellFormed(d: ImportData)
  {
    d.FdModifierData? ==>
      |d.fds| == GBM_MAX_PLANES && |d.strides| == GBM_MAX_PLANES && |d.offsets| == GBM_MAX_PLANES
  }

  // gbm_backend_abi.h
  const GBM_BACKEND_ABI_VERSION: u32 := 1

  /** The function-pointer slots of `struct gbm_device_v0`, in their order. */
  datatype Slot =
    | Destroy
    | IsFormatSupported
    | GetFormatModifierPlaneCount
    | BoCreate
    | BoImport
    | BoMap
    | BoUnmap
    | BoWrite
    | BoGetFd
    | BoGetPlanes
    | BoGetHandle
    | BoGetPlaneFd
    | BoGetStride
    | BoGetOffset
    | BoGetModifier
    | BoDestroy
    | SurfaceCreate
    | SurfaceLockFrontBuffer
    | SurfaceReleaseBuffer
    | SurfaceHasFreeBuffers
    | SurfaceDestroy

  /** Every slot of the table. */
  const ALL_SLOTS: set<Slot> := {
    Destroy, IsFormatSupported, GetFormatModifierPlaneCount, BoCreate, BoImport,
    BoMap, BoUnmap, BoWrite, BoGetFd, BoGetPlanes, BoGetHandle, BoGetPlaneFd,
    BoGetStride, BoGetOffset, BoGetModifier, BoDestroy, SurfaceCreate,
    SurfaceLockFrontBuffer, SurfaceReleaseBuffer, SurfaceHasFreeBuffers, SurfaceDestroy
  }

  /** `ALL_SLOTS` holds every slot. */
  lemma AllSlotsListed()
    ensures forall s: Slot :: s in ALL_SLOTS
  {
    forall s: Slot
      ensures s in ALL_SLOTS
    {
      match s
      case Destroy =>
      case IsFormatSupported =>
      case GetFormatModifierPlaneCount =>
      case BoCreate =>
      case BoImport =>
      case BoMap =>
      case BoUnmap =>
      case BoWrite =>
      case BoGetFd =>
      case BoGetPlanes =>
      case BoGetHandle =>
      case BoGetPlaneFd =>
      case BoGetStride =>
      case BoGetOffset =>
      case BoGetModifier =>
      case BoDestroy =>
      case SurfaceCreate =>
      case SurfaceLockFrontBuffer =>
      case SurfaceReleaseBuffer =>
      case SurfaceHasFreeBuffers =>
      case SurfaceDestroy =>
    }
  }

  // drm_fourcc.h
  const DRM_FORMAT_MOD_VENDOR_NONE: bv64 := 0
  const DRM_FORMAT_MOD_VENDOR_NVIDIA: bv64 := 0x03
  const DRM_FORMAT_RESERVED: bv64 := (1 << 56) - 1

  /** `fourcc_mod_code(vendor, val)`: the vendor in the top byte, the value in
      the low 56 bits. */
  function FourccModCode(vendor: bv64, val: bv64): bv64
  {
    (vendor << 56) | (val & 0x00ff_ffff_ffff_ffff)
  }

  const DRM_FORMAT_MOD_LINEAR: bv64 := FourccModCode(DRM_FORMAT_MOD_VENDOR_NONE, 0)
  const DRM_FORMAT_MOD_INVALID: bv64 := FourccModCode(DRM_FORMAT_MOD_VENDOR_NONE, DRM_FORMAT_RESERVED)

  /** `DRM_FORMAT_MOD_NVIDIA_BLOCK_LINEAR_2D(c, s, g, k, h)`: compression
      `c`, sector layout `s`, GOB kind generation `g`, page kind `k` and
      log2 block height `h`, each cut to its field width. */
  function NvidiaBlockLinear2D(c: bv64, s: bv64, g: bv64, k: bv64, h: bv64): bv64
  {
    FourccModCode(DRM_FORMAT_MOD_VENDOR_NVIDIA,
      0x10 | (h & 0xf) | ((k & 0xff) << 12) | ((g & 0x3) << 20)
           | ((s & 0x1) << 22) | ((c & 0x7) << 23))
  }
}
