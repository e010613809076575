# tegra-udrm GBM backend, modelled in Dafny

This project models the core of `tegra-udrm`, a backend for the GBM buffer
manager. The host GBM core loads it and calls its entry points through a
per-device operation table. The backend wraps the vendor allocator
`libnvgbm`:

- It creates devices, each around a vendor device.
- It creates buffer objects (BOs) through the vendor, passing the requested
  modifiers with the NVIDIA vendor code bits stripped.
- It imports dma-bufs. An `FD` or `FD_MODIFIER` import is done itself,
  through the DRM PRIME fd-to-handle call. Every other import type goes to
  the vendor.
- It answers BO queries, and forwards map, unmap and write to the vendor
  BO. A BO without a vendor BO gets fixed fallback answers.
- It creates surfaces. A surface keeps only the caller's modifiers that lie
  inside the uncompressed block-linear parameter space.

The private header contributes the `ALIGN`/`PAGE_ALIGN` round-up macros
and the device, BO and surface records.

Modules, one file each:

- `Platform` (`platform.dfy`): the fixed-width C integer types and errno
  values. It also holds `Libc`, the allocator with errno. `calloc` may fail
  at any call, nondeterministically; `live` is the set of blocks held and
  `grants` the outcome of every `calloc`, in order.
- `Abi` (`abi.dfy`): the constants and argument shapes the backend takes
  from `gbm.h`, `gbm_backend_abi.h` and `drm_fourcc.h`: format codes,
  import types and import descriptors, the ABI version, the
  operation-table slots, and the modifier macros. Those headers are not
  part of this model; only the values the backend uses are written out.
- `Nvgbm` (`nvgbm.dfy`): the vendor library as an oracle.
  - Its query answers are fixed functions.
  - Whether a creation, import or load succeeds is its own choice.
  - It keeps the devices and BOs it has handed out and not yet destroyed
    (`liveDevices`, `liveBos`).
  - It logs, in `calls`, whether it could be loaded and every create,
    import, destroy, map, unmap and write call, with the arguments and,
    where there is one, the result. Its queries are pure functions and are
    not logged.
- `TudrmInt` (`tudrm_int.dfy`): the private header.
  - `ALIGN` and `PAGE_ALIGN` are evaluated in w-bit unsigned arithmetic on
    naturals: an explicit single wrap-around, `~` as `2^w - 1 - x`, and
    `&` bit by bit.
  - The records are classes whose constructors give the all-zero state of
    a `calloc`'d record.
- `Formats` (`formats.dfy`): the pure logic of `tegra_udrm_gbm.c`: format
  canonicalisation, the surface modifier test and filter, and the
  vendor-bit strip.
- `TudrmGbm` (`tudrm_gbm.dfy`): the entry points, as methods over the
  allocator, the vendor library and the records. The BO queries are
  functions.

Each entry point's contract states these things:

- The record it builds, field by field.
- The exact vendor calls it makes, as the suffix it appends to `nv.calls`.
- The `calloc` outcomes it met, as the suffix it appends to `libc.grants`,
  so that success is stated as "exactly when every allocation and vendor
  request was granted".
- The errno it sets.
- That every `calloc` block, vendor BO and vendor device it obtained is
  handed to the caller, or given back before it returns on a failure path
  (through `libc.live` and `nv.liveBos`/`nv.liveDevices`). Kernel objects
  (GEM handles, dma-buf fds) are outside this accounting.

The round-trip methods compose each create with its destroy and prove
that both live sets return to their original state.

Behaviour of the code that the contracts make explicit:

- Import types other than `FD` and `FD_MODIFIER` are handed to the
  vendor's `gbm_bo_import` (`BoImport`).
- A surface created with the single modifier `DRM_FORMAT_MOD_INVALID` gets
  the diagnostic and EINVAL, and then an empty modifier list: the filter
  keeps only modifiers inside the block-linear mask, and INVALID has bits
  outside it (`Formats.InvalidIsDropped`, and `SurfaceCreate`'s contract).
- There is no dumb-buffer allocation path and no linear modifier
  synthesised for scanout surfaces.
- `device_create` leaves four `gbm_device_v0` slots NULL:
  `bo_get_plane_fd`, `surface_lock_front_buffer`,
  `surface_release_buffer` and `surface_has_free_buffers`
  (`OperationTableSlot`, `OperationTableKeys`).
- The private header's `struct gbm_tudrm_device` and `struct gbm_tudrm_bo`
  do not declare the `nvgbm_device` and `nvgbm_bo` members that the `.c`
  file uses. The records here include them.
- A BO imported through the vendor reports dma-buf fd 0 and modifier 0.
  Those fields are never set on that path, so they keep their `calloc`
  zero.
- `bo_create` records the caller's first modifier before stripping, while
  the vendor receives the stripped list. The format passed to the vendor is
  the caller's, not the canonical one.

## Model

| member | source | states |
|---|---|---|
| Formats.FormatCanonicalize | tegra_udrm_gbm.c:49-60 | legacy XRGB8888/ARGB8888 BO codes map to their fourcc codes, every other code is unchanged, and no result is a legacy code |
| Formats.FormatCanonicalizeIdempotent | tegra_udrm_gbm.c:49-60 | canonicalising twice equals canonicalising once |
| Formats.FormatCanonicalizeCollisions | tegra_udrm_gbm.c:49-60 | two codes canonicalise alike exactly when they are equal or are a legacy code and its fourcc equivalent |
| Formats.KeepImportable | tegra_udrm_gbm.c:431-438 | the modifier filter of `surface_create`: the entries that pass the mask test, in their order; its properties are the lemma rows below |
| Formats.MaskValue | tegra_udrm_gbm.c:434 | the surface import mask `DRM_FORMAT_MOD_NVIDIA_BLOCK_LINEAR_2D(0,1,3,0xff,0xf)` is 0x0300_0000_007f_f01f |
| Formats.KeepImportableIsSubsequence | tegra_udrm_gbm.c:431-438 | the stored modifier list is an order-preserving subsequence of the input |
| Formats.KeepImportableCounts | tegra_udrm_gbm.c:431-438 | each modifier occurs in the stored list as often as in the input if it passes the mask test, and not at all if it fails |
| Formats.KeepImportableContents | tegra_udrm_gbm.c:431-438 | every kept entry passes the test, every input modifier that passes is kept, the count is at most the input count, and equal to it exactly when every entry passes |
| Formats.LinearIsKept | tegra_udrm_gbm.c:434 | `DRM_FORMAT_MOD_LINEAR` passes the test, so it is kept whenever it is given |
| Formats.InvalidIsDropped | tegra_udrm_gbm.c:403-406 | `DRM_FORMAT_MOD_INVALID` fails the test: it is never kept, and the diagnosed list `[INVALID]` filters to the empty list |
| Formats.BlockLinearImportable | tegra_udrm_gbm.c:433-434 | a block-linear modifier passes the test exactly when its compression field is 0 |
| Formats.StripNvidiaVendor | tegra_udrm_gbm.c:269 | the result has no NVIDIA vendor code bit set and agrees with the input on every other bit |
| Formats.StripNvidiaModifier | tegra_udrm_gbm.c:269 | an NVIDIA modifier becomes the vendor-less modifier with the same 56-bit value |
| Formats.StripNvidiaVendorIdempotent | tegra_udrm_gbm.c:269 | stripping is idempotent and fixes modifiers without those bits, LINEAR among them |
| Formats.StripNvidiaVendorAll | tegra_udrm_gbm.c:268-270 | the list passed to the vendor has the input's length and each entry is the input entry stripped |
| TudrmInt.Align | tegra_udrm_gbm_int.h:31 | `ALIGN(v, a)` as written, `(v + a - 1) & ~(a - 1)` in w-bit unsigned arithmetic; its properties are the two lemma rows below |
| TudrmInt.PageAlign | tegra_udrm_gbm_int.h:33 | `PAGE_ALIGN(x)` as written, `ALIGN(x, 4096)`; its properties are in `PageAlignProperties` |
| TudrmInt.AlignIsRoundUp | tegra_udrm_gbm_int.h:31 | for a power-of-two alignment without wrap-around, `ALIGN(v, a)` clears the low bits of `v + a - 1` |
| TudrmInt.AlignProperties | tegra_udrm_gbm_int.h:31 | for a power-of-two alignment without wrap-around, the result is a multiple of `a`, at least `v`, below `v + a`, equal to `v` when `v` is aligned, and a fixed point of `ALIGN` |
| TudrmInt.PageAlignProperties | tegra_udrm_gbm_int.h:33 | `PAGE_ALIGN(x)` is a multiple of 4096, at least `x`, below `x + 4096`, equal to `x` when page-aligned, and a fixed point of `PAGE_ALIGN` |
| TudrmInt.Device.constructor | tegra_udrm_gbm_int.h:37-39 | a fresh device record is all zero: no name, an empty table, no vendor device |
| TudrmInt.Bo.constructor | tegra_udrm_gbm_int.h:41-54 | a fresh BO record has every base and data field zero and no vendor BO |
| TudrmInt.Surface.constructor | tegra_udrm_gbm_int.h:56-59 | a fresh surface record is all zero, with no modifier list |
| Platform.ToU32 | tegra_udrm_gbm.c:192 | storing the `int` plane stride into the `uint32_t` field keeps a non-negative value and adds 2^32 to a negative one |
| TudrmGbm.IsFormatSupported | tegra_udrm_gbm.c:62-70 | the answer is the vendor's for the wrapped vendor device |
| TudrmGbm.GetFormatModifierPlaneCount | tegra_udrm_gbm.c:72-80 | the answer is the vendor's for the wrapped vendor device and the unmodified modifier |
| TudrmGbm.BoWrite | tegra_udrm_gbm.c:82-92 | with a vendor BO the write is forwarded once and its result returned; without one it returns 0 and calls nothing |
| TudrmGbm.BoGetFd | tegra_udrm_gbm.c:94-99 | the recorded dma-buf fd |
| TudrmGbm.BoGetPlanes | tegra_udrm_gbm.c:101-111 | the vendor's plane count with a vendor BO, 1 without |
| TudrmGbm.BoGetHandleForPlane | tegra_udrm_gbm.c:113-122 | the vendor's per-plane handle with a vendor BO, the recorded handle for every plane without |
| TudrmGbm.BoGetStride | tegra_udrm_gbm.c:124-129 | the recorded stride whatever the plane |
| TudrmGbm.BoGetOffset | tegra_udrm_gbm.c:131-140 | the vendor's plane offset with a vendor BO, 0 without |
| TudrmGbm.BoGetModifier | tegra_udrm_gbm.c:142-147 | the recorded modifier |
| TudrmGbm.BoImport | tegra_udrm_gbm.c:149-242 | one record `calloc`; if refused, ENOMEM and no vendor call. For FD/FD_MODIFIER: no vendor call, and the BO is returned exactly when calloc and PRIME both succeed, with the PRIME handle of fd/`fds[0]`, the descriptor's geometry, the canonical format, stride (`strides[0]`), fd/`fds[0]` and modifier (given, or 0 for FD). Other types: after the record, exactly one vendor import, and the BO is returned exactly when the vendor grants it, with the fresh vendor BO's geometry, format, handle and stride, fd 0 and modifier 0. NULL holds nothing; errno is untouched except for ENOMEM |
| TudrmGbm.StripInto | tegra_udrm_gbm.c:268-270 | the temporary array holds exactly the caller's modifiers with the vendor bits stripped |
| TudrmGbm.CreateVendorBo | tegra_udrm_gbm.c:260-279 | without a list, no allocation and one plain creation with the usage; with a non-empty list, one temporary-list allocation and, exactly when it is granted, one modifier-aware creation with the stripped list; the temporary list is freed in every case |
| TudrmGbm.BoCreate | tegra_udrm_gbm.c:244-304 | success follows a granted temporary list (when one is needed), a granted vendor creation and a granted record, and holds exactly the fresh record and vendor BO, with the requested geometry, canonical format, vendor handle/stride/fd and the caller's unstripped first modifier (0 without a list). Failure holds nothing and is one of: the temporary list refused (no vendor call), the vendor refused, or the record refused with the vendor BO destroyed again and ENOMEM |
| TudrmGbm.BoDestroy | tegra_udrm_gbm.c:306-315 | frees the record and destroys its vendor BO exactly when it has one |
| TudrmGbm.BoMap | tegra_udrm_gbm.c:317-330 | with a vendor BO the map is forwarded once and its address, stride and map data returned; without one NULL, and stride and map data untouched |
| TudrmGbm.BoUnmap | tegra_udrm_gbm.c:332-340 | forwarded once with a vendor BO, no call without |
| TudrmGbm.SurfaceDestroy | tegra_udrm_gbm.c:342-351 | frees the modifier list when there is one, then the record |
| TudrmGbm.FilterInto | tegra_udrm_gbm.c:431-438 | the front of the new list holds the filtered input and the returned count is its length |
| TudrmGbm.SurfaceCreate | tegra_udrm_gbm.c:394-440 | the only-INVALID list sets EINVAL and creation continues; NULL comes exactly from a refused record or a refused list of count > 0, with ENOMEM and nothing held; success holds the record and its own fresh list, stores geometry, canonical format and flags, no list when none was given, and the filtered input as its modifiers |
| TudrmGbm.OperationTableSlot | tegra_udrm_gbm.c:489-505 | each slot holds the backend's entry point for that slot, except the four left NULL, so no entry point occupies two slots |
| TudrmGbm.OperationTable | tegra_udrm_gbm.c:489-505 | the 17 slot assignments of `device_create`; its properties are in `OperationTableSlot` and `OperationTableKeys` |
| TudrmGbm.OperationTableKeys | tegra_udrm_gbm.c:489-505 | the table's slots are exactly all `gbm_device_v0` slots but the four left NULL |
| TudrmGbm.DeviceDestroy | tegra_udrm_gbm.c:445-452 | destroys the vendor device and frees the record |
| TudrmGbm.DeviceCreate | tegra_udrm_gbm.c:454-523 | the load is logged first; a failed load gives ENODEV and nothing else; a loaded library with a wrong ABI version gives EINVAL, no vendor call and no allocation; with the right version the vendor device is always requested, and then a refusal gives NULL, a refused record destroys the vendor device again with ENOMEM, and the record is returned exactly when both were granted; success holds the record and vendor device and reports ABI version 1, name "tegra-udrm", the caller's fd and the operation table |
| TudrmGbm.DeviceRoundTrip | tegra_udrm_gbm.c:445-523 | creating and then destroying a device leaves no record and no vendor device held |
| TudrmGbm.BoCreateRoundTrip | tegra_udrm_gbm.c:244-315 | creating and then destroying a BO leaves no record, temporary list or vendor BO held |
| TudrmGbm.BoImportRoundTrip | tegra_udrm_gbm.c:149-315 | importing and then destroying a BO leaves no record or vendor BO held |
| TudrmGbm.SurfaceRoundTrip | tegra_udrm_gbm.c:342-443 | creating and then destroying a surface leaves neither the record nor its list held |

## Left out

- Dynamic loading (`dlopen`/`dlsym`, the global library handle) is not modelled. Only whether loading succeeded is kept, as the logged outcome of the vendor's `Load`, which leads to ENODEV when it fails.
- The vendor library's behaviour is not modelled. Its state-changing calls are recorded with their arguments, and its answers are unconstrained.
- The vendor's queries (`gbm_bo_get_width`, `_height`, `_format`, `_handle`, `_stride`, `_fd`, `_plane_count`, `_handle_for_plane`, `_offset`, `gbm_device_is_format_supported`, `gbm_device_get_format_modifier_plane_count`) are pure functions of the vendor object and arguments, and are not logged. In particular `gbm_bo_get_fd`, called by `bo_create`, returns a new descriptor per call, and `bo_destroy` never closes it. File descriptors are not tracked, so that leak is not modelled, and the round trips' leak-freedom covers `calloc` blocks and vendor BOs/devices only.
- `drmPrimeFDToHandle` is a kernel ioctl. It is the uninterpreted partial function `prime` of device fd and dma-buf fd.
- errno values set inside the vendor library or libdrm are not modelled. Only the values the backend itself sets are.
- The `fprintf` diagnostic is not modelled. The `assert(!count)` for a NULL list is a precondition of `SurfaceCreate`.
- The `#if 0` vendor-surface branch of `surface_create` and the commented-out table entries are dead code and not modelled.
- The `gbm_backend` descriptor and `gbmint_get_backend` are a static export and not modelled. Their name and version appear as `BACKEND_NAME` and `GBM_BACKEND_ABI_VERSION`.
- Pointer casts of the header are not modelled, including the `offsetof` recovery of a surface from its base. Each record class is its own base.
- The unused header fields (`handle`, `size`, `map`, `surface` of `gbm_tudrm_bo_data`, `reserved_for_egl_gbm`) and `BACK_BUFFERS_MAX` have no behaviour here and are left out.
- The GEM handle obtained through PRIME is never closed by `bo_destroy`. Kernel handles are not tracked, so this is not modelled.
- StripInto and FilterInto: the C loops use an `int` index against an `unsigned` count. They are modelled with an unbounded index, which differs only for counts of 2^31 or more.
- TudrmInt.AlignProperties, TudrmInt.PageAlignProperties: the word width `w` is a parameter, not fixed at 64 bits. Both are proved only for power-of-two alignments and for values that do not wrap around, which is as far as the macros promise.
- Buffer contents, mapped memory and the bytes handed to `gbm_bo_write` are not modelled. Write forwards the data as a value.
