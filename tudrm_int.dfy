/** The backend's private header: the `ALIGN`/`PAGE_ALIGN` round-up macros
    and the device, BO and surface records.

    The macros are evaluated in w-bit unsigned arithmetic: a sum wraps
    modulo 2^w, `~` complements the w bits, and `&` is the bitwise AND of
    the two w-bit values (here on naturals, since the solver cannot reason
    about symbolic 64-bit masks). */
module TudrmInt {
  import opened Platform
  import opened Abi
  import Nvgbm

  function Pow2(k: nat): (r: nat)
    ensures r > 0
  {
    if k == 0 then 1 else 2 * Pow2(k - 1)
  }

  /** Bitwise AND of two naturals. */
  function BitAnd(x: nat, y: nat): nat
    decreases x
  {
    if x == 0 || y == 0 then 0
    else 2 * BitAnd(x / 2, y / 2) + (if x % 2 == 1 && y % 2 == 1 then 1 else 0)
  }

  /** `~x` on a w-bit unsigned value. */
  function BitNot(x: nat, w: nat): nat
    requires x < Pow2(w)
  {
    Pow2(w) - 1 - x
  }

  /** Reduction modulo 2^w of the sum or difference of two w-bit values,
      which wraps at most once. */
  function Wrap(x: int, w: nat): (r: nat)
    requires -(Pow2(w) as int) <= x < 2 * Pow2(w)
    ensures r < Pow2(w)
  {
    if x < 0 then x + Pow2(w) else if x >= Pow2(w) then x - Pow2(w) else x
  }

  /** `ALIGN(val, align)` on w-bit unsigned operands. */
  function Align(v: nat, a: nat, w: nat): nat
    requires v < Pow2(w) && a < Pow2(w)
  {
    var m := Wrap(a - 1, w);
    BitAnd(Wrap(v + m, w), BitNot(m, w))
  }

  /** `PAGE_ALIGN(addr)`. */
  function PageAlign(v: nat, w: nat): nat
    requires 12 < w && v < Pow2(w)
  {
    Pow2Bounds(12, w);
    Align(v, 4096, w)
  }

  /** The low k bits of x, by halving. */
  function LowBits(x: nat, k: nat): nat
  {
    if k == 0 then 0 else x % 2 + 2 * LowBits(x / 2, k - 1)
  }

  lemma {:induction false} Pow2Bounds(k: nat, w: nat)
    requires k <= w
    ensures Pow2(k) <= Pow2(w)
    ensures k < w ==> 2 * Pow2(k) <= Pow2(w)
    ensures Pow2(12) == 4096
    decreases w
  {
    assert Pow2(12) == 4096 by {
      assert Pow2(4) == 16;
      assert Pow2(8) == 256;
    }
    if k < w {
      Pow2Bounds(k, w - 1);
    }
  }

  lemma MulLe(a: nat, b: nat, d: nat)
    requires a <= b
    ensures a * d <= b * d
  {
    assert b * d == a * d + (b - a) * d;
  }

  /** Quotient and remainder are the only ones. */
  lemma ModUnique(x: nat, d: nat, q: nat, r: nat)
    requires d > 0 && r < d && x == q * d + r
    ensures x % d == r
  {
    var q0, r0 := x / d, x % d;
    assert x == q0 * d + r0;
    assert (q0 + 1) * d == q0 * d + d;
    assert (q + 1) * d == q * d + d;
    if q0 < q {
      MulLe(q0 + 1, q, d);
      assert false;
    } else if q < q0 {
      MulLe(q + 1, q0, d);
      assert false;
    }
  }

  lemma ModTwice(x: nat, p: nat)
    requires p > 0
    ensures x % (2 * p) == x % 2 + 2 * ((x / 2) % p)
  {
    var q, r := (x / 2) / p, (x / 2) % p;
    assert x / 2 == q * p + r;
    assert x == q * (2 * p) + (x % 2 + 2 * r);
    ModUnique(x, 2 * p, q, x % 2 + 2 * r);
  }

  /** LowBits is the remainder modulo 2^k. */
  lemma {:induction false} LowBitsIsMod(x: nat, k: nat)
    ensures LowBits(x, k) == x % Pow2(k)
    decreases k
  {
    if k > 0 {
      LowBitsIsMod(x / 2, k - 1);
      ModTwice(x, Pow2(k - 1));
    }
  }

  /** The low k bits are less than 2^k, and x minus them has none left. */
  lemma {:induction false} LowBitsBounds(x: nat, k: nat)
    ensures LowBits(x, k) <= x && LowBits(x, k) < Pow2(k)
    ensures LowBits(x - LowBits(x, k), k) == 0
    decreases k
  {
    if k > 0 {
      LowBitsBounds(x / 2, k - 1);
      var y := x - LowBits(x, k);
      assert y == 2 * (x / 2 - LowBits(x / 2, k - 1));
      assert y % 2 == 0 && y / 2 == x / 2 - LowBits(x / 2, k - 1);
    }
  }

  /** Adding 2^k - 1 to a value with no low bits sets all k of them. */
  lemma {:induction false} LowBitsOfAligned(v: nat, k: nat)
    requires LowBits(v, k) == 0
    ensures LowBits(v + Pow2(k) - 1, k) == Pow2(k) - 1
    decreases k
  {
    if k > 0 {
      assert v % 2 == 0 && LowBits(v / 2, k - 1) == 0;
      LowBitsOfAligned(v / 2, k - 1);
      var x := v + Pow2(k) - 1;
      assert x % 2 == 1 && x / 2 == v / 2 + Pow2(k - 1) - 1;
    }
  }

  /** A w-bit value with no low k bits leaves room for 2^k more. */
  lemma {:induction false} AlignedBelowTop(r: nat, k: nat, w: nat)
    requires k <= w && r < Pow2(w) && LowBits(r, k) == 0
    ensures r + Pow2(k) <= Pow2(w)
    decreases k
  {
    if k == 0 {
    } else if k == w {
      assert r % 2 == 0 && LowBits(r / 2, k - 1) == 0;
      AlignedBelowTop(r / 2, k - 1, w - 1);
    } else {
      assert r % 2 == 0 && LowBits(r / 2, k - 1) == 0;
      AlignedBelowTop(r / 2, k - 1, w - 1);
    }
  }

  /** AND with all w bits set keeps a w-bit value. */
  lemma {:induction false} AndOnes(x: nat, w: nat)
    requires x < Pow2(w)
    ensures BitAnd(x, Pow2(w) - 1) == x
    decreases w
  {
    if x != 0 {
      assert w > 0;
      var y := Pow2(w) - 1;
      assert y % 2 == 1 && y / 2 == Pow2(w - 1) - 1;
      AndOnes(x / 2, w - 1);
      assert BitAnd(x, y) == 2 * (x / 2) + (if x % 2 == 1 then 1 else 0);
    }
  }

  /** The high-bit mask 2^w - 2^k is even, and its half is the mask one
      bit narrower. */
  lemma HighMaskHalf(k: nat, w: nat)
    requires 0 < k < w
    ensures Pow2(k) <= Pow2(w) && Pow2(k - 1) <= Pow2(w - 1)
    ensures (Pow2(w) - Pow2(k)) % 2 == 0
    ensures (Pow2(w) - Pow2(k)) / 2 == Pow2(w - 1) - Pow2(k - 1)
  {
    Pow2Bounds(k - 1, w - 1);
    var p, q := Pow2(w - 1), Pow2(k - 1);
    assert Pow2(w) == 2 * p && Pow2(k) == 2 * q;
    var d := p - q;
    assert Pow2(w) - Pow2(k) == 2 * d;
  }

  /** AND with an even value is twice the AND of the halves. */
  lemma BitAndEven(x: nat, y: nat)
    requires y % 2 == 0
    ensures BitAnd(x, y) == 2 * BitAnd(x / 2, y / 2)
  {
  }

  /** AND with the complement of the low-k-bit mask clears the low k bits. */
  lemma {:induction false} AndHighMask(x: nat, k: nat, w: nat)
    requires k <= w && x < Pow2(w)
    ensures Pow2(k) <= Pow2(w)
    ensures BitAnd(x, Pow2(w) - Pow2(k)) == x - LowBits(x, k)
    decreases k
  {
    Pow2Bounds(k, w);
    if k == 0 {
      AndOnes(x, w);
    } else if k == w {
      assert Pow2(w) - Pow2(k) == 0;
      LowBitsIsMod(x, k);
      ModUnique(x, Pow2(k), 0, x);
    } else {
      assert x / 2 < Pow2(w - 1);
      AndHighMask(x / 2, k - 1, w - 1);
      AndHighMaskStep(x, k, w);
    }
  }

  /** The step of `AndHighMask`: its claim for `x / 2` one bit narrower
      gives it for `x`. */
  lemma AndHighMaskStep(x: nat, k: nat, w: nat)
    requires 0 < k < w && Pow2(k - 1) <= Pow2(w - 1)
    requires x / 2 >= LowBits(x / 2, k - 1)
    requires BitAnd(x / 2, Pow2(w - 1) - Pow2(k - 1)) == x / 2 - LowBits(x / 2, k - 1)
    ensures Pow2(k) <= Pow2(w)
    ensures BitAnd(x, Pow2(w) - Pow2(k)) == x - LowBits(x, k)
  {
    var y, y2 := Pow2(w) - Pow2(k), Pow2(w - 1) - Pow2(k - 1);
    HighMaskHalf(k, w);
    assert y % 2 == 0 && y / 2 == y2;
    BitAndEven(x, y);
    var l := LowBits(x / 2, k - 1);
    assert BitAnd(x, y) == 2 * (x / 2 - l);
    assert LowBits(x, k) == x % 2 + 2 * l;
  }

  /** With `align` = 2^k and no wrap-around, `ALIGN` clears the low k bits
      of `v + align - 1`. */
  lemma AlignIsRoundUp(v: nat, k: nat, w: nat)
    requires k < w && v + Pow2(k) - 1 < Pow2(w)
    ensures Pow2(k) < Pow2(w)
    ensures Align(v, Pow2(k), w) == (v + Pow2(k) - 1) - LowBits(v + Pow2(k) - 1, k)
  {
    Pow2Bounds(k, w);
    var a := Pow2(k);
    assert Wrap(a - 1, w) == a - 1;
    assert Wrap(v + (a - 1), w) == v + a - 1;
    assert BitNot(a - 1, w) == Pow2(w) - a;
    assert Align(v, a, w) == BitAnd(v + a - 1, Pow2(w) - a);
    AndHighMask(v + a - 1, k, w);
  }

  /** For `align` a power of two and no wrap-around: the result of
      `ALIGN(v, align)` is a multiple of `align`, is at least `v` and less
      than `v + align`, equals `v` when `v` is already aligned, and is
      therefore a fixed point of `ALIGN`. */
  lemma AlignProperties(v: nat, k: nat, w: nat)
    requires k < w && v + Pow2(k) - 1 < Pow2(w)
    ensures Pow2(k) < Pow2(w)
    ensures Align(v, Pow2(k), w) % Pow2(k) == 0
    ensures v <= Align(v, Pow2(k), w) < v + Pow2(k)
    ensures v % Pow2(k) == 0 ==> Align(v, Pow2(k), w) == v
    ensures Align(v, Pow2(k), w) + Pow2(k) - 1 < Pow2(w)
    ensures Align(Align(v, Pow2(k), w), Pow2(k), w) == Align(v, Pow2(k), w)
  {
    var a := Pow2(k);
    var x := v + a - 1;
    AlignIsRoundUp(v, k, w);
    var r := Align(v, a, w);
    LowBitsBounds(x, k);
    assert LowBits(r, k) == 0;
    LowBitsIsMod(r, k);
    LowBitsIsMod(v, k);
    if LowBits(v, k) == 0 {
      LowBitsOfAligned(v, k);
    }
    AlignedBelowTop(r, k, w);
    AlignIsRoundUp(r, k, w);
    LowBitsOfAligned(r, k);
  }

  /** `PAGE_ALIGN(x)` is a multiple of 4096, not less than `x`, less than
      `x + 4096`, `x` itself when `x` is page-aligned, and so a fixed
      point of `PAGE_ALIGN`. */
  lemma PageAlignProperties(v: nat, w: nat)
    requires 12 < w && v + 4095 < Pow2(w)
    ensures PageAlign(v, w) % 4096 == 0
    ensures v <= PageAlign(v, w) < v + 4096
    ensures v % 4096 == 0 ==> PageAlign(v, w) == v
    ensures PageAlign(v, w) + 4095 < Pow2(w)
    ensures PageAlign(PageAlign(v, w), w) == PageAlign(v, w)
  {
    Pow2Bounds(12, w);
    AlignProperties(v, 12, w);
  }

  /** The backend entry points an operation-table slot can be bound to. */
  datatype Handler =
    | TudrmDeviceDestroy
    | TudrmIsFormatSupported
    | TudrmGetFormatModifierPlaneCount
    | TudrmBoCreate
    | TudrmBoDestroy
    | TudrmBoImport
    | TudrmBoMap
    | TudrmBoUnmap
    | TudrmBoWrite
    | TudrmBoGetFd
    | TudrmBoGetPlanes
    | TudrmBoGetHandleForPlane
    | TudrmBoGetStride
    | TudrmBoGetOffset
    | TudrmBoGetModifier
    | TudrmSurfaceCreate
    | TudrmSurfaceDestroy

  /** `struct gbm_tudrm_device`: the host's `gbm_device` fields (version,
      fd, name, operation table; an absent slot is a NULL pointer) and the
      vendor device it wraps. */
  class Device {
    var backendVersion: u32
    var fd: i32
    var name: Option<string>
    var table: map<Slot, Handler>
    var nvgbmDevice: Nvgbm.Device?

    /** A `calloc`'d record: every field zero. */
    constructor ()
      ensures backendVersion == 0 && fd == 0 && name == None
      ensures table == map[] && nvgbmDevice == null
    {
      backendVersion, fd, name := 0, 0, None;
      table, nvgbmDevice := map[], null;
    }

    /** The record and its vendor device are both still held. */
    ghost predicate Held(libc: Libc, nv: Nvgbm.Library)
      reads this, libc, nv
    {
      this in libc.live && nvgbmDevice != null && nvgbmDevice in nv.liveDevices
    }
  }

  /** `struct gbm_tudrm_bo`: its base `gbm_bo` (device, dimensions, format,
      handle, stride), its `gbm_tudrm_bo_data` (dma-buf fd, modifier) and
      the optional vendor BO. */
  class Bo {
    var gbm: Device?
    var width: u32
    var height: u32
    var format: u32
    var handle: u64
    var stride: u32
    var dmabufFd: i32
    var modifier: bv64
    var nvgbmBo: Nvgbm.Bo?

    /** A `calloc`'d record: every field zero. */
    constructor ()
      ensures gbm == null && width == 0 && height == 0 && format == 0
      ensures handle == 0 && stride == 0 && dmabufFd == 0 && modifier == 0
      ensures nvgbmBo == null
    {
      gbm, width, height, format := null, 0, 0, 0;
      handle, stride, dmabufFd, modifier := 0, 0, 0, 0;
      nvgbmBo := null;
    }

    /** The record, and its vendor BO if it has one, are still held. */
    ghost predicate Held(libc: Libc, nv: Nvgbm.Library)
      reads this, libc, nv
    {
      this in libc.live && (nvgbmBo != null ==> nvgbmBo in nv.liveBos)
    }
  }

  /** `struct gbm_tudrm_surface` with its base `gbm_surface`: device,
      dimensions, format, usage flags and the owned modifier list of
      `count` entries. */
  class Surface {
    var gbm: Device?
    var width: u32
    var height: u32
    var format: u32
    var flags: u32
    var modifiers: array?<bv64>
    var count: nat

    /** A `calloc`'d record: every field zero, no modifier list. */
    constructor ()
      ensures gbm == null && width == 0 && height == 0 && format == 0 && flags == 0
      ensures modifiers == null && count == 0
    {
      gbm, width, height, format, flags := null, 0, 0, 0, 0;
      modifiers, count := null, 0;
    }

    /** The stored list is `count` entries long. */
    ghost predicate Valid()
      reads this
    {
      if modifiers == null then count == 0 else count <= modifiers.Length
    }

    /** The modifiers the surface advertises. */
    ghost function Modifiers(): seq<bv64>
      reads this, modifiers
      requires Valid()
    {
      if modifiers == null then [] else modifiers[..count]
    }

    /** The record, and its modifier list if allocated, are still held. */
    ghost predicate Held(libc: Libc)
      reads this, libc
    {
      this in libc.live && (modifiers != null ==> modifiers in libc.live)
    }
  }
}
