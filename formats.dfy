/** The pure logic of tegra_udrm_gbm.c: format canonicalisation, the
    modifier test that surface creation filters by, and the vendor-bit
    stripping that BO creation applies before calling the vendor. */
module Formats {
  import opened Platform
  import opened Abi

  /** `format_canonicalize`: the two legacy BO-format codes become their
      fourcc equivalents; every other code is already canonical. */
  function FormatCanonicalize(format: u32): (r: u32)
    ensures format == GBM_BO_FORMAT_XRGB8888 ==> r == GBM_FORMAT_XRGB8888
    ensures format == GBM_BO_FORMAT_ARGB8888 ==> r == GBM_FORMAT_ARGB8888
    ensures format != GBM_BO_FORMAT_XRGB8888 && format != GBM_BO_FORMAT_ARGB8888 ==> r == format
    ensures r != GBM_BO_FORMAT_XRGB8888 && r != GBM_BO_FORMAT_ARGB8888
  {
    if format == GBM_BO_FORMAT_XRGB8888 then GBM_FORMAT_XRGB8888
    else if format == GBM_BO_FORMAT_ARGB8888 then GBM_FORMAT_ARGB8888
    else format
  }

  /** Canonicalising twice is canonicalising once. */
  lemma FormatCanonicalizeIdempotent(format: u32)
    ensures FormatCanonicalize(FormatCanonicalize(format)) == FormatCanonicalize(format)
  {
  }

  /** Two codes canonicalise alike exactly when they are equal or are a
      legacy code and its fourcc equivalent. */
  lemma FormatCanonicalizeCollisions(f: u32, g: u32)
    ensures FormatCanonicalize(f) == FormatCanonicalize(g) <==>
      f == g
      || {f, g} == {GBM_BO_FORMAT_XRGB8888, GBM_FORMAT_XRGB8888}
      || {f, g} == {GBM_BO_FORMAT_ARGB8888, GBM_FORMAT_ARGB8888}
  {
    if f != g && FormatCanonicalize(f) == FormatCanonicalize(g) {
      if f == GBM_BO_FORMAT_XRGB8888 || g == GBM_BO_FORMAT_XRGB8888 {
        assert {f, g} == {GBM_BO_FORMAT_XRGB8888, GBM_FORMAT_XRGB8888};
      } else {
        assert {f, g} == {GBM_BO_FORMAT_ARGB8888, GBM_FORMAT_ARGB8888};
      }
    }
  }

  // ----- Surface modifier filter -----

  /** The bits a modifier may use and still be accepted by a surface:
      `DRM_FORMAT_MOD_NVIDIA_BLOCK_LINEAR_2D(0, 1, 3, 0xff, 0xf)`, every
      uncompressed block-linear parameter. */
  const IMPORTABLE_MASK: bv64 := NvidiaBlockLinear2D(0x0, 0x1, 0x3, 0xff, 0xf)

  /** The test a surface applies to each candidate modifier: no bit outside
      the mask. */
  predicate Importable(m: bv64)
  {
    m & !IMPORTABLE_MASK == 0
  }

  /** The modifiers of `s` that pass the test, in their order in `s`. */
  function KeepImportable(s: seq<bv64>): seq<bv64>
  {
    if s == [] then []
    else KeepImportable(s[..|s| - 1]) + (if Importable(s[|s| - 1]) then [s[|s| - 1]] else [])
  }

  /** `r` is `s` with some elements dropped and the rest in order. */
  predicate IsSubsequence(r: seq<bv64>, s: seq<bv64>)
  {
    if r == [] then true
    else if s == [] then false
    else if r[|r| - 1] == s[|s| - 1] && IsSubsequence(r[..|r| - 1], s[..|s| - 1]) then true
    else IsSubsequence(r, s[..|s| - 1])
  }

  lemma MaskValue()
    ensures IMPORTABLE_MASK == 0x0300_0000_007f_f01f
  {
  }

  /** The filtered list is an order-preserving subsequence of the input. */
  lemma {:induction false} KeepImportableIsSubsequence(s: seq<bv64>)
    ensures IsSubsequence(KeepImportable(s), s)
  {
    if s != [] {
      var init, last := s[..|s| - 1], s[|s| - 1];
      KeepImportableIsSubsequence(init);
      assert s == init + [last];
      if Importable(last) {
        var r := KeepImportable(s);
        assert r == KeepImportable(init) + [last];
        assert r[..|r| - 1] == KeepImportable(init);
      } else {
        assert KeepImportable(s) == KeepImportable(init);
        SubsequenceExtend(KeepImportable(init), init, last);
      }
    }
  }

  /** Appending to the longer sequence keeps a subsequence one. */
  lemma {:induction false} SubsequenceExtend(r: seq<bv64>, s: seq<bv64>, x: bv64)
    requires IsSubsequence(r, s)
    ensures IsSubsequence(r, s + [x])
  {
    assert (s + [x])[..|s|] == s;
  }

  /** How many times `m` occurs in `s`. */
  function Occurrences(s: seq<bv64>, m: bv64): nat
  {
    if s == [] then 0
    else Occurrences(s[..|s| - 1], m) + (if s[|s| - 1] == m then 1 else 0)
  }

  /** Each modifier occurs in the filtered list as often as in the input if
      it passes the test, and not at all if it fails it. */
  lemma {:induction false} KeepImportableCounts(s: seq<bv64>, m: bv64)
    ensures Occurrences(KeepImportable(s), m) == if Importable(m) then Occurrences(s, m) else 0
  {
    if s != [] {
      var init, last := s[..|s| - 1], s[|s| - 1];
      KeepImportableCounts(init, m);
      if Importable(last) {
        var r := KeepImportable(s);
        assert r == KeepImportable(init) + [last];
        assert r[..|r| - 1] == KeepImportable(init);
      } else {
        assert KeepImportable(s) == KeepImportable(init);
      }
    }
  }

  /** Every kept modifier passes the test; every modifier of the input that
      passes it is kept; the list is no longer than the input, and as long
      exactly when nothing was dropped. */
  lemma {:induction false} KeepImportableContents(s: seq<bv64>)
    ensures forall i :: 0 <= i < |KeepImportable(s)| ==> Importable(KeepImportable(s)[i])
    ensures forall m :: m in s && Importable(m) ==> m in KeepImportable(s)
    ensures forall m :: m in KeepImportable(s) ==> m in s
    ensures |KeepImportable(s)| <= |s|
    ensures |KeepImportable(s)| == |s| <==> forall i :: 0 <= i < |s| ==> Importable(s[i])
  {
    if s != [] {
      var init, last := s[..|s| - 1], s[|s| - 1];
      KeepImportableContents(init);
      assert s == init + [last];
      if |KeepImportable(s)| == |s| {
        assert |KeepImportable(init)| == |init| && Importable(last);
      }
    }
  }

  /** `DRM_FORMAT_MOD_LINEAR` passes the test, so it is kept whenever given. */
  lemma LinearIsKept(s: seq<bv64>)
    ensures Importable(DRM_FORMAT_MOD_LINEAR)
    ensures DRM_FORMAT_MOD_LINEAR in s ==> DRM_FORMAT_MOD_LINEAR in KeepImportable(s)
  {
    KeepImportableContents(s);
  }

  /** `DRM_FORMAT_MOD_INVALID` fails the test: a list holding only it
      filters to the empty list. */
  lemma InvalidIsDropped(s: seq<bv64>)
    ensures !Importable(DRM_FORMAT_MOD_INVALID)
    ensures DRM_FORMAT_MOD_INVALID !in KeepImportable(s)
    ensures KeepImportable([DRM_FORMAT_MOD_INVALID]) == []
  {
    KeepImportableContents(s);
    assert [DRM_FORMAT_MOD_INVALID][..0] == [];
  }

  /** A block-linear modifier passes the test exactly when it is
      uncompressed. */
  lemma BlockLinearImportable(c: bv64, s: bv64, g: bv64, k: bv64, h: bv64)
    ensures Importable(NvidiaBlockLinear2D(c, s, g, k, h)) <==> c & 0x7 == 0
  {
  }

  // ----- BO creation: vendor bits -----

  /** `fourcc_mod_code(NVIDIA, 0)`: the vendor code bits BO creation clears. */
  const NVIDIA_VENDOR_BITS: bv64 := FourccModCode(DRM_FORMAT_MOD_VENDOR_NVIDIA, 0)

  /** `m & ~fourcc_mod_code(NVIDIA, 0)`: the NVIDIA vendor code bits
      cleared, every other bit kept. */
  function StripNvidiaVendor(m: bv64): (r: bv64)
    ensures r & NVIDIA_VENDOR_BITS == 0
    ensures r | (m & NVIDIA_VENDOR_BITS) == m
  {
    m & !NVIDIA_VENDOR_BITS
  }

  /** An NVIDIA modifier loses its vendor and keeps its 56-bit value. */
  lemma StripNvidiaModifier(v: bv64)
    ensures StripNvidiaVendor(FourccModCode(DRM_FORMAT_MOD_VENDOR_NVIDIA, v))
         == FourccModCode(DRM_FORMAT_MOD_VENDOR_NONE, v)
  {
  }

  /** Stripping twice is stripping once, and it fixes the unmasked
      vendor-less modifiers such as LINEAR. */
  lemma StripNvidiaVendorIdempotent(m: bv64)
    ensures StripNvidiaVendor(StripNvidiaVendor(m)) == StripNvidiaVendor(m)
    ensures m & NVIDIA_VENDOR_BITS == 0 ==> StripNvidiaVendor(m) == m
    ensures StripNvidiaVendor(DRM_FORMAT_MOD_LINEAR) == DRM_FORMAT_MOD_LINEAR
  {
  }

  /** The list handed to the vendor: each modifier with its vendor bits
      stripped, in the same order. */
  function StripNvidiaVendorAll(s: seq<bv64>): (r: seq<bv64>)
    ensures |r| == |s|
    ensures forall i :: 0 <= i < |s| ==> r[i] == StripNvidiaVendor(s[i])
  {
    if s == [] then []
    else StripNvidiaVendorAll(s[..|s| - 1]) + [StripNvidiaVendor(s[|s| - 1])]
  }
}
