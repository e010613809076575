/** The C platform the backend runs on: fixed-width integers, errno codes,
    and the allocator (calloc/free) together with errno, as an oracle.

    `calloc` may fail at any call; the model makes that choice
    nondeterministically, so every caller has to cope with both outcomes.
    The allocator keeps the set of blocks the backend currently holds
    (`live`), which is what the leak-freedom contracts talk about, and the
    outcome of every `calloc` in order (`grants`), so that a caller can say
    it succeeds exactly when its allocations were granted. */
module Platform {

  type u32 = x: int | 0 <= x < 0x1_0000_0000
  type u64 = x: int | 0 <= x < 0x1_0000_0000_0000_0000
  type i32 = x: int | -0x8000_0000 <= x < 0x8000_0000

  /** The implicit C conversion of an `int` to `uint32_t` (reduction modulo 2^32). */
  function ToU32(x: i32): (r: u32)
    ensures x >= 0 ==> r == x
    ensures x < 0 ==> r == x + 0x1_0000_0000
  {
    x % 0x1_0000_0000
  }

  // errno values of Linux
  const ENOMEM: int := 12
  const ENODEV: int := 19
  const EINVAL: int := 22

  datatype Option<+T> = None | Some(value: T)

  /** calloc, free and errno. */
  class Libc {
    /** Every block allocated and not yet freed. */
    var live: set<object>
    var errno: int
    /** Whether each `calloc` so far returned non-NULL, oldest first. */
    var grants: seq<bool>

    constructor ()
      ensures live == {} && errno == 0 && grants == []
    {
      live := {};
      errno := 0;
      grants := [];
    }

    /** Whether the next `calloc` of a record returns non-NULL; on success
        the caller allocates the zeroed record and hands it to `Track`. */
    method CallocSucceeds() returns (ok: bool)
      modifies this
      ensures live == old(live) && errno == old(errno)
      ensures grants == old(grants) + [ok]
    {
      ok :| true;
      grants := grants + [ok];
    }

    /** Records a freshly allocated block as held. */
    method Track(o: object)
      requires o !in live
      modifies this
      ensures live == old(live) + {o} && errno == old(errno) && grants == old(grants)
    {
      live := live + {o};
    }

    /** `calloc(n, sizeof(uint64_t))`: NULL, or a fresh zero-filled array of
        length `n` that is now held. For `n == 0` both outcomes are allowed,
        as C allows. */
    method CallocU64Array(n: nat) returns (a: array?<bv64>)
      modifies this
      ensures errno == old(errno) && grants == old(grants) + [a != null]
      ensures a == null ==> live == old(live)
      ensures a != null ==> fresh(a) && a.Length == n && live == old(live) + {a}
      ensures a != null ==> forall i :: 0 <= i < n ==> a[i] == 0
    {
      var ok :| true;
      if ok {
        a := new bv64[n](_ => 0);
        live := live + {a};
      } else {
        a := null;
      }
      grants := grants + [a != null];
    }

    /** `free`: the block must be held (no double free). */
    method Free(o: object)
      requires o in live
      modifies this
      ensures live == old(live) - {o} && errno == old(errno) && grants == old(grants)
    {
      live := live - {o};
    }

    method SetErrno(e: int)
      modifies this
      ensures errno == e && live == old(live) && grants == old(grants)
    {
      errno := e;
    }
  }
}
