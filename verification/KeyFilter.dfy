/** The catalog's key filter: a bounded Bloom filter over a part's packing keys, asked
    by the writer's language and by generated SQL. */
module KeyFilter {
  import opened Base

  const KEY_FILTER_V1: bv8 := 1
  const PROBES := 4
  const MAX_KEYS_WORTH_FILTERING := 8000
  const HASH_PRIME := 0x7fff_ffff

  datatype Tier = Tier(bytes: nat, supportedKeys: nat)

  const TIERS: seq<Tier> := [Tier(128, 80), Tier(1024, 640), Tier(2048, 1280)]

  function TierFor(keys: nat): (t: Tier)
    ensures t in TIERS
  {
    if keys <= TIERS[0].supportedKeys then TIERS[0]
    else if keys <= TIERS[1].supportedKeys then TIERS[1]
    else TIERS[2]
  }

  // ---------------------------------------------------------------- hashing

  function ProbeParams(probe: nat): (int, int)
    requires probe < PROBES
  {
    match probe
    case 0 => (1640531527, 1013904223)
    case 1 => (1103515245, 12345)
    case 2 => (1664525, 1566083941)
    case _ => (2654435761 % HASH_PRIME, 362437)
  }

  /** The least non-negative remainder of the key; `%` here is Euclidean. */
  function Reduced(key: int): (k: nat)
    ensures k < HASH_PRIME
  {
    key % HASH_PRIME
  }

  /** One probe's hash of a key, before it is cut down to the bits there are. */
  function Hash(key: int, probe: nat): (h: nat)
    requires probe < PROBES
    ensures h < HASH_PRIME
  {
    var (a, b) := ProbeParams(probe);
    Products(Reduced(key), a, b);
    (a * Reduced(key) + b) % HASH_PRIME
  }

  /** The multiplier's inverse modulo the prime, and how often the prime goes into their
      product. */
  function Inverse(probe: nat): (int, int)
    requires probe < PROBES
  {
    match probe
    case 0 => (1498823295, 1144999112)
    case 1 => (2104886853, 1081626272)
    case 2 => (1529298898, 1185367)
    case _ => (821849392, 194012321)
  }

  lemma InverseInverts(probe: nat)
    requires probe < PROBES
    ensures ProbeParams(probe).0 * Inverse(probe).0 == 1 + Inverse(probe).1 * HASH_PRIME
  {
  }

  lemma NotNegative(a: nat, b: nat)
    ensures a * b >= 0
  {
  }

  /** A multiple of `p` smaller than it is none. */
  lemma SmallMultiple(d: int, p: int, t: int)
    requires d == p * t && -p < d < p
    ensures d == 0
  {
    if t >= 1 {
      assert p * t == p + p * (t - 1);
      NotNegative(p, t - 1);
    } else if t <= -1 {
      assert p * t == -p - p * (-t - 1);
      NotNegative(p, -t - 1);
    }
  }

  lemma Cancels(a: int, inv: int, m: int, p: int, x: int, y: int, q: int)
    requires a * inv == 1 + m * p && a * (x - y) == p * q
    ensures x - y == p * (inv * q - m * (x - y))
  {
    assert inv * (a * (x - y)) == (a * inv) * (x - y);
    assert (1 + m * p) * (x - y) == (x - y) + p * (m * (x - y));
    assert inv * (p * q) == p * (inv * q);
    assert p * (inv * q) - p * (m * (x - y)) == p * (inv * q - m * (x - y));
  }

  lemma SameRemainder(u: int, v: int, p: int)
    requires p > 0 && u % p == v % p
    ensures u - v == p * (u / p - v / p)
  {
    assert u == p * (u / p) + u % p && v == p * (v / p) + v % p;
  }

  lemma LinearIsInjective(a: int, b: int, inv: int, m: int, p: int, x: int, y: int)
    requires 0 <= x < p && 0 <= y < p && a * inv == 1 + m * p
    requires (a * x + b) % p == (a * y + b) % p
    ensures x == y
  {
    SameRemainder(a * x + b, a * y + b, p);
    var q := (a * x + b) / p - (a * y + b) / p;
    assert a * (x - y) == a * x - a * y;
    Cancels(a, inv, m, p, x, y, q);
    SmallMultiple(x - y, p, inv * q - m * (x - y));
  }

  /** Each probe tells keys apart: two hashes are equal if and only if the keys are equal
      modulo the prime, so keys below the prime collide only in the cut to bits. */
  lemma HashTellsKeysApart(k: int, l: int, probe: nat)
    requires probe < PROBES
    ensures Hash(k, probe) == Hash(l, probe) <==> k % HASH_PRIME == l % HASH_PRIME
  {
    if Hash(k, probe) == Hash(l, probe) {
      InverseInverts(probe);
      LinearIsInjective(ProbeParams(probe).0, ProbeParams(probe).1, Inverse(probe).0, Inverse(probe).1, HASH_PRIME, Reduced(k), Reduced(l));
    }
  }

  /** The bit one probe of one key lands on. */
  function BitIndex(key: int, probe: nat, bits: nat): (bit: nat)
    requires probe < PROBES && 0 < bits
    ensures bit < bits
  {
    Hash(key, probe) % bits
  }

  lemma Products(k: nat, a: int, b: int)
    requires k < HASH_PRIME && 0 <= a < HASH_PRIME && 0 <= b < HASH_PRIME
    ensures 0 <= a * k && a * k + b < 0x4000_0000_0000_0000
  {
    assert a * k <= HASH_PRIME * HASH_PRIME by { Mono(a, k, HASH_PRIME, HASH_PRIME); }
  }

  lemma Mono(a: nat, b: nat, c: nat, d: nat)
    requires a <= c && b <= d
    ensures 0 <= a * b <= c * d
  {
  }

  /** Every intermediate value of the hash fits a signed 64-bit integer, for every key. */
  lemma HashStaysInI64(key: int, probe: nat)
    requires probe < PROBES
    ensures var (a, b) := ProbeParams(probe);
            && 0 <= Reduced(key) <= 0x7fff_ffff_ffff_ffff
            && 0 <= a * Reduced(key) <= 0x7fff_ffff_ffff_ffff
            && 0 <= a * Reduced(key) + b <= 0x7fff_ffff_ffff_ffff
  {
    var (a, b) := ProbeParams(probe);
    Products(Reduced(key), a, b);
  }

  /** A byte of the encoded blob (the version byte is byte 0) and a bit to demand in it. */
  datatype Probe = Probe(byte: nat, mask: bv8)

  function Mask(bit: nat): bv8
    requires bit < 8
  {
    match bit
    case 0 => 1
    case 1 => 2
    case 2 => 4
    case 3 => 8
    case 4 => 16
    case 5 => 32
    case 6 => 64
    case _ => 128
  }

  function ProbeAt(bit: nat): Probe {
    Probe(1 + bit / 8, Mask(bit % 8))
  }

  function Probes(key: int, bits: nat): (p: seq<Probe>)
    requires 0 < bits
    ensures |p| == PROBES
  {
    seq(PROBES, i requires 0 <= i < PROBES => ProbeAt(BitIndex(key, i, bits)))
  }

  /** Every probe offset lies inside the blob of its tier. */
  lemma ProbesInside(key: int, t: Tier, i: nat)
    requires t in TIERS && i < PROBES
    ensures 1 <= Probes(key, t.bytes * 8)[i].byte < 1 + t.bytes
  {
    var bit := BitIndex(key, i, t.bytes * 8);
    assert bit / 8 < t.bytes;
  }

  // ---------------------------------------------------------------- building

  /** Bit `n` of the bit array behind the version byte. */
  predicate HasBit(blob: seq<bv8>, n: nat)
    requires 1 + n / 8 < |blob|
  {
    blob[ProbeAt(n).byte] & ProbeAt(n).mask != 0
  }

  /** Some probe of some key of the list lands on bit `n`. */
  ghost predicate Demanded(keys: seq<int>, bits: nat, n: nat)
    requires 0 < bits
  {
    exists j, i :: 0 <= j < |keys| && 0 <= i < PROBES && BitIndex(keys[j], i, bits) == n
  }

  lemma OrMask(x: bv8, i: nat, j: nat)
    requires i < 8 && j < 8
    ensures (x | Mask(i)) & Mask(j) != 0 <==> x & Mask(j) != 0 || i == j
  {
    if i == j { OrSame(x, i); } else { OrOther(x, i, j); }
  }

  lemma OrSame(x: bv8, i: nat)
    requires i < 8
    ensures (x | Mask(i)) & Mask(i) != 0
  {
    var m := Mask(i);
    assert (x | m) & m == m;
  }

  lemma OrOther(x: bv8, i: nat, j: nat)
    requires i < 8 && j < 8 && i != j
    ensures (x | Mask(i)) & Mask(j) == x & Mask(j)
  {
    var m, n := Mask(i), Mask(j);
    assert m & n == 0;
    assert (x | m) & n == (x & n) | (m & n);
  }

  /** Filters a list of keys: nothing for one key, too many, or a negative one, else the
      blob in which exactly the demanded bits are set. */
  method Build(keys: seq<int>) returns (r: Option<seq<bv8>>)
    ensures r.None? <==> |keys| <= 1 || |keys| > 8000 || exists k :: k in keys && k < 0
    ensures r.Some? ==> IsFilter(r.value, keys)
  {
    if |keys| <= 1 || |keys| > MAX_KEYS_WORTH_FILTERING || (exists k :: k in keys && k < 0) {
      return None;
    }
    var tier := TierFor(|keys|);
    var blob := new bv8[1 + tier.bytes](_ => 0);
    blob[0] := KEY_FILTER_V1;
    var bits := tier.bytes * 8;
    NoBits(blob[..], keys, bits);
    hide HasBit; hide DemandedUpto; hide BitIndex; hide Mask;
    for j := 0 to |keys|
      invariant blob[0] == KEY_FILTER_V1
      invariant forall n: nat :: n < bits ==> (HasBit(blob[..], n) <==> DemandedUpto(keys, bits, n, j, 0))
    {
      var probes := Probes(keys[j], bits);
      for i := 0 to PROBES
        invariant blob[0] == KEY_FILTER_V1
        invariant forall n: nat :: n < bits ==> (HasBit(blob[..], n) <==> DemandedUpto(keys, bits, n, j, i))
      {
        ProbesInside(keys[j], tier, i);
        ghost var before := blob[..];
        blob[probes[i].byte] := blob[probes[i].byte] | probes[i].mask;
        SetBit(before, BitIndex(keys[j], i, bits), blob[..]);
        DemandedMore(keys, bits, j, i);
      }
      DemandedNext(keys, bits, j);
    }
    DemandedAll(keys, bits);
    return Some(blob[..]);
  }

  ghost predicate DemandedUpto(keys: seq<int>, bits: nat, n: nat, k: nat, p: nat)
    requires 0 < bits && k <= |keys| && p <= PROBES
  {
    || DemandedBefore(keys, bits, n, k)
    || (k < |keys| && DemandedBy(keys[k], bits, n, p))
  }

  ghost predicate DemandedBefore(keys: seq<int>, bits: nat, n: nat, k: nat)
    requires 0 < bits && k <= |keys|
  {
    exists j, i :: 0 <= j < k && 0 <= i < PROBES && BitIndex(keys[j], i, bits) == n
  }

  ghost predicate DemandedBy(key: int, bits: nat, n: nat, p: nat)
    requires 0 < bits && p <= PROBES
  {
    exists i :: 0 <= i < p && BitIndex(key, i, bits) == n
  }

  lemma NoBits(blob: seq<bv8>, keys: seq<int>, bits: nat)
    requires 0 < bits && |blob| == 1 + bits / 8 && bits % 8 == 0 && forall i :: 0 < i < |blob| ==> blob[i] == 0
    ensures forall n: nat :: n < bits ==> !HasBit(blob, n) && !DemandedUpto(keys, bits, n, 0, 0)
  {
  }

  lemma DemandedMore(keys: seq<int>, bits: nat, k: nat, p: nat)
    requires 0 < bits && k < |keys| && p < PROBES
    ensures forall n: nat :: DemandedUpto(keys, bits, n, k, p + 1) <==> DemandedUpto(keys, bits, n, k, p) || n == BitIndex(keys[k], p, bits)
  {
    hide BitIndex; hide DemandedBefore;
    var at := BitIndex(keys[k], p, bits);
    forall n: nat ensures DemandedUpto(keys, bits, n, k, p + 1) <==> DemandedUpto(keys, bits, n, k, p) || n == at {
      assert DemandedBy(keys[k], bits, n, p + 1) <==> DemandedBy(keys[k], bits, n, p) || n == at;
    }
  }

  lemma DemandedNext(keys: seq<int>, bits: nat, k: nat)
    requires 0 < bits && k < |keys|
    ensures forall n :: DemandedUpto(keys, bits, n, k + 1, 0) <==> DemandedUpto(keys, bits, n, k, PROBES)
  {
    hide BitIndex;
  }

  lemma DemandedAll(keys: seq<int>, bits: nat)
    requires 0 < bits
    ensures forall n :: Demanded(keys, bits, n) <==> DemandedUpto(keys, bits, n, |keys|, 0)
  {
    hide BitIndex;
  }

  /** Setting one bit sets that bit and no other. */
  lemma SetBit(blob: seq<bv8>, bit: nat, blob': seq<bv8>)
    requires 1 + bit / 8 < |blob| == |blob'|
    requires blob' == blob[ProbeAt(bit).byte := blob[ProbeAt(bit).byte] | ProbeAt(bit).mask]
    ensures forall n: nat :: 1 + n / 8 < |blob| ==> (HasBit(blob', n) <==> HasBit(blob, n) || n == bit)
  {
    forall n: nat | 1 + n / 8 < |blob| ensures HasBit(blob', n) <==> HasBit(blob, n) || n == bit {
      if n / 8 == bit / 8 {
        OrMask(blob[1 + n / 8], bit % 8, n % 8);
        assert n == bit <==> n % 8 == bit % 8;
      }
    }
  }

  /** The blob a list of keys gives: the tier's size, the version, exactly the bits the
      keys demand. */
  ghost predicate IsFilter(blob: seq<bv8>, keys: seq<int>) {
    var t := TierFor(|keys|);
    && |blob| == 1 + t.bytes && blob[0] == KEY_FILTER_V1
    && (forall k :: k in keys ==> k >= 0)
    && forall n: nat :: n < t.bytes * 8 ==> (HasBit(blob, n) <==> Demanded(keys, t.bytes * 8, n))
  }

  lemma {:induction false} BlobExists(keys: seq<int>, size: nat, n: nat)
    requires size > 0 && n <= size * 8
    ensures exists blob :: BlobUpto(blob, keys, size, n)
  {
    hide BitIndex; hide Demanded; hide HasBit;
    if n == 0 {
      var blob := seq(1 + size, i => if i == 0 then KEY_FILTER_V1 else 0);
      NoBits(blob, keys, size * 8);
      assert BlobUpto(blob, keys, size, 0);
    } else {
      BlobExists(keys, size, n - 1);
      var blob :| BlobUpto(blob, keys, size, n - 1);
      if Demanded(keys, size * 8, n - 1) {
        var p := ProbeAt(n - 1);
        var blob' := blob[p.byte := blob[p.byte] | p.mask];
        SetBit(blob, n - 1, blob');
        assert BlobUpto(blob', keys, size, n);
      } else {
        assert BlobUpto(blob, keys, size, n);
      }
    }
  }

  /** Exactly the demanded bits below `n` are set. */
  ghost predicate BlobUpto(blob: seq<bv8>, keys: seq<int>, size: nat, n: nat)
    requires size > 0
  {
    && |blob| == 1 + size && blob[0] == KEY_FILTER_V1
    && forall m: nat :: m < size * 8 ==> (HasBit(blob, m) <==> m < n && Demanded(keys, size * 8, m))
  }

  lemma FilterExists(keys: seq<int>)
    requires forall k :: k in keys ==> k >= 0
    ensures exists blob :: IsFilter(blob, keys)
  {
    hide BitIndex; hide Demanded; hide HasBit;
    var size := TierFor(|keys|).bytes;
    BlobExists(keys, size, size * 8);
    var blob :| BlobUpto(blob, keys, size, size * 8);
    assert IsFilter(blob, keys);
  }

  // ---------------------------------------------------------------- asking

  function TierOfLength(n: nat): Option<Tier> {
    if n == 1 + TIERS[0].bytes then Some(TIERS[0])
    else if n == 1 + TIERS[1].bytes then Some(TIERS[1])
    else if n == 1 + TIERS[2].bytes then Some(TIERS[2])
    else None
  }

  /** Could the part hold `key`? Only a well-formed filter can say no. */
  predicate MaybeContains(filter: seq<bv8>, key: int) {
    if key < 0 || |filter| < 2 || filter[0] != KEY_FILTER_V1 then true
    else
      match TierOfLength(|filter|)
      case None => true
      case Some(t) =>
        forall i :: 0 <= i < PROBES ==>
          var p := Probes(key, t.bytes * 8)[i];
          p.byte < |filter| && filter[p.byte] & p.mask != 0
  }

  lemma ProbeHeld(keys: seq<int>, blob: seq<bv8>, j: nat, i: nat)
    requires IsFilter(blob, keys) && j < |keys| && i < PROBES
    ensures var p := Probes(keys[j], TierFor(|keys|).bytes * 8)[i]; p.byte < |blob| && blob[p.byte] & p.mask != 0
  {
    hide BitIndex; hide Mask;
    var t := TierFor(|keys|);
    ProbesInside(keys[j], t, i);
    var n := BitIndex(keys[j], i, t.bytes * 8);
    assert Demanded(keys, t.bytes * 8, n);
    assert HasBit(blob, n);
  }

  /** A key the filter was built over is never denied. */
  lemma PresentKeyIsNeverDenied(keys: seq<int>, blob: seq<bv8>, key: int)
    requires IsFilter(blob, keys) && key in keys
    ensures MaybeContains(blob, key)
  {
    hide IsFilter; hide Probes;
    var j :| 0 <= j < |keys| && keys[j] == key;
    forall i | 0 <= i < PROBES
      ensures var p := Probes(key, TierFor(|keys|).bytes * 8)[i]; p.byte < |blob| && blob[p.byte] & p.mask != 0
    {
      ProbeHeld(keys, blob, j, i);
    }
    FilterSize(keys, blob);
  }

  lemma FilterSize(keys: seq<int>, blob: seq<bv8>)
    requires IsFilter(blob, keys)
    ensures TierOfLength(|blob|) == Some(TierFor(|keys|)) && |blob| >= 2 && blob[0] == KEY_FILTER_V1
  {
  }

  /** A denied key demands a bit no key of the part demands. */
  lemma DeniedKeyIsAbsent(keys: seq<int>, blob: seq<bv8>, key: int)
    requires IsFilter(blob, keys) && !MaybeContains(blob, key)
    ensures key !in keys
  {
    if key in keys { PresentKeyIsNeverDenied(keys, blob, key); }
  }

  /** The tier a filter gets: the least that holds the keys, the largest if none does. */
  lemma FilterLength(keys: seq<int>, blob: seq<bv8>)
    requires IsFilter(blob, keys)
    ensures |blob| == if |keys| <= 80 then 129 else if |keys| <= 640 then 1025 else 2049
  {
  }

  function BitsOf(blob: seq<bv8>): nat
    requires |blob| >= 2
  {
    8 * (|blob| - 1)
  }

  /** The bit that one probe of the key demands of a blob is set. */
  predicate ProbeSet(blob: seq<bv8>, key: int, i: nat)
    requires |blob| >= 2 && i < PROBES
  {
    HasBit(blob, BitIndex(key, i, BitsOf(blob)))
  }

  predicate KnownBlob(blob: seq<bv8>) {
    (|blob| == 129 || |blob| == 1025 || |blob| == 2049) && blob[0] == KEY_FILTER_V1
  }

  /** A blob of another version or length, or a negative key, is never denied; a blob of a
      known length denies a key exactly when a bit the key demands is not set. */
  lemma MaybeContainsMeans(blob: seq<bv8>, key: int)
    ensures MaybeContains(blob, key) <==> (KnownBlob(blob) && key >= 0 ==> forall i :: 0 <= i < PROBES ==> ProbeSet(blob, key, i))
  {
    if key >= 0 && KnownBlob(blob) {
      assert TierOfLength(|blob|).Some? && 1 + TierOfLength(|blob|).value.bytes == |blob| && TierOfLength(|blob|).value in TIERS;
      forall i | 0 <= i < PROBES
        ensures var p := Probes(key, BitsOf(blob))[i]; p.byte < |blob| && (ProbeSet(blob, key, i) <==> blob[p.byte] & p.mask != 0)
      {
        ProbesInside(key, TierOfLength(|blob|).value, i);
      }
      assert TierOfLength(|blob|).value.bytes * 8 == BitsOf(blob);
      hide ProbeSet; hide Probes;
    } else {
      UnknownKept(blob, key);
    }
  }

  lemma UnknownKept(blob: seq<bv8>, key: int)
    requires key < 0 || !KnownBlob(blob)
    ensures MaybeContains(blob, key)
  {
  }

  /** Some probe of some key of the list lands where this probe does. */
  ghost predicate ProbeDemanded(keys: seq<int>, bits: nat, key: int, i: nat)
    requires i < PROBES && bits > 0
  {
    exists j, p :: 0 <= j < |keys| && 0 <= p < PROBES && BitIndex(keys[j], p, bits) == BitIndex(key, i, bits)
  }

  /** Over the filter of a list, a key from zero up is denied exactly when one of its probes
      lands where no probe of any key of the list does. */
  lemma DeniedIff(keys: seq<int>, blob: seq<bv8>, key: int)
    requires IsFilter(blob, keys) && key >= 0 && |blob| >= 2
    ensures MaybeContains(blob, key) <==> forall i :: 0 <= i < PROBES ==> ProbeDemanded(keys, BitsOf(blob), key, i)
  {
    hide BitIndex; hide HasBit; hide MaybeContains;
    FilterLength(keys, blob);
    MaybeContainsMeans(blob, key);
    assert BitsOf(blob) == TierFor(|keys|).bytes * 8;
    forall i | 0 <= i < PROBES ensures ProbeSet(blob, key, i) <==> ProbeDemanded(keys, BitsOf(blob), key, i) {
      assert HasBit(blob, BitIndex(key, i, BitsOf(blob))) <==> Demanded(keys, BitsOf(blob), BitIndex(key, i, BitsOf(blob)));
    }
  }

  // ---------------------------------------------------------------- the SQL form

  /** One WHEN arm: a blob length, and the numbers of the binds each probe reads. */
  datatype Arm = Arm(length: nat, tests: seq<(nat, nat)>)

  /** A bind value: a byte offset or a mask. */
  datatype Bind = Offset(byte: nat) | Bits(mask: bv8)

  /** The arms of the generated CASE: binds are numbered on from `firstBind`, tier by
      tier, two for each probe. */
  method SqlPredicate(firstBind: nat) returns (arms: seq<Arm>)
    ensures |arms| == |TIERS|
    ensures forall t :: 0 <= t < |TIERS| ==> arms[t] == ArmOf(firstBind, t)
  {
    arms := [];
    var bind := firstBind;
    for t := 0 to |TIERS|
      invariant |arms| == t && bind == firstBind + 2 * PROBES * t
      invariant forall u :: 0 <= u < t ==> arms[u] == ArmOf(firstBind, u)
    {
      var tests: seq<(nat, nat)> := [];
      for i := 0 to PROBES
        invariant |tests| == i && bind == firstBind + 2 * PROBES * t + 2 * i
        invariant forall j :: 0 <= j < i ==> tests[j] == ArmOf(firstBind, t).tests[j]
      {
        tests := tests + [(bind, bind + 1)];
        bind := bind + 2;
      }
      arms := arms + [Arm(1 + TIERS[t].bytes, tests)];
    }
  }

  function ArmOf(firstBind: nat, t: nat): (a: Arm)
    requires t < |TIERS|
    ensures |a.tests| == PROBES
  {
    var base := firstBind + 2 * PROBES * t;
    Arm(1 + TIERS[t].bytes, seq(PROBES, i requires 0 <= i < PROBES => (base + 2 * i, base + 2 * i + 1)))
  }

  function ProbeBinds(probes: seq<Probe>): (b: seq<Bind>)
    ensures |b| == 2 * |probes|
  {
    seq(2 * |probes|, i requires 0 <= i < 2 * |probes| =>
      if i % 2 == 0 then Offset(probes[i / 2].byte) else Bits(probes[i / 2].mask))
  }

  /** For each tier, the offset and mask of each probe. */
  function SqlBinds(key: int): (b: seq<Bind>)
    ensures |b| == 2 * PROBES * |TIERS|
  {
    ProbeBinds(Probes(key, TIERS[0].bytes * 8)) + ProbeBinds(Probes(key, TIERS[1].bytes * 8)) + ProbeBinds(Probes(key, TIERS[2].bytes * 8))
  }

  /** What the database makes of the CASE over a nullable blob: a truth value, or an
      error when a probe reads past the end or a bind is missing. */
  function SqlAnswer(arms: seq<Arm>, firstBind: nat, binds: seq<Bind>, col: Option<seq<bv8>>): Option<bool> {
    if col.None? || |col.value| < 2 then Some(true)
    else if col.value[0] != KEY_FILTER_V1 then Some(true)
    else SqlArms(arms, firstBind, binds, col.value)
  }

  function SqlArms(arms: seq<Arm>, firstBind: nat, binds: seq<Bind>, blob: seq<bv8>): Option<bool> {
    if arms == [] then Some(true)
    else if arms[0].length == |blob| then SqlTests(arms[0].tests, firstBind, binds, blob)
    else SqlArms(arms[1..], firstBind, binds, blob)
  }

  /** SQL need not short-circuit an AND: a raising operand raises. */
  function SqlTests(tests: seq<(nat, nat)>, firstBind: nat, binds: seq<Bind>, blob: seq<bv8>): Option<bool> {
    if tests == [] then Some(true)
    else
      var one, rest := SqlTest(tests[0], firstBind, binds, blob), SqlTests(tests[1..], firstBind, binds, blob);
      if one.None? || rest.None? then None else Some(one.value && rest.value)
  }

  function SqlTest(test: (nat, nat), firstBind: nat, binds: seq<Bind>, blob: seq<bv8>): Option<bool> {
    if test.0 < firstBind || test.1 < firstBind || test.0 - firstBind >= |binds| || test.1 - firstBind >= |binds| then None
    else
      match (binds[test.0 - firstBind], binds[test.1 - firstBind])
      case (Offset(byte), Bits(mask)) => if byte < |blob| then Some(blob[byte] & mask != 0) else None
      case _ => None
  }

  predicate AllTests(key: int, t: Tier, blob: seq<bv8>)
    requires t in TIERS
  {
    forall i :: 0 <= i < PROBES ==>
      var p := Probes(key, t.bytes * 8)[i]; p.byte < |blob| && blob[p.byte] & p.mask != 0
  }

  lemma PairAt(p: seq<Probe>, i: nat)
    requires |p| == PROBES && i < PROBES
    ensures ProbeBinds(p)[2 * i] == Offset(p[i].byte) && ProbeBinds(p)[2 * i + 1] == Bits(p[i].mask)
  {
  }

  lemma BindsOfTier(key: int, t: nat, i: nat)
    requires t < |TIERS| && i < PROBES
    ensures var p, at := Probes(key, TIERS[t].bytes * 8)[i], 2 * PROBES * t + 2 * i;
            at + 1 < |SqlBinds(key)| && SqlBinds(key)[at] == Offset(p.byte) && SqlBinds(key)[at + 1] == Bits(p.mask)
  {
    hide Probes; hide ProbeBinds;
    var a, b, c := Probes(key, 1024), Probes(key, 8192), Probes(key, 16384);
    var x, y, z := ProbeBinds(a), ProbeBinds(b), ProbeBinds(c);
    assert SqlBinds(key) == x + y + z;
    PairAt(a, i);
    PairAt(b, i);
    PairAt(c, i);
    if t == 0 {
      assert (x + y + z)[2 * i] == x[2 * i] && (x + y + z)[2 * i + 1] == x[2 * i + 1];
    } else if t == 1 {
      assert (x + y + z)[8 + 2 * i] == y[2 * i] && (x + y + z)[9 + 2 * i] == y[2 * i + 1];
    } else {
      assert (x + y + z)[16 + 2 * i] == z[2 * i] && (x + y + z)[17 + 2 * i] == z[2 * i + 1];
    }
  }

  lemma {:induction false} TestsAnswer(key: int, firstBind: nat, t: nat, blob: seq<bv8>, i: nat)
    requires t < |TIERS| && |blob| == 1 + TIERS[t].bytes && i <= PROBES
    ensures SqlTests(ArmOf(firstBind, t).tests[i..], firstBind, SqlBinds(key), blob)
            == Some(forall j :: i <= j < PROBES ==>
                      var p := Probes(key, TIERS[t].bytes * 8)[j]; p.byte < |blob| && blob[p.byte] & p.mask != 0)
    decreases PROBES - i
  {
    hide SqlBinds; hide Probes;
    var tests := ArmOf(firstBind, t).tests;
    if i < PROBES {
      TestsAnswer(key, firstBind, t, blob, i + 1);
      BindsOfTier(key, t, i);
      ProbesInside(key, TIERS[t], i);
      assert tests[i..][1..] == tests[i + 1..];
      assert tests[i..][0] == tests[i];
    }
  }

  /** The generated SQL fed with its binds never raises, and for every blob — well formed
      or not — and every key >= 0 answers as the filter's own test does. */
  lemma SqlAgrees(firstBind: nat, arms: seq<Arm>, blob: seq<bv8>, key: int)
    requires |arms| == |TIERS| && forall t :: 0 <= t < |TIERS| ==> arms[t] == ArmOf(firstBind, t)
    ensures SqlAnswer(arms, firstBind, SqlBinds(key), Some(blob)).Some?
    ensures key >= 0 ==> SqlAnswer(arms, firstBind, SqlBinds(key), Some(blob)) == Some(MaybeContains(blob, key))
  {
    hide SqlBinds; hide SqlTests; hide ArmOf; hide Probes;
    assert arms == [arms[0], arms[1], arms[2]];
    var binds := SqlBinds(key);
    assert arms[1..] == [arms[1], arms[2]] && [arms[1], arms[2]][1..] == [arms[2]] && [arms[2]][1..] == [];
    assert SqlArms([arms[2]], firstBind, binds, blob)
           == if arms[2].length == |blob| then SqlTests(arms[2].tests, firstBind, binds, blob) else Some(true);
    assert SqlArms([arms[1], arms[2]], firstBind, binds, blob)
           == if arms[1].length == |blob| then SqlTests(arms[1].tests, firstBind, binds, blob)
              else SqlArms([arms[2]], firstBind, binds, blob);
    ArmLengths(firstBind);
    if |blob| == 129 { ArmAnswer(key, firstBind, 0, blob); }
    else if |blob| == 1025 { ArmAnswer(key, firstBind, 1, blob); }
    else if |blob| == 2049 { ArmAnswer(key, firstBind, 2, blob); }
  }

  /** The SQL form, for any key and blob: absent, unknown and short blobs keep the part, and
      a known one denies the key exactly when a bit the key demands is not set. */
  lemma SqlMeans(firstBind: nat, arms: seq<Arm>, col: Option<seq<bv8>>, key: int)
    requires |arms| == |TIERS| && forall t :: 0 <= t < |TIERS| ==> arms[t] == ArmOf(firstBind, t)
    ensures SqlAnswer(arms, firstBind, SqlBinds(key), col)
            == Some(col.None? || !KnownBlob(col.value) || forall i :: 0 <= i < PROBES ==> ProbeSet(col.value, key, i))
  {
    hide SqlBinds; hide SqlTests; hide ArmOf; hide ProbeSet; hide AllTests;
    if col.Some? {
      var blob, binds := col.value, SqlBinds(key);
      assert arms == [arms[0], arms[1], arms[2]];
      assert arms[1..] == [arms[1], arms[2]] && [arms[1], arms[2]][1..] == [arms[2]] && [arms[2]][1..] == [];
      ArmLengths(firstBind);
      SqlFalls(arms[0], arms[1], arms[2], firstBind, binds, blob);
      if KnownBlob(blob) {
        var t := if |blob| == 129 then 0 else if |blob| == 1025 then 1 else 2;
        ArmAnswer(key, firstBind, t, blob);
        AllTestsMeans(key, t, blob);
      }
    }
  }

  /** The arms are tried in order; a length none of them has falls through. */
  lemma SqlFalls(a: Arm, b: Arm, c: Arm, firstBind: nat, binds: seq<Bind>, blob: seq<bv8>)
    ensures SqlArms([a, b, c], firstBind, binds, blob)
            == if a.length == |blob| then SqlTests(a.tests, firstBind, binds, blob)
               else if b.length == |blob| then SqlTests(b.tests, firstBind, binds, blob)
               else if c.length == |blob| then SqlTests(c.tests, firstBind, binds, blob)
               else Some(true)
  {
    hide SqlTests;
    assert [a, b, c][1..] == [b, c] && [b, c][1..] == [c] && [c][1..] == [];
    assert SqlArms([], firstBind, binds, blob) == Some(true);
    assert SqlArms([c], firstBind, binds, blob) == if c.length == |blob| then SqlTests(c.tests, firstBind, binds, blob) else Some(true);
    assert SqlArms([b, c], firstBind, binds, blob)
           == if b.length == |blob| then SqlTests(b.tests, firstBind, binds, blob) else SqlArms([c], firstBind, binds, blob);
  }

  lemma AllTestsMeans(key: int, t: nat, blob: seq<bv8>)
    requires t < |TIERS| && |blob| == 1 + TIERS[t].bytes
    ensures AllTests(key, TIERS[t], blob) <==> forall i :: 0 <= i < PROBES ==> ProbeSet(blob, key, i)
  {
    assert TIERS[t].bytes * 8 == BitsOf(blob);
    forall i | 0 <= i < PROBES
      ensures var p := Probes(key, BitsOf(blob))[i]; p.byte < |blob| && (ProbeSet(blob, key, i) <==> blob[p.byte] & p.mask != 0)
    {
      ProbesInside(key, TIERS[t], i);
    }
    hide ProbeSet; hide Probes;
  }

  lemma ArmAnswer(key: int, firstBind: nat, t: nat, blob: seq<bv8>)
    requires t < |TIERS| && |blob| == 1 + TIERS[t].bytes
    ensures SqlTests(ArmOf(firstBind, t).tests, firstBind, SqlBinds(key), blob) == Some(AllTests(key, TIERS[t], blob))
    ensures key >= 0 && blob[0] == KEY_FILTER_V1 ==> MaybeContains(blob, key) == AllTests(key, TIERS[t], blob)
  {
    hide SqlBinds; hide SqlTests; hide Probes;
    TestsAnswer(key, firstBind, t, blob, 0);
    assert ArmOf(firstBind, t).tests[0..] == ArmOf(firstBind, t).tests;
    assert TierOfLength(|blob|) == Some(TIERS[t]);
  }

  lemma ArmLengths(firstBind: nat)
    ensures forall t :: 0 <= t < |TIERS| ==> ArmOf(firstBind, t).length == 1 + TIERS[t].bytes
  {
  }

  /** The blob of the least tier with no bit set. */
  function Blank(): seq<bv8> {
    seq(129, i => if i == 0 then KEY_FILTER_V1 else 0)
  }

  /** Over a blob with no bit set the SQL form denies every key, negative ones included. */
  lemma BlankDeniesAll(firstBind: nat, arms: seq<Arm>, key: int)
    requires |arms| == |TIERS| && forall t :: 0 <= t < |TIERS| ==> arms[t] == ArmOf(firstBind, t)
    ensures SqlAnswer(arms, firstBind, SqlBinds(key), Some(Blank())) == Some(false)
  {
    hide SqlBinds; hide SqlTests; hide ArmOf; hide Probes;
    var blob := Blank();
    ArmLengths(firstBind);
    ArmAnswer(key, firstBind, 0, blob);
    ProbesInside(key, TIERS[0], 0);
    assert blob[Probes(key, 1024)[0].byte] & Probes(key, 1024)[0].mask == 0;
    assert SqlArms(arms, firstBind, SqlBinds(key), blob) == SqlTests(arms[0].tests, firstBind, SqlBinds(key), blob);
  }

  /** The two forms agree on every blob if and only if the key is not negative. No part is
      lost for a negative key, since a list that holds one gets no filter. */
  lemma FormsAgreeIff(firstBind: nat, arms: seq<Arm>, key: int)
    requires |arms| == |TIERS| && forall t :: 0 <= t < |TIERS| ==> arms[t] == ArmOf(firstBind, t)
    ensures (forall blob: seq<bv8> :: SqlAnswer(arms, firstBind, SqlBinds(key), Some(blob)) == Some(MaybeContains(blob, key)))
            <==> key >= 0
  {
    hide SqlBinds; hide SqlArms; hide ArmOf; hide Probes;
    if key >= 0 {
      forall blob: seq<bv8> ensures SqlAnswer(arms, firstBind, SqlBinds(key), Some(blob)) == Some(MaybeContains(blob, key)) {
        SqlAgrees(firstBind, arms, blob, key);
      }
    } else {
      BlankDeniesAll(firstBind, arms, key);
      assert MaybeContains(Blank(), key);
    }
  }
}
