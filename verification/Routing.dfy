/** Which worker serves a source. */
module Routing {
  import opened Workers
  import opened Receiver

  const MAX_SOURCE_ID_LEN := 32
  const FNV_OFFSET: nat := 0xcbf29ce484222325
  const FNV_PRIME: nat := 0x100000001b3
  const TWO_TO_64: nat := 0x1_0000_0000_0000_0000

  /** One round of FNV-1a: the byte is folded into the low bits, then the product wraps at 64 bits. */
  function Mix(hash: nat, byte: bv8): nat {
    var low := ((hash % 256) as bv8 ^ byte) as nat;
    (hash - hash % 256 + low) * FNV_PRIME % TWO_TO_64
  }

  /** 64-bit FNV-1a. */
  function Fnv1a(data: seq<bv8>): nat {
    if data == [] then FNV_OFFSET else Mix(Fnv1a(data[..|data| - 1]), data[|data| - 1])
  }

  method HashFnv1a(data: seq<bv8>) returns (hash: nat)
    ensures hash == Fnv1a(data)
  {
    hash := FNV_OFFSET;
    for i := 0 to |data|
      invariant hash == Fnv1a(data[..i])
    {
      assert data[..i + 1][..i] == data[..i];
      hash := Mix(hash, data[i]);
    }
    assert data[..|data|] == data;
  }

  /** A byte buffer read as a C string. */
  function CString(data: seq<bv8>): (text: seq<bv8>)
    ensures 0 !in text
    ensures 0 !in data ==> text == data
  {
    if data == [] || data[0] == 0 then [] else [data[0]] + CString(data[1..])
  }

  function WorkerOf(key: seq<bv8>): nat {
    Fnv1a(key) % N_WORKERS
  }

  /** What the receiver keeps of a ZMQ identity. */
  function Kept(identity: seq<bv8>): seq<bv8> {
    if |identity| < MAX_SOURCE_ID_LEN - 1 then identity else identity[..MAX_SOURCE_ID_LEN - 1]
  }

  /** The source id a data item carries and the worker it is queued on. */
  function DataTag(identity: seq<bv8>): Source {
    CString(Kept(identity))
  }

  function DataWorker(identity: seq<bv8>): nat {
    WorkerOf(Kept(identity))
  }

  // ---- the low bits of the hash ----

  lemma LowBits(v: bv8)
    ensures v as nat % 8 == (v & 7) as nat
  {
  }

  lemma LowBitsOfXor(v: bv8, b: bv8)
    ensures (v ^ b) & 7 == (v & 7) ^ (b & 7)
  {
  }

  lemma LowBitsOfByte(x: nat)
    requires x < 256
    ensures (x % 8) as bv8 == x as bv8 & 7
  {
    var v := x as bv8;
    assert v as nat == x;
    LowBits(v);
    assert ((v & 7) as nat) as bv8 == v & 7;
  }

  /** N_WORKERS is 8 and the prime is 3 modulo 8: one more byte moves the worker like this. */
  function Moved(worker: nat, byte: bv8): (w: nat)
    requires worker < N_WORKERS
    ensures w < N_WORKERS
  {
    (worker as bv8 ^ (byte & 7)) as nat * 3 % N_WORKERS
  }

  lemma WrapLow(p: nat)
    ensures p % TWO_TO_64 % 8 == p % 8
  {
    assert p == p / TWO_TO_64 * TWO_TO_64 + p % TWO_TO_64;
  }

  lemma MultipleDropped(k: nat, rest: nat)
    ensures (8 * k + rest) % 8 == rest % 8
  {
  }

  lemma ProductLow(y: nat)
    ensures y * FNV_PRIME % TWO_TO_64 % 8 == y % 8 * 3 % 8
  {
    WrapLow(y * FNV_PRIME);
    MultipleDropped(y / 8 * FNV_PRIME + y % 8 * (FNV_PRIME / 8), y % 8 * 3);
  }

  lemma XorLow(x: nat, byte: bv8)
    requires x < 256
    ensures (x as bv8 ^ byte) as nat % 8 == ((x % 8) as bv8 ^ (byte & 7)) as nat
  {
    LowBits(x as bv8 ^ byte);
    LowBitsOfXor(x as bv8, byte);
    LowBitsOfByte(x);
  }

  lemma HighPartKept(hash: nat, low: nat)
    ensures hash % 256 % 8 == hash % 8
    ensures (hash - hash % 256 + low) % 8 == low % 8
  {
  }

  lemma MixLow(hash: nat, byte: bv8)
    ensures Mix(hash, byte) % N_WORKERS == Moved(hash % N_WORKERS, byte)
  {
    var low := ((hash % 256) as bv8 ^ byte) as nat;
    XorLow(hash % 256, byte);
    HighPartKept(hash, low);
    ProductLow(hash - hash % 256 + low);
  }

  lemma WorkerMoves(key: seq<bv8>, byte: bv8)
    ensures WorkerOf(key + [byte]) == Moved(WorkerOf(key), byte)
  {
    assert (key + [byte])[..|key|] == key;
    MixLow(Fnv1a(key), byte);
  }

  /** Where the bytes of a tail take a worker. */
  function Drift(worker: nat, tail: seq<bv8>): (w: nat)
    requires worker < N_WORKERS
    ensures w < N_WORKERS
  {
    if tail == [] then worker else Moved(Drift(worker, tail[..|tail| - 1]), tail[|tail| - 1])
  }

  lemma {:induction false} WorkerDrifts(key: seq<bv8>, tail: seq<bv8>)
    ensures WorkerOf(key + tail) == Drift(WorkerOf(key), tail)
  {
    if tail == [] {
      assert key + tail == key;
    } else {
      var before, byte := tail[..|tail| - 1], tail[|tail| - 1];
      WorkerDrifts(key, before);
      WorkerMoves(key + before, byte);
      assert key + before + [byte] == key + tail;
    }
  }

  // ---- where the data go ----

  /** The part of an identity behind its first zero byte, which a C string does not show. */
  function Hidden(data: seq<bv8>): (tail: seq<bv8>)
    ensures data == CString(data) + tail
    ensures tail == [] || tail[0] == 0
    ensures tail == [] <==> 0 !in data
  {
    if data == [] || data[0] == 0 then data else Hidden(data[1..])
  }

  /** Data reach the worker that opens and closes the file of their source exactly when the low three
      bits of the hidden bytes bring the hash back to that worker: the listener hashes the C string,
      the receiver all the bytes. Without a zero byte nothing is hidden. */
  lemma DataFollowTheirFile(identity: seq<bv8>)
    ensures var worker := WorkerOf(DataTag(identity));
            DataWorker(identity) == worker <==> Drift(worker, Hidden(Kept(identity))) == worker
    ensures 0 !in Kept(identity) ==> DataWorker(identity) == WorkerOf(DataTag(identity)) && DataTag(identity) == Kept(identity)
  {
    WorkerDrifts(DataTag(identity), Hidden(Kept(identity)));
  }

  predicate AllZero(tail: seq<bv8>) {
    forall i | 0 <= i < |tail| :: tail[i] == 0
  }

  lemma MovedByZero(worker: nat)
    requires worker < N_WORKERS
    ensures Moved(worker, 0) == worker * 3 % N_WORKERS
  {
    assert worker as bv8 ^ (0 & 7) == worker as bv8;
  }

  lemma ThreeTimes(worker: nat)
    requires worker < N_WORKERS
    ensures worker * 3 % N_WORKERS * 3 % N_WORKERS == worker
    ensures worker * 3 % N_WORKERS == worker <==> worker in {0, 4}
  {
  }

  /** Identities padded with zero bytes: the data go astray exactly when their number is odd and
      the worker of the source is neither 0 nor 4. */
  lemma {:induction false} ZeroTail(worker: nat, tail: seq<bv8>)
    requires worker < N_WORKERS && AllZero(tail)
    ensures Drift(worker, tail) == if |tail| % 2 == 0 then worker else worker * 3 % N_WORKERS
    ensures Drift(worker, tail) == worker <==> |tail| % 2 == 0 || worker in {0, 4}
  {
    if tail != [] {
      ZeroTail(worker, tail[..|tail| - 1]);
      MovedByZero(Drift(worker, tail[..|tail| - 1]));
    }
    ThreeTimes(worker);
  }

  lemma PaddedIdentity(identity: seq<bv8>)
    requires AllZero(Hidden(Kept(identity)))
    ensures DataWorker(identity) == WorkerOf(DataTag(identity)) <==>
            |Hidden(Kept(identity))| % 2 == 0 || WorkerOf(DataTag(identity)) in {0, 4}
  {
    DataFollowTheirFile(identity);
    ZeroTail(WorkerOf(DataTag(identity)), Hidden(Kept(identity)));
  }

  lemma MixOfB()
    ensures Mix(FNV_OFFSET, 0x42) == 0xaf63ff4c86022805
    ensures Mix(0xaf63ff4c86022805, 0) == 0x0912d407b5aa007f
  {
    assert (0x25 as bv8 ^ 0x42) as nat == 0x67;
    assert (0x05 as bv8 ^ 0x00) as nat == 0x05;
  }

  /** With a zero byte they may not: "B" is served by worker 5, its data by worker 7. */
  lemma ZeroByteSplitsASource()
    ensures DataTag([0x42, 0]) == [0x42]
    ensures WorkerOf(DataTag([0x42, 0])) == 5
    ensures DataWorker([0x42, 0]) == 7
  {
    var key: seq<bv8> := [0x42, 0];
    assert key[1..] == [0] && CString([0]) == [];
    assert CString(key) == [0x42];
    var single: seq<bv8> := [0x42];
    assert key[..1] == single && single[..0] == [];
    assert Fnv1a(single) == Mix(FNV_OFFSET, 0x42);
    assert Fnv1a(key) == Mix(Fnv1a(single), 0);
    MixOfB();
  }
}
