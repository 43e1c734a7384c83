/**
 The bandwidth gate: a file is interesting when its size times the number of
 reads in the last day reaches a fixed limit. All arithmetic is on Python's
 unbounded integers.
 */
module Bandwidth {

  /** One gibibyte, 1024 * 1024 * 1024 bytes. */
  const GiBytes: nat := 1024 * 1024 * 1024

  /** The FileFilterEnhancement limit, 240 GiB. */
  const AnyFileLimit: nat := 240 * GiBytes

  /** The UserFileEnhancement limit, 24 GiB. */
  const UserFileLimit: nat := 24 * GiBytes

  /** `int(size) * int(numHits)`: nothing is used exactly when the file is empty or unread. */
  function Used(size: nat, hits: nat): (r: nat)
    ensures r == 0 <==> size == 0 || hits == 0
    ensures hits >= 1 ==> r >= size
  {
    size * hits
  }

  /** The match survives the gate: the drop test is `bandwidth < limit`. */
  predicate Exceeds(size: nat, hits: nat, limit: nat)
  {
    !(Used(size, hits) < limit)
  }

  /** Both limits written out in bytes. */
  lemma LimitsInBytes()
    ensures AnyFileLimit == 257698037760
    ensures UserFileLimit == 25769803776
    ensures UserFileLimit * 10 == AnyFileLimit
  {
  }

  /** More reads of the same file never turn a kept match into a dropped one. */
  lemma ExceedsMonotone(size: nat, hits: nat, hits': nat, limit: nat)
    requires hits <= hits'
    requires Exceeds(size, hits, limit)
    ensures Exceeds(size, hits', limit)
  {
  }

  /** A larger file read as often also never turns a kept match into a dropped one. */
  lemma ExceedsMonotoneInSize(size: nat, size': nat, hits: nat, limit: nat)
    requires size <= size'
    requires Exceeds(size, hits, limit)
    ensures Exceeds(size', hits, limit)
  {
  }

  /** Whatever passes the 240 GiB gate passes the 24 GiB gate. */
  lemma AnyFileGateImpliesUserGate(size: nat, hits: nat)
    requires Exceeds(size, hits, AnyFileLimit)
    ensures Exceeds(size, hits, UserFileLimit)
  {
  }

  /** A file that is empty or was never read is always below either limit. */
  lemma NothingReadIsDropped(size: nat, hits: nat)
    requires size == 0 || hits == 0
    ensures !Exceeds(size, hits, UserFileLimit)
    ensures !Exceeds(size, hits, AnyFileLimit)
  {
  }

  /** A 1 000 000 000-byte file read 300 times uses about 279.4 GiB and passes the 240 GiB gate. */
  lemma GigabyteFileReadThreeHundredTimes()
    ensures Used(1000000000, 300) == 300000000000
    ensures Exceeds(1000000000, 300, AnyFileLimit)
  {
  }
}
