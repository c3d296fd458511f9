// The record generator shared by both controllers: an infinite, lazily
// evaluated sequence of index-tagged random numbers, and `take(n)`, which
// bounds it to its first n records.
//
// The entropy source and the clock are not modelled: a run of the generator
// is given the numbers it draws (`numbers(i)` is the i-th draw) and the
// timestamps it reads (`clock(i)` is the time read when record i is built).

module Records {

  /** The exclusive upper bound given to `SecureRandom.random_number`. */
  const TWO_POW_128: int := 0x1_0000_0000_0000_0000_0000_0000_0000_0000

  /** What a draw `SecureRandom.random_number(2**128)` can return. */
  type Word128 = x: int | 0 <= x < TWO_POW_128

  /**
   * One generated object. The constructor's parameters are the hash keys
   * in the order the source writes them: index, time, number.
   */
  datatype Record = Record(index: nat, time: string, number: Word128)

  /**
   * The infinite record sequence: element i is the object built from draw
   * i, with index i and the timestamp read when it is built.
   */
  function RandomNumberObjects(numbers: nat -> Word128, clock: nat -> string): (r: nat -> Record)
    ensures forall i: nat :: r(i).index == i && r(i).time == clock(i) && r(i).number == numbers(i)
  {
    (i: nat) => Record(i, clock(i), numbers(i))
  }

  /** The first n elements of an infinite sequence, in order. */
  function Take<T>(s: nat -> T, n: nat): (r: seq<T>)
    ensures |r| == n
    ensures forall k :: 0 <= k < n ==> r[k] == s(k)
  {
    if n == 0 then [] else Take(s, n - 1) + [s(n - 1)]
  }

  /**
   * `take(n)` never looks at element n or beyond: two infinite sequences
   * that agree on their first n elements give the same prefix.
   */
  lemma TakeReadsOnlyPrefix<T>(s: nat -> T, t: nat -> T, n: nat)
    requires forall k :: 0 <= k < n ==> s(k) == t(k)
    ensures Take(s, n) == Take(t, n)
  {
  }

  /**
   * `random_number_objects_lazy.take(n)` yields exactly n records; the k-th
   * carries index k, the k-th draw and the k-th timestamp. The last clause,
   * the number being below 2^128, is carried by the draws' type Word128,
   * the range `SecureRandom.random_number(2**128)` promises, and is restated
   * here for the records.
   */
  lemma TakeObjects(numbers: nat -> Word128, clock: nat -> string, n: nat)
    ensures |Take(RandomNumberObjects(numbers, clock), n)| == n
    ensures forall k :: 0 <= k < n ==>
      Take(RandomNumberObjects(numbers, clock), n)[k] == Record(k, clock(k), numbers(k))
    ensures forall k :: 0 <= k < n ==>
      0 <= Take(RandomNumberObjects(numbers, clock), n)[k].number < TWO_POW_128
  {
  }
}
