/** Values shared by the synthesiser and the audio output: 16-bit PCM samples,
    the error type both wrappers report, and small sequence helpers. */
module Pcm {

  /** A signed 16-bit PCM sample (Rust `i16`). */
  type Sample = x: int | -0x8000 <= x < 0x8000

  /** A byte of input text (Rust `u8`). */
  type Byte = b: int | 0 <= b < 0x100

  /** Both wrappers carry an error as a bare description string. */
  datatype Error = Error(description: string)

  datatype Result<T> = Ok(value: T) | Err(error: Error)

  datatype Option<T> = None | Some(value: T)

  function Min(a: int, b: int): (m: int)
    ensures m <= a && m <= b && (m == a || m == b)
  {
    if a <= b then a else b
  }

  /** Everything after the first element; the empty sequence stays empty. */
  function Tail<T>(s: seq<T>): (t: seq<T>)
    ensures s == [] ==> t == []
    ensures s != [] ==> [s[0]] + t == s
  {
    if s == [] then [] else s[1..]
  }

  /** The first `n` elements of `s`, or all of `s` when it is shorter. */
  function Take<T>(s: seq<T>, n: nat): (t: seq<T>)
    ensures |t| == Min(|s|, n)
    ensures t == s[..|t|]
  {
    if |s| <= n then s else s[..n]
  }

  function Sum(xs: seq<nat>): nat
  {
    if xs == [] then 0 else xs[0] + Sum(xs[1..])
  }

  /** Adding one more element at the end adds it to the sum. */
  lemma {:induction false} SumSnoc(xs: seq<nat>, x: nat)
    ensures Sum(xs + [x]) == Sum(xs) + x
  {
    if xs != [] {
      assert (xs + [x])[1..] == xs[1..] + [x];
      SumSnoc(xs[1..], x);
    }
  }

  /** `n` samples of silence. */
  function Zeros(n: nat): (z: seq<Sample>)
    ensures |z| == n
    ensures forall i :: 0 <= i < n ==> z[i] == 0
  {
    if n == 0 then [] else Zeros(n - 1) + [0]
  }
}
