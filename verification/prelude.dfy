/** Rust's Option and Result, the fixed-width integers the crank uses, and
    Solana public keys as 32 bytes. */
module Prelude {

  /** `Option<T>`. */
  datatype Option<+T> = None | Some(value: T)

  /** `Result<T, E>`. */
  datatype Result<+T, +E> = Ok(value: T) | Err(error: E) {

    /** `Result::ok`: the success value, dropping any error. */
    function ToOption(): (o: Option<T>)
      ensures o.Some? <==> Ok?
      ensures o.Some? ==> o.value == value
    {
      match this
      case Ok(v) => Some(v)
      case Err(_) => None
    }
  }

  newtype byte = b: int | 0 <= b < 0x100

  newtype u32 = n: int | 0 <= n < 0x1_0000_0000

  /** A 32-byte ed25519 public key or program-derived address. */
  type Pubkey = k: seq<byte> | |k| == 32 witness seq(32, _ => 0 as byte)

  /** The bytes of a byte-string literal `b"..."`: each character's code,
      which for the ASCII literals the crank uses is a single byte. */
  function Ascii(s: string): (b: seq<byte>)
    ensures |b| == |s|
  {
    seq(|s|, i requires 0 <= i < |s| => (s[i] as int % 0x100) as byte)
  }

  /** `iter().flatten()` over a sequence of options: the `Some` payloads, in order. */
  function Flatten<T>(s: seq<Option<T>>): (r: seq<T>)
    ensures |r| <= |s|
  {
    if |s| == 0 then []
    else (match s[0] case Some(v) => [v] case None => []) + Flatten(s[1..])
  }

  /** Number of populated slots. */
  function CountSome<T>(s: seq<Option<T>>): nat
  {
    if |s| == 0 then 0 else (if s[0].Some? then 1 else 0) + CountSome(s[1..])
  }

  /** Flattening distributes over concatenation, so each slot contributes
      its payload (or nothing) at its own position. */
  lemma {:induction false} FlattenAppend<T>(a: seq<Option<T>>, b: seq<Option<T>>)
    ensures Flatten(a + b) == Flatten(a) + Flatten(b)
    decreases |a|
  {
    if |a| == 0 {
      assert a + b == b;
    } else {
      assert (a + b)[1..] == a[1..] + b;
      FlattenAppend(a[1..], b);
    }
  }

  /** Flattening keeps exactly the populated slots: one element per `Some`,
      and a value occurs in the result iff some slot holds it. */
  lemma {:induction false} FlattenKeepsPopulated<T>(s: seq<Option<T>>)
    ensures |Flatten(s)| == CountSome(s)
    ensures forall x :: x in Flatten(s) <==> Some(x) in s
  {
    if |s| == 0 {
    } else {
      FlattenKeepsPopulated(s[1..]);
      assert s == [s[0]] + s[1..];
      forall x
        ensures x in Flatten(s) <==> Some(x) in s
      {
        assert Some(x) in s <==> s[0] == Some(x) || Some(x) in s[1..];
      }
    }
  }
}
