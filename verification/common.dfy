/** Shared vocabulary: optional values, results with typed errors, bytes,
    big-endian 32-bit fields and first-occurrence search (Go's bytes.Index
    and strings.Index), and suffix tests (strings.HasSuffix). */
module Common {

  datatype Option<T> = None | Some(value: T)

  /** The (value, err) pair of a Go function: err == nil becomes Ok. */
  datatype Result<T, E> = Ok(value: T) | Err(error: E)

  type Byte = b: int | 0 <= b < 0x100

  type Bytes = seq<Byte>

  const Two32: int := 0x1_0000_0000

  /** binary.BigEndian.PutUint32 applied to uint32(n): Go's conversion keeps
      the value modulo 2^32, which is what Dafny's Euclidean % computes. */
  function BE32(n: int): (r: Bytes)
    ensures |r| == 4
    ensures ReadBE32(r) == n % Two32
  {
    var u := n % Two32;
    var d0, a := u % 0x100, u / 0x100;
    var d1, c := a % 0x100, a / 0x100;
    var d2, d3 := c % 0x100, c / 0x100;
    assert u == ((d3 * 0x100 + d2) * 0x100 + d1) * 0x100 + d0;
    [d3, d2, d1, d0]
  }

  /** binary.BigEndian.Uint32. */
  function ReadBE32(b: Bytes): (n: nat)
    requires |b| == 4
    ensures n < Two32
  {
    (b[0] as int) * 0x100_0000 + (b[1] as int) * 0x1_0000 + (b[2] as int) * 0x100 + b[3] as int
  }

  /** The four bytes of a field determine its value and back. */
  lemma BE32OfRead(b: Bytes)
    requires |b| == 4
    ensures BE32(ReadBE32(b)) == b
  {
    var n := ReadBE32(b);
    ModOfDivision(n, Two32, 0, n);
    var b0: int, b1: int, b2: int, b3: int := b[0], b[1], b[2], b[3];
    var a := (b0 * 0x100 + b1) * 0x100 + b2;
    ModOfDivision(n, 0x100, a, b3);
    ModOfDivision(a, 0x100, b0 * 0x100 + b1, b2);
    ModOfDivision(b0 * 0x100 + b1, 0x100, b0, b1);
  }

  /** A value that fits in 32 bits reads back unchanged. */
  lemma ReadBE32Small(v: int)
    requires 0 <= v < Two32
    ensures ReadBE32(BE32(v)) == v
  {
  }

  lemma {:induction false} MulAtLeast(d: int, m: int)
    requires d >= 1 && m > 0
    ensures d * m >= m
  {
    if d > 1 {
      MulAtLeast(d - 1, m);
      assert d * m == (d - 1) * m + m;
    }
  }

  /** Any division a == q * m + s with 0 <= s < m is the Euclidean one. */
  lemma ModOfDivision(a: int, m: int, q: int, s: int)
    requires m > 0 && a == q * m + s && 0 <= s < m
    ensures a % m == s && a / m == q
  {
    var q', s' := a / m, a % m;
    assert a == q' * m + s';
    var d := q - q';
    assert d * m == q * m - q' * m;
    assert (-d) * m == q' * m - q * m;
    if d >= 1 {
      MulAtLeast(d, m);
      assert false;
    } else if d <= -1 {
      MulAtLeast(-d, m);
      assert false;
    }
  }

  /** pat occurs in s starting at index i. */
  predicate OccursAt<T(==)>(s: seq<T>, pat: seq<T>, i: int)
  {
    0 <= i && i + |pat| <= |s| && s[i..i + |pat|] == pat
  }

  /** Leftmost occurrence of pat in s at or after index i. */
  function IndexFrom<T(==)>(s: seq<T>, pat: seq<T>, i: nat): (r: Option<nat>)
    decreases |s| + 1 - i
    ensures r.Some? ==> i <= r.value && OccursAt(s, pat, r.value)
    ensures r.Some? ==> forall j :: i <= j < r.value ==> !OccursAt(s, pat, j)
    ensures r.None? ==> forall j :: i <= j ==> !OccursAt(s, pat, j)
  {
    if i + |pat| > |s| then None
    else if s[i..i + |pat|] == pat then Some(i)
    else IndexFrom(s, pat, i + 1)
  }

  /** bytes.Index / strings.Index: the first occurrence, None standing for -1. */
  function IndexOf<T(==)>(s: seq<T>, pat: seq<T>): (r: Option<nat>)
    ensures r.Some? ==> OccursAt(s, pat, r.value)
    ensures r.Some? ==> forall j :: 0 <= j < r.value ==> !OccursAt(s, pat, j)
    ensures r.None? <==> forall j :: 0 <= j ==> !OccursAt(s, pat, j)
  {
    IndexFrom(s, pat, 0)
  }

  /** Any index that holds an occurrence and has none before it is the one found. */
  lemma IndexOfFirst<T>(s: seq<T>, pat: seq<T>, i: nat)
    requires OccursAt(s, pat, i)
    requires forall j :: 0 <= j < i ==> !OccursAt(s, pat, j)
    ensures IndexOf(s, pat) == Some(i)
  {
  }

  /** strings.HasSuffix. */
  predicate HasSuffix<T(==)>(s: seq<T>, suffix: seq<T>)
  {
    |suffix| <= |s| && s[|s| - |suffix|..] == suffix
  }

  /** Sum of a sequence of reals, left to right. */
  function SumReals(s: seq<real>): real
  {
    if s == [] then 0.0 else SumReals(s[..|s| - 1]) + s[|s| - 1]
  }
}
