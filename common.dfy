/**
 * Shared vocabulary of the camera HAL model: the status codes returned by
 * almost every operation, an optional value, and the power-of-two alignment
 * macros (ALIGN, ALIGN_8, ALIGN_32, ALIGN_64, PAGE_ALIGN) used for strides,
 * buffer sizes and metadata layout.
 */
module Common {

  /** Android-style status codes (iutils/Errors.h); only their identity matters here. */
  datatype Status =
    | OK
    | UNKNOWN_ERROR
    | NO_MEMORY
    | INVALID_OPERATION
    | BAD_VALUE
    | BAD_TYPE
    | NAME_NOT_FOUND
    | PERMISSION_DENIED
    | NO_INIT
    | ALREADY_EXISTS
    | DEAD_OBJECT
    | BAD_INDEX
    | NOT_ENOUGH_DATA
    | WOULD_BLOCK
    | TIMED_OUT

  datatype Option<T> = None | Some(value: T)

  /** ALIGN(x, a): the least multiple of a that is not below x. */
  function Align(x: nat, a: nat): (r: nat)
    requires a > 0
    ensures r % a == 0 && x <= r < x + a
  {
    var q := (x + a - 1) / a;
    assert x + a - 1 == q * a + (x + a - 1) % a;
    MulMod(q, a);
    q * a
  }

  lemma AlignMonotone(x: nat, y: nat, a: nat)
    requires a > 0 && x <= y
    ensures Align(x, a) <= Align(y, a)
  {
    var q1, q2 := (x + a - 1) / a, (y + a - 1) / a;
    DivMonotone(x + a - 1, y + a - 1, a);
    MulMonotone(q1, q2, a);
  }

  /** Multiplying by the same natural keeps the order. */
  lemma {:induction false} MulMonotone(p: nat, q: nat, a: nat)
    requires p <= q
    ensures p * a <= q * a
    decreases a
  {
    if a > 0 {
      MulMonotone(p, q, a - 1);
      assert p * a == p * (a - 1) + p;
      assert q * a == q * (a - 1) + q;
    }
  }

  lemma DivMonotone(u: nat, v: nat, a: nat)
    requires a > 0 && u <= v
    ensures u / a <= v / a
  {
    var q, p := u / a, v / a;
    assert q * a <= u;
    assert v < (p + 1) * a;
    MulCancel(q, p + 1, a);
  }

  lemma MulCancel(x: nat, y: nat, a: nat)
    requires a > 0 && x * a < y * a
    ensures x < y
  {
  }

  /** A multiple of a positive number leaves no Euclidean remainder. */
  lemma MulMod(q: int, a: int)
    requires a > 0
    ensures (q * a) % a == 0
  {
    var m := (q * a) % a;
    var d := (q * a) / a;
    assert q * a == d * a + m;
    var k := q - d;
    assert k * a == m;
    if k >= 1 {
      assert k * a == (k - 1) * a + a;
      NonNegProduct(k - 1, a);
      assert false;
    } else if k <= -1 {
      assert k * a == -((-k - 1) * a) - a;
      NonNegProduct(-k - 1, a);
      assert false;
    }
  }

  lemma NonNegProduct(x: int, y: int)
    requires x >= 0 && y >= 0
    ensures x * y >= 0
  {
  }

  function Align8(x: nat): (r: nat)
    ensures r % 8 == 0 && x <= r < x + 8
  {
    Align(x, 8)
  }

  function Align32(x: nat): (r: nat)
    ensures r % 32 == 0 && x <= r < x + 32
  {
    Align(x, 32)
  }

  function Align64(x: nat): (r: nat)
    ensures r % 64 == 0 && x <= r < x + 64
  {
    Align(x, 64)
  }

  const PAGE_SIZE: nat := 4096

  function PageAlign(x: nat): (r: nat)
    ensures r % PAGE_SIZE == 0 && x <= r < x + PAGE_SIZE
  {
    Align(x, PAGE_SIZE)
  }

  function Min(a: int, b: int): int { if a <= b then a else b }
  function Max(a: int, b: int): int { if a >= b then a else b }

  /** CLIP(x, hi, lo) = MIN(MAX(x, lo), hi): when lo > hi the upper bound wins. */
  function Clip(x: int, hi: int, lo: int): (r: int)
    ensures lo <= hi ==> lo <= r <= hi
    ensures lo <= x <= hi ==> r == x
    ensures r <= hi
  {
    Min(Max(x, lo), hi)
  }

  /** Concatenation regroups freely. */
  lemma SeqAssoc<T>(a: seq<T>, b: seq<T>, c: seq<T>)
    ensures (a + b) + c == a + (b + c)
  {
  }

  /** One element moves from the part still to come to the part already produced. */
  lemma ShiftOne<T>(done: seq<T>, x: T, rest: seq<T>, todo: seq<T>, total: seq<T>)
    requires done + todo == total && todo == [x] + rest
    ensures (done + [x]) + rest == total
  {
    SeqAssoc(done, [x], rest);
  }

  /** The least index from k on whose element satisfies p, if any: the linear searches of the HAL. */
  function FirstFrom<T>(xs: seq<T>, p: T -> bool, k: nat): (r: Option<nat>)
    requires k <= |xs|
    ensures r.Some? ==> k <= r.value < |xs| && p(xs[r.value])
    ensures r.Some? ==> forall j :: k <= j < r.value ==> !p(xs[j])
    ensures r.None? ==> forall j :: k <= j < |xs| ==> !p(xs[j])
    decreases |xs| - k
  {
    if k == |xs| then None
    else if p(xs[k]) then Some(k)
    else FirstFrom(xs, p, k + 1)
  }

  // ---------------------------------------------------------------------
  // A std::map as the sequence of its entries, keys unique.
  // ---------------------------------------------------------------------

  datatype Binding<K, V> = Binding(key: K, value: V)

  function KeyIs<K(==), V>(k: K): Binding<K, V> -> bool
  {
    (e: Binding<K, V>) => e.key == k
  }

  predicate HasKey<K(==), V>(m: seq<Binding<K, V>>, k: K)
  {
    exists i :: 0 <= i < |m| && m[i].key == k
  }

  predicate UniqueKeys<K(==), V>(m: seq<Binding<K, V>>)
  {
    forall i, j :: 0 <= i < j < |m| ==> m[i].key != m[j].key
  }

  /** m[k] = v: the entry of k takes the value v, or a new entry is added after the others. */
  function Put<K(==), V>(m: seq<Binding<K, V>>, k: K, v: V): (r: seq<Binding<K, V>>)
    ensures |r| == if HasKey(m, k) then |m| else |m| + 1
    ensures UniqueKeys(m) ==> UniqueKeys(r)
    ensures HasKey(r, k)
    ensures forall i :: 0 <= i < |r| ==> r[i] == Binding(k, v) || (i < |m| && r[i] == m[i])
    ensures forall i :: 0 <= i < |m| && m[i].key != k ==> r[i] == m[i]
  {
    match FirstFrom(m, KeyIs(k), 0)
    case Some(i) =>
      var r := m[i := Binding(k, v)];
      assert r[i].key == k;
      r
    case None =>
      var r := m + [Binding(k, v)];
      assert r[|m|].key == k;
      r
  }

  /** Keys already present stay present. */
  lemma PutKeepsKey<K, V>(m: seq<Binding<K, V>>, k: K, v: V, t: K)
    requires HasKey(m, t)
    ensures HasKey(Put(m, k, v), t)
  {
    if t != k {
      var i :| 0 <= i < |m| && m[i].key == t;
      assert Put(m, k, v)[i] == m[i];
    }
  }

  /** m.find(k): the value of the first entry with key k. */
  function Get<K(==), V>(m: seq<Binding<K, V>>, k: K): (r: Option<V>)
    ensures r.Some? <==> HasKey(m, k)
  {
    match FirstFrom(m, KeyIs(k), 0)
    case None => None
    case Some(i) => assert m[i].key == k; Some(m[i].value)
  }

  /** Reading back a key just put gives its new value. */
  lemma GetPutSame<K, V>(m: seq<Binding<K, V>>, k: K, v: V)
    ensures Get(Put(m, k, v), k) == Some(v)
  {
    var r := Put(m, k, v);
    match FirstFrom(m, KeyIs(k), 0)
    case Some(i) =>
      assert r == m[i := Binding(k, v)];
      FirstFromIs(r, KeyIs(k), 0, i);
    case None =>
      assert r == m + [Binding(k, v)];
      FirstFromIs(r, KeyIs(k), 0, |m|);
  }

  /** The first match from k is the i that matches with no match between k and i. */
  lemma {:induction false} FirstFromIs<T>(r: seq<T>, p: T -> bool, k: nat, i: nat)
    requires k <= i < |r| && p(r[i])
    requires forall j :: k <= j < i ==> !p(r[j])
    ensures FirstFrom(r, p, k) == Some(i)
    decreases i - k
  {
    if k < i {
      FirstFromIs(r, p, k + 1, i);
    }
  }

  /** Putting one key leaves the others' values alone. */
  lemma GetPutOther<K, V>(m: seq<Binding<K, V>>, k: K, v: V, t: K)
    requires t != k
    ensures Get(Put(m, k, v), t) == Get(m, t)
  {
    var r := Put(m, k, v);
    match FirstFrom(m, KeyIs(t), 0)
    case Some(i) =>
      assert r[i] == m[i];
      forall j | 0 <= j < i ensures !KeyIs(t)(r[j]) {
        if r[j] != Binding(k, v) {
          assert r[j] == m[j];
        }
      }
      FirstFromIs(r, KeyIs(t), 0, i);
    case None =>
      forall j | 0 <= j < |r| ensures r[j].key != t {
        if r[j] != Binding(k, v) {
          assert r[j] == m[j];
        }
      }
  }

  /** The set of the elements of a sequence. */
  function Elements<T>(s: seq<T>): set<T>
  {
    set i | 0 <= i < |s| :: s[i]
  }

  /** A sequence has at most as many distinct elements as entries, exactly as many when it repeats none. */
  lemma {:induction false} ElementsCard<T>(s: seq<T>)
    ensures |Elements(s)| <= |s|
    ensures (forall i, j :: 0 <= i < j < |s| ==> s[i] != s[j]) ==> |Elements(s)| == |s|
    decreases |s|
  {
    if s != [] {
      var init := s[..|s| - 1];
      ElementsCard(init);
      assert Elements(s) == Elements(init) + {s[|s| - 1]};
    }
  }

  /** A sequence that repeats an element has fewer distinct elements than entries. */
  lemma ElementsRepeated<T>(s: seq<T>, i: nat, j: nat)
    requires i < j < |s| && s[i] == s[j]
    ensures |Elements(s)| < |s|
  {
    var t := s[..j] + s[j + 1..];
    assert Elements(s) == Elements(t) by {
      forall x | x in Elements(s) ensures x in Elements(t) {
        var k :| 0 <= k < |s| && s[k] == x;
        if k < j { assert t[k] == x; } else if k > j { assert t[k - 1] == x; } else { assert t[i] == x; }
      }
      forall x | x in Elements(t) ensures x in Elements(s) {
        var k :| 0 <= k < |t| && t[k] == x;
        if k < j { assert s[k] == x; } else { assert s[k + 1] == x; }
      }
    }
    ElementsCard(t);
  }

  /** A subset has no more elements than its superset. */
  lemma {:induction false} SubsetCard<T>(a: set<T>, b: set<T>)
    requires a <= b
    ensures |a| <= |b|
    decreases |a|
  {
    if a != {} {
      var x :| x in a;
      SubsetCard(a - {x}, b - {x});
    }
  }
}
