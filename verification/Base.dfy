/** Shared vocabulary: optional values, event time, Go string order, sorting and content-derived ids. */
module Base {

  datatype Option<+T> = None | Some(value: T)

  // Nanoseconds since year 1; the zero value is what Go's time.Time.IsZero reports.
  type Time = int
  const ZERO_TIME: Time := 0
  const UNIX_EPOCH: Time := 62135596800_000_000_000

  // A protobuf timestamp read with AsTime: an absent one reads as the Unix epoch.
  function AsTime(stamp: Option<Time>): Time {
    if stamp.Some? then stamp.value else UNIX_EPOCH
  }

  function Max(a: int, b: int): int {
    if a < b then b else a
  }

  lemma MapOverwrites<K, V>(m: map<K, V>, k: K, a: V, b: V)
    ensures m[k := a][k := b] == m[k := b]
  {
  }

  const SEPARATOR: char := '\U{1F}'

  // ---------------------------------------------------------------------------
  // Go's string order
  // ---------------------------------------------------------------------------

  predicate StrLe(a: string, b: string) {
    a == [] || (b != [] && (a[0] < b[0] || (a[0] == b[0] && StrLe(a[1..], b[1..]))))
  }

  // The place where a text first differs from a greater one.
  ghost predicate DiffersAt(a: string, b: string, k: nat) {
    k < |a| && k < |b| && a[..k] == b[..k] && a[k] < b[k]
  }

  /** One text is at most another exactly when it begins it or has the smaller character where they first differ. */
  lemma {:induction false} StrLeMeans(a: string, b: string)
    ensures StrLe(a, b) <==> a <= b || exists k: nat :: DiffersAt(a, b, k)
  {
    if a != [] && b != [] {
      if a[0] < b[0] {
        assert DiffersAt(a, b, 0);
      } else if a[0] == b[0] {
        StrLeMeans(a[1..], b[1..]);
        assert a <= b <==> a[1..] <= b[1..];
        forall k: nat | DiffersAt(a[1..], b[1..], k) ensures DiffersAt(a, b, k + 1) {
          assert a[..k + 1] == [a[0]] + a[1..][..k] && b[..k + 1] == [b[0]] + b[1..][..k];
        }
        forall k: nat | DiffersAt(a, b, k) ensures k > 0 && DiffersAt(a[1..], b[1..], k - 1) {
          assert a[1..][..k - 1] == a[..k][1..] && b[1..][..k - 1] == b[..k][1..];
        }
      } else {
        forall k: nat ensures !DiffersAt(a, b, k) {
          assert k > 0 && k < |a| && k < |b| ==> a[..k][0] == a[0] && b[..k][0] == b[0];
        }
      }
    }
  }

  lemma {:induction false} StrLeTotal(a: string, b: string)
    ensures StrLe(a, b) || StrLe(b, a)
  {
    if a != [] && b != [] && a[0] == b[0] {
      StrLeTotal(a[1..], b[1..]);
    }
  }

  lemma {:induction false} StrLeAntisymmetric(a: string, b: string)
    requires StrLe(a, b) && StrLe(b, a)
    ensures a == b
  {
    if a != [] && b != [] {
      StrLeAntisymmetric(a[1..], b[1..]);
      assert a == [a[0]] + a[1..] && b == [b[0]] + b[1..];
    }
  }

  lemma {:induction false} StrLeTransitive(a: string, b: string, c: string)
    requires StrLe(a, b) && StrLe(b, c)
    ensures StrLe(a, c)
  {
    if a != [] && b != [] && c != [] && a[0] == b[0] && b[0] == c[0] {
      StrLeTransitive(a[1..], b[1..], c[1..]);
    }
  }

  lemma StrLeIsOrder()
    ensures TotalPreorder(StrLe)
    ensures forall a, b :: StrLe(a, b) && StrLe(b, a) ==> a == b
  {
    forall a, b ensures StrLe(a, b) || StrLe(b, a) { StrLeTotal(a, b); }
    forall a, b, c | StrLe(a, b) && StrLe(b, c) ensures StrLe(a, c) { StrLeTransitive(a, b, c); }
    forall a, b | StrLe(a, b) && StrLe(b, a) ensures a == b { StrLeAntisymmetric(a, b); }
  }

  // ---------------------------------------------------------------------------
  // Sorting, the model of Go's sort package
  // ---------------------------------------------------------------------------

  ghost predicate TotalPreorder<T(!new)>(le: (T, T) -> bool) {
    && (forall x, y :: le(x, y) || le(y, x))
    && (forall x, y, z :: le(x, y) && le(y, z) ==> le(x, z))
  }

  ghost predicate Sorted<T>(xs: seq<T>, le: (T, T) -> bool) {
    forall i, j :: 0 <= i < j < |xs| ==> le(xs[i], xs[j])
  }

  function Insert<T>(x: T, xs: seq<T>, le: (T, T) -> bool): seq<T> {
    if xs == [] then [x]
    else if le(x, xs[0]) then [x] + xs
    else [xs[0]] + Insert(x, xs[1..], le)
  }

  function SortBy<T>(xs: seq<T>, le: (T, T) -> bool): seq<T> {
    if xs == [] then [] else Insert(xs[0], SortBy(xs[1..], le), le)
  }

  lemma {:induction false} InsertKeeps<T>(x: T, xs: seq<T>, le: (T, T) -> bool)
    ensures multiset(Insert(x, xs, le)) == multiset{x} + multiset(xs)
  {
    if xs != [] {
      InsertKeeps(x, xs[1..], le);
      assert xs == [xs[0]] + xs[1..];
    }
  }

  // Sorting keeps the elements, whatever the comparison.
  lemma {:induction false} SortByKeeps<T>(xs: seq<T>, le: (T, T) -> bool)
    ensures multiset(SortBy(xs, le)) == multiset(xs)
  {
    if xs != [] {
      SortByKeeps(xs[1..], le);
      InsertKeeps(xs[0], SortBy(xs[1..], le), le);
      assert xs == [xs[0]] + xs[1..];
    }
  }

  lemma {:induction false} InsertSorts<T(!new)>(x: T, xs: seq<T>, le: (T, T) -> bool)
    requires TotalPreorder(le) && Sorted(xs, le)
    ensures Sorted(Insert(x, xs, le), le)
  {
    if xs != [] && !le(x, xs[0]) {
      var rest := Insert(x, xs[1..], le);
      InsertSorts(x, xs[1..], le);
      InsertKeeps(x, xs[1..], le);
      forall j | 0 <= j < |rest| ensures le(xs[0], rest[j]) {
        assert rest[j] in multiset(rest);
        assert rest[j] == x || rest[j] in xs[1..];
      }
    }
  }

  lemma {:induction false} SortBySorts<T(!new)>(xs: seq<T>, le: (T, T) -> bool)
    requires TotalPreorder(le)
    ensures Sorted(SortBy(xs, le), le)
    ensures multiset(SortBy(xs, le)) == multiset(xs)
    ensures |SortBy(xs, le)| == |xs|
  {
    if xs != [] {
      SortBySorts(xs[1..], le);
      InsertSorts(xs[0], SortBy(xs[1..], le), le);
    }
    SortByKeeps(xs, le);
    assert |multiset(SortBy(xs, le))| == |multiset(xs)|;
  }

  // Elements that compare equal both ways are the same element.
  ghost predicate Separates<T>(xs: seq<T>, le: (T, T) -> bool) {
    forall x, y :: x in xs && y in xs && le(x, y) && le(y, x) ==> x == y
  }

  lemma FirstIsLeast<T(!new)>(xs: seq<T>, x: T, le: (T, T) -> bool)
    requires TotalPreorder(le) && Sorted(xs, le) && x in xs
    ensures le(xs[0], x)
  {
    var i :| 0 <= i < |xs| && xs[i] == x;
    assert le(x, x);
  }

  lemma TailOf<T>(xs: seq<T>)
    requires xs != []
    ensures xs == [xs[0]] + xs[1..] && multiset(xs[1..]) == multiset(xs) - multiset{xs[0]}
    ensures forall x :: x in xs[1..] ==> x in xs
  {
    assert xs == [xs[0]] + xs[1..];
  }

  // A sorted arrangement without ties is unique: the answer of Go's unstable sort is determined.
  lemma {:induction false} SortedUnique<T(!new)>(a: seq<T>, b: seq<T>, le: (T, T) -> bool)
    requires TotalPreorder(le) && Sorted(a, le) && Sorted(b, le)
    requires multiset(a) == multiset(b)
    requires Separates(a, le)
    ensures a == b
  {
    assert |multiset(a)| == |a| && |multiset(b)| == |b|;
    if a != [] {
      MembersOfPermutation(a, b);
      FirstIsLeast(a, b[0], le);
      FirstIsLeast(b, a[0], le);
      TailOf(a);
      TailOf(b);
      SortedUnique(a[1..], b[1..], le);
    }
  }

  // Sorting forgets the order of its input when there are no ties.
  lemma SortByPermuted<T(!new)>(a: seq<T>, b: seq<T>, le: (T, T) -> bool)
    requires TotalPreorder(le) && multiset(a) == multiset(b) && Separates(a, le)
    ensures SortBy(a, le) == SortBy(b, le)
  {
    SortBySorts(a, le);
    SortBySorts(b, le);
    MembersOfPermutation(SortBy(a, le), a);
    SortedUnique(SortBy(a, le), SortBy(b, le), le);
  }

  lemma MembersOfPermutation<T>(a: seq<T>, b: seq<T>)
    requires multiset(a) == multiset(b)
    ensures forall x :: x in a <==> x in b
  {
    forall x ensures x in a <==> x in b {
      assert x in a <==> x in multiset(a);
      assert x in b <==> x in multiset(b);
    }
  }

  function MapSeq<T, U>(xs: seq<T>, f: T -> U): seq<U> {
    seq(|xs|, i requires 0 <= i < |xs| => f(xs[i]))
  }

  // Takes one occurrence of an element out of a sequence.
  lemma PickOut<T>(b: seq<T>, x: T) returns (front: seq<T>, back: seq<T>)
    requires x in multiset(b)
    ensures b == front + [x] + back
    ensures multiset(front + back) == multiset(b) - multiset{x}
  {
    var k :| 0 <= k < |b| && b[k] == x;
    front, back := b[..k], b[k + 1..];
    assert b == front + [x] + back;
    assert multiset(b) == multiset(front + [x]) + multiset(back);
  }

  // Mapping permuted sequences gives permuted results.
  lemma {:induction false} MapPermuted<T, U>(a: seq<T>, b: seq<T>, f: T -> U)
    requires multiset(a) == multiset(b)
    ensures multiset(MapSeq(a, f)) == multiset(MapSeq(b, f))
  {
    if a == [] {
      assert |multiset(a)| == |multiset(b)|;
    } else {
      assert a == [a[0]] + a[1..];
      var front, back := PickOut(b, a[0]);
      assert multiset(a[1..]) == multiset(a) - multiset{a[0]};
      MapPermuted(a[1..], front + back, f);
      MapSplit([a[0]], a[1..], f);
      MapSplit(front + [a[0]], back, f);
      MapSplit(front, [a[0]], f);
      MapSplit(front, back, f);
      assert MapSeq([a[0]], f) == [f(a[0])];
    }
  }

  lemma MapSplit<T, U>(a: seq<T>, b: seq<T>, f: T -> U)
    ensures MapSeq(a + b, f) == MapSeq(a, f) + MapSeq(b, f)
  {
  }

  function SortStrings(xs: seq<string>): seq<string> {
    SortBy(xs, StrLe)
  }

  lemma SortStringsPermuted(a: seq<string>, b: seq<string>)
    requires multiset(a) == multiset(b)
    ensures SortStrings(a) == SortStrings(b)
  {
    StrLeIsOrder();
    SortByPermuted(a, b, StrLe);
  }

  // ---------------------------------------------------------------------------
  // Key sets: Go ranges over a map in any order and then sorts
  // ---------------------------------------------------------------------------

  ghost function Elements<T(!new)>(s: set<T>): seq<T> {
    if s == {} then [] else var x :| x in s; [x] + Elements(s - {x})
  }

  lemma {:induction false} ElementsMultiset<T(!new)>(s: set<T>)
    ensures multiset(Elements(s)) == multiset(s)
  {
    if s != {} {
      var x :| x in s && Elements(s) == [x] + Elements(s - {x});
      ElementsMultiset(s - {x});
      assert multiset(s) == multiset{x} + multiset(s - {x});
    }
  }

  ghost function SortedKeys(s: set<string>): seq<string> {
    SortStrings(Elements(s))
  }

  lemma SortedKeysOf(s: set<string>)
    ensures Sorted(SortedKeys(s), StrLe)
    ensures multiset(SortedKeys(s)) == multiset(s)
    ensures |SortedKeys(s)| == |s|
    ensures forall k :: k in SortedKeys(s) <==> k in s
  {
    StrLeIsOrder();
    ElementsMultiset(s);
    SortBySorts(Elements(s), StrLe);
    assert |multiset(s)| == |s|;
    forall k ensures k in SortedKeys(s) <==> k in s {
      assert k in SortedKeys(s) <==> k in multiset(SortedKeys(s));
    }
  }

  lemma DistinctKeys(s: set<string>)
    ensures forall i, j :: 0 <= i < j < |SortedKeys(s)| ==> SortedKeys(s)[i] != SortedKeys(s)[j]
  {
    var keys := SortedKeys(s);
    SortedKeysOf(s);
    forall i, j | 0 <= i < j < |keys| ensures keys[i] != keys[j] {
      assert multiset(keys)[keys[i]] <= 1;
      Repeated(keys, i, j);
    }
  }

  lemma Repeated<T>(xs: seq<T>, i: nat, j: nat)
    requires i < j < |xs|
    ensures xs[i] == xs[j] ==> multiset(xs)[xs[i]] >= 2
  {
    assert xs == xs[..j] + [xs[j]] + xs[j + 1..];
    assert xs[i] in xs[..j];
  }

  lemma SortedKeysMembers(s: set<string>)
    ensures forall k :: k in SortedKeys(s) <==> k in s
  {
    SortedKeysOf(s);
  }

  method SortKeys(s: set<string>) returns (names: seq<string>)
    ensures names == SortedKeys(s)
  {
    names := [];
    var rest := s;
    while rest != {}
      invariant rest <= s
      invariant multiset(names) + multiset(rest) == multiset(s)
      decreases rest
    {
      var k :| k in rest;
      assert multiset(rest) == multiset{k} + multiset(rest - {k});
      names, rest := names + [k], rest - {k};
    }
    ElementsMultiset(s);
    SortStringsPermuted(names, Elements(s));
    names := SortStrings(names);
  }

  // ---------------------------------------------------------------------------
  // Joining and digests
  // ---------------------------------------------------------------------------

  function Join(parts: seq<string>, sep: char): string {
    if parts == [] then "" else if |parts| == 1 then parts[0] else parts[0] + [sep] + Join(parts[1..], sep)
  }

  // A join starts with its first part, which ends at the first separator.
  lemma JoinHead(parts: seq<string>, sep: char)
    requires parts != [] && sep !in parts[0]
    ensures |Join(parts, sep)| >= |parts[0]| && Join(parts, sep)[..|parts[0]|] == parts[0]
    ensures forall k :: 0 <= k < |parts[0]| ==> Join(parts, sep)[k] != sep
    ensures |parts| == 1 ==> Join(parts, sep) == parts[0]
    ensures |parts| > 1 ==> |Join(parts, sep)| > |parts[0]| && Join(parts, sep)[|parts[0]|] == sep
    ensures |parts| > 1 ==> Join(parts, sep)[|parts[0]| + 1..] == Join(parts[1..], sep)
  {
  }

  // Without separators inside the parts, a join determines its parts.
  lemma {:induction false} JoinInjective(a: seq<string>, b: seq<string>, sep: char)
    requires a != [] && b != []
    requires forall s :: s in a || s in b ==> sep !in s
    requires Join(a, sep) == Join(b, sep)
    ensures a == b
  {
    JoinHead(a, sep);
    JoinHead(b, sep);
    assert |a[0]| == |b[0]|;
    if |a| > 1 && |b| > 1 {
      JoinInjective(a[1..], b[1..], sep);
    }
    assert a == [a[0]] + a[1..] && b == [b[0]] + b[1..];
  }

  // Two texts cut at the first separator.
  lemma SplitOnce(a: string, x: string, b: string, y: string)
    requires SEPARATOR !in a && SEPARATOR !in b
    requires a + [SEPARATOR] + x == b + [SEPARATOR] + y
    ensures a == b && x == y
  {
    var s, t := a + [SEPARATOR] + x, b + [SEPARATOR] + y;
    assert s[|a|] == SEPARATOR && t[|b|] == SEPARATOR;
    assert forall k :: 0 <= k < |a| ==> s[k] == a[k];
    assert forall k :: 0 <= k < |b| ==> t[k] == b[k];
    assert |a| == |b|;
    assert s[..|a|] == a && t[..|b|] == b;
    assert s[|a| + 1..] == x && t[|b| + 1..] == y;
  }

  const HEX_DIGITS: string := "0123456789abcdef"

  function Hex(n: nat, width: nat): string {
    if width == 0 then "" else Hex(n / 16, width - 1) + [HEX_DIGITS[n % 16]]
  }

  function HexRange(width: nat): nat {
    if width == 0 then 1 else 16 * HexRange(width - 1)
  }

  lemma {:induction false} HexInjective(m: nat, n: nat, width: nat)
    requires m < HexRange(width) && n < HexRange(width) && Hex(m, width) == Hex(n, width)
    ensures m == n
  {
    if width > 0 {
      var hm, hn := Hex(m, width), Hex(n, width);
      HexLength(m / 16, width - 1);
      HexLength(n / 16, width - 1);
      assert hm[..width - 1] == Hex(m / 16, width - 1) && hn[..width - 1] == Hex(n / 16, width - 1);
      HexInjective(m / 16, n / 16, width - 1);
      assert hm[width - 1] == HEX_DIGITS[m % 16] && hn[width - 1] == HEX_DIGITS[n % 16];
      HexDigitInjective(m % 16, n % 16);
    }
  }

  lemma HexDigitInjective(i: nat, j: nat)
    requires i < 16 && j < 16 && HEX_DIGITS[i] == HEX_DIGITS[j]
    ensures i == j
  {
  }

  lemma {:induction false} HexLength(n: nat, width: nat)
    ensures |Hex(n, width)| == width
    ensures forall c :: c in Hex(n, width) ==> c in HEX_DIGITS
  {
    if width > 0 {
      HexLength(n / 16, width - 1);
    }
  }

  /** The model of a SHA-256 digest in hex: a collision-free text over the hex alphabet. */
  function Digest(preimage: string): string {
    if preimage == "" then "" else Hex(preimage[0] as nat, 6) + Digest(preimage[1..])
  }

  lemma {:induction false} DigestInjective(a: string, b: string)
    requires Digest(a) == Digest(b)
    ensures a == b
  {
    if a != "" {
      HexLength(a[0] as nat, 6);
    }
    if b != "" {
      HexLength(b[0] as nat, 6);
    }
    if a != "" && b != "" {
      var da, db := Digest(a), Digest(b);
      assert da[..6] == Hex(a[0] as nat, 6) && db[..6] == Hex(b[0] as nat, 6);
      assert da[6..] == Digest(a[1..]) && db[6..] == Digest(b[1..]);
      assert HexRange(6) == 0x1000000;
      HexInjective(a[0] as nat, b[0] as nat, 6);
      DigestInjective(a[1..], b[1..]);
      assert a == [a[0]] + a[1..] && b == [b[0]] + b[1..];
    }
  }

  lemma {:induction false} DigestAvoids(s: string, c: char)
    requires c !in HEX_DIGITS
    ensures c !in Digest(s)
  {
    if s != "" {
      HexLength(s[0] as nat, 6);
      DigestAvoids(s[1..], c);
    }
  }

  function Decimal(n: int): string
    decreases n < 0, if n < 0 then -n else n
  {
    if n < 0 then "-" + Decimal(-n)
    else if n < 10 then [HEX_DIGITS[n]]
    else Decimal(n / 10) + [HEX_DIGITS[n % 10]]
  }

  lemma {:induction false} DecimalDigits(n: nat)
    ensures Decimal(n) != "" && forall c :: c in Decimal(n) ==> c in HEX_DIGITS
  {
    if n >= 10 {
      DecimalDigits(n / 10);
    }
  }

  lemma {:induction false} DecimalInjective(m: nat, n: nat)
    requires Decimal(m) == Decimal(n)
    ensures m == n
  {
    var dm, dn := Decimal(m), Decimal(n);
    if m >= 10 {
      DecimalDigits(m / 10);
      assert dm[..|dm| - 1] == Decimal(m / 10);
    }
    if n >= 10 {
      DecimalDigits(n / 10);
      assert dn[..|dn| - 1] == Decimal(n / 10);
    }
    assert dm[|dm| - 1] == HEX_DIGITS[m % 10] && dn[|dn| - 1] == HEX_DIGITS[n % 10];
    HexDigitInjective(m % 10, n % 10);
    if m >= 10 && n >= 10 {
      DecimalInjective(m / 10, n / 10);
    }
  }
}
