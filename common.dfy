/** Shared vocabulary of the model: Kotlin's nullable values, 32-bit `Int`,
    `Int.toString()`, and the collection operations of the Kotlin standard
    library that the app relies on (`filterNotNull`, `mapNotNull`, and the
    `distinctUntilChanged` flow operator applied to a finite run of values). */
module Common {

  /** A Kotlin nullable value `T?`. */
  datatype Option<+T> = None | Some(value: T) {
    /** `x ?: default` */
    function GetOr(default: T): T {
      match this
      case Some(v) => v
      case None => default
    }
  }

  const INT32_MIN: int := -0x8000_0000
  const INT32_MAX: int := 0x7fff_ffff

  /** Kotlin `Int`: a 32-bit two's complement integer. */
  type Int32 = x: int | -0x8000_0000 <= x <= 0x7fff_ffff

  /** Kotlin `x.plus(1)` on `Int`, which wraps around at the top of the range. */
  function PlusOne(x: Int32): (r: Int32)
    ensures x < INT32_MAX ==> r == x + 1
    ensures x == INT32_MAX ==> r == INT32_MIN
  {
    if x == 0x7fff_ffff then -0x8000_0000 else x + 1
  }

  // ---------------------------------------------------------------------
  // Decimal rendering, as Kotlin's Int.toString() and string templates do

  predicate IsDigit(c: char) {
    '0' <= c <= '9'
  }

  predicate AllDigits(s: string) {
    forall i :: 0 <= i < |s| ==> IsDigit(s[i])
  }

  function DigitChar(d: nat): (c: char)
    requires d < 10
    ensures IsDigit(c) && (c as int) - ('0' as int) == d
  {
    (('0' as int) + d) as char
  }

  /** The decimal digits of `n`, most significant first, no leading zeros. */
  function NatToString(n: nat): (s: string)
    ensures |s| > 0 && AllDigits(s)
    ensures s[0] == '0' ==> n == 0
    decreases n
  {
    if n < 10 then [DigitChar(n)] else NatToString(n / 10) + [DigitChar(n % 10)]
  }

  /** The number a string of decimal digits denotes. */
  function DigitsValue(s: string): nat
    requires AllDigits(s)
    decreases |s|
  {
    if s == [] then 0
    else DigitsValue(s[..|s| - 1]) * 10 + ((s[|s| - 1] as int) - ('0' as int))
  }

  /** Reading back the digits of `n` gives `n`. */
  lemma {:induction false} NatToStringRoundTrip(n: nat)
    ensures DigitsValue(NatToString(n)) == n
    decreases n
  {
    if n >= 10 {
      NatToStringRoundTrip(n / 10);
      var s := NatToString(n);
      assert s[..|s| - 1] == NatToString(n / 10);
    }
  }

  /** Kotlin `Int.toString()`: a minus sign for negative values, then the digits. */
  function IntToString(n: int): (s: string)
    ensures |s| > 0
    ensures s[0] == '-' || IsDigit(s[0])
    ensures n < 0 <==> s[0] == '-'
  {
    if n < 0 then "-" + NatToString(-n) else NatToString(n)
  }

  /** Two different numbers never render the same way. */
  lemma IntToStringInjective(a: int, b: int)
    requires IntToString(a) == IntToString(b)
    ensures a == b
  {
    if a < 0 {
      assert IntToString(a)[1..] == NatToString(-a);
      assert IntToString(b)[1..] == NatToString(-b);
      NatToStringRoundTrip(-a);
      NatToStringRoundTrip(-b);
    } else {
      NatToStringRoundTrip(a);
      NatToStringRoundTrip(b);
    }
  }

  /** Kotlin `x.toString()` on an `Int?`: the digits, or "null" when absent. */
  function NullableToString(o: Option<int>): (s: string)
    ensures |s| > 0
    ensures o.None? <==> s == "null"
    ensures o.Some? ==> s[0] == '-' || IsDigit(s[0])
  {
    match o
    case None => "null"
    case Some(n) => IntToString(n)
  }

  /** Kotlin `"${m}"` on a `String?`: the text, or "null" when absent. */
  function NullableText(o: Option<string>): string {
    match o
    case None => "null"
    case Some(t) => t
  }

  // ---------------------------------------------------------------------
  // Kotlin string length

  /** Kotlin `String.length`: the number of UTF-16 code units, so a character
      outside the Basic Multilingual Plane (an emoji, say) counts twice. */
  function Utf16Length(t: string): (n: nat)
    ensures |t| <= n <= 2 * |t|
    ensures n == 0 <==> t == ""
    decreases |t|
  {
    if t == [] then 0 else (if t[0] as int >= 0x1_0000 then 2 else 1) + Utf16Length(t[1..])
  }

  // ---------------------------------------------------------------------
  // Nullable lists

  /** Number of non-null entries. */
  function CountPresent<T>(s: seq<Option<T>>): nat
    decreases |s|
  {
    if s == [] then 0 else (if s[0].Some? then 1 else 0) + CountPresent(s[1..])
  }

  /** Kotlin `filterNotNull()`: the non-null entries, in their order. */
  function FilterNotNull<T>(s: seq<Option<T>>): (r: seq<T>)
    ensures |r| == CountPresent(s) <= |s|
    ensures forall i :: 0 <= i < |r| ==> Some(r[i]) in s
    ensures forall i :: 0 <= i < |s| && s[i].Some? ==> s[i].value in r
    decreases |s|
  {
    if s == [] then []
    else if s[0].Some? then [s[0].value] + FilterNotNull(s[1..])
    else FilterNotNull(s[1..])
  }

  /** filterNotNull maps a concatenation to the concatenation of the parts,
      so entries keep their relative order. */
  lemma {:induction false} FilterNotNullAppend<T>(a: seq<Option<T>>, b: seq<Option<T>>)
    ensures FilterNotNull(a + b) == FilterNotNull(a) + FilterNotNull(b)
    decreases |a|
  {
    if a != [] {
      var ab := a + b;
      assert ab[0] == a[0] && ab[1..] == a[1..] + b;
      FilterNotNullAppend(a[1..], b);
      if a[0].Some? {
        assert FilterNotNull(ab) == [a[0].value] + FilterNotNull(a[1..] + b);
        assert FilterNotNull(a) == [a[0].value] + FilterNotNull(a[1..]);
      } else {
        assert FilterNotNull(ab) == FilterNotNull(a[1..] + b);
        assert FilterNotNull(a) == FilterNotNull(a[1..]);
      }
    } else {
      assert a + b == b;
    }
  }

  /** A list without nulls is returned unchanged. */
  lemma {:induction false} FilterNotNullAllPresent<T>(s: seq<T>)
    ensures FilterNotNull(seq(|s|, i requires 0 <= i < |s| => Some(s[i]))) == s
    decreases |s|
  {
    if s != [] {
      var w := seq(|s|, i requires 0 <= i < |s| => Some(s[i]));
      assert w[1..] == seq(|s[1..]|, i requires 0 <= i < |s[1..]| => Some(s[1..][i]));
      FilterNotNullAllPresent(s[1..]);
    }
  }

  /** Kotlin `mapNotNull(f)`: apply `f` to each entry and keep the non-null results, in order. */
  function MapNotNull<A, B>(s: seq<A>, f: A -> Option<B>): (r: seq<B>)
    ensures |r| <= |s|
    ensures forall i :: 0 <= i < |s| && f(s[i]).Some? ==> f(s[i]).value in r
    ensures forall y :: y in r ==> exists i :: 0 <= i < |s| && f(s[i]) == Some(y)
    decreases |s|
  {
    if s == [] then []
    else
      var rest := MapNotNull(s[1..], f);
      assert forall i :: 1 <= i < |s| ==> s[i] == s[1..][i - 1];
      match f(s[0])
      case Some(y) => [y] + rest
      case None => rest
  }

  /** mapNotNull maps a concatenation to the concatenation of the parts. */
  lemma {:induction false} MapNotNullAppend<A, B>(a: seq<A>, b: seq<A>, f: A -> Option<B>)
    ensures MapNotNull(a + b, f) == MapNotNull(a, f) + MapNotNull(b, f)
    decreases |a|
  {
    if a != [] {
      var ab := a + b;
      assert ab[0] == a[0] && ab[1..] == a[1..] + b;
      MapNotNullAppend(a[1..], b, f);
      if f(a[0]).Some? {
        assert MapNotNull(ab, f) == [f(a[0]).value] + MapNotNull(a[1..] + b, f);
        assert MapNotNull(a, f) == [f(a[0]).value] + MapNotNull(a[1..], f);
      } else {
        assert MapNotNull(ab, f) == MapNotNull(a[1..] + b, f);
        assert MapNotNull(a, f) == MapNotNull(a[1..], f);
      }
    } else {
      assert a + b == b;
    }
  }

  /** The entries of `s` on which `f` gives a value, in their order: the ones
      `mapNotNull(f)` turns into results. */
  function Present<A, B>(s: seq<A>, f: A -> Option<B>): (r: seq<A>)
    ensures |r| <= |s|
    ensures forall i :: 0 <= i < |r| ==> f(r[i]).Some?
    decreases |s|
  {
    if s == [] then []
    else if f(s[0]).Some? then [s[0]] + Present(s[1..], f)
    else Present(s[1..], f)
  }

  /** The present entries are drawn from `s`, and every entry on which `f` gives
      a value is among them. */
  lemma {:induction false} PresentMembers<A, B>(s: seq<A>, f: A -> Option<B>)
    ensures forall x :: x in Present(s, f) <==> x in s && f(x).Some?
    decreases |s|
  {
    if s != [] {
      PresentMembers(s[1..], f);
      assert forall x :: x in s <==> x == s[0] || x in s[1..];
    }
  }

  /** mapNotNull gives exactly one result per entry on which `f` gives a value,
      and the i-th result comes from the i-th such entry. */
  lemma {:induction false} MapNotNullEntries<A, B>(s: seq<A>, f: A -> Option<B>)
    ensures |MapNotNull(s, f)| == |Present(s, f)|
    ensures forall i :: 0 <= i < |Present(s, f)| ==> MapNotNull(s, f)[i] == f(Present(s, f)[i]).value
    decreases |s|
  {
    if s != [] {
      var tail := s[1..];
      MapNotNullEntries(tail, f);
      var r, p := MapNotNull(tail, f), Present(tail, f);
      if f(s[0]).Some? {
        var a, b := MapNotNull(s, f), Present(s, f);
        assert a == [f(s[0]).value] + r;
        assert b == [s[0]] + p;
        forall i | 0 < i < |a| ensures a[i] == f(b[i]).value {
          assert a[i] == r[i - 1] && b[i] == p[i - 1];
        }
      } else {
        assert MapNotNull(s, f) == r;
        assert Present(s, f) == p;
      }
    }
  }

  // ---------------------------------------------------------------------
  // distinctUntilChanged over a finite run of values

  /** The values a `distinctUntilChanged()` flow lets through, given the values
      it receives and the last value it let through (if any). */
  function DedupFrom<T(==)>(s: seq<T>, last: Option<T>): seq<T>
    decreases |s|
  {
    if s == [] then []
    else if last == Some(s[0]) then DedupFrom(s[1..], last)
    else [s[0]] + DedupFrom(s[1..], Some(s[0]))
  }

  /** `distinctUntilChanged()` applied to a run of values. */
  function DistinctUntilChanged<T(==)>(s: seq<T>): seq<T> {
    DedupFrom(s, None)
  }

  predicate NoAdjacentRepeats<T(==)>(s: seq<T>) {
    forall i :: 0 < i < |s| ==> s[i - 1] != s[i]
  }

  /** No two consecutive emissions are equal, none repeats the previous one,
      every emission is a received value, and the newest received value is
      always the newest emission. */
  lemma {:induction false} DedupFromProperties<T>(s: seq<T>, last: Option<T>)
    ensures NoAdjacentRepeats(DedupFrom(s, last))
    ensures DedupFrom(s, last) != [] ==> last != Some(DedupFrom(s, last)[0])
    ensures forall x :: x in DedupFrom(s, last) ==> x in s
    ensures s != [] ==>
      || (DedupFrom(s, last) == [] && last == Some(s[|s| - 1]))
      || (DedupFrom(s, last) != [] && DedupFrom(s, last)[|DedupFrom(s, last)| - 1] == s[|s| - 1])
    decreases |s|
  {
    if s != [] {
      if last == Some(s[0]) {
        DedupFromProperties(s[1..], last);
      } else {
        DedupFromProperties(s[1..], Some(s[0]));
      }
    }
  }

  lemma DistinctUntilChangedProperties<T>(s: seq<T>)
    ensures NoAdjacentRepeats(DistinctUntilChanged(s))
    ensures forall x :: x in DistinctUntilChanged(s) ==> x in s
    ensures s != [] ==>
      && DistinctUntilChanged(s) != []
      && DistinctUntilChanged(s)[|DistinctUntilChanged(s)| - 1] == s[|s| - 1]
  {
    DedupFromProperties(s, None);
  }

  /** The value `distinctUntilChanged` compares the next one against. */
  function LastSeen<T>(s: seq<T>, last: Option<T>): Option<T> {
    if s == [] then last else Some(s[|s| - 1])
  }

  /** One more value appends exactly that value, unless it equals the one
      seen just before it. */
  lemma {:induction false} DedupFromSnoc<T>(s: seq<T>, last: Option<T>, x: T)
    ensures DedupFrom(s + [x], last)
         == DedupFrom(s, last) + (if LastSeen(s, last) == Some(x) then [] else [x])
    decreases |s|
  {
    if s == [] {
      assert s + [x] == [x];
      assert [x][1..] == [];
    } else {
      assert (s + [x])[0] == s[0];
      assert (s + [x])[1..] == s[1..] + [x];
      var next := if last == Some(s[0]) then last else Some(s[0]);
      DedupFromSnoc(s[1..], next, x);
      assert LastSeen(s[1..], next) == LastSeen(s, last);
    }
  }

  /** The snoc law of `distinctUntilChanged`: a new value is emitted exactly
      when it differs from the previous value received. */
  lemma DistinctUntilChangedSnoc<T>(s: seq<T>, x: T)
    ensures DistinctUntilChanged(s + [x])
         == DistinctUntilChanged(s) + (if s != [] && s[|s| - 1] == x then [] else [x])
  {
    DedupFromSnoc(s, None, x);
  }
}
