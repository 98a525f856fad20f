/** Helpers of the carousel (src/components/Carousel/utils.ts): the two set-like
    in-place updates of a JavaScript `number[]` that the pagination windowing uses, and
    the pair of functions that write and read the list's `transform: translateX(..px)`. */
module CarouselUtils {

  // ---------------------------------------------------------------------------
  // Index lists: addItemToArray / removeItemFromArray
  // ---------------------------------------------------------------------------

  /** No value occurs twice. */
  predicate Distinct(s: seq<int>) {
    forall i, j :: 0 <= i < j < |s| ==> s[i] != s[j]
  }

  /** Strictly ascending (and therefore Distinct). */
  predicate Increasing(s: seq<int>) {
    forall i, j :: 0 <= i < j < |s| ==> s[i] < s[j]
  }

  /** `array.findIndex((i) => i === x)`: the first position holding `x`, or -1. */
  function FindIndex(s: seq<int>, x: int): (r: int)
    ensures -1 <= r < |s|
    ensures r == -1 <==> x !in s
    ensures r >= 0 ==> s[r] == x && x !in s[..r]
  {
    if s == [] then -1
    else if s[0] == x then 0
    else
      var k := FindIndex(s[1..], x);
      if k == -1 then -1
      else
        assert s[..k + 1] == [s[0]] + s[1..][..k];
        k + 1
  }

  /** Deleting position `i` keeps the elements before it and shifts every later element
      one place to the left; what is removed from the multiset is exactly `s[i]`. */
  lemma SpliceAt(s: seq<int>, i: int)
    requires 0 <= i < |s|
    ensures |s[..i] + s[i + 1..]| == |s| - 1
    ensures forall j :: 0 <= j < i ==> (s[..i] + s[i + 1..])[j] == s[j]
    ensures forall j :: i < j < |s| ==> (s[..i] + s[i + 1..])[j - 1] == s[j]
    ensures multiset(s[..i] + s[i + 1..]) == multiset(s) - multiset{s[i]}
  {
    assert s == s[..i] + [s[i]] + s[i + 1..];
  }

  /** Deleting one position keeps an ascending array ascending. */
  lemma SpliceKeepsIncreasing(s: seq<int>, i: int)
    requires 0 <= i < |s|
    ensures Increasing(s) ==> Increasing(s[..i] + s[i + 1..])
  {
    if !Increasing(s) { return; }
    SpliceAt(s, i);
    var r := s[..i] + s[i + 1..];
    forall a, b | 0 <= a < b < |r| ensures r[a] < r[b] {
      var a' := if a < i then a else a + 1;
      var b' := if b < i then b else b + 1;
      assert r[a] == s[a'] && r[b] == s[b'];
    }
  }

  /** Deleting one position of a Distinct array removes exactly that value. */
  lemma SpliceKeepsDistinct(s: seq<int>, i: int)
    requires 0 <= i < |s|
    ensures Distinct(s) ==> Distinct(s[..i] + s[i + 1..])
    ensures Distinct(s) ==> forall y :: y in s[..i] + s[i + 1..] <==> y in s && y != s[i]
  {
    if !Distinct(s) { return; }
    SpliceAt(s, i);
    var r := s[..i] + s[i + 1..];
    forall a, b | 0 <= a < b < |r| ensures r[a] != r[b] {
      var a' := if a < i then a else a + 1;
      var b' := if b < i then b else b + 1;
      assert r[a] == s[a'] && r[b] == s[b'];
    }
    forall y ensures y in r <==> y in s && y != s[i] {
      if y in r {
        var a :| 0 <= a < |r| && r[a] == y;
        var a' := if a < i then a else a + 1;
        assert r[a] == s[a'];
      }
      if y in s && y != s[i] {
        var a' :| 0 <= a' < |s| && s[a'] == y;
        if a' < i {
          assert r[a'] == y;
        } else {
          assert r[a' - 1] == y;
        }
      }
    }
  }

  /** Appending a value above every element keeps an array ascending. */
  lemma AppendKeepsIncreasing(s: seq<int>, x: int)
    requires Increasing(s)
    requires forall y :: y in s ==> y < x
    ensures Increasing(s + [x])
  {
    assert forall k :: 0 <= k < |s| ==> s[k] in s;
  }

  /** Two ascending arrays one wholly below the other join into an ascending array. */
  lemma ConcatKeepsIncreasing(a: seq<int>, b: seq<int>)
    requires Increasing(a) && Increasing(b)
    requires forall x, y :: x in a && y in b ==> x < y
    ensures Increasing(a + b)
  {
    forall i, j | 0 <= i < j < |a + b| ensures (a + b)[i] < (a + b)[j] {
      if j < |a| {
      } else if i >= |a| {
        assert (a + b)[i] == b[i - |a|] && (a + b)[j] == b[j - |a|];
      } else {
        assert (a + b)[i] == a[i] && a[i] in a;
        assert (a + b)[j] == b[j - |a|] && b[j - |a|] in b;
      }
    }
  }

  /** Two ascending arrays holding the same values are the same array. */
  lemma {:induction false} IncreasingUnique(a: seq<int>, b: seq<int>)
    requires Increasing(a) && Increasing(b)
    requires forall y :: y in a <==> y in b
    ensures a == b
    decreases |a|
  {
    if a == [] {
      forall y ensures multiset(b)[y] == 0 {
        assert y !in a;
      }
      assert multiset(b) == multiset{};
      assert |b| == |multiset(b)| == 0;
    } else {
      assert a[0] in a && b != [] && b[0] in b;
      assert a[0] == b[0];
      forall y ensures y in a[1..] <==> y in b[1..] {
        if y in a[1..] {
          assert y in a && y > a[0];
          assert y in b && y != b[0];
        }
        if y in b[1..] {
          assert y in b && y > b[0];
          assert y in a && y != a[0];
        }
      }
      IncreasingUnique(a[1..], b[1..]);
      assert a == [a[0]] + a[1..] && b == [b[0]] + b[1..];
    }
  }

  /** The array after `addItemToArray(array, x)`: `x` pushed unless already present. */
  function WithItem(s: seq<int>, x: int): (r: seq<int>)
    ensures x in r
    ensures |s| <= |r| <= |s| + 1 && r[..|s|] == s
    ensures x in s ==> r == s
    ensures x !in s ==> r == s + [x]
    ensures forall y :: y in r <==> y in s || y == x
    ensures Distinct(s) ==> Distinct(r)
  {
    if x in s then s else s + [x]
  }

  /** The array after `removeItemFromArray(array, x)`: the first occurrence of `x`
      spliced out, the rest kept in order. */
  function WithoutItem(s: seq<int>, x: int): (r: seq<int>)
    ensures x !in s ==> r == s
    ensures x in s ==> |r| == |s| - 1
    ensures x in s ==> exists i :: 0 <= i < |s| && s[i] == x && x !in s[..i] && r == s[..i] + s[i + 1..]
    ensures multiset(r) == multiset(s) - multiset{x}
    ensures Distinct(s) ==> Distinct(r) && forall y :: y in r <==> y in s && y != x
    ensures Increasing(s) ==> Increasing(r)
  {
    var i := FindIndex(s, x);
    if i > -1 then
      SpliceAt(s, i);
      SpliceKeepsIncreasing(s, i);
      SpliceKeepsDistinct(s, i);
      s[..i] + s[i + 1..]
    else s
  }

  /** A JavaScript `number[]` that the helpers below update in place. */
  class NumArray {
    var elems: seq<int>

    constructor ()
      ensures elems == []
    {
      elems := [];
    }
  }

  /** `addItemToArray`: push `item` unless the array already includes it. */
  method AddItemToArray(list: NumArray, item: int)
    modifies list
    ensures list.elems == WithItem(old(list.elems), item)
  {
    if item !in list.elems {
      list.elems := list.elems + [item];
    }
  }

  /** `removeItemFromArray`: splice out the first element equal to `item`, if any. */
  method RemoveItemFromArray(list: NumArray, item: int)
    modifies list
    ensures list.elems == WithoutItem(old(list.elems), item)
  {
    var index := FindIndex(list.elems, item);
    if index > -1 {
      list.elems := list.elems[..index] + list.elems[index + 1..];
    }
  }

  // ---------------------------------------------------------------------------
  // The list offset as a CSS string: setStyleTranslateX / getStyleTranslateX
  // ---------------------------------------------------------------------------

  const TRANSLATE_X: string := "translateX"

  /** What `Number(..)` yields for the filtered transform string: an integer, or a
      value the model does not evaluate (NaN, or a numeral with a decimal point). */
  datatype Parsed = Integer(value: int) | Unparsed

  predicate IsDigit(c: char) {
    '0' <= c <= '9'
  }

  predicate IsDigits(s: string) {
    forall k :: 0 <= k < |s| ==> IsDigit(s[k])
  }

  /** The characters the regular expression `[^-?\d.]` does not delete. */
  predicate IsKept(c: char) {
    c == '-' || c == '?' || c == '.' || IsDigit(c)
  }

  /** `str.replace(/[^-?\d.]/g, '')`. */
  function KeepNumeric(s: string): string {
    if s == [] then []
    else (if IsKept(s[0]) then [s[0]] else []) + KeepNumeric(s[1..])
  }

  /** `str.includes(sub)`. */
  function Contains(s: string, sub: string): bool
    decreases |s|
  {
    |sub| <= |s| && (s[..|sub|] == sub || (0 < |s| && Contains(s[1..], sub)))
  }

  function DigitValue(c: char): nat
    requires IsDigit(c)
  {
    (c as int) - ('0' as int)
  }

  /** The value of a decimal numeral, most significant digit first. */
  function DigitsValue(s: string): nat
    requires IsDigits(s)
  {
    if s == [] then 0 else 10 * DigitsValue(s[..|s| - 1]) + DigitValue(s[|s| - 1])
  }

  /** `Number(s)` for the strings the filter can produce; an empty string is 0. */
  function ToNumber(s: string): Parsed {
    if s == [] then Integer(0)
    else if s[0] == '-' then
      if 1 < |s| && IsDigits(s[1..]) then Integer(-(DigitsValue(s[1..]) as int)) else Unparsed
    else if IsDigits(s) then Integer(DigitsValue(s))
    else Unparsed
  }

  function DigitChar(d: nat): (c: char)
    requires d < 10
    ensures IsDigit(c) && DigitValue(c) == d
  {
    ('0' as int + d) as char
  }

  /** JavaScript's decimal rendering of a non-negative integer. */
  function NatToString(n: nat): string {
    if n < 10 then [DigitChar(n)] else NatToString(n / 10) + [DigitChar(n % 10)]
  }

  /** `${value}` for an integer value. */
  function IntToString(v: int): string {
    if v < 0 then "-" + NatToString(-v) else NatToString(v)
  }

  /** `setStyleTranslateX(element, value)`: the transform string written to the element. */
  function SetStyleTranslateX(value: int): string {
    "translateX(" + IntToString(value) + "px)"
  }

  /** `getStyleTranslateX(element)`: the number in the transform, or 0 when the transform
      does not mention translateX. */
  function GetStyleTranslateX(transform: string): (r: Parsed)
    ensures !Contains(transform, TRANSLATE_X) ==> r == Integer(0)
  {
    if Contains(transform, TRANSLATE_X) then ToNumber(KeepNumeric(transform)) else Integer(0)
  }

  lemma {:induction false} NatToStringDigits(n: nat)
    ensures 0 < |NatToString(n)| && IsDigits(NatToString(n))
    ensures DigitsValue(NatToString(n)) == n
  {
    if n >= 10 {
      NatToStringDigits(n / 10);
      var s := NatToString(n);
      assert s[..|s| - 1] == NatToString(n / 10);
    }
  }

  lemma {:induction false} KeepNumericAppend(a: string, b: string)
    ensures KeepNumeric(a + b) == KeepNumeric(a) + KeepNumeric(b)
  {
    if a != [] {
      assert (a + b)[0] == a[0];
      assert (a + b)[1..] == a[1..] + b;
      KeepNumericAppend(a[1..], b);
    } else {
      assert a + b == b;
    }
  }

  lemma {:induction false} KeepNumericAllKept(s: string)
    requires forall k :: 0 <= k < |s| ==> IsKept(s[k])
    ensures KeepNumeric(s) == s
  {
    if s != [] {
      KeepNumericAllKept(s[1..]);
    }
  }

  lemma {:induction false} KeepNumericNoneKept(s: string)
    requires forall k :: 0 <= k < |s| ==> !IsKept(s[k])
    ensures KeepNumeric(s) == []
  {
    if s != [] {
      KeepNumericNoneKept(s[1..]);
    }
  }

  lemma PrefixDropped()
    ensures KeepNumeric("translateX(") == []
  {
    var prefix := "translateX(";
    forall k | 0 <= k < |prefix| ensures !IsKept(prefix[k]) {
    }
    KeepNumericNoneKept(prefix);
  }

  lemma SuffixDropped()
    ensures KeepNumeric("px)") == []
  {
    var suffix := "px)";
    forall k | 0 <= k < |suffix| ensures !IsKept(suffix[k]) {
    }
    KeepNumericNoneKept(suffix);
  }

  /** Only the rendered number survives the filter. */
  lemma KeepNumericOfTransform(digits: string)
    requires forall k :: 0 <= k < |digits| ==> IsKept(digits[k])
    ensures KeepNumeric("translateX(" + digits + "px)") == digits
  {
    var prefix, suffix := "translateX(", "px)";
    PrefixDropped();
    SuffixDropped();
    KeepNumericAppend(prefix + digits, suffix);
    KeepNumericAppend(prefix, digits);
    KeepNumericAllKept(digits);
  }

  /** `Number` inverts the decimal rendering of an integer. */
  lemma ToNumberOfIntToString(v: int)
    ensures forall k :: 0 <= k < |IntToString(v)| ==> IsKept(IntToString(v)[k])
    ensures ToNumber(IntToString(v)) == Integer(v)
  {
    var n: nat := if v < 0 then -v else v;
    NatToStringDigits(n);
    var digits := IntToString(v);
    if v < 0 {
      assert digits[1..] == NatToString(n);
    }
  }

  /** Reading back what was written yields the integer written: the carousel relies on
      this every time it reads the list's offset. */
  lemma TranslateRoundTrip(v: int)
    ensures GetStyleTranslateX(SetStyleTranslateX(v)) == Integer(v)
  {
    var digits := IntToString(v);
    var t := SetStyleTranslateX(v);
    assert t[..|TRANSLATE_X|] == TRANSLATE_X;
    assert Contains(t, TRANSLATE_X);
    ToNumberOfIntToString(v);
    KeepNumericOfTransform(digits);
  }
}
