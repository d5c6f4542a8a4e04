/**
 * `GET /fpx/banks`: the module-level bank list is sorted in place by display name, ignoring
 * case, and returned. Upper-casing is the ASCII letters' and string order is JavaScript's `<`
 * on strings: character by character, a proper prefix first.
 */
module Banks {
  import opened Wrappers

  /** One entry of the FPX bank list; absent `testOnly` and `status` are `None`. */
  datatype FpxBank = FpxBank(
    id: string,
    name: string,
    displayName: string,
    normalizeName: string,
    businessModel: string,
    testOnly: Option<bool>,
    status: Option<string>)

  predicate IsLower(c: char)
  {
    'a' <= c <= 'z'
  }

  function UpperChar(c: char): char
  {
    if IsLower(c) then (c as int - 32) as char else c
  }

  /**
   * `s.toUpperCase()` on ASCII letters: each lower-case letter becomes the letter 32 code
   * points below it, every other character stays, and no lower-case letter is left.
   */
  function Upper(s: string): (u: string)
    ensures |u| == |s|
    ensures forall i :: 0 <= i < |s| && IsLower(s[i]) ==> u[i] as int == s[i] as int - 32
    ensures forall i :: 0 <= i < |s| && !IsLower(s[i]) ==> u[i] == s[i]
    ensures forall i :: 0 <= i < |u| ==> !IsLower(u[i])
  {
    seq(|s|, i requires 0 <= i < |s| => UpperChar(s[i]))
  }

  /** Two characters are the same letter in either case, or simply equal. */
  predicate SameIgnoringCase(c: char, d: char)
  {
    c == d || (IsLower(c) && d as int == c as int - 32) || (IsLower(d) && c as int == d as int - 32)
  }

  /** Two strings that agree position by position up to ASCII letter case. */
  predicate EqualIgnoringCase(x: string, y: string)
  {
    |x| == |y| && forall i :: 0 <= i < |x| ==> SameIgnoringCase(x[i], y[i])
  }

  /** Upper-casing forgets letter case: strings equal up to case upper-case alike. */
  lemma UpperIgnoresCase(x: string, y: string)
    requires EqualIgnoringCase(x, y)
    ensures Upper(x) == Upper(y)
  {
    var ux, uy := Upper(x), Upper(y);
    forall i | 0 <= i < |x|
      ensures ux[i] == uy[i]
    {
      assert SameIgnoringCase(x[i], y[i]);
    }
  }

  /** JavaScript's `a < b` on strings. */
  predicate LexLess(a: string, b: string)
    decreases |a|
  {
    |b| > 0 && (|a| == 0 || a[0] < b[0] || (a[0] == b[0] && LexLess(a[1..], b[1..])))
  }

  lemma {:induction false} LexLessAsymmetric(a: string, b: string)
    ensures LexLess(a, b) ==> !LexLess(b, a)
    decreases |a|
  {
    if |a| > 0 && |b| > 0 && a[0] == b[0] {
      LexLessAsymmetric(a[1..], b[1..]);
    }
  }

  lemma {:induction false} LexLessTotal(a: string, b: string)
    ensures a == b || LexLess(a, b) || LexLess(b, a)
    decreases |a|
  {
    if |a| > 0 && |b| > 0 && a[0] == b[0] {
      LexLessTotal(a[1..], b[1..]);
      if a[1..] == b[1..] {
        assert a == [a[0]] + a[1..] && b == [b[0]] + b[1..];
      }
    }
  }

  lemma {:induction false} LexLessTransitive(a: string, b: string, c: string)
    requires LexLess(a, b) && LexLess(b, c)
    ensures LexLess(a, c)
    decreases |a|
  {
    if |a| > 0 && a[0] == b[0] && b[0] == c[0] {
      LexLessTransitive(a[1..], b[1..], c[1..]);
    }
  }

  /** The comparator passed to `banks.sort`: -1, 1 or 0 as the upper-cased display names compare. */
  function CompareBanks(a: FpxBank, b: FpxBank): (r: int)
    ensures r == -1 <==> LexLess(Upper(a.displayName), Upper(b.displayName))
    ensures r == 1 <==> LexLess(Upper(b.displayName), Upper(a.displayName))
    ensures r == 0 <==> Upper(a.displayName) == Upper(b.displayName)
  {
    var nameA := Upper(a.displayName);
    var nameB := Upper(b.displayName);
    LexLessAsymmetric(nameA, nameB);
    LexLessAsymmetric(nameA, nameA);
    LexLessTotal(nameA, nameB);
    if LexLess(nameA, nameB) then -1
    else if LexLess(nameB, nameA) then 1
    else 0
  }

  /** `a` may stand before `b` in the sorted list. */
  predicate InOrder(a: FpxBank, b: FpxBank)
  {
    CompareBanks(a, b) <= 0
  }

  predicate Sorted(s: seq<FpxBank>)
  {
    forall i, j :: 0 <= i < j < |s| ==> InOrder(s[i], s[j])
  }

  /** The comparator is antisymmetric: swapping its arguments negates the answer. */
  lemma CompareAntisymmetric(a: FpxBank, b: FpxBank)
    ensures CompareBanks(a, b) == -CompareBanks(b, a)
  {
  }

  /** Case does not matter: banks whose names differ only in letter case compare equal, and alike with every bank. */
  lemma CompareIgnoresCase(a: FpxBank, b: FpxBank, c: FpxBank)
    requires EqualIgnoringCase(a.displayName, b.displayName)
    ensures CompareBanks(a, c) == CompareBanks(b, c) && CompareBanks(a, b) == 0
  {
    UpperIgnoresCase(a.displayName, b.displayName);
  }

  /** The order the comparator induces is total ... */
  lemma InOrderTotal(a: FpxBank, b: FpxBank)
    ensures InOrder(a, b) || InOrder(b, a)
  {
  }

  /** ... and transitive, so a sorted list exists for every list. */
  lemma InOrderTransitive(a: FpxBank, b: FpxBank, c: FpxBank)
    requires InOrder(a, b) && InOrder(b, c)
    ensures InOrder(a, c)
  {
    var na, nb, nc := Upper(a.displayName), Upper(b.displayName), Upper(c.displayName);
    if LexLess(na, nb) && LexLess(nb, nc) {
      LexLessTransitive(na, nb, nc);
    }
  }

  /** The first `n` elements of `banks` are in comparator order. */
  ghost predicate SortedPrefix(banks: array<FpxBank>, n: int)
    reads banks
  {
    forall p, q :: 0 <= p < q < n && q < banks.Length ==> InOrder(banks[p], banks[q])
  }

  /** Exchanges the neighbours at `k - 1` and `k`. */
  method SwapDown(banks: array<FpxBank>, k: int)
    requires 0 < k < banks.Length
    modifies banks
    ensures banks[k - 1] == old(banks[k]) && banks[k] == old(banks[k - 1])
    ensures forall m :: 0 <= m < banks.Length && m != k - 1 && m != k ==> banks[m] == old(banks[m])
    ensures multiset(banks[..]) == multiset(old(banks[..]))
  {
    banks[k - 1], banks[k] := banks[k], banks[k - 1];
  }

  /** Moves `banks[i]` down into the sorted prefix before it. */
  method InsertAt(banks: array<FpxBank>, i: int)
    requires 0 <= i < banks.Length && SortedPrefix(banks, i)
    modifies banks
    ensures SortedPrefix(banks, i + 1)
    ensures multiset(banks[..]) == multiset(old(banks[..]))
    ensures forall k :: i < k < banks.Length ==> banks[k] == old(banks[k])
  {
    var j := i;
    while j > 0 && CompareBanks(banks[j - 1], banks[j]) > 0
      invariant 0 <= j <= i
      invariant forall p, q :: 0 <= p < q <= i && p != j && q != j ==> InOrder(banks[p], banks[q])
      invariant forall q :: j < q <= i ==> InOrder(banks[j], banks[q])
      invariant multiset(banks[..]) == multiset(old(banks[..]))
      invariant forall k :: i < k < banks.Length ==> banks[k] == old(banks[k])
    {
      CompareAntisymmetric(banks[j - 1], banks[j]);
      SwapDown(banks, j);
      j := j - 1;
    }
    forall p, q | 0 <= p < q <= i
      ensures InOrder(banks[p], banks[q])
    {
      if q == j && p < j - 1 {
        InOrderTransitive(banks[p], banks[j - 1], banks[j]);
      }
    }
  }

  /** `banks.sort(compare)`: reorders the array in place into comparator order. */
  method SortByDisplayName(banks: array<FpxBank>)
    modifies banks
    ensures Sorted(banks[..])
    ensures multiset(banks[..]) == multiset(old(banks[..]))
  {
    var i := 0;
    while i < banks.Length
      invariant 0 <= i <= banks.Length
      invariant SortedPrefix(banks, i)
      invariant multiset(banks[..]) == multiset(old(banks[..]))
    {
      InsertAt(banks, i);
      i := i + 1;
    }
    assert SortedPrefix(banks, banks.Length);
  }

  /** `GET /fpx/banks`: sort the list in place and answer 200 with it. */
  method GetBanks(banks: array<FpxBank>) returns (code: int, listed: seq<FpxBank>)
    modifies banks
    ensures code == 200 && listed == banks[..]
    ensures Sorted(listed) && multiset(listed) == multiset(old(banks[..]))
  {
    SortByDisplayName(banks);
    code, listed := 200, banks[..];
  }
}
