/** Integer to decimal text: the digit loop and in-place reversal of clia/clia/util/str_func.h. */
module Decimal {
  import opened Sequences
  import opened Checks

  const MIN_SPACE := 32
  const U64 := 0x1_0000_0000_0000_0000
  const DIGITS: seq<char> := "0123456789"

  // ----- the indices the loop uses, on every integer -----

  /** C++ division by ten truncates toward zero. */
  function TruncatedTenth(i: int): int
  {
    if i >= 0 then i / 10 else -((-i) / 10)
  }

  /** The values of `lsd` in successive rounds of the do-while loop. */
  function DigitIndices(i: int): seq<int>
    decreases if i >= 0 then i else -i
  {
    var lsd := i - 10 * TruncatedTenth(i);
    var rest := TruncatedTenth(i);
    if rest == 0 then [lsd] else [lsd] + DigitIndices(rest)
  }

  predicate AllIndexDigits(indices: seq<int>)
  {
    forall k :: 0 <= k < |indices| ==> 0 <= indices[k] < |DIGITS|
  }

  /** The digit table is indexed inside its bounds in every round exactly for the non-negative values. */
  lemma {:induction false} IndicesInRangeIff(i: int)
    ensures AllIndexDigits(DigitIndices(i)) <==> i >= 0
    decreases if i >= 0 then i else -i
  {
    var rest := TruncatedTenth(i);
    var all := DigitIndices(i);
    if rest != 0 {
      IndicesInRangeIff(rest);
      assert all[1..] == DigitIndices(rest);
      assert forall k :: 0 <= k < |DigitIndices(rest)| ==> all[k + 1] == DigitIndices(rest)[k];
      if rest < 0 {
        var bad :| 0 <= bad < |DigitIndices(rest)| && !(0 <= DigitIndices(rest)[bad] < |DIGITS|);
        assert !(0 <= all[bad + 1] < |DIGITS|);
      }
    } else {
      assert i < 0 ==> all[0] == i;
    }
  }

  // ----- numerals -----

  predicate IsDigit(c: char)
  {
    '0' <= c <= '9'
  }

  function DigitValue(c: char): (v: nat)
    requires IsDigit(c)
    ensures v < 10 && DIGITS[v] == c
  {
    c as int - '0' as int
  }

  /** Most significant digit first, no leading zero. */
  function Numeral(n: nat): (s: string)
    ensures |s| > 0
  {
    if n < 10 then [DIGITS[n]] else Numeral(n / 10) + [DIGITS[n % 10]]
  }

  /** What a decimal reader computes. */
  function Parse(s: string): nat
    requires forall k :: 0 <= k < |s| ==> IsDigit(s[k])
  {
    if s == [] then 0 else 10 * Parse(s[..|s| - 1]) + DigitValue(s[|s| - 1])
  }

  predicate IsCanonical(s: string)
  {
    && |s| > 0
    && (forall k :: 0 <= k < |s| ==> IsDigit(s[k]))
    && (s[0] == '0' ==> |s| == 1)
  }

  /** Converting and reading back is the identity, and the text is canonical. */
  lemma {:induction false} NumeralRoundTrip(n: nat)
    ensures IsCanonical(Numeral(n)) && Parse(Numeral(n)) == n
    ensures n > 0 ==> Numeral(n)[0] != '0'
  {
    if n < 10 {
      assert Numeral(n)[..0] == [];
    } else {
      NumeralRoundTrip(n / 10);
      var s := Numeral(n);
      assert s[..|s| - 1] == Numeral(n / 10);
    }
  }

  /** A canonical text of positive length above one denotes at least ten. */
  lemma {:induction false} CanonicalValue(s: string)
    requires IsCanonical(s)
    ensures Parse(s) == 0 ==> s == "0"
    ensures |s| > 1 ==> Parse(s) >= 10
  {
    var init, last := s[..|s| - 1], s[|s| - 1];
    if |s| == 1 {
      assert init == [] && s == [last];
    } else {
      CanonicalValue(init);
    }
  }

  /** Every canonical text is the numeral of what it denotes, so the output of `convert` is the only one. */
  lemma {:induction false} NumeralUnique(s: string)
    requires IsCanonical(s)
    ensures s == Numeral(Parse(s))
  {
    var init, last := s[..|s| - 1], s[|s| - 1];
    assert s == init + [last];
    if |s| > 1 {
      CanonicalValue(s);
      NumeralUnique(init);
      assert Parse(s) / 10 == Parse(init) && Parse(s) % 10 == DigitValue(last);
    } else {
      assert Parse(init) == 0;
    }
  }

  function PowerOfTen(k: nat): (p: nat)
    ensures p > 0
  {
    if k == 0 then 1 else 10 * PowerOfTen(k - 1)
  }

  /** A numeral fits in k characters exactly when the value is below ten to the k. */
  lemma {:induction false} NumeralLength(n: nat, k: nat)
    requires k > 0
    ensures |Numeral(n)| <= k <==> n < PowerOfTen(k)
  {
    if n >= 10 {
      if k > 1 {
        NumeralLength(n / 10, k - 1);
      } else {
        assert PowerOfTen(1) == 10 * PowerOfTen(0);
      }
    } else {
      assert PowerOfTen(k) >= 10 * PowerOfTen(k - 1) >= 10;
    }
  }

  lemma FirstPower()
    ensures PowerOfTen(0) == 1
  {
  }

  lemma TwentyDigitsSuffice()
    ensures PowerOfTen(20) > U64
  {
    assert PowerOfTen(5) == 100_000;
    assert PowerOfTen(10) == 10_000_000_000;
    assert PowerOfTen(15) == 1_000_000_000_000_000;
    assert PowerOfTen(20) == 100_000_000_000_000_000_000;
  }

  lemma SixtyFourBitsFitTwentyDigits(n: nat)
    requires n < U64
    ensures |Numeral(n)| <= 20
  {
    TwentyDigitsSuffice();
    NumeralLength(n, 20);
  }

  function Reversed<T>(s: seq<T>): (r: seq<T>)
    ensures |r| == |s|
    ensures forall k :: 0 <= k < |s| ==> r[k] == s[|s| - 1 - k]
  {
    if s == [] then [] else Reversed(s[1..]) + [s[0]]
  }

  lemma {:induction false} ReversedSnoc<T>(s: seq<T>, x: T)
    ensures Reversed(s + [x]) == [x] + Reversed(s)
  {
  }

  /** Reverses the first n characters in place, leaving the rest alone. */
  method ReversePrefix(a: array<char>, n: nat)
    requires n <= a.Length
    modifies a
    ensures a[..n] == Reversed(old(a[..n]))
    ensures a[n..] == old(a[n..])
  {
    var lo, hi := 0, n;
    while lo < hi
      invariant 0 <= lo <= n && lo + hi == n
      invariant lo <= hi + 1
      invariant forall k :: 0 <= k < a.Length ==>
        a[k] == if (k < lo || hi <= k) && k < n then old(a[n - 1 - k]) else old(a[k])
      decreases hi - lo
    {
      a[lo], a[hi - 1] := a[hi - 1], a[lo];
      lo, hi := lo + 1, hi - 1;
    }
    assert forall k :: 0 <= k < n ==> a[..n][k] == Reversed(old(a[..n]))[k];
  }

  lemma LastDigit(i: nat)
    ensures Numeral(i) == (if i / 10 != 0 then Numeral(i / 10) else []) + [DIGITS[i % 10]]
  {
  }

  /** One round of the loop moves the last digit of what remains to the end of what is written. */
  lemma DigitMoved(i: nat, written: string)
    ensures (if i / 10 != 0 then Numeral(i / 10) else []) + Reversed(written + [DIGITS[i % 10]])
         == Numeral(i) + Reversed(written)
  {
    hide Numeral, Reversed;
    LastDigit(i);
    ReversedSnoc(written, DIGITS[i % 10]);
    Regroup(if i / 10 != 0 then Numeral(i / 10) else [], [DIGITS[i % 10]], Reversed(written));
  }

  lemma {:induction false} NegativeTimes(i: int, m: int)
    requires i < 0 && m > 0
    ensures i * m <= -1 * m
    decreases -i
  {
    if i < -1 {
      NegativeTimes(i + 1, m);
      assert i * m == (i + 1) * m - m;
    }
  }

  lemma NextPower(i: int, p: nat)
    ensures (10 * i) * PowerOfTen(p) == i * PowerOfTen(p + 1)
  {
    var m := PowerOfTen(p);
    assert PowerOfTen(p + 1) == 10 * m;
    assert (10 * i) * m == i * (10 * m);
  }

  /** What is left of a negative value, and the zeros already cut off its end, give its size. */
  lemma ZerosCut(value: int, i: int, p: nat)
    requires -U64 < value < 0 && i < 0 && value == i * PowerOfTen(p)
    ensures p < 20
    ensures i - 10 * TruncatedTenth(i) == 0 ==> TruncatedTenth(i) < 0 && value == TruncatedTenth(i) * PowerOfTen(p + 1)
  {
    hide PowerOfTen;
    NegativeTimes(i, PowerOfTen(p));
    NextPower(TruncatedTenth(i), p);
    if p >= 20 {
      PowerGrows(p);
    }
  }

  lemma {:induction false} PowerGrows(p: nat)
    requires p >= 20
    ensures PowerOfTen(p) >= U64
  {
    if p == 20 {
      TwentyDigitsSuffice();
    } else {
      PowerGrows(p - 1);
    }
  }

  /**
   * The do-while loop: leaves the digits of `value`, least significant first, at the front; a negative value makes it
   * leave the digit table.
   */
  method WriteDigitsBackwards(outbuf: array<char>, value: int) returns (r: Checked<nat>)
    requires -U64 < value < U64 && MIN_SPACE <= outbuf.Length
    modifies outbuf
    ensures r.Fault? <==> value < 0
    ensures value >= 0 ==>
      && r.value == |Numeral(value)| <= 20
      && Reversed(outbuf[..r.value]) == Numeral(value)
      && outbuf[r.value..] == old(outbuf[r.value..])
  {
    hide Numeral, Reversed, PowerOfTen;
    if value >= 0 {
      SixtyFourBitsFitTwentyDigits(value);
    }
    var p: nat := 0;
    var i, more := value, true;
    assert value == value * PowerOfTen(0) by { FirstPower(); }
    while more
      invariant value >= 0 ==> i >= 0 && p <= |Numeral(value)| <= 20
      invariant value >= 0 ==> Numeral(value) == (if more then Numeral(i) else []) + Reversed(outbuf[..p])
      invariant value < 0 ==> more && i < 0 && value == i * PowerOfTen(p)
      invariant forall k :: p <= k < outbuf.Length ==> outbuf[k] == old(outbuf[k])
      decreases more, if i < 0 then -i else i
    {
      var lsd := i - 10 * TruncatedTenth(i);
      if value < 0 {
        ZerosCut(value, i, p);
      } else {
        assert lsd == i % 10 && |Numeral(i)| > 0;
        DigitMoved(i, outbuf[..p]);
      }
      if lsd < 0 {
        return Fault("str_func.h:29");
      }
      ghost var before := outbuf[..p];
      outbuf[p] := DIGITS[lsd];
      p := p + 1;
      assert outbuf[..p] == before + [DIGITS[lsd]];
      i := TruncatedTenth(i);
      more := i != 0;
      assert value >= 0 ==> |Numeral(value)| == |if more then Numeral(i) else []| + p;
    }
    r := Fine(p);
  }

  /**
   * `convert`: writes the decimal text of `value` and a terminator, and returns the text's length; too small a space
   * is reported by zero and leaves the space untouched. A negative value indexes outside the digit table before a sign
   * could be written, as `IndicesInRangeIff` says.
   */
  method Convert(outbuf: array<char>, size: int, value: int) returns (r: Checked<nat>)
    requires size <= outbuf.Length
    requires -U64 < value < U64
    modifies outbuf
    ensures r.Fault? <==> size >= 32 && value < 0
    ensures size < 32 ==> r == Fine(0) && outbuf[..] == old(outbuf[..])
    ensures size >= 32 && value >= 0 ==>
      && 0 < r.value <= 20 < size
      && outbuf[..r.value] == Numeral(value)
      && outbuf[r.value] == '\0'
      && outbuf[r.value + 1..] == old(outbuf[r.value + 1..])
  {
    if size < MIN_SPACE {
      return Fine(0);
    }
    var length :- WriteDigitsBackwards(outbuf, value);
    ghost var digits := outbuf[..length];
    assert outbuf[length + 1..] == outbuf[length..][1..];
    outbuf[length] := '\0';
    assert outbuf[..length] == digits;
    ReversePrefix(outbuf, length);
    assert outbuf[length] == outbuf[length..][0];
    assert outbuf[length + 1..] == outbuf[length..][1..];
    return Fine(length);
  }
}
