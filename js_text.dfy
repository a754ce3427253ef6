/** The JavaScript string built-ins the engine relies on: `Array.prototype.join()`
    with its default separator, splitting on that separator, the decimal text a
    template literal gives a non-negative integer, and `String.prototype.includes`. */
module JsText {

  /** The separator `Array.prototype.join()` uses when none is given. */
  const SEPARATOR: char := ','

  /** `xs.join()`: the elements separated by commas; the empty list joins to "". */
  function Join(xs: seq<string>): string
  {
    if |xs| == 0 then ""
    else if |xs| == 1 then xs[0]
    else xs[0] + [SEPARATOR] + Join(xs[1..])
  }

  /** `s.split(",")`: the maximal comma-free pieces of `s`, in order. */
  function Split(s: string): (parts: seq<string>)
    ensures |parts| >= 1
  {
    if s == [] then [""]
    else
      var rest := Split(s[1..]);
      if s[0] == SEPARATOR then [""] + rest
      else [[s[0]] + rest[0]] + rest[1..]
  }

  /** No element of `xs` contains the separator. */
  predicate SeparatorFree(xs: seq<string>)
  {
    forall i :: 0 <= i < |xs| ==> SEPARATOR !in xs[i]
  }

  lemma {:induction false} SplitSeparatorFree(a: string)
    requires SEPARATOR !in a
    ensures Split(a) == [a]
  {
    if a != [] {
      SplitSeparatorFree(a[1..]);
      assert [a[0]] + a[1..] == a;
    }
  }

  lemma {:induction false} SplitPiece(a: string, t: string)
    requires SEPARATOR !in a
    ensures Split(a + [SEPARATOR] + t) == [a] + Split(t)
  {
    if a == [] {
      assert a + [SEPARATOR] + t == [SEPARATOR] + t;
      assert ([SEPARATOR] + t)[1..] == t;
    } else {
      var s := a + [SEPARATOR] + t;
      assert s[1..] == a[1..] + [SEPARATOR] + t;
      SplitPiece(a[1..], t);
      assert [a[0]] + a[1..] == a;
    }
  }

  /** Splitting a joined list gives the list back, provided no element holds
      a comma (a comma inside an element would split it in two). */
  lemma {:induction false} SplitJoin(xs: seq<string>)
    requires |xs| >= 1 && SeparatorFree(xs)
    ensures Split(Join(xs)) == xs
  {
    assert SEPARATOR !in xs[0];
    if |xs| == 1 {
      SplitSeparatorFree(xs[0]);
    } else {
      assert SeparatorFree(xs[1..]) by {
        forall i | 0 <= i < |xs[1..]| ensures SEPARATOR !in xs[1..][i] {
          assert xs[1..][i] == xs[i + 1];
        }
      }
      SplitJoin(xs[1..]);
      SplitPiece(xs[0], Join(xs[1..]));
      assert [xs[0]] + xs[1..] == xs;
    }
  }

  /** The character of a decimal digit. */
  function DigitChar(d: nat): (c: char)
    requires d < 10
    ensures '0' <= c <= '9'
  {
    (48 + d) as char
  }

  /** `${n}` for a non-negative integer: its decimal digits, without leading zeros. */
  function DecimalText(n: nat): (s: string)
    ensures |s| >= 1
    ensures forall i :: 0 <= i < |s| ==> '0' <= s[i] <= '9'
    ensures s[0] == '0' ==> n == 0
    decreases n
  {
    if n < 10 then [DigitChar(n)] else DecimalText(n / 10) + [DigitChar(n % 10)]
  }

  /** The value of a string of decimal digits, the inverse of `DecimalText`. */
  function DecimalValue(s: string): nat
  {
    if s == [] then 0
    else
      var c := s[|s| - 1];
      DecimalValue(s[..|s| - 1]) * 10 + (if '0' <= c <= '9' then (c as int - 48) else 0)
  }

  /** Reading back the decimal text of `n` gives `n`. */
  lemma {:induction false} DecimalRoundTrip(n: nat)
    ensures DecimalValue(DecimalText(n)) == n
    decreases n
  {
    var s := DecimalText(n);
    if n >= 10 {
      DecimalRoundTrip(n / 10);
      assert s[..|s| - 1] == DecimalText(n / 10);
    }
  }

  /** Distinct numbers have distinct decimal texts. */
  lemma DecimalTextInjective(m: nat, n: nat)
    requires m != n
    ensures DecimalText(m) != DecimalText(n)
  {
    DecimalRoundTrip(m);
    DecimalRoundTrip(n);
  }

  /** `sub` occurs in `s` starting at index `i`. */
  ghost predicate OccursAt(s: string, sub: string, i: int)
  {
    0 <= i && i + |sub| <= |s| && s[i..i + |sub|] == sub
  }

  /** `s.includes(sub)`. */
  function Includes(s: string, sub: string): bool
    decreases |s|
  {
    if |s| < |sub| then false
    else s[..|sub|] == sub || Includes(s[1..], sub)
  }

  /** `Includes` holds exactly when `sub` occurs somewhere in `s`. */
  lemma {:induction false} IncludesOccurs(s: string, sub: string)
    ensures Includes(s, sub) <==> exists i :: OccursAt(s, sub, i)
    decreases |s|
  {
    if |s| >= |sub| && s[..|sub|] == sub {
      assert OccursAt(s, sub, 0);
    } else if |s| >= |sub| {
      IncludesOccurs(s[1..], sub);
      if Includes(s[1..], sub) {
        var i :| OccursAt(s[1..], sub, i);
        assert s[i + 1..i + 1 + |sub|] == s[1..][i..i + |sub|];
        assert OccursAt(s, sub, i + 1);
      } else {
        forall i | OccursAt(s, sub, i) ensures false {
          if i != 0 {
            assert s[1..][i - 1..i - 1 + |sub|] == s[i..i + |sub|];
            assert OccursAt(s[1..], sub, i - 1);
          }
        }
      }
    } else {
      forall i | OccursAt(s, sub, i) ensures false {
      }
    }
  }
}
