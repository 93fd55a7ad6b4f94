/** The few `java.lang.String` and `java.lang.Integer` operations the executor
    relies on, with their exact Java behaviour on edge cases spelled out:
    splitting on a one-character literal (with and without a limit), literal
    replacement and removal of one character, and `Integer.toString`. */
module JavaStrings {

  /** `s` begins with `p`. */
  predicate StartsWith(s: string, p: string)
  {
    |p| <= |s| && s[..|p|] == p
  }

  lemma StartsWithExtend(s: string, p: string, t: string)
    requires StartsWith(s, p)
    ensures StartsWith(s + t, p)
  {
  }

  // ---------------------------------------------------------------------------
  // Splitting on one character
  // ---------------------------------------------------------------------------

  /** The pieces of `s` between the occurrences of `c`, keeping every empty
      piece: there is always one more piece than there are occurrences. */
  function SplitAll(s: string, c: char): (r: seq<string>)
    ensures |r| >= 1
    decreases |s|
  {
    if |s| == 0 then [""]
    else if s[0] == c then [""] + SplitAll(s[1..], c)
    else
      var t := SplitAll(s[1..], c);
      [[s[0]] + t[0]] + t[1..]
  }

  /** No piece holds the separator. */
  lemma {:induction false} SplitAllPieces(s: string, c: char)
    ensures forall i :: 0 <= i < |SplitAll(s, c)| ==> c !in SplitAll(s, c)[i]
    decreases |s|
  {
    if |s| > 0 {
      SplitAllPieces(s[1..], c);
      var t := SplitAll(s[1..], c);
      if s[0] != c {
        assert c !in t[0];
        assert c !in [s[0]] + t[0];
      }
    }
  }

  /** The pieces glued back together with `c` between consecutive ones. */
  function Join(ps: seq<string>, c: char): string
    requires |ps| >= 1
    decreases |ps|
  {
    if |ps| == 1 then ps[0] else ps[0] + [c] + Join(ps[1..], c)
  }

  lemma {:induction false} SplitAllNoSeparator(s: string, c: char)
    requires c !in s
    ensures SplitAll(s, c) == [s]
    decreases |s|
  {
    if |s| > 0 {
      SplitAllNoSeparator(s[1..], c);
      assert [s[0]] + s[1..] == s;
    }
  }

  /** A piece free of `c` followed by `c` splits off as one piece. */
  lemma {:induction false} SplitAllPrefix(a: string, b: string, c: char)
    requires c !in a
    ensures SplitAll(a + [c] + b, c) == [a] + SplitAll(b, c)
    decreases |a|
  {
    var s := a + [c] + b;
    if |a| == 0 {
      assert s == [c] + b;
      assert s[1..] == b;
    } else {
      assert s[0] == a[0] && s[1..] == a[1..] + [c] + b;
      SplitAllPrefix(a[1..], b, c);
      assert [a[0]] + a[1..] == a;
    }
  }

  /** Gluing the pieces back together gives the original string. */
  lemma {:induction false} JoinSplitAll(s: string, c: char)
    ensures Join(SplitAll(s, c), c) == s
    decreases |s|
  {
    if |s| > 0 {
      var t := SplitAll(s[1..], c);
      JoinSplitAll(s[1..], c);
      if s[0] == c {
        assert SplitAll(s, c) == [""] + t;
        assert ([""] + t)[1..] == t;
        assert [c] + s[1..] == s;
      } else {
        var r := SplitAll(s, c);
        assert r == [[s[0]] + t[0]] + t[1..];
        if |t| == 1 {
          assert [s[0]] + s[1..] == s;
        } else {
          assert r[1..] == t[1..];
          assert Join(t, c) == t[0] + [c] + Join(t[1..], c);
          assert [s[0]] + s[1..] == s;
        }
      }
    }
  }

  /** Splitting what `Join` glued gives back the pieces, when no piece holds
      the separator. */
  lemma {:induction false} SplitAllJoin(ps: seq<string>, c: char)
    requires |ps| >= 1
    requires forall i :: 0 <= i < |ps| ==> c !in ps[i]
    ensures SplitAll(Join(ps, c), c) == ps
    decreases |ps|
  {
    if |ps| == 1 {
      SplitAllNoSeparator(ps[0], c);
    } else {
      SplitAllJoin(ps[1..], c);
      SplitAllPrefix(ps[0], Join(ps[1..], c), c);
      assert [ps[0]] + ps[1..] == ps;
    }
  }

  /** One line `x` terminated by `c`. */
  lemma SplitAllTerminated(x: string, c: char)
    requires c !in x
    ensures SplitAll(x + [c], c) == [x, ""]
  {
    SplitAllPrefix(x, "", c);
    assert x + [c] + "" == x + [c];
  }

  /** Drops the empty pieces at the end, as `String.split` does with limit 0. */
  function DropTrailingEmpty(ps: seq<string>): seq<string>
    decreases |ps|
  {
    if |ps| > 0 && ps[|ps| - 1] == "" then DropTrailingEmpty(ps[..|ps| - 1]) else ps
  }

  /** What is dropped is a run of empty pieces at the end, and the result
      does not end with an empty piece. */
  lemma {:induction false} DropTrailingEmptyPrefix(ps: seq<string>)
    ensures var r := DropTrailingEmpty(ps);
      && |r| <= |ps| && r == ps[..|r|]
      && (r == [] || r[|r| - 1] != "")
      && (forall i :: |r| <= i < |ps| ==> ps[i] == "")
    decreases |ps|
  {
    if |ps| > 0 && ps[|ps| - 1] == "" {
      DropTrailingEmptyPrefix(ps[..|ps| - 1]);
    }
  }

  /** `s.split(String.valueOf(c))` for a character `c` that is not a regular
      expression metacharacter (limit 0): no match gives the string itself,
      even the empty string; otherwise the pieces with the trailing empty
      ones removed, so interior empty pieces stay. */
  function JavaSplit(s: string, c: char): seq<string>
  {
    if s == "" then [""] else DropTrailingEmpty(SplitAll(s, c))
  }

  /** What `String.split` returns: pieces free of `c`; for a non-empty
      string, all pieces up to the last non-empty one, the dropped ones being
      empty. */
  lemma JavaSplitPieces(s: string, c: char)
    ensures var r := JavaSplit(s, c);
      && (forall i :: 0 <= i < |r| ==> c !in r[i])
      && (s == "" ==> r == [""])
      && (s != "" ==> |r| <= |SplitAll(s, c)| && r == SplitAll(s, c)[..|r|])
      && (s != "" ==> r == [] || r[|r| - 1] != "")
      && (s != "" ==> forall i :: |r| <= i < |SplitAll(s, c)| ==> SplitAll(s, c)[i] == "")
  {
    SplitAllPieces(s, c);
    DropTrailingEmptyPrefix(SplitAll(s, c));
  }

  lemma JavaSplitNoSeparator(s: string, c: char)
    requires c !in s
    ensures JavaSplit(s, c) == [s]
  {
    SplitAllNoSeparator(s, c);
  }

  /** The first index of `c` in `s`. */
  function IndexOf(s: string, c: char): (i: nat)
    requires c in s
    ensures i < |s| && s[i] == c && c !in s[..i]
    decreases |s|
  {
    if s[0] == c then 0
    else
      var j := IndexOf(s[1..], c);
      assert s[..j + 1] == [s[0]] + s[1..][..j];
      j + 1
  }

  /** `s.split(String.valueOf(c), 2)`: one piece when `c` does not occur,
      otherwise the text before the first `c` and everything after it, the
      latter possibly empty or holding further `c`s. */
  function SplitFirst(s: string, c: char): (r: seq<string>)
    ensures |r| == (if c in s then 2 else 1)
    ensures |r| == 1 ==> r[0] == s
    ensures |r| == 2 ==> c !in r[0] && s == r[0] + [c] + r[1]
  {
    if c in s then
      var i := IndexOf(s, c);
      assert s == s[..i] + [c] + s[i + 1..];
      [s[..i], s[i + 1..]]
    else [s]
  }

  /** Splitting at the first `c` recovers the two parts of `a + [c] + b` when
      `a` does not contain `c`. */
  lemma SplitFirstJoin(a: string, b: string, c: char)
    requires c !in a
    ensures SplitFirst(a + [c] + b, c) == [a, b]
  {
    var s := a + [c] + b;
    assert s[|a|] == c;
    var r := SplitFirst(s, c);
    assert |r| == 2;
    assert r[0] == s[..|a|] == a;
    assert r[1] == s[|a| + 1..] == b;
  }

  // ---------------------------------------------------------------------------
  // Replacing and removing one character
  // ---------------------------------------------------------------------------

  /** `s.replace(from, to)` for single characters: every `from` becomes `to`. */
  function ReplaceChar(s: string, from: char, to: char): (r: string)
    ensures |r| == |s|
    ensures forall i :: 0 <= i < |s| ==> r[i] == (if s[i] == from then to else s[i])
    decreases |s|
  {
    if |s| == 0 then ""
    else [if s[0] == from then to else s[0]] + ReplaceChar(s[1..], from, to)
  }

  /** `s.replace(String.valueOf(c), "")`: `s` with every `c` deleted. */
  function RemoveChar(s: string, c: char): (r: string)
    ensures c !in r
    ensures |r| <= |s|
    ensures c !in s ==> r == s
    decreases |s|
  {
    if |s| == 0 then ""
    else
      var rest := RemoveChar(s[1..], c);
      if s[0] == c then rest
      else
        assert c !in s ==> [s[0]] + s[1..] == s;
        [s[0]] + rest
  }

  /** Removing a character commutes with concatenation. */
  lemma {:induction false} RemoveCharAppend(a: string, b: string, c: char)
    ensures RemoveChar(a + b, c) == RemoveChar(a, c) + RemoveChar(b, c)
    decreases |a|
  {
    if |a| == 0 {
      assert a + b == b;
    } else {
      assert (a + b)[1..] == a[1..] + b;
      assert (a + b)[0] == a[0];
      RemoveCharAppend(a[1..], b, c);
    }
  }

  /** The pieces glued together with nothing between them. */
  function Concat(ps: seq<string>): string
    decreases |ps|
  {
    if ps == [] then "" else ps[0] + Concat(ps[1..])
  }

  /** Removing `c` from pieces glued with `c` leaves the pieces themselves,
      in order, with nothing between them. */
  lemma {:induction false} RemoveCharJoin(ps: seq<string>, c: char)
    requires |ps| >= 1
    requires forall i :: 0 <= i < |ps| ==> c !in ps[i]
    ensures RemoveChar(Join(ps, c), c) == Concat(ps)
    decreases |ps|
  {
    if |ps| == 1 {
      assert ps[1..] == [];
      assert Concat(ps) == ps[0] + "";
    } else {
      var rest := Join(ps[1..], c);
      RemoveCharJoin(ps[1..], c);
      assert [c][1..] == "";
      assert RemoveChar([c], c) == "";
      RemoveCharAppend(ps[0], [c], c);
      RemoveCharAppend(ps[0] + [c], rest, c);
    }
  }

  /** `s` with every `c` deleted is exactly the text between the occurrences
      of `c`, kept in order. */
  lemma RemoveCharSplit(s: string, c: char)
    ensures RemoveChar(s, c) == Concat(SplitAll(s, c))
  {
    JoinSplitAll(s, c);
    SplitAllPieces(s, c);
    RemoveCharJoin(SplitAll(s, c), c);
  }

  // ---------------------------------------------------------------------------
  // Integer.toString
  // ---------------------------------------------------------------------------

  predicate IsDigit(ch: char)
  {
    '0' <= ch <= '9'
  }

  function DigitChar(d: nat): (ch: char)
    requires d < 10
    ensures IsDigit(ch) && ch as int - '0' as int == d
  {
    ('0' as int + d) as char
  }

  /** The decimal digits of `n`, most significant first, without leading
      zeros. */
  function Digits(n: nat): (r: string)
    ensures |r| >= 1
    ensures forall i :: 0 <= i < |r| ==> IsDigit(r[i])
    ensures |r| > 1 ==> r[0] != '0'
    decreases n
  {
    if n < 10 then [DigitChar(n)] else Digits(n / 10) + [DigitChar(n % 10)]
  }

  /** `Integer.toString(n)`: a minus sign for negative values, then the
      digits of the magnitude. */
  function IntToString(n: int): (r: string)
    ensures |r| >= 1
    ensures forall i :: 0 <= i < |r| ==> r[i] == '-' || IsDigit(r[i])
    ensures (r[0] == '-') <==> n < 0
  {
    if n < 0 then "-" + Digits(-n) else Digits(n)
  }

  /** The value of a string of decimal digits. */
  function ParseDigits(s: string): int
    requires forall i :: 0 <= i < |s| ==> IsDigit(s[i])
    decreases |s|
  {
    if |s| == 0 then 0
    else ParseDigits(s[..|s| - 1]) * 10 + (s[|s| - 1] as int - '0' as int)
  }

  /** `Integer.parseInt` on what `Integer.toString` writes. */
  function ParseInt(s: string): int
    requires |s| >= 1
    requires forall i :: 0 <= i < |s| ==> (i == 0 && s[i] == '-') || IsDigit(s[i])
  {
    if s[0] == '-' then -ParseDigits(s[1..]) else ParseDigits(s)
  }

  lemma {:induction false} ParseDigitsOfDigits(n: nat)
    ensures ParseDigits(Digits(n)) == n
    decreases n
  {
    if n >= 10 {
      ParseDigitsOfDigits(n / 10);
      var d := Digits(n);
      assert d[..|d| - 1] == Digits(n / 10);
    }
  }

  /** `Integer.toString` loses nothing: parsing its output gives the number
      back, so distinct project ids give distinct strings. */
  lemma IntToStringRoundTrip(n: int)
    ensures ParseInt(IntToString(n)) == n
  {
    if n < 0 {
      ParseDigitsOfDigits(-n);
      assert IntToString(n)[1..] == Digits(-n);
    } else {
      ParseDigitsOfDigits(n);
    }
  }

  lemma IntToStringInjective(m: int, n: int)
    ensures IntToString(m) == IntToString(n) <==> m == n
  {
    IntToStringRoundTrip(m);
    IntToStringRoundTrip(n);
  }
}
