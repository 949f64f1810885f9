/** The JavaScript string built-ins the reconciler relies on, over ASCII:
    split on one character, join, includes, startsWith, replacing the first
    occurrence of a literal, trim, and the decimal rendering of a number in a
    template string. */
module Text {
  import opened Seqs

  /** The position of the first `c` in `s`, or |s| when there is none. */
  function IndexOf(s: string, c: char): (k: nat)
    ensures k <= |s|
    ensures c !in s[..k]
    ensures k < |s| ==> s[k] == c
  {
    if s == [] then 0
    else if s[0] == c then 0
    else
      var k := IndexOf(s[1..], c);
      assert s[..k + 1] == [s[0]] + s[1..][..k];
      k + 1
  }

  /** A position holding `c` with no `c` before it is the one `IndexOf` finds. */
  lemma IndexOfIs(s: string, c: char, k: nat)
    requires k <= |s| && c !in s[..k] && (k < |s| ==> s[k] == c)
    ensures IndexOf(s, c) == k
  {
  }

  /** String.prototype.split with a one-character separator: the pieces between
      the separators, empty pieces included; "" splits into [""]. */
  function Split(s: string, c: char): (r: seq<string>)
    ensures |r| >= 1
    ensures forall i :: 0 <= i < |r| ==> c !in r[i]
    decreases |s|
  {
    var k := IndexOf(s, c);
    if k == |s| then [s] else [s[..k]] + Split(s[k + 1..], c)
  }

  /** Array.prototype.join: the pieces with `sep` between neighbours; [] joins to "". */
  function Join(ss: seq<string>, sep: string): string
  {
    if |ss| == 0 then ""
    else if |ss| == 1 then ss[0]
    else ss[0] + sep + Join(ss[1..], sep)
  }

  /** Joining the pieces of a split with the separator gives the text back. */
  lemma {:induction false} JoinSplit(s: string, c: char)
    ensures Join(Split(s, c), [c]) == s
    decreases |s|
  {
    var k := IndexOf(s, c);
    if k < |s| {
      JoinSplit(s[k + 1..], c);
      assert s == s[..k] + [c] + s[k + 1..];
    }
  }

  /** Splitting a join of separator-free pieces gives the pieces back. */
  lemma {:induction false} SplitJoin(ss: seq<string>, c: char)
    requires |ss| >= 1
    requires forall i :: 0 <= i < |ss| ==> c !in ss[i]
    ensures Split(Join(ss, [c]), c) == ss
  {
    var s := Join(ss, [c]);
    if |ss| == 1 {
      IndexOfIs(s, c, |s|);
    } else {
      var rest := Join(ss[1..], [c]);
      assert s == ss[0] + [c] + rest;
      assert s[..|ss[0]|] == ss[0];
      IndexOfIs(s, c, |ss[0]|);
      assert s[|ss[0]| + 1..] == rest;
      SplitJoin(ss[1..], c);
    }
  }

  /** Every piece appears in the join, at a position the lemma names. */
  lemma {:induction false} JoinHasPiece(ss: seq<string>, sep: string, k: nat) returns (pos: nat)
    requires k < |ss|
    ensures OccursAt(Join(ss, sep), ss[k], pos)
  {
    if |ss| == 1 {
      pos := 0;
      assert Join(ss, sep)[0..|ss[0]|] == ss[0];
    } else {
      var rest := Join(ss[1..], sep);
      var s := ss[0] + sep + rest;
      if k == 0 {
        pos := 0;
        assert s[0..|ss[0]|] == ss[0];
      } else {
        var p := JoinHasPiece(ss[1..], sep, k - 1);
        pos := |ss[0]| + |sep| + p;
        var n, off := |ss[k]|, |ss[0]| + |sep|;
        assert ss[1..][k - 1] == ss[k];
        assert Join(ss, sep) == s;
        assert s[off..] == rest;
        assert s[pos..pos + n] == s[off..][p..p + n];
      }
    }
  }

  /** There is one more piece than there are separators. */
  lemma {:induction false} SplitCount(s: string, c: char)
    ensures |Split(s, c)| == multiset(s)[c] + 1
    decreases |s|
  {
    var k := IndexOf(s, c);
    assert multiset(s[..k])[c] == 0;
    if k == |s| {
      assert s[..k] == s;
    } else {
      SplitCount(s[k + 1..], c);
      assert s == s[..k] + [c] + s[k + 1..];
    }
  }

  predicate StartsWith(s: string, prefix: string)
  {
    |prefix| <= |s| && s[..|prefix|] == prefix
  }

  /** `sub` occurs in `s` starting at position `k`. */
  predicate OccursAt(s: string, sub: string, k: nat)
  {
    k + |sub| <= |s| && s[k..k + |sub|] == sub
  }

  lemma OccursShift(s: string, sub: string, k: nat)
    requires |s| > 0
    ensures OccursAt(s, sub, k + 1) <==> OccursAt(s[1..], sub, k)
  {
    if k + 1 + |sub| <= |s| {
      assert s[k + 1..k + 1 + |sub|] == s[1..][k..k + |sub|];
    }
  }

  /** String.prototype.indexOf for a literal: the first position where `sub` occurs. */
  function IndexOfSub(s: string, sub: string): (r: Option<nat>)
    ensures r.Some? ==> OccursAt(s, sub, r.value)
    ensures r.Some? ==> forall k: nat :: k < r.value ==> !OccursAt(s, sub, k)
    ensures r.None? ==> forall k: nat :: !OccursAt(s, sub, k)
    decreases |s|
  {
    if |s| < |sub| then None
    else if s[..|sub|] == sub then Some(0)
    else
      var r := IndexOfSub(s[1..], sub);
      assert !OccursAt(s, sub, 0);
      assert forall k: nat :: OccursAt(s, sub, k + 1) <==> OccursAt(s[1..], sub, k) by {
        forall k: nat ensures OccursAt(s, sub, k + 1) <==> OccursAt(s[1..], sub, k) {
          OccursShift(s, sub, k);
        }
      }
      if r.None? then
        assert forall k: nat :: !OccursAt(s, sub, k) by {
          forall k: nat ensures !OccursAt(s, sub, k) {
            if k > 0 { assert !OccursAt(s[1..], sub, k - 1); }
          }
        }
        None
      else
        assert forall k: nat :: k < r.value + 1 ==> !OccursAt(s, sub, k) by {
          forall k: nat | k < r.value + 1 ensures !OccursAt(s, sub, k) {
            if k > 0 { assert !OccursAt(s[1..], sub, k - 1); }
          }
        }
        Some(r.value + 1)
  }

  /** String.prototype.includes. */
  predicate Contains(s: string, sub: string)
  {
    IndexOfSub(s, sub).Some?
  }

  /** `includes` holds exactly when some position holds an occurrence. */
  lemma ContainsIff(s: string, sub: string)
    ensures Contains(s, sub) <==> exists k: nat :: OccursAt(s, sub, k)
  {
  }

  /** String.prototype.replace with a pattern that matches a literal and no `g`
      flag: only the first occurrence is replaced; without one, `s` is returned. */
  function ReplaceFirst(s: string, pattern: string, replacement: string): (r: string)
    ensures !Contains(s, pattern) ==> r == s
    ensures Contains(s, pattern) ==> |r| == |s| - |pattern| + |replacement|
    ensures Contains(s, pattern) ==>
              exists k: nat :: OccursAt(s, pattern, k) && (forall j: nat :: j < k ==> !OccursAt(s, pattern, j)) &&
                               r == s[..k] + replacement + s[k + |pattern|..]
  {
    match IndexOfSub(s, pattern)
    case None => s
    case Some(k) => s[..k] + replacement + s[k + |pattern|..]
  }

  predicate IsAsciiWhitespace(c: char)
  {
    c == ' ' || c == '\t' || c == '\n' || c == '\U{000B}' || c == '\U{000C}' || c == '\r'
  }

  /** The text left after dropping leading whitespace. */
  function TrimStart(s: string): (r: string)
    ensures |r| <= |s| && r == s[|s| - |r|..]
    ensures forall i :: 0 <= i < |s| - |r| ==> IsAsciiWhitespace(s[i])
    ensures r != [] ==> !IsAsciiWhitespace(r[0])
  {
    if s != [] && IsAsciiWhitespace(s[0]) then TrimStart(s[1..]) else s
  }

  /** The text left after dropping trailing whitespace. */
  function TrimEnd(s: string): (r: string)
    ensures |r| <= |s| && r == s[..|r|]
    ensures forall i :: |r| <= i < |s| ==> IsAsciiWhitespace(s[i])
    ensures r != [] ==> !IsAsciiWhitespace(r[|r| - 1])
  {
    if s != [] && IsAsciiWhitespace(s[|s| - 1]) then TrimEnd(s[..|s| - 1]) else s
  }

  /** String.prototype.trim, restricted to ASCII whitespace. */
  function Trim(s: string): (r: string)
    ensures |r| <= |s|
    ensures r != [] ==> !IsAsciiWhitespace(r[0]) && !IsAsciiWhitespace(r[|r| - 1])
  {
    TrimEnd(TrimStart(s))
  }

  /** Positions i..j of `s` are surrounded by whitespace only. */
  predicate Padded(s: string, i: nat, j: nat)
  {
    i <= j <= |s| &&
    (forall k :: 0 <= k < i ==> IsAsciiWhitespace(s[k])) &&
    (forall k :: j <= k < |s| ==> IsAsciiWhitespace(s[k]))
  }

  /** Trim keeps the middle of `s` and removes whitespace, all of it, from both ends. */
  lemma TrimIsMiddle(s: string)
    ensures exists i: nat, j: nat :: Padded(s, i, j) && Trim(s) == s[i..j]
    ensures Trim(s) != [] ==> !IsAsciiWhitespace(Trim(s)[0]) && !IsAsciiWhitespace(Trim(s)[|Trim(s)| - 1])
  {
    var t := TrimStart(s);
    var i := |s| - |t|;
    var j := i + |Trim(s)|;
    assert Padded(s, i, j) && Trim(s) == s[i..j] by {
      assert t == s[i..];
      forall k | j <= k < |s| ensures IsAsciiWhitespace(s[k]) {
        assert s[k] == t[k - i];
      }
    }
    if Trim(s) != [] {
      assert Trim(s)[0] == t[0];
    }
  }

  /** A text with no whitespace at either end is its own trim, so `trim` is idempotent. */
  lemma TrimKeeps(s: string)
    requires s != [] ==> !IsAsciiWhitespace(s[0]) && !IsAsciiWhitespace(s[|s| - 1])
    ensures Trim(s) == s
  {
  }

  predicate IsDigit(c: char)
  {
    '0' <= c <= '9'
  }

  function DigitChar(d: nat): (c: char)
    requires d < 10
    ensures IsDigit(c)
  {
    "0123456789"[d]
  }

  function DigitValue(c: char): (d: nat)
    requires IsDigit(c)
    ensures d < 10
  {
    (c as int) - ('0' as int)
  }

  /** A number in a template string: its decimal digits, most significant first,
      with no leading zero. */
  function DecimalString(n: nat): (r: string)
    ensures |r| >= 1
    ensures forall i :: 0 <= i < |r| ==> IsDigit(r[i])
    ensures n > 0 ==> r[0] != '0'
  {
    if n < 10 then [DigitChar(n)] else DecimalString(n / 10) + [DigitChar(n % 10)]
  }

  /** The value of a string of decimal digits. */
  function ParseDecimal(s: string): nat
    requires forall i :: 0 <= i < |s| ==> IsDigit(s[i])
  {
    if s == [] then 0 else ParseDecimal(s[..|s| - 1]) * 10 + DigitValue(s[|s| - 1])
  }

  /** Reading the rendered digits back gives the number. */
  lemma {:induction false} DecimalRoundTrip(n: nat)
    ensures ParseDecimal(DecimalString(n)) == n
  {
    var r := DecimalString(n);
    if n < 10 {
      assert r[..0] == [];
      assert DigitValue(DigitChar(n)) == n;
    } else {
      DecimalRoundTrip(n / 10);
      assert r[..|r| - 1] == DecimalString(n / 10);
      assert DigitValue(DigitChar(n % 10)) == n % 10;
    }
  }

  /** Different numbers render differently. */
  lemma DecimalInjective(m: nat, n: nat)
    requires m != n
    ensures DecimalString(m) != DecimalString(n)
  {
    DecimalRoundTrip(m);
    DecimalRoundTrip(n);
  }
}
