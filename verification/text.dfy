/**
 * The few Python string built-ins the provisioning code relies on, written out so
 * that their behaviour can be reasoned about: `str.find`, `str.split`, `str.join`,
 * `str.replace` (non-empty pattern), `str(int)` and `int(str)`.
 */
module Text {
  import opened Common

  // ---------------------------------------------------------------------------
  // Searching
  // ---------------------------------------------------------------------------

  /** `p` occurs in `s` starting at index `i`. */
  predicate OccursAt(s: string, p: string, i: nat)
  {
    i + |p| <= |s| && s[i..i + |p|] == p
  }

  /** Python's `p in s`. */
  predicate Contains(s: string, p: string)
  {
    exists i: nat :: i <= |s| && OccursAt(s, p, i)
  }

  /** Python's `s.find(p, i)`: the first index at or after `i` where `p` occurs. */
  function FindFrom(s: string, p: string, i: nat): (r: Option<nat>)
    decreases |s| - i
    ensures r.Some? ==> i <= r.value && r.value + |p| <= |s|
  {
    if i + |p| > |s| then None
    else if s[i..i + |p|] == p then Some(i)
    else FindFrom(s, p, i + 1)
  }

  /** What `s.find(p, i)` returns is an occurrence. */
  lemma {:induction false} FindFromOccurs(s: string, p: string, i: nat)
    requires FindFrom(s, p, i).Some?
    ensures OccursAt(s, p, FindFrom(s, p, i).value)
    decreases |s| - i
  {
    if i + |p| <= |s| && s[i..i + |p|] != p {
      FindFromOccurs(s, p, i + 1);
    }
  }

  /** `s.find(p, i)` finds the first occurrence: none lies between `i` and the result
      (or after `i` at all when the result is -1). */
  lemma {:induction false} FindFromIsFirst(s: string, p: string, i: nat, j: nat)
    requires i <= j
    requires FindFrom(s, p, i).None? || j < FindFrom(s, p, i).value
    ensures !OccursAt(s, p, j)
    decreases |s| - i
  {
    if i + |p| > |s| {
    } else if s[i..i + |p|] == p {
    } else if i < j {
      FindFromIsFirst(s, p, i + 1, j);
    }
  }

  // ---------------------------------------------------------------------------
  // split, join, replace
  // ---------------------------------------------------------------------------

  /** The pieces of `s[start..]` between the non-overlapping occurrences of `p` found
      from left to right, searching `s` itself from `start`. */
  function SplitFrom(s: string, p: string, start: nat): (r: seq<string>)
    requires |p| > 0 && start <= |s|
    decreases |s| - start
    ensures |r| >= 1
  {
    match FindFrom(s, p, start)
    case None => [s[start..]]
    case Some(i) => [s[start..i]] + SplitFrom(s, p, i + |p|)
  }

  /** Python's `s.split(p)` for a non-empty separator. */
  function Split(s: string, p: string): (r: seq<string>)
    requires |p| > 0
    ensures |r| >= 1
  {
    SplitFrom(s, p, 0)
  }

  /** Python's `sep.join(xs)`. */
  function Join(xs: seq<string>, sep: string): string
  {
    if |xs| == 0 then ""
    else if |xs| == 1 then xs[0]
    else xs[0] + sep + Join(xs[1..], sep)
  }

  /** Python's `s.replace(pat, rep)` for a non-empty `pat`: scanning from the left,
      each occurrence of `pat` that does not overlap an already replaced one is
      replaced by `rep`; the inserted text is not scanned again. */
  function Replace(s: string, pat: string, rep: string): string
    requires |pat| > 0
    decreases |s|
  {
    if |s| < |pat| then s
    else if s[..|pat|] == pat then rep + Replace(s[|pat|..], pat, rep)
    else [s[0]] + Replace(s[1..], pat, rep)
  }

  /** Joining a list with a first element puts that element, then the separator, first. */
  lemma JoinCons(x: string, xs: seq<string>, sep: string)
    requires |xs| >= 1
    ensures Join([x] + xs, sep) == x + sep + Join(xs, sep)
  {
    assert ([x] + xs)[1..] == xs;
  }

  /** Without an occurrence from `start`, the rest of the string is the only piece. */
  lemma SplitFromNone(s: string, p: string, start: nat)
    requires |p| > 0 && start <= |s| && FindFrom(s, p, start).None?
    ensures SplitFrom(s, p, start) == [s[start..]]
  {
  }

  /** The first piece from `start` ends where the first occurrence found from `start` begins. */
  lemma SplitFromSome(s: string, p: string, start: nat, i: nat)
    requires |p| > 0 && start <= |s| && FindFrom(s, p, start) == Some(i)
    ensures SplitFrom(s, p, start) == [s[start..i]] + SplitFrom(s, p, i + |p|)
  {
  }

  /** Searching a suffix is searching the whole string from further on. */
  lemma {:induction false} FindFromSuffix(s: string, p: string, k: nat, j: nat)
    requires k <= |s|
    ensures FindFrom(s[k..], p, j).None? == FindFrom(s, p, k + j).None?
    ensures FindFrom(s[k..], p, j).Some? ==> FindFrom(s, p, k + j).value == FindFrom(s[k..], p, j).value + k
    decreases |s| - k - j
  {
    var t := s[k..];
    if j + |p| <= |t| {
      assert t[j..j + |p|] == s[k + j..k + j + |p|];
      if t[j..j + |p|] != p {
        FindFromSuffix(s, p, k, j + 1);
      }
    }
  }

  /** Splitting a suffix is splitting the whole string from further on. */
  lemma {:induction false} SplitFromSuffix(s: string, p: string, k: nat, j: nat)
    requires |p| > 0 && k + j <= |s|
    ensures SplitFrom(s[k..], p, j) == SplitFrom(s, p, k + j)
    decreases |s| - k - j
  {
    var t := s[k..];
    FindFromSuffix(s, p, k, j);
    match FindFrom(t, p, j)
    case None =>
      assert t[j..] == s[k + j..];
      assert SplitFrom(t, p, j) == [t[j..]];
      assert SplitFrom(s, p, k + j) == [s[k + j..]];
    case Some(i) =>
      assert FindFrom(s, p, k + j) == Some(k + i);
      assert t[j..i] == s[k + j..k + i];
      SplitFromSuffix(s, p, k, i + |p|);
      calc {
        SplitFrom(t, p, j);
        [t[j..i]] + SplitFrom(t, p, i + |p|);
        [s[k + j..k + i]] + SplitFrom(s, p, k + (i + |p|));
        SplitFrom(s, p, k + j);
      }
  }

  /** No match at `k`: the character at `k` joins the first piece found from `k + 1`. */
  lemma SplitFromPastMatch(s: string, pat: string, rep: string, k: nat)
    requires |pat| > 0 && k + |pat| <= |s| && s[k..k + |pat|] != pat
    ensures Join(SplitFrom(s, pat, k), rep) == [s[k]] + Join(SplitFrom(s, pat, k + 1), rep)
  {
    assert FindFrom(s, pat, k) == FindFrom(s, pat, k + 1);
    match FindFrom(s, pat, k + 1)
    case None =>
      SplitFromNone(s, pat, k);
      SplitFromNone(s, pat, k + 1);
      ConsSuffix(s, k);
    case Some(i) =>
      SplitFromSome(s, pat, k, i);
      SplitFromSome(s, pat, k + 1, i);
      JoinPastMatch(s, rep, k, i, SplitFrom(s, pat, i + |pat|));
  }

  /** A suffix is its first character followed by the next suffix. */
  lemma ConsSuffix(s: string, k: nat)
    requires k < |s|
    ensures s[k..] == [s[k]] + s[k + 1..]
  {
  }

  /** Moving the first character of the first piece out of the join. */
  lemma JoinPastMatch(s: string, rep: string, k: nat, i: nat, rest: seq<string>)
    requires k < i <= |s| && |rest| >= 1
    ensures Join([s[k..i]] + rest, rep) == [s[k]] + Join([s[k + 1..i]] + rest, rep)
  {
    JoinCons(s[k..i], rest, rep);
    JoinCons(s[k + 1..i], rest, rep);
    assert s[k..i] == [s[k]] + s[k + 1..i];
    ConsAssoc(s[k], s[k + 1..i], rep, Join(rest, rep));
  }

  /** Re-bracketing for a leading character. */
  lemma ConsAssoc(c: char, b: string, sep: string, t: string)
    ensures [c] + b + sep + t == [c] + (b + sep + t)
  {
  }

  /** The replacement of `s[k..]` agrees with the split of `s` from `k`. */
  lemma {:induction false} ReplaceIsJoinOfSplitFrom(s: string, pat: string, rep: string, k: nat)
    requires |pat| > 0 && k <= |s|
    ensures Replace(s[k..], pat, rep) == Join(SplitFrom(s, pat, k), rep)
    decreases |s| - k, 1
  {
    if |s| < k + |pat| {
      assert FindFrom(s, pat, k).None?;
    } else if s[k..k + |pat|] == pat {
      ReplaceAtMatch(s, pat, rep, k);
    } else {
      ReplacePastMatch(s, pat, rep, k);
    }
  }

  /** A match at `k` is replaced, and it ends an empty piece. */
  lemma {:induction false} ReplaceAtMatch(s: string, pat: string, rep: string, k: nat)
    requires |pat| > 0 && k + |pat| <= |s| && s[k..k + |pat|] == pat
    ensures Replace(s[k..], pat, rep) == Join(SplitFrom(s, pat, k), rep)
    decreases |s| - k, 0
  {
    ReplaceMatchStep(s, pat, rep, k);
    SplitMatchStep(s, pat, rep, k);
    ReplaceIsJoinOfSplitFrom(s, pat, rep, k + |pat|);
  }

  /** A match at `k` is replaced by `rep`. */
  lemma ReplaceMatchStep(s: string, pat: string, rep: string, k: nat)
    requires |pat| > 0 && k + |pat| <= |s| && s[k..k + |pat|] == pat
    ensures Replace(s[k..], pat, rep) == rep + Replace(s[k + |pat|..], pat, rep)
  {
    var t := s[k..];
    assert t[..|pat|] == s[k..k + |pat|];
    assert t[|pat|..] == s[k + |pat|..];
  }

  /** A match at `k` ends an empty piece. */
  lemma SplitMatchStep(s: string, pat: string, rep: string, k: nat)
    requires |pat| > 0 && k + |pat| <= |s| && s[k..k + |pat|] == pat
    ensures Join(SplitFrom(s, pat, k), rep) == rep + Join(SplitFrom(s, pat, k + |pat|), rep)
  {
    assert FindFrom(s, pat, k) == Some(k);
    SplitFromSome(s, pat, k, k);
    JoinCons(s[k..k], SplitFrom(s, pat, k + |pat|), rep);
  }

  /** Without a match at `k`, the character at `k` is kept and joins the first piece. */
  lemma {:induction false} ReplacePastMatch(s: string, pat: string, rep: string, k: nat)
    requires |pat| > 0 && k + |pat| <= |s| && s[k..k + |pat|] != pat
    ensures Replace(s[k..], pat, rep) == Join(SplitFrom(s, pat, k), rep)
    decreases |s| - k, 0
  {
    var t := s[k..];
    assert t[..|pat|] == s[k..k + |pat|];
    assert t[1..] == s[k + 1..];
    SplitFromPastMatch(s, pat, rep, k);
    ReplaceIsJoinOfSplitFrom(s, pat, rep, k + 1);
  }

  /** `s.replace(pat, rep) == rep.join(s.split(pat))`: the scanning replacement agrees
      with the search-based split. */
  lemma ReplaceIsJoinOfSplit(s: string, pat: string, rep: string)
    requires |pat| > 0
    ensures Replace(s, pat, rep) == Join(Split(s, pat), rep)
  {
    ReplaceIsJoinOfSplitFrom(s, pat, rep, 0);
    assert s[0..] == s;
  }

  /** An occurrence inside `s[a..b]` is an occurrence in `s`. */
  lemma OccursInSlice(s: string, p: string, a: nat, b: nat, j: nat)
    requires a <= b <= |s| && OccursAt(s[a..b], p, j)
    ensures OccursAt(s, p, a + j) && a + j + |p| <= b
  {
    assert j + |p| <= b - a;
    forall i | 0 <= i < |p|
      ensures s[a + j + i] == p[i]
    {
      assert s[a..b][j..j + |p|][i] == p[i];
    }
    assert s[a + j..a + j + |p|] == p;
  }

  /** No piece of the split from `k` contains `pat`: every occurrence was a cut. */
  lemma {:induction false} SplitFromPiecesAvoidSeparator(s: string, pat: string, k: nat)
    requires |pat| > 0 && k <= |s|
    ensures forall q :: 0 <= q < |SplitFrom(s, pat, k)| ==> !Contains(SplitFrom(s, pat, k)[q], pat)
    decreases |s| - k
  {
    match FindFrom(s, pat, k)
    case None =>
      SplitFromNone(s, pat, k);
      PieceAvoidsSeparator(s, pat, k, |s|);
      assert s[k..] == s[k..|s|];
    case Some(i) =>
      SplitFromSome(s, pat, k, i);
      SplitFromPiecesAvoidSeparator(s, pat, i + |pat|);
      PieceAvoidsSeparator(s, pat, k, i);
  }

  /** A stretch of `s` from `k` up to the first occurrence found from `k` (or up to the end
      when there is none) holds no occurrence. */
  lemma PieceAvoidsSeparator(s: string, pat: string, k: nat, i: nat)
    requires |pat| > 0 && k <= i <= |s|
    requires FindFrom(s, pat, k).None? || FindFrom(s, pat, k).value == i
    ensures !Contains(s[k..i], pat)
  {
    if Contains(s[k..i], pat) {
      var j: nat :| j <= i - k && OccursAt(s[k..i], pat, j);
      OccursInSlice(s, pat, k, i, j);
      FindFromIsFirst(s, pat, k, k + j);
    }
  }

  /** No piece of `s.split(pat)` contains `pat`. */
  lemma SplitPiecesAvoidSeparator(s: string, pat: string)
    requires |pat| > 0
    ensures forall q :: 0 <= q < |Split(s, pat)| ==> !Contains(Split(s, pat)[q], pat)
  {
    SplitFromPiecesAvoidSeparator(s, pat, 0);
  }

  /** Joining the split from `k` with the separator gives back `s[k..]`. */
  lemma {:induction false} JoinSplitFrom(s: string, pat: string, k: nat)
    requires |pat| > 0 && k <= |s|
    ensures Join(SplitFrom(s, pat, k), pat) == s[k..]
    decreases |s| - k
  {
    match FindFrom(s, pat, k)
    case None =>
      SplitFromNone(s, pat, k);
    case Some(i) =>
      var rest := SplitFrom(s, pat, i + |pat|);
      SplitFromSome(s, pat, k, i);
      JoinSplitFrom(s, pat, i + |pat|);
      JoinCons(s[k..i], rest, pat);
      FindFromOccurs(s, pat, k);
      SuffixAroundMatch(s, pat, k, i);
      calc {
        Join(SplitFrom(s, pat, k), pat);
        == Join([s[k..i]] + rest, pat);
        == s[k..i] + pat + Join(rest, pat);
        == s[k..i] + pat + s[i + |pat|..];
        == s[k..];
      }
  }

  /** A suffix that holds `pat` at `i` is the part before it, `pat`, and the part after it. */
  lemma SuffixAroundMatch(s: string, pat: string, k: nat, i: nat)
    requires k <= i && OccursAt(s, pat, i)
    ensures s[k..] == s[k..i] + pat + s[i + |pat|..]
  {
    assert s[i..i + |pat|] == pat;
    assert s[k..] == s[k..i] + s[i..i + |pat|] + s[i + |pat|..];
  }

  /** `sep.join(s.split(sep)) == s`. */
  lemma JoinSplit(s: string, pat: string)
    requires |pat| > 0
    ensures Join(Split(s, pat), pat) == s
  {
    JoinSplitFrom(s, pat, 0);
    assert s[0..] == s;
  }

  /** Replacing a pattern that does not occur leaves the string unchanged. */
  lemma ReplaceAbsent(s: string, pat: string, rep: string)
    requires |pat| > 0 && !Contains(s, pat)
    ensures Replace(s, pat, rep) == s
  {
    ReplaceIsJoinOfSplit(s, pat, rep);
    if FindFrom(s, pat, 0).Some? {
      FindFromOccurs(s, pat, 0);
    }
    assert s[0..] == s;
  }

  /** Replacing a pattern by itself leaves the string unchanged. */
  lemma ReplaceBySelf(s: string, pat: string)
    requires |pat| > 0
    ensures Replace(s, pat, pat) == s
  {
    ReplaceIsJoinOfSplit(s, pat, pat);
    JoinSplit(s, pat);
  }

  /** A one-character pattern occurs exactly where that character is. */
  lemma OccursCharAt(s: string, c: char, v: nat)
    requires OccursAt(s, [c], v)
    ensures s[v] == c
  {
    assert s[v..v + 1][0] == s[v];
  }

  /** Splitting a one-character-joined list recovers it when no element holds that character. */
  lemma {:induction false} SplitJoinChar(xs: seq<string>, c: char)
    requires |xs| > 0
    requires forall k :: 0 <= k < |xs| ==> c !in xs[k]
    ensures Split(Join(xs, [c]), [c]) == xs
    decreases |xs|
  {
    var s := Join(xs, [c]);
    var x := xs[0];
    var n := |x|;
    if |xs| == 1 {
      assert s == x;
      var f := FindFrom(s, [c], 0);
      if f.Some? {
        FindFromOccurs(s, [c], 0);
        OccursCharAt(s, c, f.value);
      }
      assert s[0..] == s;
      assert [x] == xs;
    } else {
      var rest := Join(xs[1..], [c]);
      assert s == x + [c] + rest;
      assert OccursAt(s, [c], n) by { assert s[n..n + 1] == [c]; }
      var f := FindFrom(s, [c], 0);
      if f.None? || n < f.value {
        FindFromIsFirst(s, [c], 0, n);
      } else if f.value < n {
        FindFromOccurs(s, [c], 0);
        OccursCharAt(s, c, f.value);
      }
      assert f == Some(n);
      assert s[..n] == x;
      assert s[n + 1..] == rest;
      SplitFromSuffix(s, [c], n + 1, 0);
      assert rest[0..] == rest;
      SplitJoinChar(xs[1..], c);
      assert [x] + xs[1..] == xs;
    }
  }

  // ---------------------------------------------------------------------------
  // str(int) and int(str)
  // ---------------------------------------------------------------------------

  predicate IsDigit(c: char)
  {
    '0' <= c <= '9'
  }

  function DigitValue(c: char): nat
    requires IsDigit(c)
  {
    c as int - '0' as int
  }

  function DigitChar(d: nat): (c: char)
    requires d < 10
    ensures IsDigit(c) && DigitValue(c) == d
  {
    ('0' as int + d) as char
  }

  /** Python's `str(n)` for `n >= 0`: decimal digits, no leading zero. */
  function ShowNat(n: nat): (s: string)
    ensures |s| > 0 && forall i :: 0 <= i < |s| ==> IsDigit(s[i])
  {
    if n < 10 then [DigitChar(n)] else ShowNat(n / 10) + [DigitChar(n % 10)]
  }

  /** Python's `str(n)` for any int. */
  function ShowInt(n: int): string
  {
    if n < 0 then "-" + ShowNat(-n) else ShowNat(n)
  }

  /** A character `int()` strips from either end: ASCII tab, line feed, vertical tab, form
      feed, carriage return and space, or a non-ASCII Unicode space, which `int()` first turns
      into a plain space. The ASCII separators U+001C to U+001F are kept, so `int()` refuses
      them, although `str.isspace` counts them as whitespace. */
  predicate IsSpace(c: char)
  {
    var k := c as int;
    || 9 <= k <= 13 || k == 32 || k == 0x85 || k == 0xA0 || k == 0x1680
    || 0x2000 <= k <= 0x200A || k == 0x2028 || k == 0x2029 || k == 0x202F || k == 0x205F
    || k == 0x3000
  }

  function StripLeading(s: string): string
  {
    if |s| > 0 && IsSpace(s[0]) then StripLeading(s[1..]) else s
  }

  function StripTrailing(s: string): string
  {
    if |s| > 0 && IsSpace(s[|s| - 1]) then StripTrailing(s[..|s| - 1]) else s
  }

  /** Python's `s.strip()`. */
  function Strip(s: string): string
  {
    StripTrailing(StripLeading(s))
  }

  /** The digits part `int()` accepts: decimal digits, with single underscores only between two digits. */
  predicate WellFormedDigits(s: string)
  {
    && |s| > 0
    && IsDigit(s[0]) && IsDigit(s[|s| - 1])
    && (forall i :: 0 <= i < |s| ==> IsDigit(s[i]) || s[i] == '_')
    && (forall i :: 0 <= i < |s| - 1 && s[i] == '_' ==> IsDigit(s[i + 1]))
  }

  /** The value of a digit string, underscores ignored. */
  function DigitsValue(s: string): nat
    requires forall i :: 0 <= i < |s| ==> IsDigit(s[i]) || s[i] == '_'
  {
    if |s| == 0 then 0
    else if s[|s| - 1] == '_' then DigitsValue(s[..|s| - 1])
    else DigitsValue(s[..|s| - 1]) * 10 + DigitValue(s[|s| - 1])
  }

  /** The number of digits in a digit string, underscores not counted. */
  function DigitCount(s: string): nat
  {
    if |s| == 0 then 0
    else DigitCount(s[..|s| - 1]) + (if s[|s| - 1] == '_' then 0 else 1)
  }

  /** A string of digits only has as many digits as characters. */
  lemma {:induction false} DigitCountAllDigits(s: string)
    requires forall i :: 0 <= i < |s| ==> IsDigit(s[i])
    ensures DigitCount(s) == |s|
    decreases |s|
  {
    if |s| > 0 {
      DigitCountAllDigits(s[..|s| - 1]);
    }
  }

  /** CPython's default `sys.get_int_max_str_digits()`: `int()` refuses a decimal string with
      more digits, and `str()` an int that would need more. */
  const MaxStrDigits := 4300

  /** The digits part `int()` accepts and converts: well formed and within the digit limit. */
  predicate AcceptedDigits(s: string)
  {
    WellFormedDigits(s) && DigitCount(s) <= MaxStrDigits
  }

  /** Python's `int(s)` on a string in base 10: `Some(value)`, or `None` where it raises `ValueError`. */
  function ParseInt(s: string): Option<int>
  {
    var t := Strip(s);
    if |t| > 0 && (t[0] == '+' || t[0] == '-') then
      if AcceptedDigits(t[1..]) then
        var v: int := DigitsValue(t[1..]);
        Some(if t[0] == '-' then -v else v)
      else None
    else if AcceptedDigits(t) then Some(DigitsValue(t))
    else None
  }

  lemma {:induction false} ShowNatValue(n: nat)
    ensures DigitsValue(ShowNat(n)) == n
  {
    var s := ShowNat(n);
    if n >= 10 {
      ShowNatValue(n / 10);
      assert s[..|s| - 1] == ShowNat(n / 10);
    }
  }

  /** The number of digits `str(n)` writes for `n`, its sign not counted. */
  function DecimalDigits(n: int): nat
  {
    if n < 0 then |ShowNat(-n)| else |ShowNat(n)|
  }

  /** `int(str(n)) == n` exactly when `n` has at most `MaxStrDigits` digits; beyond that
      `int()` refuses the string. */
  lemma ParseShowInt(n: int)
    ensures ParseInt(ShowInt(n)) == Some(n) <==> DecimalDigits(n) <= MaxStrDigits
    ensures DecimalDigits(n) > MaxStrDigits ==> ParseInt(ShowInt(n)) == None
  {
    var s := ShowInt(n);
    var m: nat := if n < 0 then -n else n;
    var digits := ShowNat(m);
    ShowNatValue(m);
    DigitCountAllDigits(digits);
    assert !IsSpace(s[0]) && !IsSpace(s[|s| - 1]);
    assert StripLeading(s) == s;
    assert StripTrailing(s) == s;
    if n < 0 {
      assert s[1..] == digits;
    }
  }

  /** `str` of a natural number is injective. */
  lemma ShowNatInjective(a: nat, b: nat)
    requires ShowNat(a) == ShowNat(b)
    ensures a == b
  {
    ShowNatValue(a);
    ShowNatValue(b);
  }

  /** `str(n)` starts with a minus sign exactly when `n` is negative. */
  lemma ShowIntSign(n: int)
    ensures |ShowInt(n)| > 0 && (ShowInt(n)[0] == '-' <==> n < 0)
  {
  }

  /** `str` is injective on ints. */
  lemma ShowIntInjective(a: int, b: int)
    requires ShowInt(a) == ShowInt(b)
    ensures a == b
  {
    ShowIntSign(a);
    ShowIntSign(b);
    if a < 0 {
      assert ShowNat(-a) == ShowInt(a)[1..] == ShowNat(-b);
      ShowNatInjective(-a, -b);
    } else {
      ShowNatInjective(a, b);
    }
  }
}
