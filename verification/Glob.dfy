/** Budget patterns: `*` matches any sequence and `?` one character. */
module Glob {

  predicate IsSpace(c: char) {
    c in {'\t', '\n', '\U{0B}', '\U{0C}', '\r', ' ', '\U{85}', '\U{A0}', '\U{1680}',
          '\U{2028}', '\U{2029}', '\U{202F}', '\U{205F}', '\U{3000}'} || '\U{2000}' <= c <= '\U{200A}'
  }

  /** Surrounding white space removed. */
  function Trim(s: string): (r: string)
    ensures r != "" ==> !IsSpace(r[0]) && !IsSpace(r[|r| - 1])
    ensures (exists c :: c in s && !IsSpace(c)) ==> r != ""
    decreases |s|
  {
    if s == "" then s
    else if IsSpace(s[0]) then
      assert s == [s[0]] + s[1..];
      Trim(s[1..])
    else if IsSpace(s[|s| - 1]) then
      assert s == s[..|s| - 1] + [s[|s| - 1]];
      Trim(s[..|s| - 1])
    else s
  }

  predicate AllSpace(s: string) { forall i :: 0 <= i < |s| ==> IsSpace(s[i]) }

  /** The string with nothing but the white space around it taken away. */
  ghost predicate IsTrimOf(r: string, s: string) {
    && (r != "" ==> !IsSpace(r[0]) && !IsSpace(r[|r| - 1]))
    && exists left, right :: AllSpace(left) && AllSpace(right) && s == left + r + right
  }

  lemma {:induction false} SpaceAround(s: string, r: string, left: string, right: string)
    requires IsTrimOf(r, s) && AllSpace(left) && AllSpace(right)
    ensures IsTrimOf(r, left + s + right)
  {
    var before, after :| AllSpace(before) && AllSpace(after) && s == before + r + after;
    assert AllSpace(left + before) && AllSpace(after + right);
    assert left + s + right == (left + before) + r + (after + right);
  }

  lemma {:induction false} TrimEmpty(s: string)
    ensures Trim(s) == "" <==> AllSpace(s)
  {
    if Trim(s) != "" {
      TrimIsTrim(s);
      var left, right :| AllSpace(left) && AllSpace(right) && s == left + Trim(s) + right;
      assert s[|left|] == Trim(s)[0];
    }
    if !AllSpace(s) {
      var i :| 0 <= i < |s| && !IsSpace(s[i]);
      assert s[i] in s;
    }
  }

  lemma {:induction false} TrimIsTrim(s: string)
    ensures IsTrimOf(Trim(s), s)
    decreases |s|
  {
    if s == "" || (!IsSpace(s[0]) && !IsSpace(s[|s| - 1])) {
      assert AllSpace("") && s == "" + s + "";
    } else if IsSpace(s[0]) {
      TrimIsTrim(s[1..]);
      SpaceAround(s[1..], Trim(s), [s[0]], "");
      assert s == [s[0]] + s[1..] + "";
    } else {
      TrimIsTrim(s[..|s| - 1]);
      SpaceAround(s[..|s| - 1], Trim(s), "", [s[|s| - 1]]);
      assert s == "" + s[..|s| - 1] + [s[|s| - 1]];
    }
  }

  /** What a pattern means, by recursion on its first token. */
  predicate Matches(p: string, v: string)
    decreases |p| + |v|
  {
    if p == "" then v == ""
    else if p[0] == '*' then Matches(p[1..], v) || (v != "" && Matches(p, v[1..]))
    else v != "" && (p[0] == '?' || p[0] == v[0]) && Matches(p[1..], v[1..])
  }

  ghost predicate Splits(p: string, q: string, v: string, j: int) {
    0 <= j <= |v| && Matches(p, v[..j]) && Matches(q, v[j..])
  }

  lemma {:induction false} SplitFrom(p: string, q: string, v: string)
    requires Matches(p + q, v)
    ensures exists j :: Splits(p, q, v, j)
    decreases |p| + |v|
  {
    if p == "" {
      assert p + q == q && v[0..] == v;
      assert Splits(p, q, v, 0);
    } else {
      assert (p + q)[1..] == p[1..] + q && (p + q)[0] == p[0];
      if p[0] == '*' && Matches(p[1..] + q, v) {
        SplitFrom(p[1..], q, v);
        var j :| Splits(p[1..], q, v, j);
        assert Splits(p, q, v, j);
      } else {
        var rest := if p[0] == '*' then p else p[1..];
        SplitFrom(rest, q, v[1..]);
        var j :| Splits(rest, q, v[1..], j);
        assert v[..j + 1][1..] == v[1..][..j] && v[j + 1..] == v[1..][j..];
        assert Splits(p, q, v, j + 1);
      }
    }
  }

  lemma {:induction false} SplitTo(p: string, q: string, v: string, j: int)
    requires Splits(p, q, v, j)
    ensures Matches(p + q, v)
    decreases |p| + |v|
  {
    if p == "" {
      assert p + q == q && v[0..] == v;
    } else {
      assert (p + q)[1..] == p[1..] + q;
      if p[0] == '*' && Matches(p[1..], v[..j]) {
        SplitTo(p[1..], q, v, j);
      } else {
        var rest := if p[0] == '*' then p else p[1..];
        assert v[..j][1..] == v[1..][..j - 1] && v[j..] == v[1..][j - 1..];
        SplitTo(rest, q, v[1..], j - 1);
      }
    }
  }

  lemma {:induction false} StarMatchesAll(v: string)
    ensures Matches("*", v)
  {
    if v != "" { StarMatchesAll(v[1..]); }
    assert Matches("", "");
  }

  /** The table's step for `*`: some shorter prefix of the value was matched already. */
  lemma {:induction false} AppendStar(p: string, v: string)
    ensures Matches(p + "*", v) <==> exists j :: 0 <= j <= |v| && Matches(p, v[..j])
  {
    if Matches(p + "*", v) {
      SplitFrom(p, "*", v);
      var j :| Splits(p, "*", v, j);
    }
    if j :| 0 <= j <= |v| && Matches(p, v[..j]) {
      StarMatchesAll(v[j..]);
      SplitTo(p, "*", v, j);
    }
  }

  /** The table's step for one literal or `?`. */
  lemma {:induction false} AppendOne(p: string, c: char, v: string)
    requires c != '*'
    ensures Matches(p + [c], v) <==> v != "" && (c == '?' || c == v[|v| - 1]) && Matches(p, v[..|v| - 1])
  {
    if Matches(p + [c], v) {
      SplitFrom(p, [c], v);
      var j :| Splits(p, [c], v, j);
      assert Matches([c][1..], v[j..][1..]);
      assert j == |v| - 1;
    }
    if v != "" && (c == '?' || c == v[|v| - 1]) && Matches(p, v[..|v| - 1]) {
      var j := |v| - 1;
      assert Matches([c][1..], v[j..][1..]);
      SplitTo(p, [c], v, j);
    }
  }

  /** Row of the table: entry j says whether the pattern read so far matches the value's
      first j characters. */
  ghost predicate IsRow(row: seq<bool>, p: string, v: string) {
    |row| == |v| + 1 && forall j :: 0 <= j <= |v| ==> row[j] == Matches(p, v[..j])
  }

  method StarRow(row: array<bool>, p: string, v: string) returns (next: array<bool>)
    requires IsRow(row[..], p, v)
    ensures fresh(next) && IsRow(next[..], p + "*", v)
  {
    var n := |v|;
    next := new bool[n + 1](_ => false);
    for j := 0 to n + 1
      invariant forall k :: 0 <= k <= n ==> (next[k] <==> exists i :: 0 <= i < j && i <= k && row[i])
    {
      if row[j] {
        for k := j to n + 1
          invariant forall m :: 0 <= m <= n ==>
            (next[m] <==> (exists i :: 0 <= i < j && i <= m && row[i]) || j <= m < k)
        {
          next[k] := true;
        }
      }
    }
    forall k | 0 <= k <= n ensures next[..][k] == Matches(p + "*", v[..k]) {
      AppendStar(p, v[..k]);
      assert forall i :: 0 <= i <= k ==> v[..k][..i] == v[..i] && row[..][i] == row[i];
    }
  }

  method OneRow(row: array<bool>, p: string, token: char, v: string) returns (next: array<bool>)
    requires IsRow(row[..], p, v) && token != '*'
    ensures fresh(next) && IsRow(next[..], p + [token], v)
  {
    var n := |v|;
    next := new bool[n + 1](_ => false);
    for j := 1 to n + 1
      invariant !next[0]
      invariant forall k :: 1 <= k < j ==> next[k] == (row[k - 1] && (token == '?' || v[k - 1] == token))
      invariant forall k :: j <= k <= n ==> !next[k]
    {
      if row[j - 1] && (token == '?' || v[j - 1] == token) {
        next[j] := true;
      }
    }
    forall k | 0 <= k <= n ensures next[..][k] == Matches(p + [token], v[..k]) {
      AppendOne(p, token, v[..k]);
      if k > 0 { assert v[..k][..k - 1] == v[..k - 1] && row[..][k - 1] == row[k - 1]; }
    }
  }

  /** The row-by-row table of the source, correct at every prefix of pattern and value. */
  method GlobMatch(pattern: string, value: string) returns (matched: bool)
    ensures matched == Matches(pattern, value)
  {
    var row := new bool[|value| + 1](j => j == 0);
    for i := 0 to |pattern|
      invariant fresh(row) && IsRow(row[..], pattern[..i], value)
    {
      assert pattern[..i + 1] == pattern[..i] + [pattern[i]];
      if pattern[i] == '*' {
        row := StarRow(row, pattern[..i], value);
      } else {
        row := OneRow(row, pattern[..i], pattern[i], value);
      }
    }
    assert pattern[..|pattern|] == pattern && value[..|value|] == value;
    matched := row[..][|value|];
  }

  predicate HasWildcard(p: string) { '*' in p || '?' in p }

  /** The source's decision on the trimmed pattern, with its two shortcuts. */
  predicate BudgetMatches(pattern: string, value: string) {
    var p := Trim(pattern);
    p == value || (p != "" && value != "" && HasWildcard(p) && Matches(p, value))
  }

  method DecideBudgetMatch(pattern: string, value: string) returns (matched: bool)
    ensures matched == BudgetMatches(pattern, value)
  {
    var p := Trim(pattern);
    if p == value { return true; }
    if p == "" || value == "" { return false; }
    if !HasWildcard(p) { return false; }
    matched := GlobMatch(p, value);
  }

  lemma {:induction false} MatchesItself(p: string)
    ensures Matches(p, p)
    decreases |p|
  {
    if p != "" {
      MatchesItself(p[1..]);
      if p[0] == '*' {
        assert Matches(p, p[1..]);
      }
    }
  }

  lemma {:induction false} LiteralMatches(p: string, v: string)
    requires !HasWildcard(p) && Matches(p, v)
    ensures p == v
    decreases |p|
  {
    if p != "" {
      LiteralMatches(p[1..], v[1..]);
      assert p == [p[0]] + p[1..] && v == [v[0]] + v[1..];
    }
  }

  predicate OnlyStars(p: string) { forall c :: c in p ==> c == '*' }

  lemma {:induction false} MatchesNothing(p: string)
    ensures Matches(p, "") <==> OnlyStars(p)
    decreases |p|
  {
    if p != "" {
      MatchesNothing(p[1..]);
      assert p[0] in p && forall c :: c in p[1..] ==> c in p;
      assert forall c :: c in p ==> c == p[0] || c in p[1..];
    }
  }

  /** The decision is the pattern's meaning, except that a budget of nothing but stars is
      not applied to an empty value. */
  lemma {:induction false} BudgetMatchesIsGlob(pattern: string, value: string)
    ensures BudgetMatches(pattern, value) == Matches(Trim(pattern), value)
       <==> !(value == "" && Trim(pattern) != "" && OnlyStars(Trim(pattern)))
  {
    var p := Trim(pattern);
    MatchesItself(p);
    if value == "" {
      MatchesNothing(p);
    } else if !HasWildcard(p) && Matches(p, value) {
      LiteralMatches(p, value);
    }
  }
}
