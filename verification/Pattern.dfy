// PatternMatch (driver/registry.c): hardware names against patterns in which '*' stands for
// any run of characters. Going back only to the last star loses no match.
module Pattern {

  predicate Terminated(s: seq<char>) {
    '\0' in s
  }

  // The characters in front of the first NUL.
  function Text(s: seq<char>): (t: seq<char>)
    ensures t <= s && '\0' !in t
    ensures |t| < |s| ==> s[|t|] == '\0'
  {
    if s == [] || s[0] == '\0' then [] else [s[0]] + Text(s[1..])
  }

  // What counts of the pattern: at most length characters.
  function Effective(pattern: seq<char>, length: nat): (p: seq<char>)
    ensures p <= pattern && |p| <= length && '\0' !in p
    ensures |p| < length && |p| < |pattern| ==> pattern[|p|] == '\0'
  {
    Text(pattern[..if length < |pattern| then length else |pattern|])
  }

  ghost predicate Matches(p: seq<char>, n: seq<char>)
    decreases |p|
  {
    if p == [] then n == []
    else if p[0] == '*' then exists k | 0 <= k <= |n| :: Matches(p[1..], n[k..])
    else n != [] && n[0] == p[0] && Matches(p[1..], n[1..])
  }

  predicate Literal(p: seq<char>) {
    forall i | 0 <= i < |p| :: p[i] != '*'
  }

  // A literal prefix matches only itself.
  lemma {:induction false} LiteralPrefix(a: seq<char>, p: seq<char>, n: seq<char>)
    requires Literal(a)
    ensures Matches(a + p, n) <==> a <= n && Matches(p, n[|a|..])
  {
    if a == [] {
      assert a + p == p;
    } else {
      assert (a + p)[1..] == a[1..] + p;
      if n != [] {
        LiteralPrefix(a[1..], p, n[1..]);
        assert n[0] == a[0] && a[1..] <= n[1..] <==> a <= n;
        assert a <= n ==> n[1..][|a[1..]|..] == n[|a|..];
      }
    }
  }

  lemma StarTakes(p: seq<char>, n: seq<char>, k: nat)
    requires k <= |n| && Matches(p, n[k..])
    ensures Matches(['*'] + p, n)
  {
    assert (['*'] + p)[1..] == p;
  }

  // A star that takes nothing, or at least one character.
  lemma StarSkips(p: seq<char>, n: seq<char>)
    requires n != []
    ensures Matches(['*'] + p, n) <==> Matches(p, n) || Matches(['*'] + p, n[1..])
  {
    hide Matches;
    assert n[0..] == n;
    if Matches(p, n) {
      StarTakes(p, n, 0);
    }
    if Matches(['*'] + p, n) {
      var k := StarTook(p, n);
      if k > 0 {
        assert n[k..] == n[1..][k - 1..];
        StarTakes(p, n[1..], k - 1);
      }
    }
    if Matches(['*'] + p, n[1..]) {
      var k := StarTook(p, n[1..]);
      assert n[1..][k..] == n[k + 1..];
      StarTakes(p, n, k + 1);
    }
  }

  // Once the text between two stars has been found at its first place, only the second star
  // matters.
  lemma StarForgets(a: seq<char>, p: seq<char>, n: seq<char>)
    requires Literal(a) && a <= n
    ensures Matches(['*'] + (a + (['*'] + p)), n) <==> Matches(['*'] + p, n[|a|..])
  {
    hide Matches, Literal;
    var q := a + (['*'] + p);
    LiteralPrefix(a, ['*'] + p, n);
    if Matches(['*'] + p, n[|a|..]) {
      assert n[0..] == n;
      StarTakes(q, n, 0);
    }
    if Matches(['*'] + q, n) {
      var k := StarTook(q, n);
      LiteralPrefix(a, ['*'] + p, n[k..]);
      var l := StarTook(p, n[k..][|a|..]);
      assert n[k..][|a|..][l..] == n[|a|..][k + l..];
      StarTakes(p, n[|a|..], k + l);
    }
  }

  lemma StarTook(p: seq<char>, n: seq<char>) returns (k: nat)
    requires Matches(['*'] + p, n)
    ensures k <= |n| && Matches(p, n[k..])
  {
    assert (['*'] + p)[1..] == p;
    k :| 0 <= k <= |n| && Matches(p, n[k..]);
  }

  // Text longer than what is left of the name is nowhere in it.
  lemma {:induction false} StarTooLong(a: seq<char>, p: seq<char>, n: seq<char>)
    requires Literal(a) && |a| > |n|
    ensures !Matches(['*'] + (a + p), n)
  {
    assert (['*'] + (a + p))[1..] == a + p;
    forall k | 0 <= k <= |n| ensures !Matches(a + p, n[k..]) {
      LiteralPrefix(a, p, n[k..]);
    }
  }

  // What is left to be decided when the loop stands at i in the pattern, with the last star
  // in front of mark, and at j in the name.
  ghost predicate Undecided(p: seq<char>, n: seq<char>, i: nat, mark: nat, j: nat)
    requires mark <= i <= |p| && i - mark <= j <= |n|
  {
    if mark == 0 then Matches(p[i..], n[j..])
    else Matches(['*'] + p[mark..], n[j - (i - mark)..])
  }

  ghost predicate LoopOk(p: seq<char>, n: seq<char>, i: nat, mark: nat, j: nat) {
    && mark <= i <= |p| && i - mark <= j <= |n|
    && (mark == 0 ==> i == j)
    && Literal(p[mark..i]) && p[mark..i] == n[j - (i - mark)..j]
    && (Matches(p, n) <==> Undecided(p, n, i, mark, j))
  }

  lemma AtStar(p: seq<char>, n: seq<char>, i: nat, mark: nat, j: nat)
    requires LoopOk(p, n, i, mark, j) && i < |p| && p[i] == '*'
    ensures LoopOk(p, n, i + 1, i + 1, j)
    ensures i + 1 == |p| ==> Matches(p, n)
  {
    assert Literal([]);
    hide Matches, Literal;
    assert p[i..] == ['*'] + p[i + 1..];
    assert p[i + 1..i + 1] == [] == n[j..j];
    if mark > 0 {
      var a, m := p[mark..i], n[j - (i - mark)..];
      assert p[mark..] == a + (['*'] + p[i + 1..]);
      assert m[|a|..] == n[j..] && a == m[..|a|];
      StarForgets(a, p[i + 1..], m);
    }
    if i + 1 == |p| {
      StarTakesAll(p[i + 1..], n[j..]);
    }
  }

  lemma StarTakesAll(p: seq<char>, m: seq<char>)
    requires p == []
    ensures Matches(['*'] + p, m)
  {
    assert m[|m|..] == [];
    StarTakes(p, m, |m|);
  }

  lemma NameUsedUp(a: seq<char>, p: seq<char>)
    requires Literal(a) && (p != [] ==> p[0] != '*')
    ensures Matches(['*'] + (a + p), a) <==> p == []
  {
    if p == [] {
      assert a + [] == a && a[|a|..] == [] && a[0..] == a;
      LiteralPrefix(a, [], a);
      StarTakes(a, a, 0);
    } else {
      assert a + p == (a + [p[0]]) + p[1..];
      StarTooLong(a + [p[0]], p[1..], a);
    }
  }

  lemma AtNameEnd(p: seq<char>, n: seq<char>, i: nat, mark: nat, j: nat)
    requires LoopOk(p, n, i, mark, j) && j == |n| && (i < |p| ==> p[i] != '*')
    ensures Matches(p, n) <==> i == |p|
  {
    hide Matches, Literal;
    if mark == 0 {
      NothingLeft(p[i..], n[j..]);
    } else {
      assert p[mark..] == p[mark..i] + p[i..];
      assert n[j - (i - mark)..] == p[mark..i];
      NameUsedUp(p[mark..i], p[i..]);
    }
  }

  lemma NothingLeft(q: seq<char>, m: seq<char>)
    requires m == [] && (q != [] ==> q[0] != '*')
    ensures Matches(q, m) <==> q == []
  {
  }

  lemma AtMismatch(p: seq<char>, n: seq<char>, i: nat, mark: nat, j: nat)
    requires LoopOk(p, n, i, mark, j) && j < |n|
    requires i == |p| || (p[i] != '*' && p[i] != n[j])
    ensures mark == 0 ==> !Matches(p, n)
    ensures mark > 0 ==> LoopOk(p, n, mark, mark, j - (i - mark) + 1)
  {
    FailsHere(p[i..], n[j..]);
    assert Literal([]);
    hide Matches, Literal;
    if mark > 0 {
      var a, m := p[mark..i], n[j - (i - mark)..];
      assert p[mark..] == a + p[i..] && m[|a|..] == n[j..] && a == m[..|a|];
      SkipsOne(a, p[i..], m);
      assert m[1..] == n[j - (i - mark) + 1..];
      assert p[mark..mark] == [] == n[j - (i - mark) + 1..j - (i - mark) + 1];
    }
  }

  lemma FailsHere(q: seq<char>, m: seq<char>)
    requires m != [] && (q == [] || (q[0] != '*' && q[0] != m[0]))
    ensures !Matches(q, m)
  {
  }

  // The text a was found at the front of m, but what comes behind it was not.
  lemma SkipsOne(a: seq<char>, rest: seq<char>, m: seq<char>)
    requires Literal(a) && |a| < |m| && a == m[..|a|] && !Matches(rest, m[|a|..])
    ensures Matches(['*'] + (a + rest), m) <==> Matches(['*'] + (a + rest), m[1..])
  {
    hide Matches, Literal;
    LiteralPrefix(a, rest, m);
    StarSkips(a + rest, m);
  }

  lemma AtMatch(p: seq<char>, n: seq<char>, i: nat, mark: nat, j: nat)
    requires LoopOk(p, n, i, mark, j) && i < |p| && j < |n| && p[i] != '*' && p[i] == n[j]
    ensures LoopOk(p, n, i + 1, mark, j + 1)
  {
    assert p[mark..i + 1] == p[mark..i] + [p[i]];
    assert n[j - (i - mark)..j + 1] == n[j - (i - mark)..j] + [n[j]];
    assert Literal(p[mark..i] + [p[i]]);
    hide Matches, Literal;
    if mark == 0 {
      assert p[i..][1..] == p[i + 1..] && n[j..][1..] == n[j + 1..];
      OneMore(p[i..], n[j..]);
    }
  }

  lemma OneMore(q: seq<char>, m: seq<char>)
    requires q != [] && m != [] && q[0] != '*' && q[0] == m[0]
    ensures Matches(q, m) <==> Matches(q[1..], m[1..])
  {
  }

  lemma LoopBegins(p: seq<char>, n: seq<char>)
    ensures LoopOk(p, n, 0, 0, 0)
  {
    assert p[0..] == p && n[0..] == n;
  }

  lemma LoopBounds(p: seq<char>, n: seq<char>, i: nat, mark: nat, j: nat)
    requires LoopOk(p, n, i, mark, j)
    ensures mark <= i <= |p| && i - mark <= j <= |n| && (mark == 0 ==> i == j)
  {
  }

  // The name ends at its NUL. The pattern ends at its NUL or after length characters,
  // whichever comes first.
  method PatternMatch(name: seq<char>, pattern: seq<char>, length: nat) returns (matches: bool)
    requires Terminated(name)
    requires length <= |pattern| || Terminated(pattern)
    ensures matches <==> Matches(Effective(pattern, length), Text(name))
  {
    ghost var p, n := Effective(pattern, length), Text(name);
    LoopBegins(p, n);
    hide Matches, LoopOk, Text, Effective, Terminated;
    var i: nat, mark: nat, j: nat := 0, 0, 0;
    while true
      invariant LoopOk(p, n, i, mark, j) && mark <= i <= |p| && i - mark <= j <= |n|
      decreases |n| - (if mark == 0 then 0 else j - (i - mark)), |p| - i
    {
      LoopBounds(p, n, i, mark, j);
      NameAt(name, j);
      PatternAt(pattern, length, i);
      if i < length && pattern[i] == '*' {
        AtStar(p, n, i, mark, j);
        i := i + 1;
        mark := i;
        PatternAt(pattern, length, i);
        if i == length || pattern[i] == '\0' {
          return true;
        }
        LoopBounds(p, n, i, mark, j);
      } else if name[j] == '\0' {
        AtNameEnd(p, n, i, mark, j);
        return i == length || pattern[i] == '\0';
      } else if i == length || pattern[i] != name[j] {
        AtMismatch(p, n, i, mark, j);
        if mark == 0 {
          return false;
        }
        j := j - (i - mark) + 1;
        i := mark;
      } else {
        AtMatch(p, n, i, mark, j);
        i := i + 1;
        j := j + 1;
      }
      LoopBounds(p, n, i, mark, j);
    }
  }

  lemma NameAt(name: seq<char>, j: nat)
    requires Terminated(name) && j <= |Text(name)|
    ensures j < |name| && (name[j] == '\0' <==> j == |Text(name)|)
    ensures j < |Text(name)| ==> Text(name)[j] == name[j]
  {
    TextEnds(name);
  }

  lemma PatternAt(pattern: seq<char>, length: nat, i: nat)
    requires (length <= |pattern| || Terminated(pattern)) && i <= |Effective(pattern, length)|
    ensures i <= length && (i < length ==> i < |pattern|)
    ensures i == |Effective(pattern, length)| <==> i == length || pattern[i] == '\0'
    ensures i < |Effective(pattern, length)| ==> Effective(pattern, length)[i] == pattern[i]
  {
    EffectiveEnds(pattern, length);
  }

  lemma {:induction false} TextEnds(s: seq<char>)
    ensures Terminated(s) <==> |Text(s)| < |s|
  {
    if s != [] && s[0] != '\0' {
      TextEnds(s[1..]);
      assert Terminated(s) <==> s[0] == '\0' || Terminated(s[1..]);
    }
  }

  // The end of the effective pattern can be told from the pattern.
  lemma EffectiveEnds(pattern: seq<char>, length: nat)
    requires length <= |pattern| || Terminated(pattern)
    ensures var p := Effective(pattern, length);
            |p| == length || (|p| < length && |p| < |pattern| && pattern[|p|] == '\0')
  {
    TextEnds(pattern[..if length < |pattern| then length else |pattern|]);
    if |pattern| < length {
      assert pattern[..|pattern|] == pattern;
    }
  }
}
