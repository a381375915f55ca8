/** The last rendering pass of a ticket description: every `$name` token still
    left in a line becomes the text `unknown`, one distinct token at a time,
    each by a whole-line text replacement. */
module Placeholders {
  import opened Strings

  /** The regular-expression class `[\w-]`, on ASCII. */
  predicate IsWordChar(c: char) {
    ('a' <= c <= 'z') || ('A' <= c <= 'Z') || ('0' <= c <= '9') || c == '_' || c == '-'
  }

  /** Length of the longest prefix of `s` made of word characters. */
  function WordRun(s: string): (n: nat)
    ensures n <= |s|
    ensures forall i :: 0 <= i < n ==> IsWordChar(s[i])
    ensures n < |s| ==> !IsWordChar(s[n])
  {
    if s != [] && IsWordChar(s[0]) then 1 + WordRun(s[1..]) else 0
  }

  /** A placeholder token: a `$` followed by characters none of which is `$`. */
  predicate IsToken(t: string) {
    |t| >= 1 && t[0] == '$' && '$' !in t[1..]
  }

  /** The matches of the pattern `\$[\w-]*`, left to right and without overlap,
      as `re.findall` returns them. */
  function Tokens(s: string): (ts: seq<string>)
    ensures forall t :: t in ts ==> IsToken(t)
    decreases |s|
  {
    if s == [] then []
    else if s[0] == '$' then
      var n := WordRun(s[1..]);
      assert s[..n + 1][1..] == s[1..][..n];
      [s[..n + 1]] + Tokens(s[n + 1..])
    else Tokens(s[1..])
  }

  /** Every token is a `$` followed by `[\w-]` characters only. */
  lemma {:induction false} TokensAreWordRuns(s: string)
    ensures forall t :: t in Tokens(s) ==> |t| >= 1 && t[0] == '$' && forall i :: 1 <= i < |t| ==> IsWordChar(t[i])
    decreases |s|
  {
    if s != [] {
      if s[0] == '$' {
        var n := WordRun(s[1..]);
        var tok := s[..n + 1];
        TokensAreWordRuns(s[n + 1..]);
        forall i | 1 <= i < |tok|
          ensures IsWordChar(tok[i])
        {
          assert tok[i] == s[1..][i - 1];
        }
      } else {
        TokensAreWordRuns(s[1..]);
      }
    }
  }

  /** A `$`-free prefix contributes no token. */
  lemma {:induction false} TokensAfterPrefix(x: string, s: string)
    requires '$' !in x
    ensures Tokens(x + s) == Tokens(s)
    decreases |x|
  {
    if x != [] {
      assert (x + s)[0] == x[0];
      assert (x + s)[1..] == x[1..] + s;
      assert '$' !in x[1..] by { assert forall c :: c in x[1..] ==> c in x; }
      TokensAfterPrefix(x[1..], s);
    } else {
      assert x + s == s;
    }
  }

  /** The run of word characters after a `$` is as long as it can be. */
  lemma {:induction false} WordRunMaximal(w: string, y: string)
    requires forall i :: 0 <= i < |w| ==> IsWordChar(w[i])
    requires y == [] || !IsWordChar(y[0])
    ensures WordRun(w + y) == |w|
    decreases |w|
  {
    if w != [] {
      assert (w + y)[1..] == w[1..] + y;
      WordRunMaximal(w[1..], y);
    } else {
      assert w + y == y;
    }
  }

  /** `re.findall` on a `$` followed by a maximal word run finds exactly
      that token there. */
  lemma TokensAtDollar(w: string, y: string)
    requires forall i :: 0 <= i < |w| ==> IsWordChar(w[i])
    requires y == [] || !IsWordChar(y[0])
    ensures Tokens(['$'] + w + y) == [['$'] + w] + Tokens(y)
  {
    var s := ['$'] + w + y;
    assert s[1..] == w + y;
    WordRunMaximal(w, y);
    assert s[..|w| + 1] == ['$'] + w;
    assert s[|w| + 1..] == y;
  }

  /** Replace each of `tokens`, in order, everywhere in `s` by `unknown`. */
  function ReplaceEach(s: string, tokens: seq<string>): string
    requires forall t :: t in tokens ==> IsToken(t)
  {
    if tokens == [] then s
    else
      var last := tokens[|tokens| - 1];
      assert last in tokens && IsToken(last);
      ReplaceAll(ReplaceEach(s, tokens[..|tokens| - 1]), last, "unknown")
  }

  /** The fallback applied to one description line. */
  function Fallback(line: string): string {
    ReplaceEach(line, Tokens(line))
  }

  /** Every `$` in `s` starts an occurrence of one of `ts`. */
  predicate Covered(s: string, ts: seq<string>) {
    forall p :: 0 <= p < |s| && s[p] == '$' ==> exists t :: t in ts && OccursAt(s, p, t)
  }

  lemma CoveredShift(y: string, k: nat, ts: seq<string>)
    requires k <= |y| && Covered(y[k..], ts)
    requires forall p :: 0 <= p < k && y[p] == '$' ==> exists t :: t in ts && OccursAt(y, p, t)
    ensures Covered(y, ts)
  {
    forall p | k <= p < |y| && y[p] == '$'
      ensures exists t :: t in ts && OccursAt(y, p, t)
    {
      assert y[k..][p - k] == '$';
      var t :| t in ts && OccursAt(y[k..], p - k, t);
      assert y[p..p + |t|] == y[k..][p - k..p - k + |t|];
      assert OccursAt(y, p, t);
    }
  }

  lemma CoveredSuffix(s: string, k: nat, ts: seq<string>)
    requires k <= |s| && Covered(s, ts)
    ensures Covered(s[k..], ts)
  {
    forall p | 0 <= p < |s[k..]| && s[k..][p] == '$'
      ensures exists t :: t in ts && OccursAt(s[k..], p, t)
    {
      assert s[k + p] == '$';
      var t :| t in ts && OccursAt(s, k + p, t);
      assert s[k..][p..p + |t|] == s[k + p..k + p + |t|];
      assert OccursAt(s[k..], p, t);
    }
  }

  /** Replacing a token leaves a `$`-free prefix where it was. */
  lemma {:induction false} ReplaceKeepsPrefix(x: string, m: nat, t: string, u: string)
    requires IsToken(t) && m <= |x| && '$' !in x[..m]
    ensures |ReplaceAll(x, t, u)| >= m && ReplaceAll(x, t, u)[..m] == x[..m]
    decreases |x|
  {
    if |x| >= |t| && m > 0 {
      if x[..|t|] == t {
        assert false;
      } else {
        assert x[1..][..m - 1] == x[1..m];
        assert '$' !in x[1..][..m - 1] by { assert forall c :: c in x[1..m] ==> c in x[..m]; }
        ReplaceKeepsPrefix(x[1..], m - 1, t, u);
        assert x[..m] == [x[0]] + x[1..m];
      }
    }
  }

  /** Replacing token `t` by `$`-free text removes `t` from what covers the `$`s. */
  lemma {:induction false} ReplaceUncovers(s: string, others: seq<string>, t: string, u: string)
    requires IsToken(t) && forall a :: a in others ==> IsToken(a)
    requires '$' !in u && Covered(s, others + [t])
    ensures Covered(ReplaceAll(s, t, u), others)
    decreases |s|
  {
    var ts := others + [t];
    if |s| < |t| {
      forall p | 0 <= p < |s| && s[p] == '$'
        ensures exists a :: a in others && OccursAt(s, p, a)
      {
        var a :| a in ts && OccursAt(s, p, a);
      }
    } else if s[..|t|] == t {
      CoveredSuffix(s, |t|, ts);
      ReplaceUncovers(s[|t|..], others, t, u);
      var r := u + ReplaceAll(s[|t|..], t, u);
      assert r[|u|..] == ReplaceAll(s[|t|..], t, u);
      CoveredShift(r, |u|, others);
    } else {
      CoveredSuffix(s, 1, ts);
      ReplaceUncovers(s[1..], others, t, u);
      var rest := ReplaceAll(s[1..], t, u);
      var r := [s[0]] + rest;
      assert r[1..] == rest;
      if s[0] == '$' {
        var a :| a in ts && OccursAt(s, 0, a);
        assert a != t by { assert s[..|t|] != t; }
        assert a in others;
        assert '$' !in s[1..][..|a| - 1] by {
          assert s[1..][..|a| - 1] == a[1..];
        }
        ReplaceKeepsPrefix(s[1..], |a| - 1, t, u);
        assert r[..|a|] == [s[0]] + rest[..|a| - 1];
        assert OccursAt(r, 0, a);
      }
      CoveredShift(r, 1, others);
    }
  }

  lemma {:induction false} ReplaceEachUncovers(s: string, others: seq<string>, tokens: seq<string>)
    requires forall a :: a in others ==> IsToken(a)
    requires forall a :: a in tokens ==> IsToken(a)
    requires Covered(s, others + tokens)
    ensures Covered(ReplaceEach(s, tokens), others)
    decreases |tokens|
  {
    if tokens != [] {
      var init, last := tokens[..|tokens| - 1], tokens[|tokens| - 1];
      assert tokens == init + [last];
      assert forall a :: a in others + tokens ==> a in (others + [last]) + init;
      ReplaceEachUncovers(s, others + [last], init);
      ReplaceUncovers(ReplaceEach(s, init), others, last, "unknown");
    }
  }

  /** Every `$` of a line starts one of the tokens `re.findall` reports. */
  lemma {:induction false} TokensCover(s: string)
    ensures Covered(s, Tokens(s))
    decreases |s|
  {
    if s != [] {
      if s[0] == '$' {
        var n := WordRun(s[1..]);
        var tok := s[..n + 1];
        TokensCover(s[n + 1..]);
        assert Covered(s[n + 1..], [tok] + Tokens(s[n + 1..]));
        forall p | 1 <= p < n + 1
          ensures s[p] != '$'
        {
          assert s[p] == s[1..][p - 1];
        }
        assert OccursAt(s, 0, tok);
        CoveredShift(s, n + 1, [tok] + Tokens(s[n + 1..]));
      } else {
        TokensCover(s[1..]);
        CoveredShift(s, 1, Tokens(s[1..]));
      }
    }
  }

  /** No description line keeps a `$` after the fallback. */
  lemma FallbackDollarFree(line: string)
    ensures '$' !in Fallback(line)
  {
    TokensCover(line);
    assert [] + Tokens(line) == Tokens(line);
    ReplaceEachUncovers(line, [], Tokens(line));
    var r := Fallback(line);
    forall p | 0 <= p < |r|
      ensures r[p] != '$'
    {
    }
  }

  lemma {:induction false} TokensOfDollarFree(s: string)
    requires '$' !in s
    ensures Tokens(s) == []
    decreases |s|
  {
    if s != [] {
      assert s[0] in s;
      assert forall c :: c in s[1..] ==> c in s;
      TokensOfDollarFree(s[1..]);
    }
  }

  /** A line without `$` passes through the fallback unchanged. */
  lemma FallbackOfDollarFree(line: string)
    requires '$' !in line
    ensures Fallback(line) == line
  {
    TokensOfDollarFree(line);
  }

  /** The only token of `x + $w + y`, for `$`-free `x` and `y` and a maximal
      word run `w`, is `$w`. */
  lemma TokensOfOne(x: string, w: string, y: string)
    requires '$' !in x && '$' !in y
    requires forall i :: 0 <= i < |w| ==> IsWordChar(w[i])
    requires y == [] || !IsWordChar(y[0])
    ensures Tokens(x + (['$'] + w + y)) == [['$'] + w]
  {
    var rest := ['$'] + w + y;
    assert Tokens(rest) == [['$'] + w] by {
      TokensAtDollar(w, y);
      TokensOfDollarFree(y);
    }
    TokensAfterPrefix(x, rest);
  }

  /** Replacing token `tok` in `x + tok + y`, where neither `x` nor `y`
      holds a `$`, touches that one occurrence only. */
  lemma ReplaceOne(x: string, tok: string, y: string, rep: string)
    requires '$' !in x && '$' !in y && |tok| >= 1 && tok[0] == '$'
    ensures ReplaceAll(x + tok + y, tok, rep) == x + rep + y
  {
    assert x + tok + y == x + (tok + y);
    ReplaceAfterPrefix(x, tok + y, tok, rep);
    assert (tok + y)[..|tok|] == tok && (tok + y)[|tok|..] == y;
    ReplaceAfterPrefix(y, [], tok, rep);
    assert y + [] == y;
  }

  /** A line holding one placeholder token `$w`, with no other `$`, gets
      exactly that token replaced by `unknown`: the whole run of `[\w-]`
      characters after the `$` goes, and nothing else changes. */
  lemma FallbackOneToken(x: string, w: string, y: string)
    requires '$' !in x && '$' !in y
    requires forall i :: 0 <= i < |w| ==> IsWordChar(w[i])
    requires y == [] || !IsWordChar(y[0])
    ensures Fallback(x + ['$'] + w + y) == x + "unknown" + y
  {
    var line := x + ['$'] + w + y;
    assert line == x + (['$'] + w + y);
    TokensOfOne(x, w, y);
    assert ReplaceEach(line, [['$'] + w]) == ReplaceAll(line, ['$'] + w, "unknown");
    assert line == x + (['$'] + w) + y;
    ReplaceOne(x, ['$'] + w, y, "unknown");
  }

  /** `re.findall` on `$a $ab` reports `$a` and then `$ab`. */
  lemma TokensOfHazard()
    ensures Tokens("$a $ab") == ["$a", "$ab"]
  {
    TokensOfTwo("a", " ", "ab");
    assert "$a $ab" == ['$'] + "a" + (" " + ['$'] + "ab");
    assert ['$'] + "a" == "$a" && ['$'] + "ab" == "$ab";
  }

  /** Two placeholders `$v` and `$w` separated by a `$`-free gap that does
      not continue `$v` are the two matches, in order. */
  lemma TokensOfTwo(v: string, x: string, w: string)
    requires forall i :: 0 <= i < |v| ==> IsWordChar(v[i])
    requires forall i :: 0 <= i < |w| ==> IsWordChar(w[i])
    requires x != [] && !IsWordChar(x[0]) && '$' !in x
    ensures Tokens(['$'] + v + (x + ['$'] + w)) == [['$'] + v, ['$'] + w]
  {
    assert Tokens(x + ['$'] + w) == [['$'] + w] by {
      TokensOfOne(x, w, []);
      assert x + ['$'] + w == x + (['$'] + w + []);
    }
    assert (x + ['$'] + w)[0] == x[0];
    TokensAtDollar(v, x + ['$'] + w);
  }

  /** The fallback's own prefix hazard: replacing `$a` first also rewrites
      the start of `$ab`, which then is no longer there to be replaced. */
  lemma FallbackPrefixHazard()
    ensures Fallback("$a $ab") == "unknown unknownb"
  {
    HazardPasses();
    HazardFirstPass();
    HazardSecondPass();
  }

  /** The fallback on `$a $ab` is two passes, `$a` first. */
  lemma HazardPasses()
    ensures Fallback("$a $ab") == ReplaceAll(ReplaceAll("$a $ab", "$a", "unknown"), "$ab", "unknown")
  {
    TokensOfHazard();
    assert ["$a", "$ab"][..1] == ["$a"] && ["$a"][..0] == [];
  }

  /** The `$a` pass also eats the head of `$ab`. */
  lemma HazardFirstPass()
    ensures ReplaceAll("$a $ab", "$a", "unknown") == "unknown unknownb"
  {
    assert "$a $ab"[..2] == "$a" && "$a $ab"[2..] == " $ab";
    assert ReplaceAll(" $ab", "$a", "unknown") == " unknownb" by {
      ReplaceOne(" ", "$a", "b", "unknown");
      assert " $ab" == " " + "$a" + "b";
    }
    assert "unknown" + " unknownb" == "unknown unknownb";
  }

  /** After the first pass, `$ab` no longer occurs. */
  lemma HazardSecondPass()
    ensures ReplaceAll("unknown unknownb", "$ab", "unknown") == "unknown unknownb"
  {
    ReplaceAfterPrefix("unknown unknownb", [], "$ab", "unknown");
    assert "unknown unknownb" + [] == "unknown unknownb";
  }

  /** The fallback over every line of a description. */
  function FallbackLines(description: seq<string>): (lines: seq<string>)
    ensures |lines| == |description|
  {
    seq(|description|, i requires 0 <= i < |description| => Fallback(description[i]))
  }

  /** Lines 377-380: the fallback over every line of a description. */
  method ReplaceUnresolved(description: seq<string>) returns (lines: seq<string>)
    ensures lines == FallbackLines(description)
    ensures forall i :: 0 <= i < |lines| ==> '$' !in lines[i]
  {
    lines := description;
    var idx := 0;
    while idx < |lines|
      invariant 0 <= idx <= |lines| == |description|
      invariant forall i :: 0 <= i < idx ==> lines[i] == Fallback(description[i]) && '$' !in lines[i]
      invariant forall i :: idx <= i < |lines| ==> lines[i] == description[i]
    {
      var desc := lines[idx];
      var variables := Tokens(desc);
      var k := 0;
      while k < |variables|
        invariant 0 <= k <= |variables|
        invariant desc == ReplaceEach(lines[idx], variables[..k])
      {
        assert variables[..k + 1][..k] == variables[..k];
        assert variables[k] in variables;
        desc := ReplaceAll(desc, variables[k], "unknown");
        k := k + 1;
      }
      assert variables[..k] == variables;
      FallbackDollarFree(lines[idx]);
      lines := lines[idx := desc];
      idx := idx + 1;
    }
  }
}
