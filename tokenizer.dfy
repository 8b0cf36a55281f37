/** The CSV line splitter shared by the genetic-programming and the
    neural-network programs: tokens are read one `getline` at a time, so a
    delimiter at the very end of the line yields no empty trailing token and
    the empty line yields no token at all. */
module Tokenizer {

  /** Index of the first occurrence of `d` in `s`, or `|s|` when there is none. */
  function IndexOf(s: string, d: char): (i: nat)
    ensures i <= |s|
    ensures i < |s| ==> s[i] == d
    ensures forall j :: 0 <= j < i ==> s[j] != d
  {
    if |s| == 0 then 0
    else if s[0] == d then 0
    else 1 + IndexOf(s[1..], d)
  }

  /** The tokens `getline(stream, token, d)` produces, in order. */
  function Tokens(s: string, d: char): seq<string>
    decreases |s|
  {
    if |s| == 0 then []
    else
      var i := IndexOf(s, d);
      if i == |s| then [s] else [s[..i]] + Tokens(s[i + 1..], d)
  }

  /** Tokens joined back together with `d` between neighbours. */
  function Join(ts: seq<string>, d: char): string
  {
    if |ts| == 0 then []
    else if |ts| == 1 then ts[0]
    else ts[0] + [d] + Join(ts[1..], d)
  }

  lemma {:induction false} TokensHaveNoDelimiter(s: string, d: char)
    ensures forall k :: 0 <= k < |Tokens(s, d)| ==> d !in Tokens(s, d)[k]
    decreases |s|
  {
    if |s| > 0 {
      var i := IndexOf(s, d);
      if i < |s| {
        TokensHaveNoDelimiter(s[i + 1..], d);
        assert d !in s[..i];
      }
    }
  }

  /** Only the empty line has no tokens. */
  lemma NoTokensOnlyForEmptyLine(s: string, d: char)
    ensures Tokens(s, d) == [] <==> |s| == 0
  {
  }

  /** Joining the tokens reproduces a line that does not end in the delimiter. */
  lemma {:induction false} JoinTokens(s: string, d: char)
    requires |s| == 0 || s[|s| - 1] != d
    ensures Join(Tokens(s, d), d) == s
    decreases |s|
  {
    if |s| > 0 {
      var i := IndexOf(s, d);
      if i < |s| {
        var t, rest := s[..i], s[i + 1..];
        assert s == t + [d] + rest;
        assert rest[|rest| - 1] == s[|s| - 1];
        assert d !in t;
        calc {
          Join(Tokens(s, d), d);
        == { TokensAtDelimiter(t, rest, d); }
          Join([t] + Tokens(rest, d), d);
        == { JoinCons(t, Tokens(rest, d), d); }
          t + [d] + Join(Tokens(rest, d), d);
        == { JoinTokens(rest, d); }
          s;
        }
      }
    }
  }

  /** Joining a token in front of a non-empty list puts one delimiter between. */
  lemma JoinCons(t: string, ts: seq<string>, d: char)
    requires |ts| > 0
    ensures Join([t] + ts, d) == t + [d] + Join(ts, d)
  {
    assert ([t] + ts)[1..] == ts;
  }

  /** A line that ends in the delimiter loses exactly that final delimiter. */
  lemma {:induction false} JoinTokensTrailing(s: string, d: char)
    requires |s| > 0 && s[|s| - 1] == d
    ensures Join(Tokens(s, d), d) + [d] == s
    decreases |s|
  {
    var i := IndexOf(s, d);
    var t, rest := s[..i], s[i + 1..];
    assert s == t + [d] + rest;
    assert d !in t;
    TokensAtDelimiter(t, rest, d);
    if |rest| > 0 {
      assert rest[|rest| - 1] == d;
      calc {
        Join(Tokens(s, d), d) + [d];
      == { JoinCons(t, Tokens(rest, d), d); }
        t + [d] + (Join(Tokens(rest, d), d) + [d]);
      == { JoinTokensTrailing(rest, d); }
        s;
      }
    }
  }

  /** `split`: reads the line character by character the way repeated
      `getline` calls do, pushing each finished token. */
  method Split(s: string, d: char) returns (tokens: seq<string>)
    ensures tokens == Tokens(s, d)
    ensures forall k :: 0 <= k < |tokens| ==> d !in tokens[k]
  {
    tokens := [];
    var token: string := [];
    var i := 0;
    assert token + s[i..] == s;
    while i < |s|
      invariant 0 <= i <= |s|
      invariant d !in token
      invariant tokens + Tokens(token + s[i..], d) == Tokens(s, d)
    {
      SplitStep(s, i, token, d);
      if s[i] == d {
        tokens := tokens + [token];
        token := [];
        assert token + s[i + 1..] == s[i + 1..];
      } else {
        token := token + [s[i]];
      }
      i := i + 1;
    }
    assert token + s[i..] == token;
    if token != [] {
      LastToken(token, d);
      tokens := tokens + [token];
    } else {
      assert Tokens(token, d) == [];
    }
    TokensHaveNoDelimiter(s, d);
  }

  /** What one character does to the tokens still to come. */
  lemma SplitStep(s: string, i: nat, token: string, d: char)
    requires i < |s| && d !in token
    ensures s[i] == d ==> Tokens(token + s[i..], d) == [token] + Tokens(s[i + 1..], d)
    ensures s[i] != d ==> token + s[i..] == (token + [s[i]]) + s[i + 1..]
  {
    var r := s[i + 1..];
    assert s[i..] == [s[i]] + r;
    var line := token + s[i..];
    assert line == token + [s[i]] + r;
    if s[i] == d {
      TokensAtDelimiter(token, r, d);
    }
  }

  /** A delimiter after a delimiter-free prefix ends the first token. */
  lemma TokensAtDelimiter(token: string, rest: string, d: char)
    requires d !in token
    ensures Tokens(token + [d] + rest, d) == [token] + Tokens(rest, d)
  {
    var line := token + [d] + rest;
    IndexOfFirst(line, d, |token|);
    assert line[..|token|] == token;
    assert line[|token| + 1..] == rest;
  }

  /** A non-empty delimiter-free line is one token. */
  lemma LastToken(token: string, d: char)
    requires token != [] && d !in token
    ensures Tokens(token, d) == [token]
  {
  }

  /** The first occurrence is where `IndexOf` points. */
  lemma {:induction false} IndexOfFirst(s: string, d: char, k: nat)
    requires k < |s| && s[k] == d
    requires forall j :: 0 <= j < k ==> s[j] != d
    ensures IndexOf(s, d) == k
  {
  }
}
