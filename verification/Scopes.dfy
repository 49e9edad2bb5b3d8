/** Space-delimited scope strings (section 3.3 of RFC 6749): internal/services/scope.go. */
module Scopes {
  import opened Common

  /** unicode.IsSpace, the separators of strings.Fields and strings.TrimSpace. */
  predicate IsSpace(c: char) {
    || '\t' <= c <= '\r' || c == ' ' || c == '\U{0085}' || c == '\U{00A0}' || c == '\U{1680}'
    || '\U{2000}' <= c <= '\U{200A}' || c == '\U{2028}' || c == '\U{2029}' || c == '\U{202F}'
    || c == '\U{205F}' || c == '\U{3000}'
  }

  /** A non-empty string without white space: what strings.Fields yields. */
  ghost predicate IsWord(w: string) {
    w != "" && forall i :: 0 <= i < |w| ==> !IsSpace(w[i])
  }

  ghost predicate AllWords(ws: seq<string>) {
    forall i :: 0 <= i < |ws| ==> IsWord(ws[i])
  }

  /** Length of the longest prefix of s without white space. */
  function WordLength(s: string): (n: nat)
    ensures n <= |s|
    ensures forall i :: 0 <= i < n ==> !IsSpace(s[i])
    ensures n < |s| ==> IsSpace(s[n])
  {
    if s == "" || IsSpace(s[0]) then 0 else 1 + WordLength(s[1..])
  }

  /** strings.Fields: the maximal runs of characters that are not white space. */
  function ParseScope(scope: string): (words: seq<string>)
    ensures AllWords(words)
    decreases |scope|
  {
    if scope == "" then []
    else if IsSpace(scope[0]) then ParseScope(scope[1..])
    else
      var n := WordLength(scope);
      [scope[..n]] + ParseScope(scope[n..])
  }

  /** strings.Join(words, " ") */
  function JoinScope(words: seq<string>): string {
    if words == [] then ""
    else if |words| == 1 then words[0]
    else words[0] + " " + JoinScope(words[1..])
  }

  function ScopeSet(scope: string): set<string> {
    set w | w in ParseScope(scope)
  }

  function ListSet(words: seq<string>): set<string> {
    set w | w in words
  }

  predicate Blank(s: string) {
    forall i :: 0 <= i < |s| ==> IsSpace(s[i])
  }

  function TrimLeft(s: string): string {
    if s != "" && IsSpace(s[0]) then TrimLeft(s[1..]) else s
  }

  function TrimRight(s: string): string
    decreases |s|
  {
    if s != "" && IsSpace(s[|s| - 1]) then TrimRight(s[..|s| - 1]) else s
  }

  /** strings.TrimSpace */
  function TrimSpace(s: string): string {
    TrimRight(TrimLeft(s))
  }

  // ----- Laws that determine ParseScope -----

  /** A word parses to itself. */
  lemma ParseWord(w: string)
    requires IsWord(w)
    ensures ParseScope(w) == [w]
  {
    assert WordLength(w) == |w|;
    assert w[..|w|] == w;
  }

  /**
   * White space separates: parsing a text around a separator is parsing its two sides.
   * With ParseWord and ParseScope("") == [] this determines ParseScope on every string.
   */
  lemma {:induction false} ParseAroundSpace(a: string, sep: char, b: string)
    requires IsSpace(sep)
    ensures ParseScope(a + [sep] + b) == ParseScope(a) + ParseScope(b)
    decreases |a|
  {
    var s := a + [sep] + b;
    if a == "" {
      assert s[1..] == b;
    } else if IsSpace(a[0]) {
      assert s[1..] == a[1..] + [sep] + b;
      ParseAroundSpace(a[1..], sep, b);
    } else {
      var n := WordLength(a);
      WordLengthUnique(s, n);
      assert s[..n] == a[..n];
      assert s[n..] == a[n..] + [sep] + b;
      if n < |a| {
        ParseAroundSpace(a[n..], sep, b);
      } else {
        assert a[n..] == "";
        assert s[n..][1..] == b;
      }
    }
  }

  lemma {:induction false} WordLengthUnique(s: string, n: nat)
    requires n <= |s|
    requires forall i :: 0 <= i < n ==> !IsSpace(s[i])
    requires n < |s| ==> IsSpace(s[n])
    ensures WordLength(s) == n
  {
  }

  /** Parsing a space-join of words gives the words back. */
  lemma {:induction false} ParseJoin(words: seq<string>)
    requires AllWords(words)
    ensures ParseScope(JoinScope(words)) == words
  {
    if words == [] {
    } else if |words| == 1 {
      ParseWord(words[0]);
    } else {
      var rest := JoinScope(words[1..]);
      assert words[0] + " " + rest == words[0] + [' '] + rest;
      ParseAroundSpace(words[0], ' ', rest);
      ParseWord(words[0]);
      ParseJoin(words[1..]);
    }
  }

  /** Normalising a scope string by parse and join does not change what it parses to. */
  lemma ParseJoinParse(scope: string)
    ensures ParseScope(JoinScope(ParseScope(scope))) == ParseScope(scope)
    ensures ScopeSet(JoinScope(ParseScope(scope))) == ScopeSet(scope)
  {
    ParseJoin(ParseScope(scope));
  }

  lemma {:induction false} BlankParsesEmpty(s: string)
    ensures Blank(s) <==> ParseScope(s) == []
    decreases |s|
  {
    if s != "" && IsSpace(s[0]) {
      BlankParsesEmpty(s[1..]);
      assert forall i :: 0 < i < |s| ==> s[i] == s[1..][i - 1];
    }
  }

  lemma {:induction false} TrimLeftCuts(s: string)
    ensures var t := TrimLeft(s);
      && |t| <= |s| && t == s[|s| - |t|..] && Blank(s[..|s| - |t|])
      && (t != "" ==> !IsSpace(t[0]))
  {
    if s != "" && IsSpace(s[0]) {
      TrimLeftCuts(s[1..]);
      var n := |s| - |TrimLeft(s)|;
      assert s[..n] == [s[0]] + s[1..][..n - 1];
    }
  }

  lemma {:induction false} TrimRightCuts(s: string)
    ensures var t := TrimRight(s);
      && |t| <= |s| && t == s[..|t|] && Blank(s[|t|..])
      && (t != "" ==> !IsSpace(t[|t| - 1]))
    decreases |s|
  {
    if s != "" && IsSpace(s[|s| - 1]) {
      var n := |s| - 1;
      TrimRightCuts(s[..n]);
      var m := |TrimRight(s)|;
      assert s[m..] == s[..n][m..] + [s[n]];
    }
  }

  /** TrimSpace cuts off white space at both ends, and all of it. */
  lemma TrimCuts(s: string) returns (i: nat, j: nat)
    ensures i <= j <= |s| && TrimSpace(s) == s[i..j] && Blank(s[..i]) && Blank(s[j..])
    ensures i < j ==> !IsSpace(s[i]) && !IsSpace(s[j - 1])
    ensures i == j ==> Blank(s)
  {
    TrimLeftCuts(s);
    var l := TrimLeft(s);
    i := |s| - |l|;
    TrimRightCuts(l);
    j := i + |TrimSpace(s)|;
    assert s[j..] == l[j - i..];
    assert TrimSpace(s) == s[i..j];
    if i == j {
      assert s == s[..i] + s[j..];
    }
  }

  lemma TrimmedStays(s: string)
    requires s != "" ==> !IsSpace(s[0]) && !IsSpace(s[|s| - 1])
    ensures TrimSpace(s) == s
  {
  }

  lemma TrimBlank(s: string)
    ensures TrimSpace(s) == "" <==> Blank(s)
  {
    var i, j := TrimCuts(s);
    assert i < j ==> !Blank(s);
  }

  /** Trimming is idempotent. */
  lemma TrimIdempotent(s: string)
    ensures TrimSpace(TrimSpace(s)) == TrimSpace(s)
  {
    var i, j := TrimCuts(s);
    TrimmedStays(TrimSpace(s));
  }

  // ----- The operations, in the loop form of the source -----

  method ScopeContains(scope: string, target: string) returns (found: bool)
    ensures found <==> target in ScopeSet(scope)
  {
    var words := ParseScope(scope);
    for i := 0 to |words|
      invariant target !in words[..i]
    {
      if words[i] == target {
        return true;
      }
    }
    assert words[..|words|] == words;
    return false;
  }

  method ScopeIsSubset(requested: string, allowed: string) returns (subset: bool)
    ensures subset <==> ScopeSet(requested) <= ScopeSet(allowed)
  {
    var allowedSet: set<string> := {};
    var words := ParseScope(allowed);
    for i := 0 to |words|
      invariant allowedSet == set w | w in words[..i]
    {
      allowedSet := allowedSet + {words[i]};
    }
    assert words[..|words|] == words;
    var wanted := ParseScope(requested);
    for i := 0 to |wanted|
      invariant forall w :: w in wanted[..i] ==> w in allowedSet
    {
      if wanted[i] !in allowedSet {
        assert wanted[i] in ScopeSet(requested);
        return false;
      }
    }
    assert wanted[..|wanted|] == wanted;
    return true;
  }

  /** The scope granted to a client registered for `registered`, or an invalid_scope error. */
  function ScopeForClient(registered: seq<string>, requested: string): Result<string, ()> {
    var all := JoinScope(registered);
    if TrimSpace(requested) == "" then Ok(all)
    else if ScopeSet(requested) <= ScopeSet(all) then Ok(JoinScope(ParseScope(requested)))
    else Err(())
  }

  method ValidateScopeForClient(registered: seq<string>, requested: string) returns (r: Result<string, ()>)
    ensures r.Ok? <==> ScopeSet(requested) <= ScopeSet(JoinScope(registered))
    ensures r.Ok? && ScopeSet(requested) == {} ==> ScopeSet(r.value) == ScopeSet(JoinScope(registered))
    ensures r.Ok? && ScopeSet(requested) != {} ==> ScopeSet(r.value) == ScopeSet(requested)
    ensures r == ScopeForClient(registered, requested)
  {
    TrimBlank(requested);
    BlankParsesEmpty(requested);
    ParseJoinParse(requested);
    assert ParseScope(requested) != [] ==> ParseScope(requested)[0] in ScopeSet(requested);
    var all := JoinScope(registered);
    if TrimSpace(requested) == "" {
      return Ok(all);
    }
    var within := ScopeIsSubset(requested, all);
    if !within {
      return Err(());
    }
    return Ok(JoinScope(ParseScope(requested)));
  }
}
