/** Codes that people type: shown in groups, entered with any letter case, dashes and spaces. */
module TypedCodes {
  import opened Scopes

  function Upper(c: char): char {
    if 'a' <= c <= 'z' then c - 'a' + 'A' else c
  }

  /** The capital letters of s, without dashes and spaces. */
  function Squeeze(s: string): string {
    if s == "" then ""
    else if s[0] == '-' || s[0] == ' ' then Squeeze(s[1..])
    else [Upper(s[0])] + Squeeze(s[1..])
  }

  /** Digits and capital letters, as in the alphabet. */
  ghost predicate Plain(raw: string) {
    forall i :: 0 <= i < |raw| ==> '0' <= raw[i] <= 'Z'
  }

  /** s is raw typed with any letter case and with dashes and spaces anywhere. */
  ghost predicate Typed(s: string, raw: string)
    decreases |s|
  {
    if s == "" then raw == ""
    else
      || ((s[0] == '-' || s[0] == ' ') && Typed(s[1..], raw))
      || (raw != "" && Upper(s[0]) == raw[0] && Typed(s[1..], raw[1..]))
  }

  lemma {:induction false} SqueezeTyped(s: string, raw: string)
    requires Typed(s, raw) && Plain(raw)
    ensures Squeeze(s) == raw && |raw| <= |s|
    decreases |s|
  {
    if s == "" {
    } else if s[0] == '-' || s[0] == ' ' {
      SqueezeTyped(s[1..], raw);
    } else {
      SqueezeTyped(s[1..], raw[1..]);
      assert raw == [raw[0]] + raw[1..];
    }
  }

  lemma {:induction false} TypedVerbatim(s: string, rest: string, raw: string)
    requires Plain(s) && Typed(rest, raw)
    ensures Typed(s + rest, s + raw)
    decreases |s|
  {
    if s == "" {
      assert s + rest == rest && s + raw == raw;
    } else {
      TypedVerbatim(s[1..], rest, raw);
      assert (s + rest)[1..] == s[1..] + rest && (s + raw)[1..] == s[1..] + raw;
    }
  }

  /** A code shown in two groups, the first of k characters. */
  function Grouped(raw: string, k: nat): string
    requires k <= |raw|
  {
    raw[..k] + "-" + raw[k..]
  }

  lemma TypedItself(s: string)
    requires Plain(s)
    ensures Typed(s, s)
  {
    TypedVerbatim(s, "", "");
    assert s + "" == s;
  }

  lemma DashIsDropped(s: string, raw: string)
    requires Typed(s, raw)
    ensures Typed("-" + s, raw)
  {
    assert ("-" + s)[1..] == s;
  }

  lemma JoinCut(raw: string, k: nat)
    requires k <= |raw|
    ensures raw[..k] + raw[k..] == raw && raw[..k] + ("-" + raw[k..]) == Grouped(raw, k)
  {
  }

  lemma GroupedIsTyped(raw: string, k: nat)
    requires k <= |raw| && Plain(raw)
    ensures Typed(Grouped(raw, k), raw)
  {
    TypedItself(raw[k..]);
    DashIsDropped(raw[k..], raw[k..]);
    TypedVerbatim(raw[..k], "-" + raw[k..], raw[k..]);
    JoinCut(raw, k);
  }

  /** Squeezing what is shown gives the code back. */
  lemma SqueezeGrouped(raw: string, k: nat)
    requires 0 < k < |raw| && Plain(raw)
    ensures Squeeze(TrimSpace(Grouped(raw, k))) == raw
  {
    GroupedIsTyped(raw, k);
    SqueezeTyped(Grouped(raw, k), raw);
    var s := Grouped(raw, k);
    assert s[0] == raw[0] && s[|s| - 1] == raw[|raw| - 1];
    TrimmedStays(s);
  }
}
