/**
 * The regular expression `/\[ID:(C+)\]/` matched with `String.prototype.match`
 * (no global flag): the first capture group of the leftmost match. Both
 * revisions of the view use this shape and differ only in the token class C:
 * `[a-zA-Z0-9]` in the current one, `\d` (ASCII digits) in the older one.
 */
module TagScan {
  import opened Wrappers

  /** The character class of the tag's token. */
  datatype TokenClass = Alphanumeric | Digits

  predicate IsAsciiDigit(c: char) { '0' <= c <= '9' }

  predicate IsAsciiLetter(c: char) { 'a' <= c <= 'z' || 'A' <= c <= 'Z' }

  predicate InClass(c: char, cls: TokenClass)
  {
    match cls
    case Alphanumeric => IsAsciiLetter(c) || IsAsciiDigit(c)
    case Digits => IsAsciiDigit(c)
  }

  /** Every character of `tok` belongs to `cls`. */
  predicate AllInClass(tok: string, cls: TokenClass)
  {
    forall k :: 0 <= k < |tok| ==> InClass(tok[k], cls)
  }

  /** The literal text that opens a tag. */
  const Opener: string := "[ID:"

  /**
   * Specification of a match: at position `i` of `s` stands the text
   * `[ID:` + `tok` + `]`, with `tok` a non-empty run of class characters.
   */
  ghost predicate TagAt(s: string, i: nat, tok: string, cls: TokenClass)
  {
    && i + |Opener| + |tok| < |s|
    && s[i..i + |Opener|] == Opener
    && |tok| > 0
    && AllInClass(tok, cls)
    && s[i + |Opener| .. i + |Opener| + |tok|] == tok
    && s[i + |Opener| + |tok|] == ']'
  }

  /** `t` occurs as a contiguous piece of `s`. */
  ghost predicate Occurs(t: string, s: string)
  {
    exists i :: PieceAt(s, i, t)
  }

  /** `t` stands at position `i` of `s`. */
  predicate PieceAt(s: string, i: nat, t: string)
  {
    i + |t| <= |s| && s[i..i + |t|] == t
  }

  /** The length of the longest run of class characters of `s` starting at `j`. */
  function RunLength(s: string, j: nat, cls: TokenClass): (n: nat)
    requires j <= |s|
    ensures j + n <= |s|
    ensures forall k :: j <= k < j + n ==> InClass(s[k], cls)
    ensures j + n < |s| ==> !InClass(s[j + n], cls)
    decreases |s| - j
  {
    if j == |s| || !InClass(s[j], cls) then 0 else 1 + RunLength(s, j + 1, cls)
  }

  /** The opener stands at position `i` of `s`. */
  predicate OpenerAt(s: string, i: nat)
  {
    i + |Opener| <= |s| && s[i..i + |Opener|] == Opener
  }

  /** The token candidate after an opener at `i`: the maximal class run. */
  function TokenAt(s: string, i: nat, cls: TokenClass): string
    requires OpenerAt(s, i)
  {
    s[i + |Opener| .. i + |Opener| + RunLength(s, i + |Opener|, cls)]
  }

  /** The executable test for a match at `i`: opener, a non-empty run, then `]`. */
  predicate MatchesAt(s: string, i: nat, cls: TokenClass)
  {
    && OpenerAt(s, i)
    && var n := RunLength(s, i + |Opener|, cls);
    && n > 0
    && i + |Opener| + n < |s|
    && s[i + |Opener| + n] == ']'
  }

  /**
   * A match at `i` exists exactly when the executable test succeeds, and its
   * token is then the maximal run: `]` is not a class character, so the
   * greedy `+` cannot stop early, and no token of any other length fits.
   */
  lemma TagAtIff(s: string, i: nat, tok: string, cls: TokenClass)
    ensures TagAt(s, i, tok, cls) <==> MatchesAt(s, i, cls) && tok == TokenAt(s, i, cls)
  {
  }

  /** No match starts at a position in `[from, to)`. */
  ghost predicate NoTagIn(s: string, from: nat, to: nat, cls: TokenClass)
  {
    forall j, tok :: from <= j < to ==> !TagAt(s, j, tok, cls)
  }

  /** The leftmost position at or after `i` where a match starts. */
  function ScanFrom(s: string, i: nat, cls: TokenClass): (r: Option<nat>)
    ensures r.Some? ==> i <= r.value && MatchesAt(s, r.value, cls)
    ensures r.Some? ==> TagAt(s, r.value, TokenAt(s, r.value, cls), cls)
    ensures r.Some? ==> NoTagIn(s, i, r.value, cls)
    ensures r.None? ==> NoTagIn(s, i, |s|, cls)
    decreases |s| - i
  {
    if i >= |s| then None
    else if MatchesAt(s, i, cls) then
      TagAtIff(s, i, TokenAt(s, i, cls), cls);
      Some(i)
    else
      NoTagHere(s, i, cls);
      ScanFrom(s, i + 1, cls)
  }

  /** A position where the executable test fails holds no match. */
  lemma NoTagHere(s: string, i: nat, cls: TokenClass)
    requires !MatchesAt(s, i, cls)
    ensures forall tok :: !TagAt(s, i, tok, cls)
  {
  }

  /** The position of the leftmost match in `s`. */
  function LeftmostTag(s: string, cls: TokenClass): (r: Option<nat>)
    ensures r.Some? ==> MatchesAt(s, r.value, cls)
    ensures r.Some? ==> TagAt(s, r.value, TokenAt(s, r.value, cls), cls) && NoTagIn(s, 0, r.value, cls)
    ensures r.None? <==> NoTagIn(s, 0, |s|, cls)
  {
    var r := ScanFrom(s, 0, cls);
    assert r.Some? ==> !NoTagIn(s, 0, |s|, cls) by {
      if r.Some? {
        assert TagAt(s, r.value, TokenAt(s, r.value, cls), cls);
      }
    }
    r
  }

  /**
   * `message.match(/\[ID:(C+)\]/)?.[1] ?? null`: the token of the leftmost
   * match, or None when the text holds no well-formed tag.
   */
  function Extract(s: string, cls: TokenClass): (r: Option<string>)
    ensures r.Some? ==> |r.value| > 0 && AllInClass(r.value, cls)
    ensures r.Some? ==> Occurs(Opener + r.value + "]", s)
    ensures r.Some? ==> exists i :: TagAt(s, i, r.value, cls) && NoTagIn(s, 0, i, cls)
    ensures r.None? <==> NoTagIn(s, 0, |s|, cls)
  {
    match LeftmostTag(s, cls)
    case None => None
    case Some(i) =>
      var tok := TokenAt(s, i, cls);
      TagOccurs(s, i, tok, cls);
      Some(tok)
  }

  /** A match at `i` means the full tag text occurs in `s`. */
  lemma TagOccurs(s: string, i: nat, tok: string, cls: TokenClass)
    requires TagAt(s, i, tok, cls)
    ensures Occurs(Opener + tok + "]", s)
  {
    var t := Opener + tok + "]";
    var e := i + |t|;
    assert s[i..e] == s[i..i + |Opener|] + s[i + |Opener| .. e - 1] + s[e - 1 .. e];
    assert PieceAt(s, i, t);
  }

  /** At one position at most one token matches. */
  lemma TagUnique(s: string, i: nat, t1: string, t2: string, cls: TokenClass)
    requires TagAt(s, i, t1, cls) && TagAt(s, i, t2, cls)
    ensures t1 == t2
  {
  }

  /** A digit is an alphanumeric character, so a digit tag is an alphanumeric tag. */
  lemma DigitTagIsAlphanumericTag(s: string, i: nat, tok: string)
    requires TagAt(s, i, tok, Digits)
    ensures TagAt(s, i, tok, Alphanumeric)
  {
  }

  /** A piece of text without `[` holds no match that starts inside it. */
  lemma {:induction false} NoTagWithoutBracket(s: string, from: nat, to: nat, cls: TokenClass)
    requires from <= to <= |s|
    requires forall k :: from <= k < to ==> s[k] != '['
    ensures NoTagIn(s, from, to, cls)
  {
    forall j, tok | from <= j < to ensures !TagAt(s, j, tok, cls) {
      if j + |Opener| <= |s| {
        assert s[j..j + |Opener|][0] == s[j];
      }
    }
  }

  /**
   * Whatever follows it, a tag preceded only by text without `[` is the one
   * extracted.
   */
  lemma ExtractAfterPlainPrefix(pre: string, tok: string, post: string, cls: TokenClass)
    requires forall k :: 0 <= k < |pre| ==> pre[k] != '['
    requires |tok| > 0 && AllInClass(tok, cls)
    ensures Extract(pre + Opener + tok + "]" + post, cls) == Some(tok)
  {
    var s := pre + Opener + tok + "]" + post;
    var i := |pre|;
    assert s[i..i + |Opener|] == Opener;
    assert s[i + |Opener| .. i + |Opener| + |tok|] == tok;
    assert s[i + |Opener| + |tok|] == ']';
    assert TagAt(s, i, tok, cls);
    NoTagWithoutBracket(s, 0, i, cls);
    var r := Extract(s, cls);
    var j: nat :| TagAt(s, j, r.value, cls) && NoTagIn(s, 0, j, cls);
    TagUnique(s, i, tok, r.value, cls);
  }

  /** Past its first character a tag's text holds no `[`. */
  lemma NoBracketAfterOpening(tok: string, cls: TokenClass)
    requires AllInClass(tok, cls)
    ensures var t := Opener + tok + "]";
      forall j :: 1 <= j < |t| ==> t[j] != '['
  {
    var t := Opener + tok + "]";
    forall j | 1 <= j < |t| ensures t[j] != '[' {
      if |Opener| <= j < |Opener| + |tok| {
        assert t[j] == tok[j - |Opener|];
        assert InClass(tok[j - |Opener|], cls);
      }
    }
  }

  /**
   * A tag cut anywhere inside it is matched in neither piece, whatever text
   * without `[` surrounds the pieces: extraction looks at one fragment at a
   * time, and neither piece has an opener followed by a closed token.
   */
  lemma SplitTagNeverMatched(pre: string, tok: string, post: string, k: nat, cls: TokenClass)
    requires forall j :: 0 <= j < |pre| ==> pre[j] != '['
    requires forall j :: 0 <= j < |post| ==> post[j] != '['
    requires |tok| > 0 && AllInClass(tok, cls)
    requires 0 < k < |Opener + tok + "]"|
    ensures Extract(pre + (Opener + tok + "]")[..k], cls).None?
    ensures Extract((Opener + tok + "]")[k..] + post, cls).None?
  {
    var t := Opener + tok + "]";
    NoBracketAfterOpening(tok, cls);
    // The piece before the cut: only position |pre| holds a `[`.
    var s1 := pre + t[..k];
    var i := |pre|;
    NoTagWithoutBracket(s1, 0, i, cls);
    NoTagWithoutBracket(s1, i + 1, |s1|, cls);
    assert !MatchesAt(s1, i, cls);
    NoTagHere(s1, i, cls);
    assert NoTagIn(s1, 0, |s1|, cls);
    // The piece after the cut holds no `[` at all.
    var s2 := t[k..] + post;
    forall j | 0 <= j < |s2| ensures s2[j] != '[' {
      if j < |t| - k { assert s2[j] == t[k + j]; }
    }
    NoTagWithoutBracket(s2, 0, |s2|, cls);
  }
}
