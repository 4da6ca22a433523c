/** The closed set of request methods the module recognises: the fifteen names
    for which nginx has an `NGX_HTTP_*` method code, and `NGX_HTTP_UNKNOWN` for
    everything else. Both catalogue functions compare names with
    `ngx_strcasecmp`, modelled here as `CaseEq`. */
module MethodCatalog {

  /** One case per `NGX_HTTP_*` method code; only their distinctness matters. */
  datatype Code =
    | Get | Head | Post | Put | Delete | Mkcol | Copy | Move
    | Options | Propfind | Proppatch | Lock | Unlock | Patch | Trace
    | Unknown

  /** The static `ngx_str_t` constant naming each recognised method. */
  function Name(c: Code): (s: string)
    requires c != Unknown
    ensures 3 <= |s| <= 9
    ensures forall k :: 0 <= k < |s| ==> 'A' <= s[k] <= 'Z'
  {
    match c
    case Get => "GET"
    case Head => "HEAD"
    case Post => "POST"
    case Put => "PUT"
    case Delete => "DELETE"
    case Mkcol => "MKCOL"
    case Copy => "COPY"
    case Move => "MOVE"
    case Options => "OPTIONS"
    case Propfind => "PROPFIND"
    case Proppatch => "PROPPATCH"
    case Lock => "LOCK"
    case Unlock => "UNLOCK"
    case Patch => "PATCH"
    case Trace => "TRACE"
  }

  /** `ngx_tolower` as `ngx_strcasecmp` applies it: only the ASCII capitals
      `A`..`Z` change, by setting bit 0x20. */
  function Lower(ch: char): (r: char)
    ensures 'A' <= ch <= 'Z' ==> r as int == ch as int + 32 && 'a' <= r <= 'z'
    ensures !('A' <= ch <= 'Z') ==> r == ch
    ensures r == '\0' <==> ch == '\0'
  {
    if 'A' <= ch <= 'Z' then (ch as int + 32) as char else ch
  }

  /** The character a C string routine reads at offset `i` of `s`: past the
      end of the text it reads the terminating NUL. */
  function At(s: string, i: nat): (ch: char)
    ensures i >= |s| ==> ch == '\0'
  {
    if i < |s| then s[i] else '\0'
  }

  function Max(a: nat, b: nat): nat
  {
    if a < b then b else a
  }

  /** The loop of `ngx_strcasecmp` from offset `i` on: both characters are
      folded; equal characters continue unless they are the terminating NUL,
      where the strings compare equal; the first difference ends the loop. */
  predicate StrCaseEqFrom(a: string, b: string, i: nat)
    decreases Max(|a|, |b|) - i
  {
    Lower(At(a, i)) == Lower(At(b, i)) && (At(a, i) == '\0' || StrCaseEqFrom(a, b, i + 1))
  }

  /** `ngx_strcasecmp(a.data, b.data) == 0`. */
  predicate CaseEq(a: string, b: string)
  {
    StrCaseEqFrom(a, b, 0)
  }

  /** `s` names some recognised method, up to ASCII case. */
  ghost predicate Recognized(s: string)
  {
    exists c: Code :: c != Unknown && CaseEq(Name(c), s)
  }

  /** `s` holds no NUL character, so a C string routine sees all of it. */
  predicate NulFree(s: string)
  {
    forall k :: 0 <= k < |s| ==> s[k] != '\0'
  }

  /** Every string compares equal to itself. */
  lemma {:induction false} CaseEqReflexive(a: string, i: nat)
    ensures StrCaseEqFrom(a, a, i)
    decreases |a| - i
  {
    if At(a, i) != '\0' {
      CaseEqReflexive(a, i + 1);
    }
  }

  /** The comparison is symmetric. */
  lemma {:induction false} CaseEqSymmetric(a: string, b: string, i: nat)
    requires StrCaseEqFrom(a, b, i)
    ensures StrCaseEqFrom(b, a, i)
    decreases Max(|a|, |b|) - i
  {
    if At(a, i) != '\0' {
      CaseEqSymmetric(a, b, i + 1);
    }
  }

  /** The comparison is transitive. */
  lemma {:induction false} CaseEqTransitive(a: string, b: string, c: string, i: nat)
    requires StrCaseEqFrom(a, b, i) && StrCaseEqFrom(b, c, i)
    ensures StrCaseEqFrom(a, c, i)
    decreases Max(|a|, |b|) - i
  {
    if At(a, i) != '\0' {
      CaseEqTransitive(a, b, c, i + 1);
    }
  }

  /** For strings without an embedded NUL, the comparison from offset `i` is
      equality of the remaining characters after folding each one. */
  lemma {:induction false} CaseEqFolded(a: string, b: string, i: nat)
    requires NulFree(a) && NulFree(b) && i <= |a| && i <= |b|
    ensures StrCaseEqFrom(a, b, i) <==>
      |a| == |b| && forall k :: i <= k < |a| ==> Lower(a[k]) == Lower(b[k])
    decreases Max(|a|, |b|) - i
  {
    if i < |a| && i < |b| {
      CaseEqFolded(a, b, i + 1);
    }
  }

  /** Two NUL-free strings that compare equal have the same length. */
  lemma {:induction false} CaseEqSameLength(a: string, b: string, i: nat)
    requires NulFree(a) && NulFree(b) && i <= |a| && i <= |b|
    requires StrCaseEqFrom(a, b, i)
    ensures |a| == |b|
    decreases Max(|a|, |b|) - i
  {
    if i < |a| && i < |b| {
      CaseEqSameLength(a, b, i + 1);
    }
  }

  /** No two catalogue names compare equal: they already differ in length or
      in their first letter. */
  lemma NamesDistinct(c1: Code, c2: Code)
    requires c1 != Unknown && c2 != Unknown
    requires CaseEq(Name(c1), Name(c2))
    ensures c1 == c2
  {
    var n1, n2 := Name(c1), Name(c2);
    CaseEqSameLength(n1, n2, 0);
    assert Lower(n1[0]) == Lower(n2[0]);
    assert 'A' <= n1[0] <= 'Z' && 'A' <= n2[0] <= 'Z';
  }

  /** A name that `ngx_strcasecmp` calls equal to a recognised name identifies
      that method: at most one branch of a catalogue chain can match. */
  lemma MatchIsUnique(c1: Code, c2: Code, s: string)
    requires c1 != Unknown && c2 != Unknown
    requires CaseEq(Name(c1), s) && CaseEq(Name(c2), s)
    ensures c1 == c2
  {
    CaseEqSymmetric(Name(c2), s, 0);
    CaseEqTransitive(Name(c1), s, Name(c2), 0);
    NamesDistinct(c1, c2);
  }
}
