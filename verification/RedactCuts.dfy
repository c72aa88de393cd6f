/**
 Exactly what scrubbing does to a text: it is cut at the secrets and passwords, which become stars, and all else is
 kept.
 */
module RedactCuts {
  import opened Options
  import opened Redact
  import T = Text

  // ---------- Cutting at a secret ----------

  /** The pieces with the same text between them. */
  ghost function Weave(pieces: seq<string>, between: string): string
    requires pieces != []
  {
    if |pieces| == 1 then pieces[0] else pieces[0] + (between + Weave(pieces[1..], between))
  }

  /** No occurrence starts in the piece before the one that follows it. */
  ghost predicate EndsAtFirst(piece: string, secret: string) {
    forall j :: 0 <= j < |piece| ==> !OccursAt(secret, piece + secret, j)
  }

  /** The pieces of a text that is cut at the occurrences of the secret, from the left and without overlap. */
  ghost predicate IsCut(pieces: seq<string>, secret: string) {
    && pieces != []
    && (forall k :: 0 <= k < |pieces| - 1 ==> EndsAtFirst(pieces[k], secret))
    && !Occurs(secret, pieces[|pieces| - 1])
  }

  lemma FirstOfCut(piece: string, secret: string, rest: string)
    requires secret != "" && EndsAtFirst(piece, secret)
    ensures FirstOccurrence(secret, piece + (secret + rest), 0) == Some(|piece|)
  {
    var t, head := piece + (secret + rest), piece + secret;
    assert t[|piece|..|piece| + |secret|] == secret;
    forall j | 0 <= j < |piece| ensures !OccursAt(secret, t, j) {
      assert t[j..j + |secret|] == head[j..j + |secret|];
      assert !OccursAt(secret, head, j);
    }
    assert OccursAt(secret, t, |piece|);
  }

  lemma RestOfCut(pieces: seq<string>, secret: string)
    requires IsCut(pieces, secret) && |pieces| > 1
    ensures IsCut(pieces[1..], secret)
  {
    assert forall k :: 0 <= k < |pieces[1..]| ==> pieces[1..][k] == pieces[k + 1];
  }

  lemma AfterFirst(piece: string, secret: string, rest: string)
    ensures var t := piece + (secret + rest); t[..|piece|] == piece && t[|piece| + |secret|..] == rest
  {
  }

  lemma ReplaceFirst(t: string, secret: string, i: nat)
    requires secret != "" && FirstOccurrence(secret, t, 0) == Some(i)
    ensures ReplaceAll(t, secret) == t[..i] + (STARS + ReplaceAll(t[i + |secret|..], secret))
  {
  }

  lemma FirstPieceLength(pieces: seq<string>, secret: string)
    requires secret != "" && IsCut(pieces, secret)
    ensures FirstOccurrence(secret, Weave(pieces, secret), 0) == if |pieces| == 1 then None else Some(|pieces[0]|)
  {
    if |pieces| > 1 { FirstOfCut(pieces[0], secret, Weave(pieces[1..], secret)); }
  }

  lemma ReplaceFirstPiece(piece: string, secret: string, rest: string)
    requires secret != "" && EndsAtFirst(piece, secret)
    ensures Some(ReplaceAll(piece + (secret + rest), secret)) == Some(piece + (STARS + ReplaceAll(rest, secret)))
  {
    FirstOfCut(piece, secret, rest);
    AfterFirst(piece, secret, rest);
    ReplaceFirst(piece + (secret + rest), secret, |piece|);
  }

  lemma {:induction false} ReplaceOfCut(pieces: seq<string>, secret: string)
    requires secret != "" && IsCut(pieces, secret)
    ensures Some(ReplaceAll(Weave(pieces, secret), secret)) == Some(Weave(pieces, STARS))
  {
    if |pieces| > 1 {
      RestOfCut(pieces, secret);
      ReplaceOfCut(pieces[1..], secret);
      ReplaceFirstPiece(pieces[0], secret, Weave(pieces[1..], secret));
    } else {
      FirstPieceLength(pieces, secret);
    }
  }

  lemma PrependPiece(piece: string, pieces: seq<string>, secret: string)
    requires IsCut(pieces, secret) && EndsAtFirst(piece, secret)
    ensures IsCut([piece] + pieces, secret)
    ensures forall between :: Weave([piece] + pieces, between) == piece + (between + Weave(pieces, between))
  {
    var all := [piece] + pieces;
    assert all[1..] == pieces && all[|all| - 1] == pieces[|pieces| - 1];
    assert forall k :: 0 < k < |all| ==> all[k] == pieces[k - 1];
  }

  lemma {:induction false} CutAt(t: string, secret: string) returns (pieces: seq<string>)
    requires secret != ""
    ensures IsCut(pieces, secret) && Weave(pieces, secret) == t
    decreases |t|
  {
    var first := FirstOccurrence(secret, t, 0);
    if first.None? {
      pieces := [t];
    } else {
      var i := first.value;
      var rest := CutAt(t[i + |secret|..], secret);
      forall j | 0 <= j < i ensures !OccursAt(secret, t[..i] + secret, j) {
        assert t[..i] + secret == t[..i + |secret|];
        assert !OccursAt(secret, t, j);
        assert j + |secret| <= i + |secret| ==> t[..i + |secret|][j..j + |secret|] == t[j..j + |secret|];
      }
      PrependPiece(t[..i], rest, secret);
      pieces := [t[..i]] + rest;
      assert t == t[..i] + (secret + t[i + |secret|..]);
    }
  }

  /** A text is cut in one way only. */
  lemma {:induction false} OneCut(a: seq<string>, b: seq<string>, secret: string)
    requires secret != "" && IsCut(a, secret) && IsCut(b, secret) && Weave(a, secret) == Weave(b, secret)
    ensures a == b
  {
    FirstPieceLength(a, secret);
    FirstPieceLength(b, secret);
    if |a| == 1 {
      assert a == [a[0]] && b == [b[0]];
    } else {
      AfterFirst(a[0], secret, Weave(a[1..], secret));
      AfterFirst(b[0], secret, Weave(b[1..], secret));
      RestOfCut(a, secret);
      RestOfCut(b, secret);
      OneCut(a[1..], b[1..], secret);
      assert a == [a[0]] + a[1..] && b == [b[0]] + b[1..];
    }
  }

  /** The text cut at the secret, put together again with stars. */
  ghost predicate ReplacedTo(t: string, secret: string, r: string) {
    exists pieces :: IsCut(pieces, secret) && Weave(pieces, secret) == t && Weave(pieces, STARS) == r
  }

  /** Every text is cut at a secret in one way, and what comes out is these pieces with stars between them. */
  lemma ReplaceExact(t: string, secret: string, r: string)
    requires secret != ""
    ensures ReplacedTo(t, secret, r) <==> r == ReplaceAll(t, secret)
    ensures exists pieces :: IsCut(pieces, secret) && Weave(pieces, secret) == t
    ensures forall a, b :: IsCut(a, secret) && IsCut(b, secret) && Weave(a, secret) == t == Weave(b, secret) ==> a == b
  {
    var pieces := CutAt(t, secret);
    ReplaceOfCut(pieces, secret);
    forall a, b | IsCut(a, secret) && IsCut(b, secret) && Weave(a, secret) == t == Weave(b, secret) ensures a == b {
      OneCut(a, b, secret);
    }
    if ReplacedTo(t, secret, r) {
      var mine :| IsCut(mine, secret) && Weave(mine, secret) == t && Weave(mine, STARS) == r;
      assert mine == pieces;
    }
  }

  /** An empty secret does nothing. */
  ghost predicate SecretReplacedTo(t: string, secret: string, r: string) {
    if secret == "" then r == t else ReplacedTo(t, secret, r)
  }

  /** One secret after the other. */
  ghost predicate AllReplacedTo(t: string, secrets: seq<string>, r: string) {
    if secrets == [] then r == t
    else
      var n := |secrets| - 1;
      exists mid :: AllReplacedTo(t, secrets[..n], mid) && SecretReplacedTo(mid, secrets[n], r)
  }

  lemma {:induction false} AllReplacedExact(t: string, secrets: seq<string>, r: string)
    ensures AllReplacedTo(t, secrets, r) <==> r == Replaced(t, secrets)
  {
    if secrets != [] {
      var n := |secrets| - 1;
      var before := Replaced(t, secrets[..n]);
      AllReplacedExact(t, secrets[..n], before);
      if secrets[n] != "" { ReplaceExact(before, secrets[n], r); }
      if mid :| AllReplacedTo(t, secrets[..n], mid) && SecretReplacedTo(mid, secrets[n], r) {
        AllReplacedExact(t, secrets[..n], mid);
      }
    }
  }

  // ---------- Cutting at the passwords ----------

  /** Each head up to the colon before a password, then what stands for it, then the at sign. */
  ghost function Spelled(heads: seq<string>, fills: seq<string>, tail: string): string
    requires |heads| == |fills|
  {
    if heads == [] then tail else heads[0] + (fills[0] + ("@" + Spelled(heads[1..], fills[1..], tail)))
  }

  ghost predicate FirstEndsAt(s: string, colon: nat, at: nat) {
    exists f :: IsFirst(s, f) && f.colon == colon && f.at == at
  }

  /** The passwords are those of the matches of the expression, one after the other from the left. */
  ghost predicate IsUrlCut(heads: seq<string>, passwords: seq<string>, tail: string) {
    && |heads| == |passwords|
    && if heads == [] then forall u :: !UrlAt(tail, u)
       else
         && heads[0] != ""
         && FirstEndsAt(Spelled(heads, passwords, tail), |heads[0]| - 1, |heads[0]| + |passwords[0]|)
         && IsUrlCut(heads[1..], passwords[1..], tail)
  }

  ghost function Stars(n: nat): (r: seq<string>)
    ensures |r| == n
  {
    if n == 0 then [] else [STARS] + Stars(n - 1)
  }

  lemma PartsOfSpelled(head: string, fill: string, rest: string)
    ensures var s := head + (fill + ("@" + rest));
            s[..|head|] == head && |head| + |fill| < |s| && s[|head| + |fill| + 1..] == rest
  {
  }

  lemma MaskedIs(s: string, f: Url, head: string, rest: string)
    requires f.colon < |s| && head == s[..f.colon + 1]
    ensures Some(Masked(s, f, rest)) == Some(head + (STARS + ("@" + rest)))
  {
  }

  lemma StripFirst(s: string, f: Url, head: string, rest: string)
    requires IsFirst(s, f) && head == s[..f.colon + 1] && rest == s[f.at + 1..]
    ensures Some(StripUrls(s)) == Some(head + (STARS + ("@" + StripUrls(rest))))
  {
    UnfoldStrip(s, f);
    MaskedIs(s, f, head, StripUrls(rest));
  }

  lemma StripFirstHead(s: string, head: string, at: nat, rest: string)
    requires head != "" && FirstEndsAt(s, |head| - 1, at) && at < |s| && |head| <= |s|
    requires s[..|head|] == head && s[at + 1..] == rest
    ensures Some(StripUrls(s)) == Some(head + (STARS + ("@" + StripUrls(rest))))
  {
    var f :| IsFirst(s, f) && f.colon == |head| - 1 && f.at == at;
    StripFirst(s, f, head, rest);
  }

  lemma StripSpelled(head: string, password: string, rest: string, out: string)
    requires head != "" && FirstEndsAt(head + (password + ("@" + rest)), |head| - 1, |head| + |password|)
    requires Some(StripUrls(rest)) == Some(out)
    ensures Some(StripUrls(head + (password + ("@" + rest)))) == Some(head + (STARS + ("@" + out)))
  {
    PartsOfSpelled(head, password, rest);
    StripFirstHead(head + (password + ("@" + rest)), head, |head| + |password|, rest);
  }

  lemma {:induction false} StripOfCut(heads: seq<string>, passwords: seq<string>, tail: string)
    requires IsUrlCut(heads, passwords, tail)
    ensures Some(StripUrls(Spelled(heads, passwords, tail))) == Some(Spelled(heads, Stars(|heads|), tail))
  {
    if heads == [] {
      NoFirst(tail);
    } else {
      StripOfCut(heads[1..], passwords[1..], tail);
      assert Stars(|heads|)[0] == STARS && Stars(|heads|)[1..] == Stars(|heads[1..]|);
      StripSpelled(heads[0], passwords[0], Spelled(heads[1..], passwords[1..], tail),
                   Spelled(heads[1..], Stars(|heads[1..]|), tail));
    }
  }

  lemma HeadOfUrl(s: string, f: Url)
    requires UrlAt(s, f)
    ensures s == s[..f.colon + 1] + (s[f.colon + 1..f.at] + ("@" + s[f.at + 1..]))
  {
    assert s[f.at..] == "@" + s[f.at + 1..];
    assert s[f.colon + 1..] == s[f.colon + 1..f.at] + s[f.at..];
  }

  lemma {:induction false} CutAtUrls(s: string) returns (heads: seq<string>, passwords: seq<string>, tail: string)
    ensures IsUrlCut(heads, passwords, tail) && Spelled(heads, passwords, tail) == s
    decreases |s|
  {
    if f :| IsFirst(s, f) {
      var h, p: seq<string>;
      h, p, tail := CutAtUrls(s[f.at + 1..]);
      heads, passwords := [s[..f.colon + 1]] + h, [s[f.colon + 1..f.at]] + p;
      assert heads[1..] == h && passwords[1..] == p;
      HeadOfUrl(s, f);
    } else {
      NoFirst(s);
      heads, passwords, tail := [], [], s;
    }
  }

  ghost predicate StrippedTo(s: string, r: string) {
    exists heads, passwords, tail ::
      IsUrlCut(heads, passwords, tail) && Spelled(heads, passwords, tail) == s
      && Spelled(heads, Stars(|heads|), tail) == r
  }

  /** The URL pass keeps every text between the passwords of the matches, and makes stars of these. */
  lemma StripExact(s: string, r: string)
    ensures StrippedTo(s, r) <==> r == StripUrls(s)
  {
    var heads, passwords, tail := CutAtUrls(s);
    StripOfCut(heads, passwords, tail);
    if StrippedTo(s, r) {
      var h, p, t :| IsUrlCut(h, p, t) && Spelled(h, p, t) == s && Spelled(h, Stars(|h|), t) == r;
      StripOfCut(h, p, t);
    }
  }

  /** What comes out of scrubbing, exactly. */
  lemma ScrubExact(t: string, secrets: seq<string>, r: string)
    ensures r == Scrubbed(t, secrets) <==> exists mid :: AllReplacedTo(t, secrets, mid) && StrippedTo(mid, r)
  {
    var mid := Replaced(t, secrets);
    AllReplacedExact(t, secrets, mid);
    StripExact(mid, r);
    if m :| AllReplacedTo(t, secrets, m) && StrippedTo(m, r) {
      AllReplacedExact(t, secrets, m);
    }
  }

  // ---------- What a URL with a password is ----------

  predicate Letter(c: char) { 'a' <= c <= 'z' || 'A' <= c <= 'Z' }

  /** A letter, then letters, digits, plus signs, dots and hyphens. */
  predicate IsScheme(s: string) {
    && s != "" && Letter(s[0])
    && forall k :: 0 < k < |s| ==> Letter(s[k]) || '0' <= s[k] <= '9' || s[k] == '+' || s[k] == '.' || s[k] == '-'
  }

  /** Something without white space, slash and at sign, and for the user without colon. */
  predicate IsUserinfo(s: string, colons: bool) {
    s != "" && forall k :: 0 <= k < |s| ==> !T.IsSpace(s[k]) && s[k] != '/' && s[k] != '@' && (colons || s[k] != ':')
  }

  /** The parts at their places. */
  ghost predicate PartsAt(s: string, u: Url) {
    && u.start < u.sep && u.sep + 3 < u.colon && u.colon + 1 < u.at < |s|
    && IsScheme(s[u.start..u.sep]) && s[u.sep..u.sep + 3] == "://"
    && IsUserinfo(s[u.sep + 3..u.colon], false) && s[u.colon] == ':'
    && IsUserinfo(s[u.colon + 1..u.at], true) && s[u.at] == '@'
  }

  lemma UrlMeans(s: string, u: Url)
    ensures UrlAt(s, u) <==> PartsAt(s, u)
  {
    if u.start < u.sep && u.sep + 3 < u.colon && u.colon + 1 < u.at < |s| {
      SchemeMeans(s, u.start, u.sep);
      UserMeans(s, u.sep + 3, u.colon);
      PasswordMeans(s, u.colon + 1, u.at);
      var three := s[u.sep..u.sep + 3];
      assert three[0] == s[u.sep] && three[1] == s[u.sep + 1] && three[2] == s[u.sep + 2];
      assert three == "://" <==> three[0] == ':' && three[1] == '/' && three[2] == '/';
    }
  }

  lemma SchemeMeans(s: string, from: nat, to: nat)
    requires from < to <= |s|
    ensures IsScheme(s[from..to]) <==> IsLetter(s[from]) && forall k :: from < k < to ==> IsSchemeChar(s[k])
  {
    var part := s[from..to];
    assert forall k :: from <= k < to ==> s[k] == part[k - from];
  }

  lemma UserMeans(s: string, from: nat, to: nat)
    requires from < to <= |s|
    ensures IsUserinfo(s[from..to], false) <==> forall k :: from <= k < to ==> IsUserChar(s[k])
  {
    var part := s[from..to];
    assert forall k :: from <= k < to ==> s[k] == part[k - from];
  }

  lemma PasswordMeans(s: string, from: nat, to: nat)
    requires from < to <= |s|
    ensures IsUserinfo(s[from..to], true) <==> forall k :: from <= k < to ==> IsPasswordChar(s[k])
  {
    var part := s[from..to];
    assert forall k :: from <= k < to ==> s[k] == part[k - from];
  }
}
