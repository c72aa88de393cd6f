/**
 Secrets scrubbed from text: each known secret is replaced by "***", then the password of each URL.
 */
module Redact {
  import opened Options
  import opened Text

  const STARS := "***"

  // ---------- Occurrences ----------

  predicate OccursAt(w: string, t: string, i: int) {
    0 <= i && i + |w| <= |t| && t[i..i + |w|] == w
  }

  ghost predicate Occurs(w: string, t: string) {
    exists i :: OccursAt(w, t, i)
  }

  lemma OccursInside(w: string, t: string, x: string, y: string)
    requires Occurs(w, t)
    ensures Occurs(w, x + t + y)
  {
    var i :| OccursAt(w, t, i);
    var whole := x + t + y;
    assert whole[|x| + i..|x| + i + |w|] == t[i..i + |w|];
    assert OccursAt(w, whole, |x| + i);
  }

  /** The first occurrence at `from` or later. */
  function FirstOccurrence(w: string, t: string, from: nat): (r: Option<nat>)
    requires from <= |t|
    ensures r.Some? ==> from <= r.value && OccursAt(w, t, r.value)
    ensures forall j :: from <= j && (r.Some? ==> j < r.value) ==> !OccursAt(w, t, j)
    decreases |t| - from
  {
    if OccursAt(w, t, from) then Some(from)
    else if from == |t| then None
    else FirstOccurrence(w, t, from + 1)
  }

  // ---------- Replacing a secret ----------

  function ReplaceAll(t: string, secret: string): string
    requires secret != ""
  {
    var first := FirstOccurrence(secret, t, 0);
    if first.None? then t else t[..first.value] + (STARS + ReplaceAll(t[first.value + |secret|..], secret))
  }

  predicate TripleAt(s: string, k: int) {
    0 <= k && k + 2 < |s| && s[k] == '*' && s[k + 1] == '*' && s[k + 2] == '*'
  }

  /** The text can overlap a replacement: it starts or ends with a star, or holds three in a row. */
  ghost predicate Starry(s: string) {
    s != "" && (s[0] == '*' || s[|s| - 1] == '*' || exists k :: TripleAt(s, k))
  }

  lemma BesideStars(x: string, y: string, w: string, j: int)
    requires w != "" && !Starry(w) && OccursAt(w, x + (STARS + y), j)
    ensures (j + |w| <= |x| && OccursAt(w, x, j)) || (|x| + 3 <= j && OccursAt(w, y, j - |x| - 3))
  {
    var s := x + (STARS + y);
    assert forall k :: 0 <= k < |w| ==> w[k] == s[j + k];
    assert s[|x|] == '*' && s[|x| + 1] == '*' && s[|x| + 2] == '*';
    assert w[0] == s[j] && w[|w| - 1] == s[j + |w| - 1];
    assert !TripleAt(w, |x| - j);
    if j < |x| {
      assert x[j..j + |w|] == s[j..j + |w|];
    } else {
      assert y[j - |x| - 3..j - |x| - 3 + |w|] == s[j..j + |w|];
    }
  }

  lemma OccursBeside(x: string, y: string, w: string)
    requires w != "" && !Starry(w) && Occurs(w, x + (STARS + y))
    ensures Occurs(w, x) || Occurs(w, y)
  {
    var j :| OccursAt(w, x + (STARS + y), j);
    BesideStars(x, y, w, j);
  }

  lemma OccursInPart(w: string, t: string, from: nat, to: nat)
    requires from <= to <= |t| && Occurs(w, t[from..to])
    ensures Occurs(w, t)
  {
    OccursInside(w, t[from..to], t[..from], t[to..]);
    assert t[..from] + t[from..to] + t[to..] == t;
  }

  lemma NotBeforeFirst(t: string, secret: string, i: nat)
    requires secret != "" && FirstOccurrence(secret, t, 0) == Some(i)
    ensures !Occurs(secret, t[..i])
  {
    if j :| OccursAt(secret, t[..i], j) {
      assert t[..i][j..j + |secret|] == t[j..j + |secret|];
      assert OccursAt(secret, t, j);
    }
  }

  /** What is not starry and is in the output was in the input, and it is not the secret. */
  lemma {:induction false} SurvivesReplace(t: string, secret: string, w: string)
    requires secret != "" && w != "" && !Starry(w) && Occurs(w, ReplaceAll(t, secret))
    ensures Occurs(w, t) && w != secret
    decreases |t|
  {
    var first := FirstOccurrence(secret, t, 0);
    if first.Some? {
      var i := first.value;
      var next := i + |secret|;
      OccursBeside(t[..i], ReplaceAll(t[next..], secret), w);
      if Occurs(w, t[..i]) {
        NotBeforeFirst(t, secret, i);
        assert t[..i] == t[0..i];
        OccursInPart(w, t, 0, i);
      } else {
        SurvivesReplace(t[next..], secret, w);
        assert t[next..] == t[next..|t|];
        OccursInPart(w, t, next, |t|);
      }
    }
  }

  function ReplaceSecret(t: string, secret: string): string {
    if secret == "" then t else ReplaceAll(t, secret)
  }

  function Replaced(t: string, secrets: seq<string>): string {
    if secrets == [] then t
    else ReplaceSecret(Replaced(t, secrets[..|secrets| - 1]), secrets[|secrets| - 1])
  }

  lemma {:induction false} SurvivesReplaced(t: string, secrets: seq<string>, w: string)
    requires w != "" && !Starry(w) && Occurs(w, Replaced(t, secrets))
    ensures Occurs(w, t) && w !in secrets
  {
    if secrets != [] {
      var init, last := secrets[..|secrets| - 1], secrets[|secrets| - 1];
      if last != "" {
        SurvivesReplace(Replaced(t, init), last, w);
      }
      SurvivesReplaced(t, init, w);
      assert secrets == init + [last];
    }
  }

  // ---------- Credentials in URLs ----------

  predicate IsLetter(c: char) { 'a' <= c <= 'z' || 'A' <= c <= 'Z' }

  predicate IsSchemeChar(c: char) { IsLetter(c) || IsDigit(c) || c == '+' || c == '.' || c == '-' }

  predicate IsUserChar(c: char) { !IsSpace(c) && c != '/' && c != ':' && c != '@' }

  predicate IsPasswordChar(c: char) { !IsSpace(c) && c != '/' && c != '@' }

  /** Where the parts of scheme://user:password@ are. */
  datatype Url = Url(start: nat, sep: nat, colon: nat, at: nat)

  predicate UrlAt(s: string, u: Url) {
    && u.start < u.sep && u.sep + 3 < u.colon && u.colon + 1 < u.at < |s|
    && IsLetter(s[u.start]) && (forall k :: u.start < k < u.sep ==> IsSchemeChar(s[k]))
    && s[u.sep] == ':' && s[u.sep + 1] == '/' && s[u.sep + 2] == '/'
    && (forall k :: u.sep + 3 <= k < u.colon ==> IsUserChar(s[k]))
    && s[u.colon] == ':'
    && (forall k :: u.colon < k < u.at ==> IsPasswordChar(s[k]))
    && s[u.at] == '@'
  }

  /** Each part runs as far as it can, so there is one match at most from a start. */
  lemma OneMatch(s: string, u: Url, v: Url)
    requires UrlAt(s, u) && UrlAt(s, v) && u.start == v.start
    ensures u == v
  {
    assert u.sep == v.sep;
    assert u.colon == v.colon;
  }

  /** The match that a search from the left finds. */
  ghost predicate IsFirst(s: string, u: Url) {
    UrlAt(s, u) && forall v :: UrlAt(s, v) ==> u.start <= v.start
  }

  lemma OneFirst(s: string, u: Url, v: Url)
    requires IsFirst(s, u) && IsFirst(s, v)
    ensures u == v
  {
    OneMatch(s, u, v);
  }

  ghost function FirstUrl(s: string): (r: Option<Url>)
    ensures r.Some? ==> r.value.colon < r.value.at < |s|
  {
    if u :| IsFirst(s, u) then Some(u) else None
  }

  /** The text with every match replaced, from the left. */
  ghost function StripUrls(s: string): string {
    var first := FirstUrl(s);
    if first.None? then s else Masked(s, first.value, StripUrls(s[first.value.at + 1..]))
  }

  function Password(s: string, u: Url): string
    requires UrlAt(s, u)
  {
    s[u.colon + 1..u.at]
  }

  /** No URL in the text gives a password away. */
  ghost predicate Stripped(s: string) {
    forall u :: UrlAt(s, u) ==> Password(s, u) == STARS
  }

  function Shifted(u: Url, d: int): Url
    requires 0 <= u.start + d <= u.sep + d <= u.colon + d <= u.at + d
  {
    Url(u.start + d, u.sep + d, u.colon + d, u.at + d)
  }

  /** The same characters elsewhere are the same match. */
  lemma UrlMoves(s: string, t: string, u: Url, d: int)
    requires UrlAt(s, u) && 0 <= u.start + d && u.at + d < |t|
    requires forall k :: u.start + d <= k <= u.at + d ==> t[k] == s[k - d]
    ensures UrlAt(t, Shifted(u, d)) && Password(t, Shifted(u, d)) == Password(s, u)
  {
  }

  lemma UrlExtends(x: string, s: string, y: string, u: Url)
    requires UrlAt(s, u)
    ensures UrlAt(x + s + y, Shifted(u, |x|)) && Password(x + s + y, Shifted(u, |x|)) == Password(s, u)
  {
    UrlMoves(s, x + s + y, u, |x|);
  }

  /** The text with the password of a URL replaced, up to what follows the URL. */
  function Masked(s: string, f: Url, rest: string): string
    requires f.colon < |s|
  {
    s[..f.colon + 1] + (STARS + ("@" + rest))
  }

  /** The text of Masked, character by character. */
  ghost predicate IsMasked(s: string, f: Url, rest: string, out: string) {
    && f.colon < |s| && |out| == f.colon + 5 + |rest| && (forall k :: 0 <= k <= f.colon ==> out[k] == s[k])
    && out[f.colon + 1] == '*' && out[f.colon + 2] == '*' && out[f.colon + 3] == '*' && out[f.colon + 4] == '@'
    && (forall k :: 0 <= k < |rest| ==> rest[k] == out[k + (f.colon + 5)])
  }

  lemma MaskedAt(s: string, f: Url, rest: string)
    requires f.colon < |s|
    ensures IsMasked(s, f, rest, Masked(s, f, rest))
  {
  }

  /** A match that starts in the user part would take what is left of it to be its scheme. */
  lemma NotInUser(out: string, f: Url, u: Url)
    requires UrlAt(out, u) && f.start < f.sep < f.sep + 3 < f.colon && f.colon + 4 < |out| && u.start <= f.colon
    requires out[f.sep] == ':' && out[f.sep + 1] == '/' && out[f.sep + 2] == '/'
    requires forall k :: f.sep + 3 <= k < f.colon ==> IsUserChar(out[k])
    requires out[f.colon] == ':' && out[f.colon + 1] == '*'
    ensures u.start <= f.sep
  {
  }

  /** A match that starts before the mask ends before the URL starts, or has the mask as its password. */
  lemma MatchAtStars(s: string, f: Url, rest: string, out: string, u: Url)
    requires UrlAt(s, f) && IsMasked(s, f, rest, out) && UrlAt(out, u) && u.start <= f.colon
    ensures u.at < f.start || (u.colon == f.colon && u.at == f.colon + 4)
  {
    assert forall k :: f.start <= k <= f.colon ==> out[k] != '@';
    assert out[u.at] == '@';
    assert out[f.sep + 1] == '/' && out[f.sep + 2] == '/';
    if f.colon < u.at {
      NotInUser(out, f, u);
      SameParts(out, f, u);
    }
  }

  lemma SameParts(out: string, f: Url, u: Url)
    requires UrlAt(out, u) && u.start <= f.sep < f.sep + 3 < f.colon < u.at && f.colon + 4 < |out|
    requires out[f.sep] == ':' && out[f.sep + 1] == '/' && out[f.sep + 2] == '/'
    requires forall k :: f.sep + 3 <= k < f.colon ==> IsUserChar(out[k])
    requires out[f.colon] == ':' && out[f.colon + 1] == '*' && out[f.colon + 2] == '*' && out[f.colon + 3] == '*'
    requires out[f.colon + 4] == '@'
    ensures u.colon == f.colon && u.at == f.colon + 4
  {
    assert u.sep == f.sep;
  }

  /** An equality of options: the verifier need not compare the texts by characters. */
  lemma UnfoldStrip(s: string, f: Url)
    requires IsFirst(s, f)
    ensures Some(StripUrls(s)) == Some(Masked(s, f, StripUrls(s[f.at + 1..])))
  {
    FirstIs(s, f);
  }

  lemma FirstIs(s: string, f: Url)
    requires IsFirst(s, f)
    ensures FirstUrl(s) == Some(f)
  {
    OneFirst(s, FirstUrl(s).value, f);
  }

  lemma NoFirst(s: string)
    requires !exists u :: IsFirst(s, u)
    ensures Some(StripUrls(s)) == Some(s) && forall u :: !UrlAt(s, u)
  {
    var first := FindUrl(s, 0);
    assert first.Some? ==> IsFirst(s, first.value);
  }

  lemma MaskedMatch(s: string, f: Url, rest: string, out: string, u: Url)
    requires IsFirst(s, f) && IsMasked(s, f, rest, out) && Stripped(rest) && UrlAt(out, u)
    ensures Password(out, u) == STARS
  {
    if u.start <= f.colon {
      MatchAtStars(s, f, rest, out, u);
      if u.at < f.start {
        UrlMoves(out, s, u, 0);
      }
    } else {
      assert IsLetter(out[u.start]);
      UrlMoves(out, rest, u, -(f.colon + 5));
    }
  }

  lemma MaskedIsStripped(s: string, f: Url, rest: string, out: string)
    requires IsFirst(s, f) && IsMasked(s, f, rest, out) && Stripped(rest)
    ensures Stripped(out)
  {
    forall u | UrlAt(out, u) ensures Password(out, u) == STARS {
      MaskedMatch(s, f, rest, out, u);
    }
  }

  /** The URL pass leaves no password. */
  lemma {:induction false} NoPasswordLeft(s: string)
    ensures Stripped(StripUrls(s))
    decreases |s|
  {
    if f :| IsFirst(s, f) {
      UnfoldStrip(s, f);
      var rest := StripUrls(s[f.at + 1..]);
      NoPasswordLeft(s[f.at + 1..]);
      MaskedAt(s, f, rest);
      MaskedIsStripped(s, f, rest, Masked(s, f, rest));
    } else {
      NoFirst(s);
    }
  }

  lemma RestIsStripped(s: string, from: nat)
    requires from <= |s|
    ensures Stripped(s) ==> Stripped(s[from..])
  {
    var rest := s[from..];
    assert s == s[..from] + rest + "";
    forall u | UrlAt(rest, u) && Stripped(s) ensures Password(rest, u) == STARS {
      UrlExtends(s[..from], rest, "", u);
    }
  }

  lemma StarsAndRest(s: string, colon: nat, at: nat)
    requires colon + 1 < at < |s| && s[colon + 1..at] == STARS && s[at] == '@'
    ensures s[..colon + 1] + (STARS + ("@" + s[at + 1..])) == s
  {
    assert s[at..] == "@" + s[at + 1..];
    assert s[colon + 1..] == s[colon + 1..at] + s[at..];
  }

  lemma MaskingStars(s: string, f: Url)
    requires UrlAt(s, f)
    ensures Stripped(s) ==> Some(Masked(s, f, s[f.at + 1..])) == Some(s)
  {
    if Stripped(s) {
      assert Password(s, f) == STARS;
      StarsAndRest(s, f.colon, f.at);
    }
  }

  lemma KeptStep(s: string, f: Url)
    requires IsFirst(s, f)
    ensures Stripped(s) && Some(StripUrls(s[f.at + 1..])) == Some(s[f.at + 1..]) ==> Some(StripUrls(s)) == Some(s)
  {
    UnfoldStrip(s, f);
    MaskingStars(s, f);
  }

  lemma {:induction false} RestIsKept(s: string, f: Url)
    requires f.at < |s|
    ensures Stripped(s) ==> Some(StripUrls(s[f.at + 1..])) == Some(s[f.at + 1..])
    decreases |s|, 0
  {
    RestIsStripped(s, f.at + 1);
    StrippedIsKept(s[f.at + 1..]);
  }

  /** As in UnfoldStrip, an equality of options. */
  lemma {:induction false} StrippedIsKept(s: string)
    ensures Stripped(s) ==> Some(StripUrls(s)) == Some(s)
    decreases |s|, 1
  {
    if f :| IsFirst(s, f) {
      RestIsKept(s, f);
      KeptStep(s, f);
    } else {
      NoFirst(s);
    }
  }

  /** Text whose passwords are all stars is left as it is, and no other. */
  lemma UnchangedIffStripped(s: string)
    ensures StripUrls(s) == s <==> Stripped(s)
  {
    NoPasswordLeft(s);
    if Stripped(s) {
      StrippedIsKept(s);
    }
  }

  /** Passing the text again changes nothing. */
  lemma StripIsIdempotent(s: string)
    ensures StripUrls(StripUrls(s)) == StripUrls(s)
  {
    NoPasswordLeft(s);
    UnchangedIffStripped(StripUrls(s));
  }

  lemma PrefixSurvivesUrls(s: string, w: string)
    requires w <= StripUrls(s) && (w != "" ==> w[|w| - 1] != '*') && !exists k :: TripleAt(w, k)
    ensures w <= s
  {
    if f :| IsFirst(s, f) {
      UnfoldStrip(s, f);
      PrefixOfMasked(s, f, StripUrls(s[f.at + 1..]), w);
    } else {
      NoFirst(s);
    }
  }

  lemma PrefixOfMasked(s: string, f: Url, rest: string, w: string)
    requires f.colon < |s| && w <= Masked(s, f, rest)
    requires (w != "" ==> w[|w| - 1] != '*') && !exists k :: TripleAt(w, k)
    ensures w <= s
  {
    var c, out := f.colon, Masked(s, f, rest);
    MaskedAt(s, f, rest);
    assert forall k :: 0 <= k < |w| ==> w[k] == out[k];
    assert !TripleAt(w, c + 1);
    assert |w| <= c + 1;
  }

  lemma {:induction false} SurvivesUrls(s: string, w: string)
    requires w != "" && !Starry(w) && Occurs(w, StripUrls(s))
    ensures Occurs(w, s)
    decreases |s|
  {
    if f :| IsFirst(s, f) {
      var rest, after := s[f.at + 1..], w[1..];
      UnfoldStrip(s, f);
      if Occurs(w, StripUrls(rest)) {
        SurvivesUrls(rest, w);
      }
      if after <= StripUrls(rest) {
        TailNotTriple(w);
        PrefixSurvivesUrls(rest, after);
      }
      SurvivesMasked(s, f, StripUrls(rest), w);
    } else {
      NoFirst(s);
    }
  }

  lemma TailNotTriple(w: string)
    requires w != "" && !Starry(w)
    ensures w[1..] != "" ==> w[1..][|w| - 2] != '*'
    ensures forall k :: !TripleAt(w[1..], k)
  {
    forall k ensures !TripleAt(w[1..], k) {
      assert !TripleAt(w, k + 1);
    }
  }

  /** A part of the text with one password replaced, when such parts of what follows are from the text. */
  lemma SurvivesMasked(s: string, f: Url, rest: string, w: string)
    requires f.colon < f.at < |s| && s[f.at] == '@' && w != "" && !Starry(w) && Occurs(w, Masked(s, f, rest))
    requires Occurs(w, rest) ==> Occurs(w, s[f.at + 1..])
    requires w[1..] <= rest ==> w[1..] <= s[f.at + 1..]
    ensures Occurs(w, s)
  {
    OccursBeside(s[..f.colon + 1], "@" + rest, w);
    if Occurs(w, s[..f.colon + 1]) {
      assert s[..f.colon + 1] == s[0..f.colon + 1];
      OccursInPart(w, s, 0, f.colon + 1);
    } else {
      OccursInTail(rest, s, f.at, w);
    }
  }

  lemma OccursInTail(rest: string, s: string, at: nat, w: string)
    requires at < |s| && s[at] == '@' && w != "" && Occurs(w, "@" + rest)
    requires Occurs(w, rest) ==> Occurs(w, s[at + 1..])
    requires w[1..] <= rest ==> w[1..] <= s[at + 1..]
    ensures Occurs(w, s)
  {
    var j :| OccursAt(w, "@" + rest, j);
    if j > 0 {
      OccursAfterFirst('@', rest, w, j);
      assert s[at + 1..] == s[at + 1..|s|];
      OccursInPart(w, s, at + 1, |s|);
    } else {
      OccursAtFirst(rest, s, at, w);
    }
  }

  lemma OccursAtFirst(rest: string, s: string, at: nat, w: string)
    requires at < |s| && s[at] == '@' && w != "" && OccursAt(w, "@" + rest, 0)
    requires w[1..] <= rest ==> w[1..] <= s[at + 1..]
    ensures Occurs(w, s)
  {
    assert w == ("@" + rest)[..|w|];
    assert w[0] == '@' && w[1..] == rest[..|w| - 1];
    assert w == s[at..at + |w|];
    assert OccursAt(w, s, at);
  }

  lemma OccursAfterFirst(c: char, t: string, w: string, i: int)
    requires 0 < i && OccursAt(w, [c] + t, i)
    ensures Occurs(w, t)
  {
    assert t[i - 1..i - 1 + |w|] == ([c] + t)[i..i + |w|];
    assert OccursAt(w, t, i - 1);
  }

  // ---------- Finding the matches ----------

  function RunEnd(s: string, from: nat, p: char -> bool): (end: nat)
    requires from <= |s|
    ensures from <= end <= |s|
    ensures forall k :: from <= k < end ==> p(s[k])
    ensures end < |s| ==> !p(s[end])
    decreases |s| - from
  {
    if from < |s| && p(s[from]) then RunEnd(s, from + 1, p) else from
  }

  /** The match that starts here: each part runs as far as it can. */
  function ScanAt(s: string, start: nat): Option<Url>
    requires start <= |s|
  {
    if start == |s| || !IsLetter(s[start]) then None
    else
      var sep := RunEnd(s, start + 1, IsSchemeChar);
      if |s| < sep + 3 || s[sep] != ':' || s[sep + 1] != '/' || s[sep + 2] != '/' then None
      else
        var colon := RunEnd(s, sep + 3, IsUserChar);
        if colon == sep + 3 || colon == |s| || s[colon] != ':' then None
        else
          var at := RunEnd(s, colon + 1, IsPasswordChar);
          if at == colon + 1 || at == |s| || s[at] != '@' then None else Some(Url(start, sep, colon, at))
  }

  lemma ScanExact(s: string, u: Url)
    requires u.start <= |s|
    ensures UrlAt(s, u) <==> ScanAt(s, u.start) == Some(u)
  {
  }

  /** The match with the first start at `from` or later. */
  function FindUrl(s: string, from: nat): (r: Option<Url>)
    requires from <= |s|
    ensures r.Some? ==> UrlAt(s, r.value) && from <= r.value.start
    ensures forall u :: UrlAt(s, u) && from <= u.start ==> r.Some? && r.value.start <= u.start
    decreases |s| - from
  {
    var here := ScanAt(s, from);
    assert forall u :: UrlAt(s, u) && u.start == from ==> here == Some(u) by {
      forall u | UrlAt(s, u) && u.start == from ensures here == Some(u) {
        ScanExact(s, u);
      }
    }
    if here.Some? then here
    else if from == |s| then None
    else FindUrl(s, from + 1)
  }

  method Search(s: string) returns (first: Option<Url>)
    ensures first.Some? ==> IsFirst(s, first.value)
    ensures first.None? ==> !exists u :: IsFirst(s, u)
  {
    first := FindUrl(s, 0);
  }

  /** As in UnfoldStrip, an equality of options. */
  method ReplaceUrls(s: string) returns (r: string)
    ensures Some(r) == Some(StripUrls(s))
  {
    var first := Search(s);
    if first.None? {
      NoFirst(s);
      return s;
    }
    UnfoldStrip(s, first.value);
    var rest := ReplaceUrls(s[first.value.at + 1..]);
    r := Masked(s, first.value, rest);
  }

  // ---------- Scrubbing ----------

  ghost function Scrubbed(t: string, secrets: seq<string>): string {
    StripUrls(Replaced(t, secrets))
  }

  method ScrubSecrets(text: string, secrets: seq<string>) returns (result: string)
    ensures result == Scrubbed(text, secrets)
  {
    result := text;
    for k := 0 to |secrets|
      invariant result == Replaced(text, secrets[..k])
    {
      assert secrets[..k + 1][..k] == secrets[..k];
      if |secrets[k]| > 0 {
        result := ReplaceAll(result, secrets[k]);
      }
    }
    assert secrets[..|secrets|] == secrets;
    result := ReplaceUrls(result);
  }

  /** Whatever is left of the text in the output: a part that is not starry was in the text, and it is no secret
      of the list, although later secrets and the URL pass rewrite the text again. */
  lemma NothingNewAndNoSecret(t: string, secrets: seq<string>, w: string)
    requires w != "" && !Starry(w) && Occurs(w, Scrubbed(t, secrets))
    ensures Occurs(w, t) && w !in secrets
  {
    SurvivesUrls(Replaced(t, secrets), w);
    SurvivesReplaced(t, secrets, w);
  }

  /** In particular, no non-empty secret free of stars occurs in the output. */
  lemma NoSecretSurvives(t: string, secrets: seq<string>, secret: string)
    requires secret in secrets && secret != "" && '*' !in secret
    ensures !Occurs(secret, Scrubbed(t, secrets))
  {
    assert forall k :: 0 <= k < |secret| ==> secret[k] in secret;
    if Occurs(secret, Scrubbed(t, secrets)) {
      NothingNewAndNoSecret(t, secrets, secret);
    }
  }

  ghost predicate CanSurvive(secret: string) {
    exists t: string, secrets: seq<string> :: secret in secrets && Occurs(secret, Scrubbed(t, secrets))
  }

  /** Exactly which secrets some text and list let through: those that can overlap a replacement and hold no URL
      with a password. */
  lemma SurvivesIff(secret: string)
    ensures CanSurvive(secret) <==> (secret == "" || Starry(secret)) && Stripped(secret)
  {
    if CanSurvive(secret) {
      var t: string, secrets: seq<string> :| secret in secrets && Occurs(secret, Scrubbed(t, secrets));
      if secret != "" && !Starry(secret) {
        NothingNewAndNoSecret(t, secrets, secret);
      }
      PartIsStripped(Replaced(t, secrets), secret);
    }
    if secret == "" {
      assert OccursAt("", Scrubbed("", [""]), 0);
    } else if Starry(secret) && Stripped(secret) {
      if k :| TripleAt(secret, k) {
        assert secret == secret[..k] + Repeat('*', 3) + secret[k + 3..];
        Survivor(secret, secret[..k], 3, secret[k + 3..]);
      } else if secret[0] == '*' {
        assert secret == "" + Repeat('*', 1) + secret[1..];
        Survivor(secret, "", 1, secret[1..]);
      } else {
        assert secret == secret[..|secret| - 1] + Repeat('*', 1) + "";
        Survivor(secret, secret[..|secret| - 1], 1, "");
      }
    }
  }

  lemma PartIsStripped(s: string, w: string)
    requires Occurs(w, StripUrls(s))
    ensures Stripped(w)
  {
    var out := StripUrls(s);
    var i :| OccursAt(w, out, i);
    NoPasswordLeft(s);
    assert out == out[..i] + w + out[i + |w|..];
    forall u | UrlAt(w, u) ensures Password(w, u) == STARS {
      UrlExtends(out[..i], w, out[i + |w|..], u);
    }
  }

  // ---------- A list that lets a starry secret through ----------

  function Repeat(c: char, n: nat): string {
    seq(n, _ => c)
  }

  /** A text that cannot overlap itself within n characters. */
  function Marker(n: nat): string {
    Repeat('a', n) + "b" + Repeat('a', n)
  }

  lemma MarkerOccursOnce(u: string, v: string, n: nat, j: int)
    requires |u| <= n && |v| <= n && OccursAt(Marker(n), u + Marker(n) + v, j)
    ensures j == |u|
  {
    var m, t := Marker(n), u + Marker(n) + v;
    assert m[n] == 'b' && forall k :: 0 <= k < |m| && k != n ==> m[k] == 'a';
    assert t[j..j + |m|][n] == t[j + n];
    assert t[j..j + |m|][|u| + n - j] == t[|u| + n];
    assert t[|u| + n] == m[n];
  }

  lemma {:induction false} ReplaceMarker(u: string, v: string, n: nat)
    requires |u| <= n && |v| <= n
    ensures ReplaceAll(u + Marker(n) + v, Marker(n)) == u + STARS + v
  {
    var m, t := Marker(n), u + Marker(n) + v;
    assert OccursAt(m, t, |u|);
    var first := FirstOccurrence(m, t, 0);
    MarkerOccursOnce(u, v, n, first.value);
    assert t[..|u|] == u && t[|u| + |m|..] == v;
    assert FirstOccurrence(m, v, 0).None?;
  }

  lemma FewerStars(w: string, t: string, i: int)
    requires OccursAt(w, t, i)
    ensures multiset(w)['*'] <= multiset(t)['*']
  {
    assert t == t[..i] + w + t[i + |w|..];
  }

  lemma StarsOf(u: string, middle: string, v: string)
    ensures multiset(u + middle + v)['*'] == multiset(u)['*'] + multiset(middle)['*'] + multiset(v)['*']
  {
  }

  lemma {:induction false} StarsOfRepeat(c: char, n: nat)
    ensures multiset(Repeat(c, n))['*'] == if c == '*' then n else 0
  {
    if n > 0 {
      StarsOfRepeat(c, n - 1);
      assert Repeat(c, n) == Repeat(c, n - 1) + [c];
    }
  }

  lemma Survivor(secret: string, u: string, stars: nat, v: string)
    requires secret == u + Repeat('*', stars) + v && Stripped(secret)
    requires stars == 3 || (stars == 1 && (u == "" || v == ""))
    ensures CanSurvive(secret)
  {
    var n := |secret|;
    var m := Marker(n);
    NotInMarked(secret, u, stars, v);
    ReplaceMarker(u, v, n);
    ReplacedByTwo(u + m + v, secret, m, u + STARS + v);
    SurvivorIsStripped(secret, u, stars, v);
    UnchangedIffStripped(u + STARS + v);
    assert Occurs(secret, Scrubbed(u + m + v, [secret, m]));
  }

  /** With a marker for its stars, the secret is not there: there are fewer stars. */
  lemma NotInMarked(secret: string, u: string, stars: nat, v: string)
    requires secret == u + Repeat('*', stars) + v && stars > 0
    ensures !Occurs(secret, u + Marker(|secret|) + v)
  {
    var n := |secret|;
    StarsOf(u, Marker(n), v);
    StarsOf(u, Repeat('*', stars), v);
    StarsOf(Repeat('a', n), "b", Repeat('a', n));
    StarsOfRepeat('*', stars);
    StarsOfRepeat('a', n);
    if i :| OccursAt(secret, u + Marker(n) + v, i) {
      FewerStars(secret, u + Marker(n) + v, i);
    }
  }

  lemma ReplacedByTwo(t: string, secret: string, m: string, out: string)
    requires secret != "" && m != "" && !Occurs(secret, t) && ReplaceAll(t, m) == out
    ensures Replaced(t, [secret, m]) == out
  {
    var none: seq<string> := [];
    assert [secret, m][..1] == [secret] && [secret][..0] == none;
    assert Replaced(t, none) == t;
    assert Replaced(t, [secret]) == t;
  }

  lemma StarsBefore(s: string)
    requires Stripped(s)
    ensures Stripped("**" + s) && OccursAt(s, "**" + s, 2)
  {
    var t := "**" + s;
    assert t[0] == '*' && t[1] == '*' && t[2..] == s && forall k :: 0 <= k < |s| ==> s[k] == t[k + 2];
    forall x | UrlAt(t, x) ensures Password(t, x) == STARS {
      UrlMoves(t, s, x, -2);
    }
  }

  lemma StarsAfter(s: string)
    requires Stripped(s)
    ensures Stripped(s + "**") && OccursAt(s, s + "**", 0)
  {
    var t := s + "**";
    assert t[|s|] == '*' && t[|s| + 1] == '*' && forall k :: 0 <= k < |s| ==> t[k] == s[k];
    forall x | UrlAt(t, x) ensures Password(t, x) == STARS {
      assert t[x.at] == '@';
      UrlMoves(t, s, x, 0);
    }
  }

  /** The secret is in this text, and the URL pass leaves the text alone. */
  lemma SurvivorIsStripped(secret: string, u: string, stars: nat, v: string)
    requires secret == u + Repeat('*', stars) + v && Stripped(secret)
    requires stars == 3 || (stars == 1 && (u == "" || v == ""))
    ensures Stripped(u + STARS + v) && Occurs(secret, u + STARS + v)
  {
    var t := u + STARS + v;
    if stars == 3 {
      assert t == secret;
      assert OccursAt(secret, t, 0);
    } else if u == "" {
      assert t == "**" + secret;
      StarsBefore(secret);
    } else {
      assert t == secret + "**";
      StarsAfter(secret);
    }
  }

  // ---------- Text without secrets ----------

  lemma {:induction false} ReplacedLeaves(t: string, secrets: seq<string>)
    requires forall k :: 0 <= k < |secrets| && secrets[k] != "" ==> !Occurs(secrets[k], t)
    ensures Replaced(t, secrets) == t
  {
    if secrets != [] {
      ReplacedLeaves(t, secrets[..|secrets| - 1]);
    }
  }

  /** Text without secrets and passwords is left as it is. */
  lemma CleanTextIsKept(t: string, secrets: seq<string>)
    requires forall k :: 0 <= k < |secrets| && secrets[k] != "" ==> !Occurs(secrets[k], t)
    requires Stripped(t)
    ensures Scrubbed(t, secrets) == t
  {
    ReplacedLeaves(t, secrets);
    UnchangedIffStripped(t);
  }
}
