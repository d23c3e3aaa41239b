/**
  The page's `extractVideoId`: the regular expression
    ^.*((youtu.be\/)|(v\/)|(\/u\/\w\/)|(embed\/)|(watch\?))\??v?=?([^#&?]*).*
  spelled out as a scan. The greedy `^.*` backs off from the end of the first
  line, so the marker chosen is the rightmost one that starts on the first line.
  After the marker one `?`, one `v` and one `=` are each skipped when present,
  and the id candidate is the longest run of characters other than `#`, `&`
  and `?`. The page accepts the candidate only when it is 11 characters long.
 */
module VideoId {

  import opened Wrappers

  /** The characters `.` does not match in a JavaScript regular expression without the `s` flag. */
  predicate IsLineTerminator(c: char) {
    c == '\n' || c == '\r' || c == '\U{2028}' || c == '\U{2029}'
  }

  /** `\w`. */
  predicate IsWordChar(c: char) {
    ('a' <= c <= 'z') || ('A' <= c <= 'Z') || ('0' <= c <= '9') || c == '_'
  }

  /** The characters `[^#&?]` excludes: they end the id candidate. */
  predicate IsIdStop(c: char) {
    c == '#' || c == '&' || c == '?'
  }

  /** `lit` occurs in `s` at position `p`. */
  predicate LiteralAt(s: string, p: nat, lit: string) {
    p + |lit| <= |s| && s[p..p + |lit|] == lit
  }

  /** `youtu.be/`, whose `.` matches any character but a line terminator. */
  predicate ShortLinkAt(s: string, p: nat) {
    p + 9 <= |s| && LiteralAt(s, p, "youtu") && !IsLineTerminator(s[p + 5]) && LiteralAt(s, p + 6, "be/")
  }

  /** `/u/\w/`. */
  predicate UserPathAt(s: string, p: nat) {
    LiteralAt(s, p, "/u/") && p + 5 <= |s| && IsWordChar(s[p + 3]) && s[p + 4] == '/'
  }

  /**
    The length of the marker the alternation matches at `p`, or 0 when none does.
    The five alternatives start with five different characters, so the character
    at `p` decides which one alone can match.
   */
  function MarkerLength(s: string, p: nat): (n: nat)
    ensures n in {0, 2, 5, 6, 9}
    ensures n > 0 ==> p + n <= |s| && (s[p + n - 1] == '/' || s[p + n - 1] == '?')
    ensures n == 9 ==> s[p] == 'y'
    ensures n == 2 ==> s[p] == 'v'
    ensures n == 5 ==> s[p] == '/'
    ensures n == 6 ==> s[p] == 'e' || s[p] == 'w'
  {
    if p >= |s| then 0
    else if s[p] == 'y' then
      if ShortLinkAt(s, p) then
        assert s[p + 6..p + 9][2] == s[p + 8];
        9
      else 0
    else if s[p] == 'v' then
      if LiteralAt(s, p, "v/") then
        assert s[p..p + 2][1] == s[p + 1];
        2
      else 0
    else if s[p] == '/' then
      if UserPathAt(s, p) then 5 else 0
    else if s[p] == 'e' then
      if LiteralAt(s, p, "embed/") then
        assert s[p..p + 6][5] == s[p + 5];
        6
      else 0
    else if s[p] == 'w' then
      if LiteralAt(s, p, "watch?") then
        assert s[p..p + 6][5] == s[p + 5];
        6
      else 0
    else 0
  }

  /** How far `^.*` can reach: the index of the first line terminator, or the length. */
  function LineEnd(s: string): (n: nat)
    ensures n <= |s|
    ensures forall i :: 0 <= i < n ==> !IsLineTerminator(s[i])
    ensures n == |s| || IsLineTerminator(s[n])
  {
    if s == [] || IsLineTerminator(s[0]) then 0 else 1 + LineEnd(s[1..])
  }

  /** The rightmost position at or before `k` where a marker starts. */
  function LastMarker(s: string, k: nat): (r: Option<nat>)
    requires k <= |s|
    ensures r.Some? ==> r.value <= k && MarkerLength(s, r.value) > 0
    ensures r.Some? ==> forall j :: r.value < j <= k ==> MarkerLength(s, j) == 0
    ensures r.None? ==> forall j :: 0 <= j <= k ==> MarkerLength(s, j) == 0
  {
    if MarkerLength(s, k) > 0 then Some(k)
    else if k == 0 then None
    else LastMarker(s, k - 1)
  }

  /** An optional `c` at `i`: the position after it. */
  function SkipIf(s: string, i: nat, c: char): (j: nat)
    requires i <= |s|
    ensures j <= |s|
  {
    if i < |s| && s[i] == c then i + 1 else i
  }

  /** Where the longest run of characters other than `#`, `&` and `?` from `i` ends. */
  function RunEnd(s: string, i: nat): (e: nat)
    requires i <= |s|
    ensures i <= e <= |s|
    ensures forall j :: i <= j < e ==> !IsIdStop(s[j])
    ensures e == |s| || IsIdStop(s[e])
    decreases |s| - i
  {
    if i == |s| || IsIdStop(s[i]) then i else RunEnd(s, i + 1)
  }

  /** Where the id candidate starts, after the marker at `p` and the optional `?`, `v` and `=`. */
  function IdStart(s: string, p: nat): (q: nat)
    requires p <= |s| && MarkerLength(s, p) > 0
    ensures p + MarkerLength(s, p) <= q <= p + MarkerLength(s, p) + 3 && q <= |s|
  {
    var afterMarker := p + MarkerLength(s, p);
    SkipIf(s, SkipIf(s, SkipIf(s, afterMarker, '?'), 'v'), '=')
  }

  /** A marker occurs on the first line. */
  predicate HasMarker(url: string) {
    exists p :: 0 <= p <= LineEnd(url) && MarkerLength(url, p) > 0
  }

  /** `extractVideoId(url)`: the 11-character id after the rightmost marker, or `None` (`null`). */
  function ExtractVideoId(url: string): (r: Option<string>)
    ensures r.Some? ==> |r.value| == 11
    ensures r.Some? ==> forall i :: 0 <= i < |r.value| ==> !IsIdStop(r.value[i])
    ensures !HasMarker(url) ==> r.None?
  {
    match LastMarker(url, LineEnd(url))
    case None => None
    case Some(p) =>
      var q := IdStart(url, p);
      var e := RunEnd(url, q);
      if e - q == 11 then Some(url[q..e]) else None
  }

  /** `p` is where the regular expression's marker group matches: the rightmost marker on the first line. */
  predicate IsRightmostMarker(url: string, p: nat) {
    && p <= LineEnd(url)
    && MarkerLength(url, p) > 0
    && forall j :: p < j <= LineEnd(url) ==> MarkerLength(url, j) == 0
  }

  /** The scan finds the rightmost marker at or before `k`. */
  lemma {:induction false} LastMarkerFinds(s: string, k: nat, p: nat)
    requires p <= k <= |s|
    requires MarkerLength(s, p) > 0
    requires forall j :: p < j <= k ==> MarkerLength(s, j) == 0
    ensures LastMarker(s, k) == Some(p)
    decreases k
  {
    if k > p {
      LastMarkerFinds(s, k - 1, p);
    }
  }

  /** The regular expression matches with its id group equal to `id` and its length check passes. */
  ghost predicate MatchesWithId(url: string, id: string) {
    exists p :: && IsRightmostMarker(url, p)
                && IdStart(url, p) + 11 <= |url|
                && url[IdStart(url, p)..IdStart(url, p) + 11] == id
                && (forall i :: 0 <= i < 11 ==> !IsIdStop(id[i]))
                && (IdStart(url, p) + 11 == |url| || IsIdStop(url[IdStart(url, p) + 11]))
  }

  /**
    What `extractVideoId` returns, stated as the match of the regular expression:
    an id is returned exactly when, after the rightmost marker and the optional
    `?`, `v` and `=`, exactly 11 characters other than `#`, `&` and `?` follow,
    up to such a character or the end of the string.
   */
  lemma {:induction false} ExtractVideoIdMeaning(url: string, id: string)
    ensures ExtractVideoId(url) == Some(id) <==> MatchesWithId(url, id)
  {
    if ExtractVideoId(url) == Some(id) {
      ExtractedIdMatches(url, id);
    }
    if MatchesWithId(url, id) {
      MatchGivesId(url, id);
    }
  }

  lemma {:induction false} ExtractedIdMatches(url: string, id: string)
    requires ExtractVideoId(url) == Some(id)
    ensures MatchesWithId(url, id)
  {
    var p := LastMarker(url, LineEnd(url)).value;
    var q := IdStart(url, p);
    assert IsRightmostMarker(url, p);
    assert RunEnd(url, q) == q + 11;
    assert url[q..q + 11] == id;
  }

  lemma {:induction false} MatchGivesId(url: string, id: string)
    requires MatchesWithId(url, id)
    ensures ExtractVideoId(url) == Some(id)
  {
    var p :| && IsRightmostMarker(url, p)
             && IdStart(url, p) + 11 <= |url|
             && url[IdStart(url, p)..IdStart(url, p) + 11] == id
             && (forall i :: 0 <= i < 11 ==> !IsIdStop(id[i]))
             && (IdStart(url, p) + 11 == |url| || IsIdStop(url[IdStart(url, p) + 11]));
    MatchAtGivesId(url, id, p);
  }

  lemma {:induction false} MatchAtGivesId(url: string, id: string, p: nat)
    requires IsRightmostMarker(url, p)
    requires IdStart(url, p) + 11 <= |url|
    requires url[IdStart(url, p)..IdStart(url, p) + 11] == id
    requires forall i :: 0 <= i < 11 ==> !IsIdStop(id[i])
    requires IdStart(url, p) + 11 == |url| || IsIdStop(url[IdStart(url, p) + 11])
    ensures ExtractVideoId(url) == Some(id)
  {
    var q := IdStart(url, p);
    assert LastMarker(url, LineEnd(url)) == Some(p) by {
      LastMarkerFinds(url, LineEnd(url), p);
    }
    assert RunEnd(url, q) == q + 11 by {
      forall j | q <= j < q + 11 ensures !IsIdStop(url[j]) {
        assert url[j] == url[q..q + 11][j - q];
      }
      RunEndAt(url, q, q + 11);
    }
  }

  /** A run with no stop character inside and a stop character or the end after it is the longest run. */
  lemma {:induction false} RunEndAt(s: string, i: nat, e: nat)
    requires i <= e <= |s|
    requires forall j :: i <= j < e ==> !IsIdStop(s[j])
    requires e == |s| || IsIdStop(s[e])
    ensures RunEnd(s, i) == e
  {
  }

  /** The characters of an id the video site hands out: letters, digits, `-` and `_`. */
  predicate IsIdChar(c: char) {
    ('a' <= c <= 'z') || ('A' <= c <= 'Z') || ('0' <= c <= '9') || c == '-' || c == '_'
  }

  predicate IsPlainId(id: string) {
    |id| == 11 && forall i :: 0 <= i < 11 ==> IsIdChar(id[i])
  }

  /** Text before the marker: on one line. */
  predicate IsSite(site: string) {
    forall i :: 0 <= i < |site| ==> !IsLineTerminator(site[i])
  }

  /** Text after the id: empty or further `#`/`&` parameters, with no `/` or `?`. */
  predicate IsTail(rest: string) {
    && (rest == [] || rest[0] == '#' || rest[0] == '&')
    && forall i :: 0 <= i < |rest| ==> rest[i] != '/' && rest[i] != '?'
  }

  /**
    A marker at `p0` on the first line, with no other marker starting inside it
    and no `/` or `?` after it, is the one the scan picks.
   */
  lemma {:induction false} OnlyMarkerAfter(s: string, p0: nat)
    requires p0 <= LineEnd(s) && MarkerLength(s, p0) > 0
    requires forall j :: p0 < j < p0 + MarkerLength(s, p0) ==> MarkerLength(s, j) == 0
    requires forall i :: p0 + MarkerLength(s, p0) <= i < |s| ==> s[i] != '/' && s[i] != '?'
    ensures LastMarker(s, LineEnd(s)) == Some(p0)
  {
    var n0 := MarkerLength(s, p0);
    forall j | p0 + n0 <= j <= LineEnd(s) ensures MarkerLength(s, j) == 0 {
    }
    LastMarkerFinds(s, LineEnd(s), p0);
  }

  /** With a marker at `p0` picked by the scan, the id is what follows it. */
  lemma {:induction false} IdAfterOnlyMarker(s: string, p0: nat, id: string)
    requires p0 <= LineEnd(s) && MarkerLength(s, p0) > 0
    requires forall j :: p0 < j < p0 + MarkerLength(s, p0) ==> MarkerLength(s, j) == 0
    requires forall i :: p0 + MarkerLength(s, p0) <= i < |s| ==> s[i] != '/' && s[i] != '?'
    requires IdStart(s, p0) + 11 <= |s| && s[IdStart(s, p0)..IdStart(s, p0) + 11] == id
    requires forall i :: 0 <= i < 11 ==> !IsIdStop(id[i])
    requires IdStart(s, p0) + 11 == |s| || IsIdStop(s[IdStart(s, p0) + 11])
    ensures ExtractVideoId(s) == Some(id)
  {
    OnlyMarkerAfter(s, p0);
    MatchAtGivesId(s, id, p0);
  }

  /** In `site + marker + id + rest`, the marker sits right after the site. */
  lemma {:induction false} MarkerSits(site: string, marker: string, id: string, rest: string)
    ensures |site + marker + id + rest| == |site| + |marker| + |id| + |rest|
    ensures forall k :: 0 <= k < |marker| ==> (site + marker + id + rest)[|site| + k] == marker[k]
    ensures (site + marker + id + rest)[|site|..|site| + |marker|] == marker
  {
    var s := site + marker + id + rest;
    assert s == site + marker + (id + rest);
  }

  /** A site on one line keeps `^.*` going up to the marker. */
  lemma {:induction false} SiteOnFirstLine(site: string, marker: string, id: string, rest: string)
    requires IsSite(site)
    ensures |site| <= LineEnd(site + marker + id + rest)
  {
    var s := site + marker + id + rest;
    assert s == site + (marker + id + rest);
    assert forall i :: 0 <= i < |site| ==> s[i] == site[i];
  }

  /** After the marker come only id and tail characters: no `/` and no `?`. */
  lemma {:induction false} NothingEndsAMarkerAfter(site: string, marker: string, id: string, rest: string)
    requires forall i :: 0 <= i < |id| ==> id[i] != '/' && id[i] != '?'
    requires forall i :: 0 <= i < |rest| ==> rest[i] != '/' && rest[i] != '?'
    ensures forall i :: |site| + |marker| <= i < |site + marker + id + rest| ==>
      (site + marker + id + rest)[i] != '/' && (site + marker + id + rest)[i] != '?'
  {
    var s := site + marker + id + rest;
    var tail := id + rest;
    assert s == (site + marker) + tail;
    forall k | 0 <= k < |tail| ensures tail[k] != '/' && tail[k] != '?' {
      if k >= |id| {
        assert tail[k] == rest[k - |id|];
      }
    }
  }

  /** The id follows the marker and ends where the tail begins. */
  lemma {:induction false} IdFollowsMarker(site: string, marker: string, id: string, rest: string)
    requires IsPlainId(id) && IsTail(rest)
    ensures var s := site + marker + id + rest; var q := |site| + |marker|;
      && q + 11 <= |s|
      && s[q..q + 11] == id
      && (q + 11 == |s| || IsIdStop(s[q + 11]))
  {
    var s := site + marker + id + rest;
    var q := |site| + |marker|;
    assert s == (site + marker) + id + rest;
    assert s[q..q + 11] == id;
    assert rest != [] ==> s[q + 11] == rest[0];
  }

  /** The layout of `<site>youtu.be/<id><rest>` that the scan looks at. */
  lemma {:induction false} ShortLinkShape(site: string, id: string, rest: string)
    requires IsSite(site) && IsPlainId(id) && IsTail(rest)
    ensures var s := site + "youtu.be/" + id + rest; var p0 := |site|;
      && p0 + 20 <= |s|
      && MarkerLength(s, p0) == 9 && p0 <= LineEnd(s)
      && s[p0 + 1] == 'o' && s[p0 + 2] == 'u' && s[p0 + 3] == 't' && s[p0 + 4] == 'u'
      && s[p0 + 5] == '.' && s[p0 + 6] == 'b' && s[p0 + 7] == 'e' && s[p0 + 8] == '/'
      && (forall i :: p0 + 9 <= i < |s| ==> s[i] != '/' && s[i] != '?')
      && s[p0 + 9..p0 + 20] == id
      && (p0 + 20 == |s| || IsIdStop(s[p0 + 20]))
  {
    var m := "youtu.be/";
    var s := site + m + id + rest;
    var p0 := |site|;
    MarkerSits(site, m, id, rest);
    assert MarkerLength(s, p0) == 9 by {
      assert s[p0..p0 + 9][..5] == "youtu";
      assert s[p0..p0 + 9][6..] == "be/";
    }
    SiteOnFirstLine(site, m, id, rest);
    NothingEndsAMarkerAfter(site, m, id, rest);
    IdFollowsMarker(site, m, id, rest);
  }

  /** A link `<site>youtu.be/<id><rest>` gives back its id when the id does not start with `v`. */
  lemma {:induction false} ShortLinkRoundTrip(site: string, id: string, rest: string)
    requires IsSite(site) && IsPlainId(id) && IsTail(rest)
    requires id[0] != 'v'
    ensures ExtractVideoId(site + "youtu.be/" + id + rest) == Some(id)
  {
    var s := site + "youtu.be/" + id + rest;
    var p0 := |site|;
    ShortLinkShape(site, id, rest);
    ShortLinkMarkerAlone(s, p0);
    assert s[p0 + 9] == id[0];
    assert IdStart(s, p0) == p0 + 9;
    IdAfterOnlyMarker(s, p0, id);
  }

  /**
    The same link with an id that starts with `v` gives `None`: the optional `v`
    of the pattern takes the id's first character and leaves 10.
   */
  lemma {:induction false} ShortLinkLosesLeadingV(site: string, id: string, rest: string)
    requires IsSite(site) && IsPlainId(id) && IsTail(rest)
    requires id[0] == 'v'
    ensures ExtractVideoId(site + "youtu.be/" + id + rest) == None
  {
    var s := site + "youtu.be/" + id + rest;
    var p0 := |site|;
    ShortLinkShape(site, id, rest);
    ShortLinkMarkerAlone(s, p0);
    OnlyMarkerAfter(s, p0);
    assert s[p0 + 9] == id[0] && s[p0 + 10] == id[1];
    assert IdStart(s, p0) == p0 + 10;
    forall j | p0 + 10 <= j < p0 + 20 ensures !IsIdStop(s[j]) {
      assert s[j] == s[p0 + 9..p0 + 20][j - p0 - 9];
    }
    RunEndAt(s, p0 + 10, p0 + 20);
  }

  /** No marker starts inside `youtu.be/` when no `/` or `?` follows it. */
  lemma {:induction false} ShortLinkMarkerAlone(s: string, p0: nat)
    requires p0 + 9 <= |s|
    requires s[p0 + 1] == 'o' && s[p0 + 2] == 'u' && s[p0 + 3] == 't' && s[p0 + 4] == 'u'
    requires s[p0 + 5] == '.' && s[p0 + 6] == 'b' && s[p0 + 7] == 'e' && s[p0 + 8] == '/'
    requires forall i :: p0 + 9 <= i < |s| ==> s[i] != '/' && s[i] != '?'
    ensures forall j :: p0 < j < p0 + 9 ==> MarkerLength(s, j) == 0
  {
    forall j | p0 < j < p0 + 9 ensures MarkerLength(s, j) == 0 {
      var n := MarkerLength(s, j);
      assert n > 0 ==> j + n - 1 == p0 + 8;
    }
  }

  /** No marker starts inside `watch?` when no `/` or `?` follows it. */
  lemma {:induction false} WatchMarkerAlone(s: string, p0: nat)
    requires p0 + 6 <= |s|
    requires s[p0 + 1] == 'a' && s[p0 + 2] == 't' && s[p0 + 3] == 'c' && s[p0 + 4] == 'h' && s[p0 + 5] == '?'
    requires forall i :: p0 + 6 <= i < |s| ==> s[i] != '/' && s[i] != '?'
    ensures forall j :: p0 < j < p0 + 6 ==> MarkerLength(s, j) == 0
  {
    forall j | p0 < j < p0 + 6 ensures MarkerLength(s, j) == 0 {
      var n := MarkerLength(s, j);
      assert n > 0 ==> j + n - 1 == p0 + 5;
    }
  }

  /** The layout of `<site>watch?v=<id><rest>` that the scan looks at. */
  lemma {:induction false} WatchLinkShape(site: string, id: string, rest: string)
    requires IsSite(site) && IsPlainId(id) && IsTail(rest)
    ensures var s := site + "watch?v=" + id + rest; var p0 := |site|;
      && p0 + 19 <= |s|
      && MarkerLength(s, p0) == 6 && p0 <= LineEnd(s)
      && s[p0 + 1] == 'a' && s[p0 + 2] == 't' && s[p0 + 3] == 'c' && s[p0 + 4] == 'h'
      && s[p0 + 5] == '?' && s[p0 + 6] == 'v' && s[p0 + 7] == '='
      && (forall i :: p0 + 6 <= i < |s| ==> s[i] != '/' && s[i] != '?')
      && s[p0 + 8..p0 + 19] == id
      && (p0 + 19 == |s| || IsIdStop(s[p0 + 19]))
  {
    var m := "watch?v=";
    var s := site + m + id + rest;
    var p0 := |site|;
    MarkerSits(site, m, id, rest);
    assert MarkerLength(s, p0) == 6 by {
      assert s[p0..p0 + 8][..6] == "watch?";
    }
    SiteOnFirstLine(site, m, id, rest);
    NothingEndsAMarkerAfter(site, m, id, rest);
    IdFollowsMarker(site, m, id, rest);
  }

  /** A link `<site>watch?v=<id><rest>` gives back its id, whatever letter the id starts with. */
  lemma {:induction false} WatchLinkRoundTrip(site: string, id: string, rest: string)
    requires IsSite(site) && IsPlainId(id) && IsTail(rest)
    ensures ExtractVideoId(site + "watch?v=" + id + rest) == Some(id)
  {
    var s := site + "watch?v=" + id + rest;
    var p0 := |site|;
    WatchLinkShape(site, id, rest);
    WatchMarkerAlone(s, p0);
    assert IdStart(s, p0) == p0 + 8;
    IdAfterOnlyMarker(s, p0, id);
  }

  /** No marker starts inside `embed/` when no `/` or `?` follows it. */
  lemma {:induction false} EmbedMarkerAlone(s: string, p0: nat)
    requires p0 + 6 <= |s|
    requires s[p0 + 1] == 'm' && s[p0 + 2] == 'b' && s[p0 + 3] == 'e' && s[p0 + 4] == 'd' && s[p0 + 5] == '/'
    requires forall i :: p0 + 6 <= i < |s| ==> s[i] != '/' && s[i] != '?'
    ensures forall j :: p0 < j < p0 + 6 ==> MarkerLength(s, j) == 0
  {
    forall j | p0 < j < p0 + 6 ensures MarkerLength(s, j) == 0 {
      var n := MarkerLength(s, j);
      assert n > 0 ==> j + n - 1 == p0 + 5;
    }
  }

  /** The layout of `<site>embed/<id><rest>` that the scan looks at. */
  lemma {:induction false} EmbedLinkShape(site: string, id: string, rest: string)
    requires IsSite(site) && IsPlainId(id) && IsTail(rest)
    ensures var s := site + "embed/" + id + rest; var p0 := |site|;
      && p0 + 17 <= |s|
      && MarkerLength(s, p0) == 6 && p0 <= LineEnd(s)
      && s[p0 + 1] == 'm' && s[p0 + 2] == 'b' && s[p0 + 3] == 'e' && s[p0 + 4] == 'd' && s[p0 + 5] == '/'
      && (forall i :: p0 + 6 <= i < |s| ==> s[i] != '/' && s[i] != '?')
      && s[p0 + 6..p0 + 17] == id
      && (p0 + 17 == |s| || IsIdStop(s[p0 + 17]))
  {
    var m := "embed/";
    var s := site + m + id + rest;
    var p0 := |site|;
    MarkerSits(site, m, id, rest);
    assert MarkerLength(s, p0) == 6 by {
      assert s[p0..p0 + 6] == "embed/";
    }
    SiteOnFirstLine(site, m, id, rest);
    NothingEndsAMarkerAfter(site, m, id, rest);
    IdFollowsMarker(site, m, id, rest);
  }

  /** A link `<site>embed/<id><rest>` gives back its id when the id does not start with `v`. */
  lemma {:induction false} EmbedLinkRoundTrip(site: string, id: string, rest: string)
    requires IsSite(site) && IsPlainId(id) && IsTail(rest)
    requires id[0] != 'v'
    ensures ExtractVideoId(site + "embed/" + id + rest) == Some(id)
  {
    var s := site + "embed/" + id + rest;
    var p0 := |site|;
    EmbedLinkShape(site, id, rest);
    EmbedMarkerAlone(s, p0);
    assert s[p0 + 6] == s[p0 + 6..p0 + 17][0];
    assert IdStart(s, p0) == p0 + 6;
    IdAfterOnlyMarker(s, p0, id);
  }

  /** The layout of `<site>youtu.be/<id> ` that the scan looks at. */
  lemma {:induction false} TrailingSpaceShape(site: string, id: string)
    requires IsSite(site) && IsPlainId(id)
    ensures var s := site + "youtu.be/" + id + " "; var p0 := |site|;
      && |s| == p0 + 21
      && MarkerLength(s, p0) == 9 && p0 <= LineEnd(s)
      && s[p0 + 1] == 'o' && s[p0 + 2] == 'u' && s[p0 + 3] == 't' && s[p0 + 4] == 'u'
      && s[p0 + 5] == '.' && s[p0 + 6] == 'b' && s[p0 + 7] == 'e' && s[p0 + 8] == '/'
      && (forall i :: p0 + 9 <= i < |s| ==> s[i] != '/' && s[i] != '?' && !IsIdStop(s[i]))
      && s[p0 + 9] == id[0]
  {
    var m := "youtu.be/";
    var s := site + m + id + " ";
    var p0 := |site|;
    MarkerSits(site, m, id, " ");
    assert MarkerLength(s, p0) == 9 by {
      assert s[p0..p0 + 9][..5] == "youtu";
      assert s[p0..p0 + 9][6..] == "be/";
    }
    SiteOnFirstLine(site, m, id, " ");
    assert s == (site + m) + (id + " ");
    forall i | p0 + 9 <= i < |s| ensures s[i] != '/' && s[i] != '?' && !IsIdStop(s[i]) {
      assert s[i] == (id + " ")[i - p0 - 9];
    }
  }

  /**
    A short link followed by one space yields `None` when the id does not start
    with `v`: the space is not one of the characters that end the id, so the
    candidate is 12 characters long.
   */
  lemma {:induction false} ShortLinkWithTrailingSpace(site: string, id: string)
    requires IsSite(site) && IsPlainId(id)
    requires id[0] != 'v'
    ensures ExtractVideoId(site + "youtu.be/" + id + " ") == None
  {
    var s := site + "youtu.be/" + id + " ";
    var p0 := |site|;
    TrailingSpaceShape(site, id);
    ShortLinkMarkerAlone(s, p0);
    OnlyMarkerAfter(s, p0);
    assert IdStart(s, p0) == p0 + 9;
    RunEndAt(s, p0 + 9, p0 + 21);
  }

  /**
    A short link whose id starts with `v`, followed by one space, yields the wrong
    id: `v?` takes the `v`, and the other ten characters with the space make 11.
   */
  lemma {:induction false} ShortLinkVWithTrailingSpace(site: string, id: string)
    requires IsSite(site) && IsPlainId(id)
    requires id[0] == 'v'
    ensures ExtractVideoId(site + "youtu.be/" + id + " ") == Some(id[1..] + " ")
  {
    var s := site + "youtu.be/" + id + " ";
    var p0 := |site|;
    TrailingSpaceShape(site, id);
    ShortLinkMarkerAlone(s, p0);
    OnlyMarkerAfter(s, p0);
    assert s == (site + "youtu.be/") + (id + " ");
    assert s[p0 + 10] == id[1];
    assert IdStart(s, p0) == p0 + 10;
    RunEndAt(s, p0 + 10, p0 + 21);
    assert s[p0 + 10..p0 + 21] == id[1..] + " ";
  }
}
