/**
 * The video-id pattern shared by `extractVideoId` (app/api/youtube-meta/route.ts)
 * and `isYouTubeUrl` (app/components/youtube-url-form.tsx):
 *
 *   (?:youtube\.com\/(?:[^/]+\/.+\/|(?:v|e(?:mbed)?)\/|.*[?&]v=)|youtu\.be\/)([^"&?/\s]{11})
 *
 * modelled as the regular-expression engine runs it: the leftmost start
 * position wins; at a position the alternatives are tried in order; `[^/]+`
 * can only end at the next '/', and the greedy `.+\/` and `.*[?&]v=` settle on
 * the LAST place on the line from which eleven id characters follow.
 */
module VideoId {
  import opened Wrappers
  import opened Strings

  /** A character of the group `[^"&?/\s]`. */
  predicate IsIdChar(c: char) {
    c != '"' && c != '&' && c != '?' && c != '/' && !IsSpace(c)
  }

  /** What the group can capture: exactly eleven id characters. */
  predicate IsVideoId(id: string) {
    |id| == 11 && forall i :: 0 <= i < |id| ==> IsIdChar(id[i])
  }

  /** The group `([^"&?/\s]{11})` tried at position `p`. */
  function IdAt(s: string, p: nat): (r: Option<string>)
    ensures r.Some? ==> IsVideoId(r.value) && p + 11 <= |s| && r.value == s[p..p + 11]
    ensures r.None? <==> !(p + 11 <= |s| && IsVideoId(s[p..p + 11]))
  {
    if p + 11 <= |s| && IsVideoId(s[p..p + 11]) then Some(s[p..p + 11]) else None
  }

  /** The index of the first '/' at or after `a`, if any. */
  function FirstSlash(s: string, a: nat): (r: Option<nat>)
    requires a <= |s|
    ensures r.Some? ==> a <= r.value < |s| && s[r.value] == '/' &&
                          forall j :: a <= j < r.value ==> s[j] != '/'
    ensures r.None? ==> forall j :: a <= j < |s| ==> s[j] != '/'
    decreases |s| - a
  {
    if a == |s| then None
    else if s[a] == '/' then Some(a)
    else FirstSlash(s, a + 1)
  }

  /** Where the line that contains position `a` ends: the next line terminator, or the end. */
  function LineEnd(s: string, a: nat): (r: nat)
    requires a <= |s|
    ensures a <= r <= |s|
    ensures forall j :: a <= j < r ==> !IsLineTerminator(s[j])
    ensures r < |s| ==> IsLineTerminator(s[r])
    decreases |s| - a
  {
    if a == |s| || IsLineTerminator(s[a]) then a else LineEnd(s, a + 1)
  }

  /** The two greedy endings: `.+\/` and `.*[?&]v=`. */
  datatype Ending = SlashEnding | QueryEnding

  /** The ending placed at position `j`, then the group. */
  function Candidate(s: string, j: nat, e: Ending): (r: Option<string>)
    ensures r.Some? ==> IsVideoId(r.value)
  {
    match e
    case SlashEnding => if j < |s| && s[j] == '/' then IdAt(s, j + 1) else None
    case QueryEnding =>
      if j + 2 < |s| && (s[j] == '?' || s[j] == '&') && s[j + 1] == 'v' && s[j + 2] == '=' then IdAt(s, j + 3)
      else None
  }

  /** The greedy choice: the capture at the largest `j` in `[lo, hi)` that yields one. */
  function Greedy(s: string, lo: nat, hi: nat, e: Ending): (r: Option<string>)
    ensures r.Some? ==> IsVideoId(r.value)
    ensures r.None? <==> forall j :: lo <= j < hi ==> Candidate(s, j, e).None?
    decreases hi
  {
    if hi <= lo then None
    else
      var c := Candidate(s, hi - 1, e);
      if c.Some? then c else Greedy(s, lo, hi - 1, e)
  }

  /** `[^/]+\/.+\/` then the group, from `k`. */
  function NestedPath(s: string, k: nat): (r: Option<string>)
    requires k <= |s|
    ensures r.Some? ==> IsVideoId(r.value)
  {
    if k < |s| && s[k] != '/' then
      match FirstSlash(s, k)
      case None => None
      case Some(p) => Greedy(s, p + 2, LineEnd(s, p + 1), SlashEnding)
    else None
  }

  /** `(?:v|e(?:mbed)?)\/` then the group, from `k`. */
  function ShortPath(s: string, k: nat): (r: Option<string>)
    requires k <= |s|
    ensures r.Some? ==> IsVideoId(r.value)
  {
    if StartsWith(s[k..], "v/") then IdAt(s, k + 2)
    else if StartsWith(s[k..], "embed/") then IdAt(s, k + 6)
    else if StartsWith(s[k..], "e/") then IdAt(s, k + 2)
    else None
  }

  /** `.*[?&]v=` then the group, from `k`. */
  function QueryPath(s: string, k: nat): (r: Option<string>)
    requires k <= |s|
    ensures r.Some? ==> IsVideoId(r.value)
  {
    Greedy(s, k, LineEnd(s, k), QueryEnding)
  }

  /** The capture of a match that starts at position `i`, if one does. */
  function MatchAt(s: string, i: nat): (r: Option<string>)
    requires i <= |s|
    ensures r.Some? ==> IsVideoId(r.value)
  {
    if StartsWith(s[i..], "youtube.com/") then
      var k := i + 12;
      var nested := NestedPath(s, k);
      if nested.Some? then nested
      else
        var short := ShortPath(s, k);
        if short.Some? then short else QueryPath(s, k)
    else if StartsWith(s[i..], "youtu.be/") then IdAt(s, i + 9)
    else None
  }

  /** The leftmost match at or after position `i`. */
  function FirstMatch(s: string, i: nat): (r: Option<string>)
    requires i <= |s|
    ensures r.Some? ==> IsVideoId(r.value)
    ensures r.None? <==> forall j :: i <= j <= |s| ==> MatchAt(s, j).None?
    decreases |s| - i
  {
    var m := MatchAt(s, i);
    if m.Some? then m else if i == |s| then None else FirstMatch(s, i + 1)
  }

  /** `extractVideoId(url)`: `url.match(regex)`, then group 1 or `null`. */
  function ExtractVideoId(url: string): (r: Option<string>)
    ensures r.Some? ==> |r.value| == 11
    ensures r.Some? ==> forall i :: 0 <= i < 11 ==>
              r.value[i] != '"' && r.value[i] != '&' && r.value[i] != '?' && r.value[i] != '/' && !IsSpace(r.value[i])
  {
    FirstMatch(url, 0)
  }

  /** `isYouTubeUrl(input)`: `regex.test(input)`, a match starting anywhere. */
  predicate IsYouTubeUrl(input: string)
    ensures IsYouTubeUrl(input) ==>
              exists i :: 0 <= i <= |input| && (StartsWith(input[i..], "youtube.com/") || StartsWith(input[i..], "youtu.be/"))
  {
    exists i :: 0 <= i <= |input| && MatchAt(input, i).Some?
  }

  /** The form's test and the route's extraction use one pattern, so they agree on every input. */
  lemma IsYouTubeUrlIffExtracts(s: string)
    ensures IsYouTubeUrl(s) <==> ExtractVideoId(s).Some?
  {
    if ExtractVideoId(s).None? {
      forall j | 0 <= j <= |s| ensures MatchAt(s, j).None? {}
    } else {
      var j :| 0 <= j <= |s| && MatchAt(s, j).Some?;
    }
  }

  // ---- The URL forms the site accepts --------------------------------------

  /** Positions that cannot start a match (neither "youtube.com/" nor "youtu.be/" begins with anything but 'y'). */
  lemma {:induction false} SkipTo(s: string, i: nat, n: nat)
    requires i <= n <= |s|
    requires forall j :: i <= j < n ==> s[j] != 'y'
    ensures FirstMatch(s, i) == FirstMatch(s, n)
    decreases n - i
  {
    if i < n {
      assert MatchAt(s, i).None? by {
        assert !StartsWith(s[i..], "youtube.com/") && !StartsWith(s[i..], "youtu.be/") by {
          assert s[i..][0] == s[i];
        }
      }
      SkipTo(s, i + 1, n);
    }
  }

  /** The greedy search settles on `j0` when no later position yields a capture. */
  lemma {:induction false} GreedyPicksLast(s: string, lo: nat, j0: nat, hi: nat, e: Ending)
    requires lo <= j0 < hi
    requires Candidate(s, j0, e).Some?
    requires forall j :: j0 < j < hi ==> Candidate(s, j, e).None?
    ensures Greedy(s, lo, hi, e) == Candidate(s, j0, e)
    decreases hi
  {
    if hi - 1 > j0 {
      GreedyPicksLast(s, lo, j0, hi - 1, e);
    }
  }

  /** A scheme-and-host prefix such as "https://" or "https://www.": no 'y' in it. */
  predicate PlainPrefix(p: string) {
    forall j :: 0 <= j < |p| ==> p[j] != 'y'
  }

  /** Id characters include no '/', '?', '&' or line terminator. */
  lemma IdCharsNoEndings(id: string)
    requires IsVideoId(id)
    ensures forall j :: 0 <= j < |id| ==> id[j] != '/' && id[j] != '?' && id[j] != '&' && !IsLineTerminator(id[j])
  {
  }

  /** A match of the "youtu.be/" alternative at `i` captures what follows it. */
  lemma ShortLinkAt(s: string, i: nat)
    requires i + 9 <= |s| && s[i..i + 9] == "youtu.be/"
    ensures MatchAt(s, i) == IdAt(s, i + 9)
  {
    assert s[i..][..9] == s[i..i + 9];
    assert s[i..][5] == s[i..i + 9][5] == '.';
  }

  /** No 'y' before `|p|` in `p + t`. */
  lemma PrefixHasNoY(p: string, t: string)
    requires PlainPrefix(p)
    ensures forall j :: 0 <= j < |p| ==> (p + t)[j] != 'y'
  {
  }

  /** `https://youtu.be/<id>`, after any prefix without a 'y'. */
  lemma ShortLinkForm(p: string, id: string, rest: string)
    requires PlainPrefix(p) && IsVideoId(id)
    ensures ExtractVideoId(p + "youtu.be/" + id + rest) == Some(id)
  {
    var t := "youtu.be/" + id + rest;
    var s := p + t;
    assert s == p + "youtu.be/" + id + rest;
    var i := |p|;
    assert s[i..i + 9] == t[..9] == "youtu.be/";
    assert s[i + 9..i + 20] == t[9..20] == id;
    ShortLinkAt(s, i);
    PrefixHasNoY(p, t);
    SkipTo(s, 0, i);
  }

  /** After "youtube.com/" at `i`, the alternatives are tried in order. */
  lemma LongHostAt(s: string, i: nat)
    requires i + 12 <= |s| && s[i..i + 12] == "youtube.com/"
    ensures MatchAt(s, i) ==
      if NestedPath(s, i + 12).Some? then NestedPath(s, i + 12)
      else if ShortPath(s, i + 12).Some? then ShortPath(s, i + 12)
      else QueryPath(s, i + 12)
  {
    assert s[i..][..12] == s[i..i + 12];
  }

  /** The query after "youtube.com/" in `watch?v=<id>`. */
  lemma WatchAt(s: string, k: nat)
    requires k + 19 == |s| && s[k..k + 8] == "watch?v=" && IsVideoId(s[k + 8..])
    ensures NestedPath(s, k).None? && ShortPath(s, k).None?
    ensures QueryPath(s, k) == Some(s[k + 8..])
  {
    var id := s[k + 8..];
    IdCharsNoEndings(id);
    forall j | k <= j < |s| ensures s[j] != '/' && !IsLineTerminator(s[j]) {
      if j >= k + 8 { assert s[j] == id[j - k - 8]; } else { assert s[j] == s[k..k + 8][j - k]; }
    }
    assert s[k] == s[k..k + 8][0];
    assert FirstSlash(s, k).None?;
    assert !StartsWith(s[k..], "v/") && !StartsWith(s[k..], "embed/") && !StartsWith(s[k..], "e/") by {
      assert s[k..][0] == s[k];
    }
    assert LineEnd(s, k) == |s|;
    assert s[k + 5] == s[k..k + 8][5] && s[k + 6] == s[k..k + 8][6] && s[k + 7] == s[k..k + 8][7];
    assert s[k + 8..k + 19] == id;
    assert Candidate(s, k + 5, QueryEnding) == Some(id);
    forall j | k + 5 < j < |s| ensures Candidate(s, j, QueryEnding).None? {
      if j >= k + 8 { assert s[j] == id[j - k - 8]; } else { assert s[j] == s[k..k + 8][j - k]; }
    }
    GreedyPicksLast(s, k, k + 5, |s|, QueryEnding);
  }

  /** `https://www.youtube.com/watch?v=<id>`, after any prefix without a 'y'. */
  lemma WatchForm(p: string, id: string)
    requires PlainPrefix(p) && IsVideoId(id)
    ensures ExtractVideoId(p + "youtube.com/watch?v=" + id) == Some(id)
  {
    var t := "youtube.com/watch?v=" + id;
    var s := p + t;
    assert s == p + "youtube.com/watch?v=" + id;
    var i := |p|;
    assert s[i..] == t;
    assert s[i..i + 12] == t[..12] == "youtube.com/";
    assert s[i + 12..i + 20] == t[12..20] == "watch?v=";
    assert s[i + 20..] == t[20..] == id;
    WatchAt(s, i + 12);
    LongHostAt(s, i);
    PrefixHasNoY(p, t);
    SkipTo(s, 0, i);
  }

  /** The paths `v/<id>`, `embed/<id>` and `e/<id>` after "youtube.com/". */
  lemma PathAt(s: string, k: nat, path: string)
    requires path == "v/" || path == "embed/" || path == "e/"
    requires k + |path| + 11 == |s| && s[k..k + |path|] == path && IsVideoId(s[k + |path|..])
    ensures NestedPath(s, k).None?
    ensures ShortPath(s, k) == Some(s[k + |path|..])
  {
    var id := s[k + |path|..];
    var n := |path|;
    IdCharsNoEndings(id);
    forall j | k <= j < k + n - 1 ensures s[j] != '/' {
      assert s[j] == s[k..k + n][j - k];
    }
    assert s[k + n - 1] == s[k..k + n][n - 1];
    forall j | k + n <= j < |s| ensures s[j] != '/' {
      assert s[j] == id[j - k - n];
    }
    assert FirstSlash(s, k) == Some(k + n - 1);
    assert s[k..][..n] == path;
    assert s[k + n..k + n + 11] == id;
    if path == "e/" {
      assert s[k..][0] == 'e' && s[k..][1] == '/';
      StartsWithDiffers(s[k..], "v/", 0);
      StartsWithDiffers(s[k..], "embed/", 1);
    } else if path == "embed/" {
      assert s[k..][0] == 'e';
      StartsWithDiffers(s[k..], "v/", 0);
    }
  }

  /** `https://www.youtube.com/v/<id>`, `/embed/<id>` and `/e/<id>`, after any prefix without a 'y'. */
  lemma PathForms(p: string, id: string, path: string)
    requires PlainPrefix(p) && IsVideoId(id)
    requires path == "v/" || path == "embed/" || path == "e/"
    ensures ExtractVideoId(p + "youtube.com/" + path + id) == Some(id)
  {
    var t := "youtube.com/" + path + id;
    var s := p + t;
    assert s == p + "youtube.com/" + path + id;
    var i := |p|;
    assert s[i..i + 12] == t[..12] == "youtube.com/";
    assert s[i + 12..i + 12 + |path|] == t[12..12 + |path|] == path;
    assert s[i + 12 + |path|..] == id;
    PathAt(s, i + 12, path);
    LongHostAt(s, i);
    PrefixHasNoY(p, t);
    SkipTo(s, 0, i);
  }
}
