/**
 * The three regular expressions `extractFieldReferences` runs over FEEL
 * text, implemented by hand, and `String.prototype.matchAll` over them:
 *
 *   person.PATH                     `/person\.(PATH)/g`
 *   situation.people[ ... ].PATH    `/situation\.people\[.*?\]\.(PATH)/g`
 *   situation.PATH                  `/situation\.(PATH)/g`
 *
 * where PATH is `\w+(?:\[\])?(?:\.\w+)*` and `\w` is `[A-Za-z0-9_]`.
 */
module FeelScan {
  import opened Wrappers
  import opened Text

  datatype Pattern = PersonField | PeopleField | SituationField

  /** The end of the run of word characters starting at `i`. */
  function WordEnd(s: string, i: nat): (e: nat)
    requires i <= |s|
    ensures i <= e <= |s|
    ensures forall k :: i <= k < e ==> IsWordChar(s[k])
    ensures e == |s| || !IsWordChar(s[e])
    decreases |s| - i
  {
    if i < |s| && IsWordChar(s[i]) then WordEnd(s, i + 1) else i
  }

  /** A `.` followed by a word character starts at `k`: `(?:\.\w+)` can go on there. */
  predicate DotWordAt(s: string, k: nat) {
    k + 1 < |s| && s[k] == '.' && IsWordChar(s[k + 1])
  }

  /** `(?:\.\w+)*` matched greedily from `i`: the end of the match. */
  function DotsEnd(s: string, i: nat): (e: nat)
    requires i <= |s|
    ensures i <= e <= |s|
    ensures forall k :: i <= k < e ==> s[k] == '.' || IsWordChar(s[k])
    ensures i < e ==> DotWordAt(s, i)
    ensures e < |s| ==> !DotWordAt(s, e) && !(i < e && IsWordChar(s[e]))
    decreases |s| - i
  {
    if DotWordAt(s, i) then DotsEnd(s, WordEnd(s, i + 1)) else i
  }

  /**
   * PATH matched greedily from `i`.  Nothing follows PATH in any of the
   * patterns, so the greedy choice is the match.
   */
  function PathEnd(s: string, i: nat): (e: nat)
    requires i < |s| && IsWordChar(s[i])
    ensures WordEnd(s, i) <= e <= |s|
    ensures e < |s| ==> !DotWordAt(s, e)
  {
    var w := WordEnd(s, i);
    var b := if w + 1 < |s| && s[w] == '[' && s[w + 1] == ']' then w + 2 else w;
    DotsEnd(s, b)
  }

  /** A `]` followed by `.` and a word character is at `k`: `\]\.(PATH)` can match there. */
  predicate CloseAt(s: string, k: nat) {
    k + 2 < |s| && s[k] == ']' && s[k + 1] == '.' && IsWordChar(s[k + 2])
  }

  /** `.` cannot go past `e`: the end of the text, or a line terminator. */
  predicate StopsAt(s: string, e: nat) {
    e == |s| || (e < |s| && IsLineTerminator(s[e]))
  }

  /**
   * The lazy `.*?\]\.` of the people pattern from `j`: the first `]`
   * followed by `.` and a word character, reached without crossing a line
   * terminator (which `.` does not match).  Returns the index of that `]`.
   */
  function LazyClose(s: string, j: nat): (r: Option<nat>)
    requires j <= |s|
    ensures r.Some? ==> j <= r.value && CloseAt(s, r.value)
    ensures r.Some? ==> forall k :: j <= k < r.value ==> !IsLineTerminator(s[k]) && !CloseAt(s, k)
    ensures r.None? <==> exists e :: j <= e <= |s| && StopsAt(s, e) && forall k :: j <= k < e ==> !CloseAt(s, k)
    decreases |s| - j
  {
    if CloseAt(s, j) then Some(j)
    else if j < |s| && !IsLineTerminator(s[j]) then LazyClose(s, j + 1)
    else assert StopsAt(s, j); None
  }

  /** A match of a pattern: where its captured PATH starts and where the match ends. */
  datatype Match = Match(start: nat, end: nat)

  function Prefix(p: Pattern): string {
    match p
    case PersonField => "person."
    case PeopleField => "situation.people["
    case SituationField => "situation."
  }

  /** The match of `p` that starts exactly at `i`, if there is one. */
  function MatchAt(p: Pattern, s: string, i: nat): (m: Option<Match>)
    requires i <= |s|
    ensures m.Some? ==> i < m.value.start < m.value.end <= |s|
    ensures m.Some? ==> StartsWith(s[i..], Prefix(p))
    ensures m.Some? ==> IsWordChar(s[m.value.start]) && m.value.end == PathEnd(s, m.value.start)
    ensures p.PeopleField? ==>
              (m.Some? <==> StartsWith(s[i..], Prefix(p)) && LazyClose(s, i + |Prefix(p)|).Some?)
              && (m.Some? ==> m.value.start == LazyClose(s, i + |Prefix(p)|).value + 2)
    ensures !p.PeopleField? ==>
              (m.Some? <==> StartsWith(s[i..], Prefix(p)) && i + |Prefix(p)| < |s| && IsWordChar(s[i + |Prefix(p)|]))
              && (m.Some? ==> m.value.start == i + |Prefix(p)|)
  {
    var pre := Prefix(p);
    if !StartsWith(s[i..], pre) then None
    else
      var j := i + |pre|;
      if p.PeopleField? then
        match LazyClose(s, j)
        case None => None
        case Some(k) => Some(Match(k + 2, PathEnd(s, k + 2)))
      else if j < |s| && IsWordChar(s[j]) then Some(Match(j, PathEnd(s, j)))
      else None
  }

  /**
   * `s.matchAll(p)` from position `pos`, as the captured PATHs: the
   * leftmost match, then the search resumes where it ended.
   */
  function Captures(p: Pattern, s: string, pos: nat): (cs: seq<string>)
    requires pos <= |s|
    decreases |s| - pos
  {
    if pos == |s| then []
    else match MatchAt(p, s, pos)
      case Some(m) => [s[m.start..m.end]] + Captures(p, s, m.end)
      case None => Captures(p, s, pos + 1)
  }

  /** All captures of `p` in `s`. */
  function Scan(p: Pattern, s: string): seq<string> {
    Captures(p, s, 0)
  }

  /** `path.split(/[\.\[]/)[0]`: the path up to its first `.` or `[`. */
  function FirstSegment(path: string): (r: string)
    ensures r <= path
    ensures '.' !in r && '[' !in r
    ensures |r| < |path| ==> path[|r|] == '.' || path[|r|] == '['
  {
    if path == [] || path[0] == '.' || path[0] == '[' then []
    else [path[0]] + FirstSegment(path[1..])
  }
}
