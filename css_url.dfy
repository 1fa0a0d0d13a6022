/**
 * `extractUrl`: the URL inside a CSS `background-image` value such as
 * `url("https://host/carbon.jpg")`, found with the regular expression
 * `/url\("(.*?)"\)/` and returned when the captured text is non-empty.
 *
 * The regular expression is modelled by what a backtracking engine reports:
 * the match that starts leftmost, and for that start the shortest capture
 * (the `.*?` is lazy). The `.` of a JavaScript pattern without the `s` flag
 * matches any character except the four line terminators.
 */
module CssUrl {
  import opened Options

  /** The literal text in front of the capture group. */
  const Open: string := "url(\""
  /** The literal text behind the capture group. */
  const Close: string := "\")"

  /** The characters `.` does not match. */
  predicate IsLineTerminator(c: char) {
    c == '\n' || c == '\r' || c == '\U{2028}' || c == '\U{2029}'
  }

  predicate OpensAt(s: string, i: nat) {
    i + |Open| <= |s| && s[i..i + |Open|] == Open
  }

  predicate ClosesAt(s: string, j: nat) {
    j + |Close| <= |s| && s[j..j + |Close|] == Close
  }

  /** Every character of s[lo..hi] can be consumed by `.`. */
  predicate NoTerminatorIn(s: string, lo: nat, hi: nat)
    requires lo <= hi <= |s|
  {
    forall k :: lo <= k < hi ==> !IsLineTerminator(s[k])
  }

  /** The pattern matches s[i..j + |Close|], capturing s[i + |Open|..j]. */
  ghost predicate MatchesAt(s: string, i: nat, j: nat) {
    OpensAt(s, i) && i + |Open| <= j && ClosesAt(s, j) && NoTerminatorIn(s, i + |Open|, j)
  }

  /** The match `String.prototype.match` reports: leftmost start, then the lazy (shortest) capture. */
  ghost predicate FirstMatch(s: string, i: nat, j: nat) {
    MatchesAt(s, i, j)
    && (forall i': nat, j': nat :: i' < i ==> !MatchesAt(s, i', j'))
    && (forall j': nat :: i + |Open| <= j' < j ==> !ClosesAt(s, j'))
  }

  /**
   * The lazy `.*?` followed by `")`, tried from position j: the first j' >= j
   * at which `")` follows, giving up at the first line terminator.
   */
  function CloseFrom(s: string, j: nat): (r: Option<nat>)
    decreases |s| - j
    ensures r.Some? ==> j <= r.value && ClosesAt(s, r.value) && NoTerminatorIn(s, j, r.value)
    ensures r.Some? ==> forall m: nat :: j <= m < r.value ==> !ClosesAt(s, m)
    ensures r.None? ==> forall m: nat :: j <= m && ClosesAt(s, m) ==> !NoTerminatorIn(s, j, m)
  {
    if j + |Close| > |s| then None
    else if ClosesAt(s, j) then Some(j)
    else if IsLineTerminator(s[j]) then None
    else CloseFrom(s, j + 1)
  }

  /** The backtracking search over start positions i, i + 1, ...: the first one where the whole pattern matches. */
  function MatchFrom(s: string, i: nat): (r: Option<(nat, nat)>)
    decreases |s| - i
    ensures r.Some? ==> i <= r.value.0 && MatchesAt(s, r.value.0, r.value.1)
    ensures r.Some? ==> forall i': nat, j': nat :: i <= i' < r.value.0 ==> !MatchesAt(s, i', j')
    ensures r.Some? ==> forall j': nat :: r.value.0 + |Open| <= j' < r.value.1 ==> !ClosesAt(s, j')
    ensures r.None? ==> forall i': nat, j': nat :: i <= i' ==> !MatchesAt(s, i', j')
  {
    if i + |Open| > |s| then None
    else if OpensAt(s, i) && CloseFrom(s, i + |Open|).Some? then Some((i, CloseFrom(s, i + |Open|).value))
    else MatchFrom(s, i + 1)
  }

  /**
   * `extractUrl(str)`: the captured text of the first match, or None when
   * there is no match or when the capture is the empty string (which is falsy).
   */
  function ExtractUrl(s: string): (r: Option<string>)
    ensures r.Some? ==> r.value != ""
    ensures r.Some? ==> forall k :: 0 <= k < |r.value| ==> !IsLineTerminator(r.value[k])
  {
    match MatchFrom(s, 0)
    case None => None
    case Some((i, j)) => if i + |Open| < j then Some(s[i + |Open|..j]) else None
  }

  /** At most one match is the one the engine reports. */
  lemma FirstMatchUnique(s: string, i: nat, j: nat, i2: nat, j2: nat)
    requires FirstMatch(s, i, j) && FirstMatch(s, i2, j2)
    ensures i == i2 && j == j2
  {
  }

  /** The search finds exactly the first match. */
  lemma MatchFromIsFirstMatch(s: string)
    ensures MatchFrom(s, 0).Some? ==> FirstMatch(s, MatchFrom(s, 0).value.0, MatchFrom(s, 0).value.1)
    ensures MatchFrom(s, 0).None? ==> forall i: nat, j: nat :: !MatchesAt(s, i, j)
  {
  }

  /**
   * When the pattern matches, extractUrl returns the capture of the first
   * match, or None exactly when that capture is empty.
   */
  lemma ExtractUrlOfMatch(s: string, i: nat, j: nat)
    requires FirstMatch(s, i, j)
    ensures ExtractUrl(s) == if i + |Open| < j then Some(s[i + |Open|..j]) else None
  {
    MatchFromIsFirstMatch(s);
    var (i2, j2) := MatchFrom(s, 0).value;
    FirstMatchUnique(s, i, j, i2, j2);
  }

  /** When the pattern does not match anywhere, extractUrl returns None. */
  lemma ExtractUrlWithoutMatch(s: string)
    requires forall i: nat, j: nat :: !MatchesAt(s, i, j)
    ensures ExtractUrl(s) == None
  {
  }

  /** Whatever extractUrl returns is the non-empty capture of the first match. */
  lemma ExtractUrlFound(s: string)
    requires ExtractUrl(s).Some?
    ensures exists i: nat, j: nat :: FirstMatch(s, i, j) && i + |Open| < j && ExtractUrl(s).value == s[i + |Open|..j]
  {
    MatchFromIsFirstMatch(s);
    var (i, j) := MatchFrom(s, 0).value;
    assert FirstMatch(s, i, j);
  }

  /** A value a browser reports for `background-image` yields the URL inside it. */
  lemma ExtractUrlOfComputedStyle()
    ensures ExtractUrl("url(\"carbon.jpg\")") == Some("carbon.jpg")
  {
    var s := "url(\"carbon.jpg\")";
    assert OpensAt(s, 0) && ClosesAt(s, 15);
    assert NoTerminatorIn(s, |Open|, 15);
    forall j': nat | |Open| <= j' < 15 ensures !ClosesAt(s, j') {
      assert s[j'] != '"';
    }
    ExtractUrlOfMatch(s, 0, 15);
    assert s[|Open|..15] == "carbon.jpg";
  }

  /** An empty `url("")` is falsy and yields no URL. */
  lemma ExtractUrlOfEmptyUrl()
    ensures ExtractUrl("url(\"\")") == None
  {
    var s := "url(\"\")";
    assert OpensAt(s, 0) && ClosesAt(s, |Open|);
    ExtractUrlOfMatch(s, 0, |Open|);
  }
}
