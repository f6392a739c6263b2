/** The regular expression `/https?:\/\/[^\s]+\.(jpg|jpeg|png|webp)/i` that
    src/lib/api.ts uses to find an image URL inside chat text, and the
    match `String.prototype.match` returns for it: the leftmost match, and
    of the matches starting there the longest. Greedy backtracking over
    `[^\s]+` yields exactly that one here: the four extensions never match
    at the same end, so a later dot always gives a later end. */
module ImageUrlPattern {
  import opened Options
  import opened JsStrings

  predicate NoWhitespace(t: string) {
    forall k :: 0 <= k < |t| ==> !IsJsWhitespace(t[k])
  }

  /** `https?://` occupies p[i..j], its letters in either case. */
  predicate SchemeAt(p: string, i: nat, j: nat) {
    j <= |p| &&
    ((j == i + 7 && EqualsIgnoreCase(p[i..j], "http://")) ||
     (j == i + 8 && EqualsIgnoreCase(p[i..j], "https://")))
  }

  /** `[^\s]+\.x` occupies p[j..e]: at least one non-whitespace character,
      a dot, then the extension x in either case. */
  predicate ExtensionTailAt(p: string, j: nat, e: nat, x: string) {
    j + |x| + 2 <= e <= |p|
    && NoWhitespace(p[j..e - |x| - 1])
    && p[e - |x| - 1] == '.'
    && EqualsIgnoreCase(p[e - |x|..e], x)
  }

  /** `[^\s]+\.(jpg|jpeg|png|webp)` occupies p[j..e]. */
  predicate TailAt(p: string, j: nat, e: nat) {
    || ExtensionTailAt(p, j, e, "jpg")
    || ExtensionTailAt(p, j, e, "jpeg")
    || ExtensionTailAt(p, j, e, "png")
    || ExtensionTailAt(p, j, e, "webp")
  }

  /** The whole pattern matches p[i..e]. */
  predicate MatchAt(p: string, i: nat, e: nat) {
    || (SchemeAt(p, i, i + 7) && TailAt(p, i + 7, e))
    || (SchemeAt(p, i, i + 8) && TailAt(p, i + 8, e))
  }

  /** p[i..e] is the match `match` reports: no match starts earlier and
      none starting at i ends later. */
  ghost predicate IsLeftmostLongest(p: string, i: nat, e: nat) {
    && MatchAt(p, i, e)
    && (forall i': nat, e': nat :: i' < i ==> !MatchAt(p, i', e'))
    && (forall e': nat :: e < e' ==> !MatchAt(p, i, e'))
  }

  /** The largest end e' <= e of a tail starting at j. */
  function LastTailEnd(p: string, j: nat, e: nat): (r: Option<nat>)
    requires e <= |p|
    ensures r.Some? ==> r.value <= e && TailAt(p, j, r.value)
    ensures r.Some? ==> forall e': nat :: r.value < e' <= e ==> !TailAt(p, j, e')
    ensures r.None? ==> forall e': nat :: e' <= e ==> !TailAt(p, j, e')
    decreases e
  {
    if TailAt(p, j, e) then Some(e)
    else if e <= j then None
    else LastTailEnd(p, j, e - 1)
  }

  /** "http://" and "https://" cannot both start at i. */
  lemma SchemesExclusive(p: string, i: nat)
    ensures !(SchemeAt(p, i, i + 7) && SchemeAt(p, i, i + 8))
  {
    if SchemeAt(p, i, i + 7) {
      assert AsciiUpper(p[i..i + 7][4]) == AsciiUpper("http://"[4]) == ':';
      assert p[i + 4] == ':';
      if i + 8 <= |p| {
        assert p[i..i + 8][4] == ':';
        assert AsciiUpper(p[i..i + 8][4]) != AsciiUpper("https://"[4]);
      }
    }
  }

  /** The end of the longest match that starts at i. */
  function LongestMatchAt(p: string, i: nat): (r: Option<nat>)
    ensures r.Some? ==> MatchAt(p, i, r.value) && forall e': nat :: r.value < e' ==> !MatchAt(p, i, e')
    ensures r.None? ==> forall e': nat :: !MatchAt(p, i, e')
  {
    SchemesExclusive(p, i);
    if SchemeAt(p, i, i + 7) then LastTailEnd(p, i + 7, |p|)
    else if SchemeAt(p, i, i + 8) then LastTailEnd(p, i + 8, |p|)
    else None
  }

  /** The leftmost-longest match starting at or after i. */
  function FirstMatchFrom(p: string, i: nat): (r: Option<(nat, nat)>)
    requires forall i': nat, e': nat :: i' < i ==> !MatchAt(p, i', e')
    ensures r.Some? ==> IsLeftmostLongest(p, r.value.0, r.value.1) && r.value.0 <= r.value.1 <= |p|
    ensures r.None? ==> forall i': nat, e': nat :: !MatchAt(p, i', e')
    decreases |p| - i
  {
    if i > |p| then None
    else match LongestMatchAt(p, i)
      case Some(e) => Some((i, e))
      case None => FirstMatchFrom(p, i + 1)
  }

  /** `text.match(pattern)?.[0]`. */
  function FirstImageUrl(text: string): (r: Option<string>)
    ensures r.None? <==> forall i: nat, e: nat :: !MatchAt(text, i, e)
    ensures r.Some? ==> exists i: nat, e: nat :: i <= e <= |text| && IsLeftmostLongest(text, i, e) && r.value == text[i..e]
    ensures r.Some? ==> r.value != ""
  {
    match FirstMatchFrom(text, 0)
    case Some((i, e)) => Some(text[i..e])
    case None => None
  }

  /** At most one match is the leftmost-longest one. */
  lemma LeftmostLongestUnique(p: string, i: nat, e: nat, i2: nat, e2: nat)
    requires IsLeftmostLongest(p, i, e) && IsLeftmostLongest(p, i2, e2)
    ensures i == i2 && e == e2
  {
  }
}
