/**
 * The regular expression `(?:.+/)*([^/:@]+)(?:[:@]?.*)?` that splits an image reference
 * (pkg/components/components.go, imageSplitRe), and what `FindStringSubmatch` returns for it.
 *
 * Go's regexp package reports the leftmost match and, among the matches that begin there,
 * the one a backtracking matcher would find first ("leftmost-first"). The functions below
 * are that backtracking search written out for this one pattern. In Go's default flags
 * `.` refuses a newline while the negated class `[^/:@]` accepts one, and both are
 * honoured here. Strings are sequences of runes.
 *
 * The ghost predicates after the matcher say declaratively which match that is, and the
 * lemmas prove that the matcher finds exactly it.
 */
module ImageSplit {
  import opened Wrappers

  /** The characters the class `[^/:@]` refuses. */
  predicate IsSeparator(c: char) {
    c == '/' || c == ':' || c == '@'
  }

  /** The first newline at or after q, or |s|: `.` can cover s[q..LineEnd(s, q)] and no further. */
  function LineEnd(s: string, q: nat): (e: nat)
    requires q <= |s|
    ensures q <= e <= |s|
    ensures e < |s| ==> s[e] == '\n'
    ensures forall k :: q <= k < e ==> s[k] != '\n'
    decreases |s| - q
  {
    if q == |s| || s[q] == '\n' then q else LineEnd(s, q + 1)
  }

  /** Where the greedy `[^/:@]+` starting at p stops: the first separator at or after p, or |s|. */
  function RunEnd(s: string, p: nat): (e: nat)
    requires p <= |s|
    ensures p <= e <= |s|
    ensures e < |s| ==> IsSeparator(s[e])
    ensures forall k :: p <= k < e ==> !IsSeparator(s[k])
    decreases |s| - p
  {
    if p == |s| || IsSeparator(s[p]) then p else RunEnd(s, p + 1)
  }

  /**
   * `([^/:@]+)(?:[:@]?.*)?` tried at p. The optional tail accepts the empty string, so the
   * attempt succeeds exactly when the group's first character is there, and then group 1
   * begins at p.
   */
  function Group(s: string, p: nat): (r: Option<nat>)
    requires p <= |s|
    ensures r.Some? <==> p < |s| && !IsSeparator(s[p])
    ensures r.Some? ==> r.value == p
  {
    if p < |s| && !IsSeparator(s[p]) then Some(p) else None
  }

  /**
   * The whole pattern tried at q, backtracking in Go's order: the greedy `(?:.+/)*` first
   * tries one more iteration, and gives up iterating only when every iteration fails.
   * The result is where group 1 begins.
   */
  function Star(s: string, q: nat): (r: Option<nat>)
    requires q <= |s|
    ensures r.Some? ==> q <= r.value < |s| && !IsSeparator(s[r.value])
    decreases |s| - q, 1, 0
  {
    Iterate(s, q, LineEnd(s, q))
  }

  /**
   * One more iteration `.+/` from q whose `.+` covers s[q..k], for the lengths k, k-1, ...
   * in turn (greedy: longest first), and once no length is left, the group at q.
   */
  function Iterate(s: string, q: nat, k: nat): (r: Option<nat>)
    requires q <= |s| && q <= k <= LineEnd(s, q)
    ensures r.Some? ==> q <= r.value < |s| && !IsSeparator(s[r.value])
    decreases |s| - q, 0, k
  {
    if k == q then Group(s, q)
    else if k < |s| && s[k] == '/' then
      match Star(s, k + 1)
      case Some(p) => Some(p)
      case None => Iterate(s, q, k - 1)
    else Iterate(s, q, k - 1)
  }

  /** A match: where it begins and where its group 1 begins. */
  datatype Match = Match(start: nat, group: nat)

  /** The unanchored search: the pattern tried at from, from + 1, ..., |s| until it matches. */
  function Search(s: string, from: nat): (r: Option<Match>)
    requires from <= |s|
    ensures r.Some? ==> from <= r.value.start <= r.value.group < |s|
    ensures r.Some? ==> !IsSeparator(s[r.value.group])
    decreases |s| - from
  {
    match Star(s, from)
    case Some(p) => Some(Match(from, p))
    case None => if from == |s| then None else Search(s, from + 1)
  }

  /** True when t holds none of the characters `[^/:@]` refuses. */
  predicate NoSeparator(t: string) {
    forall k :: 0 <= k < |t| ==> !IsSeparator(t[k])
  }

  /** True when every character of s is one that `[^/:@]` refuses (the empty string too). */
  predicate AllSeparators(s: string) {
    forall i :: 0 <= i < |s| ==> IsSeparator(s[i])
  }

  /** True when t occurs in s at index i. */
  predicate OccursAt(t: string, s: string, i: nat) {
    i + |t| <= |s| && s[i..i + |t|] == t
  }

  /** True when t occurs in s as a contiguous piece. */
  ghost predicate IsSubstring(t: string, s: string) {
    exists i :: OccursAt(t, s, i)
  }

  /** Group 1 of `imageSplitRe.FindStringSubmatch(s)`, or None when the pattern does not match. */
  function FindSubmatch(s: string): (r: Option<string>)
    ensures r.Some? ==> |r.value| > 0 && NoSeparator(r.value) && IsSubstring(r.value, s)
  {
    match Search(s, 0)
    case None => None
    case Some(m) =>
      var e := RunEnd(s, m.group);
      assert OccursAt(s[m.group..e], s, m.group);
      Some(s[m.group..e])
  }

  // ---------------------------------------------------------------------------------------
  // Which match that is, stated without the backtracking.

  /**
   * After `(?:.+/)*` has run from q, group 1 may begin at p: either there was no iteration,
   * or the iterations together consumed s[q..p), at least two characters ending in '/', and,
   * since `.` refuses a newline, none of them a newline.
   */
  ghost predicate Reachable(s: string, q: nat, p: nat) {
    q <= p <= |s| &&
    (p == q || (q + 1 < p && s[p - 1] == '/' && forall k :: q <= k < p - 1 ==> s[k] != '\n'))
  }

  /** A parse of the pattern beginning at q whose group 1 begins at p. */
  ghost predicate Candidate(s: string, q: nat, p: nat) {
    Reachable(s, q, p) && p < |s| && !IsSeparator(s[p])
  }

  /** The pattern matches at q. */
  ghost predicate MatchesAt(s: string, q: nat) {
    exists p :: Candidate(s, q, p)
  }

  /**
   * m is the leftmost-first match: no match begins earlier, and among the parses beginning
   * at m.start the backtracking order prefers the one whose iterations reach furthest.
   */
  ghost predicate LeftmostFirst(s: string, m: Match) {
    && Candidate(s, m.start, m.group)
    && (forall q: nat :: q < m.start ==> !MatchesAt(s, q))
    && (forall p: nat :: Candidate(s, m.start, p) ==> p <= m.group)
  }

  /** The iterations from k + 1 extend the one from q that ends at the '/' in s[k]. */
  lemma ReachableThrough(s: string, q: nat, k: nat, p: nat)
    requires q < k < |s| && k <= LineEnd(s, q) && s[k] == '/'
    requires Reachable(s, k + 1, p)
    ensures Reachable(s, q, p)
  {
    if p > k + 1 {
      forall j | q <= j < p - 1 ensures s[j] != '\n' {
        if j > k { assert k + 1 <= j < p - 1; }
      }
    }
  }

  lemma {:induction false} StarIsLastCandidate(s: string, q: nat)
    requires q <= |s|
    ensures Star(s, q).Some? ==> Candidate(s, q, Star(s, q).value)
    ensures Star(s, q).Some? ==> forall p: nat :: Candidate(s, q, p) ==> p <= Star(s, q).value
    ensures Star(s, q).None? ==> forall p: nat :: !Candidate(s, q, p)
    decreases |s| - q, 1, 0
  {
    var e := LineEnd(s, q);
    assert forall p: nat :: Candidate(s, q, p) && q < p ==> p - 1 <= e;
    IterateIsLastCandidate(s, q, e);
  }

  lemma {:induction false} IterateIsLastCandidate(s: string, q: nat, k: nat)
    requires q <= |s| && q <= k <= LineEnd(s, q)
    requires forall p: nat :: Candidate(s, q, p) && q < p ==> p - 1 <= k
    ensures Iterate(s, q, k).Some? ==> Candidate(s, q, Iterate(s, q, k).value)
    ensures Iterate(s, q, k).Some? ==> forall p: nat :: Candidate(s, q, p) ==> p <= Iterate(s, q, k).value
    ensures Iterate(s, q, k).None? ==> forall p: nat :: !Candidate(s, q, p)
    decreases |s| - q, 0, k
  {
    if k == q {
    } else if k < |s| && s[k] == '/' {
      StarIsLastCandidate(s, k + 1);
      match Star(s, k + 1)
      case Some(p) =>
        ReachableThrough(s, q, k, p);
      case None =>
        assert !Candidate(s, k + 1, k + 1);
        IterateIsLastCandidate(s, q, k - 1);
    } else {
      IterateIsLastCandidate(s, q, k - 1);
    }
  }

  lemma {:induction false} SearchIsLeftmostFrom(s: string, from: nat)
    requires from <= |s|
    requires forall q: nat :: q < from ==> !MatchesAt(s, q)
    ensures Search(s, from).Some? ==> LeftmostFirst(s, Search(s, from).value)
    ensures Search(s, from).None? ==> forall q: nat :: !MatchesAt(s, q)
    decreases |s| - from
  {
    StarIsLastCandidate(s, from);
    if Star(s, from).None? {
      assert !MatchesAt(s, from);
      if from < |s| {
        SearchIsLeftmostFrom(s, from + 1);
      } else {
        forall q: nat ensures !MatchesAt(s, q) {
          if q > from {
            assert forall p: nat :: !Candidate(s, q, p);
          }
        }
      }
    }
  }

  /** The search finds the leftmost-first match, and finds none exactly when none exists. */
  lemma SearchIsLeftmostFirst(s: string)
    ensures Search(s, 0).Some? ==> LeftmostFirst(s, Search(s, 0).value)
    ensures Search(s, 0).None? <==> forall q: nat :: !MatchesAt(s, q)
  {
    SearchIsLeftmostFrom(s, 0);
    if Search(s, 0).Some? {
      assert MatchesAt(s, Search(s, 0).value.start);
    }
  }

  /** The pattern fails only on strings made of '/', ':' and '@' alone, the empty one among them. */
  lemma NoMatchIffAllSeparators(s: string)
    ensures FindSubmatch(s).None? <==> AllSeparators(s)
  {
    SearchIsLeftmostFirst(s);
    if exists i :: 0 <= i < |s| && !IsSeparator(s[i]) {
      var i :| 0 <= i < |s| && !IsSeparator(s[i]);
      assert Candidate(s, i, i);
      assert MatchesAt(s, i);
    } else {
      assert forall q: nat :: !MatchesAt(s, q);
    }
  }

  /** RunEnd is the first separator at or after p, so any such position pins it down. */
  lemma RunEndAt(s: string, p: nat, e: nat)
    requires p <= e <= |s|
    requires forall k :: p <= k < e ==> !IsSeparator(s[k])
    requires e < |s| ==> IsSeparator(s[e])
    ensures RunEnd(s, p) == e
  {
  }

  /**
   * A reference `path + name + suffix`, where the path is empty or a registry and
   * repository path ending in '/', the suffix a tag or digest (empty, or beginning with
   * ':' or '@'): group 1 is the bare name. A path that is a lone "/" admits no match at
   * index 0, and the match begins right after it.
   */
  lemma {:induction false} QualifiedName(path: string, name: string, suffix: string)
    requires path == [] || (path[|path| - 1] == '/' && '\n' !in path)
    requires |name| > 0 && NoSeparator(name)
    requires suffix == [] || suffix[0] == ':' || suffix[0] == '@'
    requires '/' !in suffix
    ensures FindSubmatch(path + name + suffix) == Some(name)
  {
    var s := path + name + suffix;
    var g := |path|;
    forall j | g <= j < |s| ensures s[j] != '/' {
      if j < g + |name| {
        assert s[j] == name[j - g];
      } else {
        assert s[j] == suffix[j - g - |name|];
      }
    }
    var q := if path == "/" then 1 else 0;
    assert Candidate(s, q, g);
    StarIsLastCandidate(s, q);
    assert Star(s, q) == Some(g);
    if q == 1 {
      StarIsLastCandidate(s, 0);
      assert forall p: nat :: !Candidate(s, 0, p);
      assert Search(s, 0) == Search(s, 1);
    }
    assert Search(s, 0) == Some(Match(q, g));
    RunEndAt(s, g, g + |name|);
    assert s[g..g + |name|] == name;
  }
}
