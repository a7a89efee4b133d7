/**
 * DX-cluster client: parsing spot announcements of the form
 * `DX de SPOTTER: FREQ DXCALL comment HHMMZ`, splitting the received text
 * into lines, keeping the newest spots, and the reconnect back-off.
 *
 * The socket, the login dialogue, the reader thread and the broadcasts to
 * connected clients are not modelled; the text received and the outcome of
 * each connection attempt are parameters.
 */
module DxCluster {
  import opened Wrappers
  import opened Text
  import opened Numbers

  /** A parsed spot. `frequency` is in Hz; `timestamp` is the local receive time. */
  datatype Spot = Spot(spotter: string, frequency: int, dxCall: string, comment: string, time: string, timestamp: real)

  const MAX_SPOTS: nat := 100
  const INITIAL_DELAY: int := 5
  const MAX_DELAY: int := 300

  // ---------------------------------------------------------------------------
  // The spot pattern, piece by piece
  //
  //   ^DX de ([A-Z0-9/-]+):\s+(\d+\.?\d*)\s+([A-Z0-9/]+)\s*(.*?)\s*(\d{4})Z
  //
  // matched at the start of the stripped line (nothing is required after the Z).

  predicate IsUpperOrDigit(c: char) {
    'A' <= c <= 'Z' || IsDigit(c)
  }

  /** Characters of the spotter group `[A-Z0-9/-]`. */
  predicate IsSpotterChar(c: char) {
    IsUpperOrDigit(c) || c == '/' || c == '-'
  }

  /** Characters of the DX call group `[A-Z0-9/]`. */
  predicate IsCallChar(c: char) {
    IsUpperOrDigit(c) || c == '/'
  }

  predicate AllOf(s: string, lo: nat, hi: nat, p: char -> bool)
    requires lo <= hi <= |s|
  {
    forall i :: lo <= i < hi ==> p(s[i])
  }

  /** End of the longest run of characters satisfying `p` that starts at `i`. */
  function Span(s: string, i: nat, p: char -> bool): (j: nat)
    requires i <= |s|
    ensures i <= j <= |s|
    ensures AllOf(s, i, j, p)
    ensures j < |s| ==> !p(s[j])
    decreases |s| - i
  {
    if i == |s| || !p(s[i]) then i else Span(s, i + 1, p)
  }

  /** A run ending at a character outside the class is the longest run. */
  lemma SpanUnique(s: string, i: nat, j: nat, p: char -> bool)
    requires i <= j <= |s| && AllOf(s, i, j, p) && (j < |s| ==> !p(s[j]))
    ensures Span(s, i, p) == j
    decreases j - i
  {
    if i < j {
      SpanUnique(s, i + 1, j, p);
    }
  }

  /** `(\d{4})Z` matches at position `k`. */
  predicate TimeAt(s: string, k: nat) {
    k + 5 <= |s| && AllOf(s, k, k + 4, IsDigit) && s[k + 4] == 'Z'
  }

  /** The first position at or after `p` where `(\d{4})Z` matches. */
  function FirstTimeAt(s: string, p: nat): (r: Option<nat>)
    requires p <= |s|
    ensures r.Some? ==> p <= r.value && TimeAt(s, r.value)
    ensures r.Some? ==> forall k :: p <= k < r.value ==> !TimeAt(s, k)
    ensures r.None? ==> forall k :: p <= k <= |s| ==> !TimeAt(s, k)
    decreases |s| - p
  {
    if TimeAt(s, p) then Some(p)
    else if p == |s| then None
    else FirstTimeAt(s, p + 1)
  }

  /** Where the comment `[f, g)` lies and where the time starts (`k`). */
  datatype Tail = Tail(f: nat, g: nat, k: nat)

  /**
   * `\s*(.*?)\s*(\d{4})Z` from position `p`: the comment `[f, g)` and the
   * time at `k`, or `None`. The lazy comment stops at the first place the
   * time matches; the white space around it goes to the two `\s*`, and
   * `.` never matches a line feed.
   */
  function TailCut(s: string, p: nat): (r: Option<Tail>)
    requires p <= |s|
    ensures r.Some? ==> TailAccepts(s, p, r.value.f, r.value.g, r.value.k)
    ensures r.Some? ==> r.value.f < r.value.g ==> !IsSpace(s[r.value.f]) && !IsSpace(s[r.value.g - 1])
    ensures r.Some? ==> FirstTimeAt(s, p).Some? && r.value.k == FirstTimeAt(s, p).value
  {
    match FirstTimeAt(s, p)
    case None => None
    case Some(k) =>
      assert !IsSpace(s[k]);
      var f := SpacesFrom(s, p);
      var g := SpacesBack(s, f, k);
      if AllOf(s, f, g, NotLineFeed) then Some(Tail(f, g, k)) else None
  }

  /** Whether the tail of the pattern matches from `p`. */
  predicate TailMatches(s: string, p: nat) {
    p <= |s| && TailCut(s, p).Some?
  }

  /** Where the frequency group `\d+\.?\d*` starting at `i` ends (it always matches at least one digit there). */
  function FrequencyEnd(s: string, i: nat): (j: nat)
    requires i <= |s|
    ensures i <= j <= |s|
    ensures i < |s| && IsDigit(s[i]) ==> IsFrequencyText(s, i, j)
  {
    var d := Span(s, i, IsDigit);
    if d < |s| && s[d] == '.' then Span(s, d + 1, IsDigit) else d
  }

  /** A frequency text: digits, then optionally a point and more digits. */
  predicate IsFrequencyText(s: string, lo: nat, hi: nat)
    requires lo <= hi <= |s|
  {
    var d := Span(s, lo, IsDigit);
    lo < d <= hi && (d == hi || (s[d] == '.' && AllOf(s, d + 1, hi, IsDigit)))
  }

  /** Value of a decimal digit. */
  function DigitValue(c: char): nat {
    if IsDigit(c) then c as int - '0' as int else 0
  }

  /** Value of the decimal digits `f[lo..hi]`. */
  function NumberAt(f: string, lo: nat, hi: nat): (v: nat)
    requires lo <= hi <= |f|
    ensures v < Pow10(hi - lo)
    decreases hi - lo
  {
    if lo == hi then 0 else NumberAt(f, lo, hi - 1) * 10 + DigitValue(f[hi - 1])
  }

  /**
   * `int(float(f) * 1000)` for a frequency in kHz written `digits[.digits]`,
   * in exact decimal arithmetic: the whole kHz and the first three decimals,
   * padded with zeros.
   */
  function KHzToHz(f: string): nat
  {
    var d := Span(f, 0, IsDigit);
    var i := if d < |f| then d + 1 else |f|;
    var j := if i + 3 <= |f| then i + 3 else |f|;
    NumberAt(f, 0, d) * 1000 + NumberAt(f, i, j) * Pow10(3 - (j - i))
  }

  /** The positions at which the pieces of the pattern end, as Python's matcher finds them. */
  datatype Groups = Groups(spotterEnd: nat, freqStart: nat, freqEnd: nat, callStart: nat, callEnd: nat)

  /**
   * The pieces before the comment are where `g` puts them: spotter
   * `[6, spotterEnd)`, `:`, spaces, frequency `[freqStart, freqEnd)`, spaces,
   * call `[callStart, callEnd)`.
   */
  predicate HeadAccepts(s: string, g: Groups) {
    && StartsWith(s, "DX de ")
    && 6 < g.spotterEnd && g.spotterEnd + 1 < g.freqStart < g.freqEnd < g.callStart < g.callEnd <= |s|
    && AllOf(s, 6, g.spotterEnd, IsSpotterChar) && s[g.spotterEnd] == ':'
    && AllOf(s, g.spotterEnd + 1, g.freqStart, IsSpace)
    && IsFrequencyText(s, g.freqStart, g.freqEnd)
    && AllOf(s, g.freqEnd, g.callStart, IsSpace)
    && AllOf(s, g.callStart, g.callEnd, IsCallChar)
  }

  /**
   * The part of the pattern before the DX call, which never backtracks:
   * where the spotter ends, where the frequency starts and ends, and where
   * the call starts (a call character is there).
   */
  function MatchHead(s: string): (h: Option<(nat, nat, nat, nat)>)
    ensures h.Some? ==> HeadAccepts(s, Groups(h.value.0, h.value.1, h.value.2, h.value.3, h.value.3 + 1))
  {
    if !StartsWith(s, "DX de ") then None
    else
      var e1 := Span(s, 6, IsSpotterChar);
      if e1 == 6 || e1 == |s| || s[e1] != ':' then None
      else
        var e2 := Span(s, e1 + 1, IsSpace);
        if e2 == e1 + 1 || e2 == |s| || !IsDigit(s[e2]) then None
        else
          var fEnd := FrequencyEnd(s, e2);
          var e3 := Span(s, fEnd, IsSpace);
          if e3 == fEnd || e3 == |s| || !IsCallChar(s[e3]) then None
          else Some((e1, e2, fEnd, e3))
  }

  /** The largest `c` in `(lo, hi]` that satisfies `ok`. */
  function LastSatisfying(lo: nat, hi: nat, ok: nat -> bool): (c: Option<nat>)
    requires lo < hi
    ensures c.Some? ==> lo < c.value <= hi && ok(c.value)
    ensures forall c' :: lo < c' <= hi && (c.None? || c' > c.value) ==> !ok(c')
    decreases hi
  {
    if ok(hi) then Some(hi)
    else if hi == lo + 1 then None
    else LastSatisfying(lo, hi - 1, ok)
  }

  /** Runs the pattern on an already stripped line. */
  function MatchGroups(s: string): (g: Option<Groups>)
    ensures g.Some? ==> HeadAccepts(s, g.value) && TailMatches(s, g.value.callEnd)
    ensures g.Some? ==> g.value.callEnd <= Span(s, g.value.callStart, IsCallChar)

  {
    match MatchHead(s)
    case None => None
    case Some((e1, e2, fEnd, e3)) =>
      // the greedy call group backtracks to the longest call after which the rest matches
      var cMax := Span(s, e3, IsCallChar);
      match LastSatisfying(e3, cMax, (c: nat) => TailMatches(s, c))
      case None => None
      case Some(c) => Some(Groups(e1, e2, fEnd, e3, c))
  }

  /** The matcher's choice of call: no longer run of call characters is followed by a matching tail. */
  lemma CallIsLongest(s: string, c: nat)
    requires MatchGroups(s).Some?
    requires MatchGroups(s).value.callEnd < c <= Span(s, MatchGroups(s).value.callStart, IsCallChar)
    ensures !TailMatches(s, c)
  {
    var (e1, e2, fEnd, e3) := MatchHead(s).value;
    var cMax := Span(s, e3, IsCallChar);
    var ok := (c: nat) => TailMatches(s, c);
    assert MatchGroups(s).value.callEnd == LastSatisfying(e3, cMax, ok).value;
    assert !ok(c);
  }

  // ---------------------------------------------------------------------------
  // What the pattern accepts, stated without the matcher's search order

  predicate NotLineFeed(c: char) {
    c != '\n'
  }

  /** The tail `\s*(.*?)\s*(\d{4})Z` matches from `p` with the comment `[f, g)` and the time at `k`. */
  predicate TailAccepts(s: string, p: nat, f: nat, g: nat, k: nat) {
    p <= f <= g <= k && TimeAt(s, k)
    && AllOf(s, p, f, IsSpace) && AllOf(s, f, g, NotLineFeed) && AllOf(s, g, k, IsSpace)
  }

  /**
   * One way of reading `s` that the pattern accepts: the pieces before the
   * comment as in `head`, the comment `[f, g)` and the time at `k`.
   */
  datatype Cut = Cut(head: Groups, f: nat, g: nat, k: nat)

  predicate Accepts(s: string, x: Cut) {
    HeadAccepts(s, x.head) && TailAccepts(s, x.head.callEnd, x.f, x.g, x.k)
  }

  /**
   * The reading Python's matcher prefers among all accepted ones: the
   * greedy call group as long as possible, then the lazy comment as short
   * as possible, which puts the time at the first place it can go.
   */
  ghost predicate Preferred(s: string, x: Cut) {
    && Accepts(s, x)
    && forall y :: Accepts(s, y) ==>
      y.head.callEnd <= x.head.callEnd && (y.head.callEnd == x.head.callEnd ==> x.k <= y.k)
  }

  /** The comment of the reading starts and ends with a non-space: the `\\s*` on either side took all the white space. */
  predicate Trimmed(s: string, x: Cut)
    requires Accepts(s, x)
  {
    x.f < x.g ==> !IsSpace(s[x.f]) && !IsSpace(s[x.g - 1])
  }

  /** The spot a reading of `s` announces. */
  function SpotOf(s: string, x: Cut, timestamp: real): Spot
    requires Accepts(s, x)
  {
    var h := x.head;
    Spot(s[6..h.spotterEnd], KHzToHz(s[h.freqStart..h.freqEnd]), s[h.callStart..h.callEnd],
         s[x.f..x.g], s[x.k..x.k + 4], timestamp)
  }

  /** The tail matcher finds a match whenever there is one, with the time no later. */
  lemma TailComplete(s: string, p: nat, f: nat, g: nat, k: nat)
    requires TailAccepts(s, p, f, g, k)
    ensures TailMatches(s, p) && TailCut(s, p).value.k <= k
  {
    var k' := FirstTimeAt(s, p).value;
    assert !IsSpace(s[k']);
    var f' := SpacesFrom(s, p);
    var g' := SpacesBack(s, f', k');
    if f' < g' {
      // the non-space ends of [f', g') lie inside the comment [f, g)
      assert f <= f' && g' <= g;
    }
  }

  /** A frequency text followed by a space is exactly what the greedy frequency group takes. */
  lemma FrequencyUnique(s: string, lo: nat, hi: nat)
    requires lo <= hi < |s| && IsFrequencyText(s, lo, hi) && IsSpace(s[hi])
    ensures FrequencyEnd(s, lo) == hi
  {
    var d := Span(s, lo, IsDigit);
    if d < hi {
      SpanUnique(s, d + 1, hi, IsDigit);
    }
  }

  /** The pieces before the call are the same in every accepted reading, and the call fits in the run of call characters. */
  lemma HeadUnique(s: string, h: Groups)
    requires HeadAccepts(s, h)
    ensures MatchHead(s) == Some((h.spotterEnd, h.freqStart, h.freqEnd, h.callStart))
    ensures h.callEnd <= Span(s, h.callStart, IsCallChar)
  {
    HeadSpans(s, h);
    var cMax := Span(s, h.callStart, IsCallChar);
    assert h.callEnd <= cMax by {
      assert AllOf(s, h.callStart, h.callEnd, IsCallChar);
      assert cMax < |s| ==> !IsCallChar(s[cMax]);
    }
  }

  /** Each greedy run of the head ends where an accepted reading puts the end of that piece. */
  lemma HeadSpans(s: string, h: Groups)
    requires HeadAccepts(s, h)
    ensures Span(s, 6, IsSpotterChar) == h.spotterEnd
    ensures Span(s, h.spotterEnd + 1, IsSpace) == h.freqStart && IsDigit(s[h.freqStart])
    ensures FrequencyEnd(s, h.freqStart) == h.freqEnd
    ensures Span(s, h.freqEnd, IsSpace) == h.callStart && IsCallChar(s[h.callStart])
  {
    SpanUnique(s, 6, h.spotterEnd, IsSpotterChar);
    assert IsDigit(s[h.freqStart]) by {
      assert Span(s, h.freqStart, IsDigit) > h.freqStart;
    }
    SpanUnique(s, h.spotterEnd + 1, h.freqStart, IsSpace);
    assert IsSpace(s[h.freqEnd]);
    FrequencyUnique(s, h.freqStart, h.freqEnd);
    assert IsCallChar(s[h.callStart]);
    SpanUnique(s, h.freqEnd, h.callStart, IsSpace);
  }

  /** Whenever some reading is accepted, the matcher finds one with at least as long a call. */
  lemma MatchGroupsComplete(s: string, x: Cut)
    requires Accepts(s, x)
    ensures MatchGroups(s).Some? && x.head.callEnd <= MatchGroups(s).value.callEnd
  {
    var h := x.head;
    HeadUnique(s, h);
    TailComplete(s, h.callEnd, x.f, x.g, x.k);
    var cMax := Span(s, h.callStart, IsCallChar);
    var ok := (c: nat) => TailMatches(s, c);
    assert ok(h.callEnd);
    assert LastSatisfying(h.callStart, cMax, ok).Some?;
  }

  /** The reading the matcher takes, as a `Cut`. */
  function MatcherCut(s: string): (x: Option<Cut>)
    ensures x.Some? ==> Accepts(s, x.value) && Trimmed(s, x.value)
  {
    match MatchGroups(s)
    case None => None
    case Some(g) =>
      var t := TailCut(s, g.callEnd).value;
      Some(Cut(g, t.f, t.g, t.k))
  }

  /** The matcher's reading is the preferred one. */
  lemma MatcherCutPreferred(s: string)
    requires MatcherCut(s).Some?
    ensures MatcherCut(s).Some? && Preferred(s, MatcherCut(s).value)
  {
    var x := MatcherCut(s).value;
    forall y | Accepts(s, y)
      ensures y.head.callEnd <= x.head.callEnd && (y.head.callEnd == x.head.callEnd ==> x.k <= y.k)
    {
      HeadUnique(s, y.head);
      HeadUnique(s, x.head);
      TailComplete(s, y.head.callEnd, y.f, y.g, y.k);
      if x.head.callEnd < y.head.callEnd {
        CallIsLongest(s, y.head.callEnd);
      }
    }
  }

  /**
   * `parse_spot`: the spot a line announces, or `None` when it does not
   * match the pattern.
   */
  function ParseSpot(line: string, timestamp: real): Option<Spot>
  {
    var s := Strip(line);
    match MatcherCut(s)
    case None => None
    case Some(x) => Some(ReadSpot(s, x, timestamp))
  }

  /** The spot built from the groups of a reading, each stripped once more as the client does. */
  function ReadSpot(s: string, x: Cut, timestamp: real): Spot
    requires Accepts(s, x)
  {
    var h := x.head;
    Spot(Strip(s[6..h.spotterEnd]), KHzToHz(s[h.freqStart..h.freqEnd]), Strip(s[h.callStart..h.callEnd]),
         Strip(s[x.f..x.g]), s[x.k..x.k + 4], timestamp)
  }

  /** A string without white space is its own strip. */
  lemma StripNoSpace(t: string)
    requires forall i :: 0 <= i < |t| ==> !IsSpace(t[i])
    ensures Strip(t) == t
  {
    if t != [] {
      StripOfTrimmed(t);
    }
  }

  /** `parse_spot` finds a spot exactly when some reading of the stripped line is accepted. */
  lemma ParseSpotMatchesPattern(line: string, timestamp: real)
    ensures ParseSpot(line, timestamp).Some? <==> exists x :: Accepts(Strip(line), x)
  {
    var s := Strip(line);
    if MatchGroups(s).Some? {
      assert Accepts(s, MatcherCut(s).value);
    }
    if x :| Accepts(s, x) {
      MatchGroupsComplete(s, x);
    }
  }

  /**
   * The spot `parse_spot` returns is the one the preferred reading
   * announces: spotter, call and comment exactly as matched (stripping
   * them changes nothing), the frequency converted, the first time after
   * the comment.
   */
  lemma ParseSpotIsPreferred(line: string, timestamp: real)
    ensures var s := Strip(line);
      ParseSpot(line, timestamp).Some? ==>
      exists x :: Preferred(s, x) && Trimmed(s, x) && ParseSpot(line, timestamp).value == SpotOf(s, x, timestamp)
  {
    if ParseSpot(line, timestamp).Some? {
      MatcherSpotIsPreferred(Strip(line), timestamp);
    }
  }

  /** The spot read from the matcher's reading is the one the preferred reading announces. */
  lemma MatcherSpotIsPreferred(s: string, timestamp: real)
    requires MatcherCut(s).Some?
    ensures exists x :: Preferred(s, x) && Trimmed(s, x) && ReadSpot(s, MatcherCut(s).value, timestamp) == SpotOf(s, x, timestamp)
  {
    var x := MatcherCut(s).value;
    MatcherCutPreferred(s);
    ReadSpotIsSpotOf(s, x, timestamp);
    Witness(s, x, ReadSpot(s, x, timestamp), timestamp);
  }

  lemma Witness(s: string, x: Cut, spot: Spot, timestamp: real)
    requires Preferred(s, x) && Trimmed(s, x) && spot == SpotOf(s, x, timestamp)
    ensures exists x :: Preferred(s, x) && Trimmed(s, x) && spot == SpotOf(s, x, timestamp)
  {
  }

  /** When the comment starts and ends with a non-space, stripping the groups changes nothing. */
  lemma ReadSpotIsSpotOf(s: string, x: Cut, timestamp: real)
    requires Accepts(s, x) && Trimmed(s, x)
    ensures ReadSpot(s, x, timestamp) == SpotOf(s, x, timestamp)
  {
    SpotterStripped(s, x.head);
    CallStripped(s, x.head);
    StripOfTrimmed(s[x.f..x.g]);
  }

  /**
   * What every accepted reading announces: a non-empty spotter and call made
   * of their character classes, a comment without line feed, a time of four
   * digits, and the receive time.
   */
  lemma SpotOfFields(s: string, x: Cut, timestamp: real)
    requires Accepts(s, x)
    ensures var spot := SpotOf(s, x, timestamp);
      && spot.spotter != [] && (forall i :: 0 <= i < |spot.spotter| ==> IsSpotterChar(spot.spotter[i]))
      && spot.dxCall != [] && (forall i :: 0 <= i < |spot.dxCall| ==> IsCallChar(spot.dxCall[i]))
      && '\n' !in spot.comment
      && |spot.time| == 4 && AllDigits(spot.time)
      && spot.timestamp == timestamp
  {
    var spot := SpotOf(s, x, timestamp);
    assert '\n' !in spot.comment by {
      forall i | 0 <= i < |spot.comment| ensures spot.comment[i] != '\n' {
        assert spot.comment[i] == s[x.f + i];
      }
    }
  }

  /** Stripping the spotter group changes nothing: it holds no white space. */
  lemma SpotterStripped(s: string, h: Groups)
    requires HeadAccepts(s, h)
    ensures Strip(s[6..h.spotterEnd]) == s[6..h.spotterEnd]
  {
    var spotter := s[6..h.spotterEnd];
    assert forall i :: 0 <= i < |spotter| ==> IsSpotterChar(spotter[i]);
    StripNoSpace(spotter);
  }

  /** Stripping the call group changes nothing: it holds no white space. */
  lemma CallStripped(s: string, h: Groups)
    requires HeadAccepts(s, h)
    ensures Strip(s[h.callStart..h.callEnd]) == s[h.callStart..h.callEnd]
  {
    var call := s[h.callStart..h.callEnd];
    assert forall i :: 0 <= i < |call| ==> IsCallChar(call[i]);
    StripNoSpace(call);
  }

  /**
   * The frequency in Hz is the kHz value of the text times 1000, truncated:
   * for a text `I.F` with `n` decimals, `r * 10^n <= 1000 * IF < (r + 1) * 10^n`.
   */
  lemma KHzToHzTruncates(f: string)
    requires IsFrequencyText(f, 0, |f|)
    ensures var d := Span(f, 0, IsDigit);
      var n := if d < |f| then |f| - d - 1 else 0;
      var value := NumberAt(f, 0, d) * Pow10(n) + NumberAt(f, |f| - n, |f|);
      Truncates(KHzToHz(f), 1000 * value, Pow10(n))
  {
    var d := Span(f, 0, IsDigit);
    var n := if d < |f| then |f| - d - 1 else 0;
    if n >= 3 {
      KHzToHzLongFraction(f, d, n);
    } else {
      KHzToHzShortFraction(f, d, n);
    }
  }

  /** At least three decimals: the ones after the third are dropped. */
  lemma KHzToHzLongFraction(f: string, d: nat, n: nat)
    requires d == Span(f, 0, IsDigit) && d < |f| && n == |f| - d - 1 >= 3
    ensures Truncates(KHzToHz(f), 1000 * (NumberAt(f, 0, d) * Pow10(n) + NumberAt(f, |f| - n, |f|)), Pow10(n))
  {
    var i := |f| - n;
    var I, T, R := NumberAt(f, 0, d), NumberAt(f, i, i + 3), NumberAt(f, i + 3, |f|);
    assert KHzToHz(f) == I * 1000 + T;
    NumberAtSplit(f, i, i + 3, |f|);
    Pow10Add(3, n - 3);
    ScaleTruncated(KHzToHz(f), I * Pow10(n) + NumberAt(f, i, |f|), I, T, R, Pow10(n - 3), Pow10(n));
  }

  /** Fewer than three decimals: they are padded with zeros, exactly. */
  lemma KHzToHzShortFraction(f: string, d: nat, n: nat)
    requires d == Span(f, 0, IsDigit) && n == (if d < |f| then |f| - d - 1 else 0) < 3
    ensures Truncates(KHzToHz(f), 1000 * (NumberAt(f, 0, d) * Pow10(n) + NumberAt(f, |f| - n, |f|)), Pow10(n))
  {
    var I, F := NumberAt(f, 0, d), NumberAt(f, |f| - n, |f|);
    assert KHzToHz(f) == I * 1000 + F * Pow10(3 - n);
    Pow10Add(n, 3 - n);
    assert Pow10(3) == 1000;
    ScaleExact(KHzToHz(f), I * Pow10(n) + F, I, F, Pow10(n), Pow10(3 - n));
  }

  /** `r` is `x / scale` rounded down: `r * scale <= x < (r + 1) * scale`. */
  predicate Truncates(r: int, x: int, scale: int) {
    r * scale <= x < (r + 1) * scale
  }

  /** Dropping the decimals after the third: `r = 1000 I + T` truncates `1000 * (I + (T * Q + R) / P)` when `P = 1000 Q` and `R < Q`. */
  lemma ScaleTruncated(r: int, value: int, I: nat, T: nat, R: nat, Q: nat, P: nat)
    requires r == I * 1000 + T && P == 1000 * Q && value == I * P + (T * Q + R) && R < Q
    ensures Truncates(r, 1000 * value, P)
  {
    assert 1000 * value == r * P + 1000 * R;
  }

  /** Padding with zeros is exact: `r = 1000 I + F * Z` is `1000 * (I + F / Q)` when `Q * Z = 1000`. */
  lemma ScaleExact(r: int, value: int, I: nat, F: nat, Q: nat, Z: nat)
    requires r == I * 1000 + F * Z && Q * Z == 1000 && value == I * Q + F && Q >= 1
    ensures Truncates(r, 1000 * value, Q)
  {
    assert r * Q == I * 1000 * Q + F * (Q * Z);
  }

  /** Reading digits in two parts: `NumberAt(lo, hi) == NumberAt(lo, mid) * 10^(hi - mid) + NumberAt(mid, hi)`. */
  lemma {:induction false} NumberAtSplit(f: string, lo: nat, mid: nat, hi: nat)
    requires lo <= mid <= hi <= |f|
    ensures NumberAt(f, lo, hi) == NumberAt(f, lo, mid) * Pow10(hi - mid) + NumberAt(f, mid, hi)
    decreases hi - mid
  {
    if mid < hi {
      NumberAtSplit(f, lo, mid, hi - 1);
      var A, B, d := NumberAt(f, lo, mid), NumberAt(f, mid, hi - 1), DigitValue(f[hi - 1]);
      ShiftDigit(A, Pow10(hi - 1 - mid), B, d);
    }
  }

  lemma {:induction false} Pow10Add(a: nat, b: nat)
    ensures Pow10(a + b) == Pow10(a) * Pow10(b)
  {
    if a > 0 {
      Pow10Add(a - 1, b);
      assert Pow10(a + b) == 10 * Pow10(a - 1 + b);
      MulAssoc(10, Pow10(a - 1), Pow10(b));
    }
  }

  lemma MulAssoc(x: int, y: int, z: int)
    ensures x * (y * z) == (x * y) * z
  {
  }

  // ---------------------------------------------------------------------------
  // Splitting received text into lines

  /** Index of the first line feed; the text has one. */
  function LineFeedIndex(b: string): (i: nat)
    requires '\n' in b
    ensures i < |b| && b[i] == '\n' && '\n' !in b[..i]
  {
    if b[0] == '\n' then 0 else 1 + LineFeedIndex(b[1..])
  }

  /** The complete lines of `b`, without their line feeds. */
  function Lines(b: string): (ls: seq<string>)
    ensures forall i :: 0 <= i < |ls| ==> '\n' !in ls[i]
    decreases |b|
  {
    if '\n' !in b then []
    else
      var i := LineFeedIndex(b);
      [b[..i]] + Lines(b[i + 1..])
  }

  /** What is left of `b` after its complete lines: the unfinished last line. */
  function Leftover(b: string): (r: string)
    ensures '\n' !in r
    decreases |b|
  {
    if '\n' !in b then b else Leftover(b[LineFeedIndex(b) + 1..])
  }

  /** Lines joined back, each with its line feed. */
  function Unlines(ls: seq<string>): string {
    if ls == [] then [] else ls[0] + "\n" + Unlines(ls[1..])
  }

  /** Splitting loses nothing: the lines and the leftover put back together are the text. */
  lemma {:induction false} LinesRoundTrip(b: string)
    ensures Unlines(Lines(b)) + Leftover(b) == b
    decreases |b|
  {
    if '\n' in b {
      var i := LineFeedIndex(b);
      var line, rest := b[..i], b[i + 1..];
      LinesRoundTrip(rest);
      LinesStep(b);
      AppendAssoc(line + "\n", Unlines(Lines(rest)), Leftover(rest));
    }
  }

  /** One step of the split: the first line, then the lines of what follows its line feed. */
  lemma LinesStep(b: string)
    requires '\n' in b
    ensures var i := LineFeedIndex(b);
      && Unlines(Lines(b)) == b[..i] + "\n" + Unlines(Lines(b[i + 1..]))
      && Leftover(b) == Leftover(b[i + 1..])
      && b == b[..i] + "\n" + b[i + 1..]
  {
    var i := LineFeedIndex(b);
    UnlinesCons(b[..i], Lines(b[i + 1..]));
    SplitAt(b, i);
  }

  /** The lines of a text with a line feed: the first line, then the lines after it. */
  lemma LinesCons(b: string)
    requires '\n' in b
    ensures Lines(b) == [b[..LineFeedIndex(b)]] + Lines(b[LineFeedIndex(b) + 1..])
    ensures Leftover(b) == Leftover(b[LineFeedIndex(b) + 1..])
  {
  }

  lemma UnlinesCons(line: string, ls: seq<string>)
    ensures Unlines([line] + ls) == line + "\n" + Unlines(ls)
  {
    assert ([line] + ls)[1..] == ls;
  }

  lemma SplitAt(b: string, i: nat)
    requires i < |b| && b[i] == '\n'
    ensures b == b[..i] + "\n" + b[i + 1..]
  {
  }

  /** A text without line feed has no complete line: all of it is left over. */
  lemma NoLines(b: string)
    requires '\n' !in b
    ensures Lines(b) == [] && Leftover(b) == b
  {
  }

  lemma AppendNil<T>(a: seq<T>)
    ensures a + [] == a && [] + a == a
  {
  }

  lemma AppendAssoc<T>(a: seq<T>, b: seq<T>, c: seq<T>)
    ensures (a + b) + c == a + (b + c)
  {
  }

  /** `n` newest elements of `s` (all of them when there are fewer). */
  function KeepNewest<T>(s: seq<T>, n: nat): (r: seq<T>)
    ensures |r| == if |s| <= n then |s| else n
    ensures r == s[|s| - |r|..]
  {
    if |s| > n then s[|s| - n..] else s
  }

  /** A list within the cap is kept whole. */
  lemma KeepNewestAll<T>(s: seq<T>, n: nat)
    requires |s| <= n
    ensures KeepNewest(s + [], n) == s
  {
    assert s + [] == s;
  }

  /** Capping after every append is the same as capping once at the end. */
  lemma {:induction false} KeepNewestAppend<T>(s: seq<T>, t: seq<T>, n: nat)
    requires n > 0
    ensures KeepNewest(KeepNewest(s, n) + t, n) == KeepNewest(s + t, n)
  {
    var k := KeepNewest(s, n);
    var lhs, rhs := KeepNewest(k + t, n), KeepNewest(s + t, n);
    assert |lhs| == |rhs|;
    forall i | 0 <= i < |lhs| ensures lhs[i] == rhs[i] {
      var j := |k + t| - |lhs| + i;
      var j' := |s + t| - |rhs| + i;
      assert lhs[i] == (k + t)[j] && rhs[i] == (s + t)[j'];
      assert j' == |s| - |k| + j;
      if j < |k| {
        assert lhs[i] == k[j] == s[j'];
      } else {
        assert lhs[i] == t[j - |k|] == t[j' - |s|];
      }
    }
  }

  /** What the client makes of one received line: its spot, when the stripped line starts with `DX de ` and parses. */
  function LineSpots(line: string, timestamp: real): seq<Spot> {
    var stripped := Strip(line);
    if !StartsWith(stripped, "DX de ") then []
    else match ParseSpot(stripped, timestamp)
      case None => []
      case Some(spot) => [spot]
  }

  lemma LineSpotsCases(line: string, timestamp: real)
    ensures var stripped := Strip(line);
      LineSpots(line, timestamp)
      == if StartsWith(stripped, "DX de ") && ParseSpot(stripped, timestamp).Some? then [ParseSpot(stripped, timestamp).value] else []
  {
  }

  /** The concatenation of `read` over `lines`, in order. */
  function Collect<T>(lines: seq<string>, read: string -> seq<T>): seq<T> {
    if lines == [] then [] else read(lines[0]) + Collect(lines[1..], read)
  }

  lemma {:induction false} CollectAppend<T>(a: seq<string>, b: seq<string>, read: string -> seq<T>)
    ensures Collect(a + b, read) == Collect(a, read) + Collect(b, read)
  {
    if a == [] {
      assert a + b == b;
    } else {
      assert (a + b)[1..] == a[1..] + b;
      CollectAppend(a[1..], b, read);
      AppendAssoc(read(a[0]), Collect(a[1..], read), Collect(b, read));
    }
  }

  lemma CollectSnoc<T>(lines: seq<string>, line: string, read: string -> seq<T>)
    ensures Collect(lines + [line], read) == Collect(lines, read) + read(line)
  {
    CollectAppend(lines, [line], read);
    assert Collect([line], read) == read(line) + Collect([], read);
  }

  /** The spots the given lines announce, in order. */
  function SpotsIn(lines: seq<string>, timestamp: real): seq<Spot> {
    Collect(lines, (line: string) => LineSpots(line, timestamp))
  }

  /** The spots of consecutive batches of lines are the spots of all the lines. */
  lemma SpotsInAppend(a: seq<string>, b: seq<string>, timestamp: real)
    ensures SpotsIn(a + b, timestamp) == SpotsIn(a, timestamp) + SpotsIn(b, timestamp)
  {
    CollectAppend(a, b, (line: string) => LineSpots(line, timestamp));
  }

  /** One more line adds that line's spot, if any. */
  lemma SpotsInSnoc(lines: seq<string>, line: string, timestamp: real)
    ensures SpotsIn(lines + [line], timestamp) == SpotsIn(lines, timestamp) + LineSpots(line, timestamp)
  {
    CollectSnoc(lines, line, (line: string) => LineSpots(line, timestamp));
  }

  /** Capping after each line is capping once after all of them. */
  lemma SpotsStep(start: seq<Spot>, done: seq<string>, line: string, timestamp: real)
    ensures KeepNewest(KeepNewest(start + SpotsIn(done, timestamp), MAX_SPOTS) + LineSpots(line, timestamp), MAX_SPOTS)
      == KeepNewest(start + SpotsIn(done + [line], timestamp), MAX_SPOTS)
  {
    var before, more := start + SpotsIn(done, timestamp), LineSpots(line, timestamp);
    KeepNewestAppend(before, more, MAX_SPOTS);
    SpotsInSnoc(done, line, timestamp);
    AppendAssoc(start, SpotsIn(done, timestamp), more);
  }

  // ---------------------------------------------------------------------------
  // Reconnect back-off

  /** The delay after `j` failed attempts since the last successful login: doubling from 5 s, at most 300 s. */
  function BackoffDelay(j: nat): (d: int)
    ensures INITIAL_DELAY <= d <= MAX_DELAY
  {
    if INITIAL_DELAY * Pow2(j) < MAX_DELAY then INITIAL_DELAY * Pow2(j) else MAX_DELAY
  }

  /** Index of the last successful login among `loggedIn`, or 0 when there is none. */
  function LastReset(loggedIn: seq<bool>): (i: nat)
    ensures loggedIn != [] ==> i < |loggedIn|
  {
    if loggedIn == [] then 0
    else if loggedIn[|loggedIn| - 1] then |loggedIn| - 1
    else LastReset(loggedIn[..|loggedIn| - 1])
  }

  /**
   * The waits of the reader thread: one per connection cycle, where
   * `loggedIn[i]` says whether cycle `i` logged in (which resets the delay
   * to 5 s); after each cycle it waits, then doubles the delay up to 300 s.
   */
  method ReconnectDelays(loggedIn: seq<bool>) returns (waits: seq<int>)
    ensures |waits| == |loggedIn|
    ensures forall i :: 0 <= i < |waits| ==> INITIAL_DELAY <= waits[i] <= MAX_DELAY
    ensures forall i :: 0 <= i < |waits| ==> waits[i] == BackoffDelay(i - LastReset(loggedIn[..i + 1]))
  {
    var delay := INITIAL_DELAY;
    waits := [];
    var i := 0;
    while i < |loggedIn|
      invariant 0 <= i <= |loggedIn| && |waits| == i
      invariant LastReset(loggedIn[..i]) <= i
      invariant delay == BackoffDelay(i - LastReset(loggedIn[..i]))
      invariant forall j :: 0 <= j < i ==> waits[j] == BackoffDelay(j - LastReset(loggedIn[..j + 1]))
    {
      assert loggedIn[..i + 1][..i] == loggedIn[..i];
      if loggedIn[i] {
        delay := INITIAL_DELAY;
      }
      waits := waits + [delay];
      var next := if delay * 2 < MAX_DELAY then delay * 2 else MAX_DELAY;
      BackoffStep(i - LastReset(loggedIn[..i + 1]));
      delay := next;
      i := i + 1;
    }
  }

  lemma BackoffStep(j: nat)
    ensures BackoffDelay(j + 1) == if BackoffDelay(j) * 2 < MAX_DELAY then BackoffDelay(j) * 2 else MAX_DELAY
  {
  }

  // ---------------------------------------------------------------------------
  // The client's stored state

  class DxClusterClient {
    var spots: seq<Spot>
    var running: bool
    var connected: bool
    var host: Option<string>
    var port: Option<int>
    var callsign: Option<string>
    var loginScript: Option<string>

    ghost predicate Valid()
      reads this
    {
      |spots| <= MAX_SPOTS
    }

    constructor ()
      ensures Valid() && spots == [] && !running && !connected
      ensures host == None && port == None && callsign == None && loginScript == None
    {
      spots := [];
      running := false;
      connected := false;
      host, port, callsign, loginScript := None, None, None, None;
    }

    /** Saves the connection parameters, marks the client running and forgets all spots. */
    method Start(h: string, p: int, call: string, script: Option<string>) returns (ok: bool)
      modifies this
      ensures Valid() && ok && running && !connected && spots == []
      ensures host == Some(h) && port == Some(p) && callsign == Some(call) && loginScript == script
    {
      Stop();
      host, port, callsign, loginScript := Some(h), Some(p), Some(call), script;
      running := true;
      spots := [];
      ok := true;
    }

    method Stop()
      modifies this
      ensures !running && !connected
      ensures spots == old(spots) && host == old(host) && port == old(port)
      ensures callsign == old(callsign) && loginScript == old(loginScript)
    {
      running := false;
      connected := false;
    }

    /** A copy of the stored spots (a sequence is a value: later changes to either side do not reach the other). */
    method GetSpots() returns (r: seq<Spot>)
      requires Valid()
      ensures r == spots && |r| <= MAX_SPOTS
    {
      r := spots;
    }

    /**
     * Appends received text to the buffer and consumes every complete line:
     * each stripped line starting with `DX de ` that parses is appended to
     * the spots, which are cut back to the newest 100. Returns the rest of
     * the buffer, which holds no line feed.
     */
    method Receive(buffer: string, data: string, timestamp: real) returns (rest: string)
      requires Valid()
      modifies this
      ensures Valid()
      ensures rest == Leftover(buffer + data) && '\n' !in rest
      ensures spots == KeepNewest(old(spots) + SpotsIn(Lines(buffer + data), timestamp), MAX_SPOTS)
      ensures running == old(running) && connected == old(connected)
      ensures host == old(host) && port == old(port) && callsign == old(callsign) && loginScript == old(loginScript)
    {
      rest := buffer + data;
      ghost var done: seq<string> := [];
      AppendNil(Lines(rest));
      AppendNil(old(spots));
      while '\n' in rest
        invariant Valid()
        invariant Lines(buffer + data) == done + Lines(rest) && Leftover(buffer + data) == Leftover(rest)
        invariant spots == KeepNewest(old(spots) + SpotsIn(done, timestamp), MAX_SPOTS)
        invariant running == old(running) && connected == old(connected)
        invariant host == old(host) && port == old(port) && callsign == old(callsign) && loginScript == old(loginScript)
        decreases |rest|
      {
        var i := LineFeedIndex(rest);
        var line := rest[..i];
        LinesCons(rest);
        AppendAssoc(done, [line], Lines(rest[i + 1..]));
        SpotsStep(old(spots), done, line, timestamp);
        rest := rest[i + 1..];
        done := done + [line];
        ConsumeLine(line, timestamp);
      }
      NoLines(rest);
      AppendNil(done);
    }

    /** One complete line taken from the buffer: its spot, if any, is appended and the spots are cut back to the newest 100. */
    method ConsumeLine(line: string, timestamp: real)
      requires Valid()
      modifies this
      ensures Valid()
      ensures spots == KeepNewest(old(spots) + LineSpots(line, timestamp), MAX_SPOTS)
      ensures running == old(running) && connected == old(connected)
      ensures host == old(host) && port == old(port) && callsign == old(callsign) && loginScript == old(loginScript)
    {
      LineSpotsCases(line, timestamp);
      var stripped := Strip(line);
      if StartsWith(stripped, "DX de ") {
        var spot := ParseSpot(stripped, timestamp);
        if spot.Some? {
          AddSpot(spot.value);
          return;
        }
      }
      KeepNewestAll(spots, MAX_SPOTS);
    }

    /** Appends a spot and cuts the list back to the newest 100. */
    method AddSpot(spot: Spot)
      requires Valid()
      modifies this
      ensures Valid()
      ensures spots == KeepNewest(old(spots) + [spot], MAX_SPOTS)
      ensures running == old(running) && connected == old(connected)
      ensures host == old(host) && port == old(port) && callsign == old(callsign) && loginScript == old(loginScript)
    {
      spots := spots + [spot];
      if |spots| > MAX_SPOTS {
        spots := spots[|spots| - MAX_SPOTS..];
      }
    }
  }
}
