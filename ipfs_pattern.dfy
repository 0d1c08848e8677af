/** The textual forms of an IPFS content reference that both frontend pages recognise. */
module IpfsPattern {
  import opened Wrappers
  import opened Text

  /** The canonical scheme prefix. */
  const Scheme: string := "ipfs://"

  /** The path segment of a gateway URL that precedes the content id. */
  const Segment: string := "/ipfs/"

  /** The characters the regex class `[^/?#]` excludes. */
  predicate IsTerminator(c: char) {
    c == '/' || c == '?' || c == '#'
  }

  predicate NoTerminator(s: string) {
    forall i :: 0 <= i < |s| ==> !IsTerminator(s[i])
  }

  /** The length of the longest run of non-terminator characters starting at `j`
      (what the greedy `[^/?#]+` consumes). */
  function RunLength(s: string, j: nat): (n: nat)
    requires j <= |s|
    ensures j + n <= |s|
    ensures forall i :: j <= i < j + n ==> !IsTerminator(s[i])
    ensures j + n == |s| || IsTerminator(s[j + n])
    decreases |s| - j
  {
    if j == |s| || IsTerminator(s[j]) then 0 else 1 + RunLength(s, j + 1)
  }

  /** The gateway pattern (`/ipfs/` and then one or more characters other than `/`, `?`, `#`)
      can match at index `i`: the segment is there and is
      followed by at least one character of the class. */
  predicate MatchesAt(s: string, i: nat) {
    OccursAt(s, Segment, i) && i + |Segment| < |s| && !IsTerminator(s[i + |Segment|])
  }

  /** Where the first match starts and what its capture group holds. */
  datatype CidSpan = CidSpan(start: nat, cid: string)

  function FindFrom(s: string, from: nat): (m: Option<CidSpan>)
    requires from <= |s|
    ensures m.Some? ==> from <= m.value.start && MatchesAt(s, m.value.start)
    ensures m.Some? ==> m.value.cid == s[m.value.start + |Segment|..][..RunLength(s, m.value.start + |Segment|)]
    ensures forall j: nat :: from <= j && (m.None? || j < m.value.start) ==> !MatchesAt(s, j)
    decreases |s| - from
  {
    if MatchesAt(s, from) then
      var b := from + |Segment|;
      Some(CidSpan(from, s[b..][..RunLength(s, b)]))
    else if from == |s| then None
    else FindFrom(s, from + 1)
  }

  /** The leftmost match of the gateway pattern, with a non-empty capture that runs
      up to the end of the string or to the first `/`, `?` or `#`. */
  function CidMatch(s: string): (m: Option<CidSpan>)
    ensures m.Some? ==> MatchesAt(s, m.value.start)
    ensures m.Some? ==>
      var b := m.value.start + |Segment|;
      var c := m.value.cid;
      c != [] && NoTerminator(c) && b + |c| <= |s| && s[b..b + |c|] == c &&
      (b + |c| == |s| || IsTerminator(s[b + |c|]))
    ensures forall j: nat :: (m.None? || j < m.value.start) ==> !MatchesAt(s, j)
  {
    var m := FindFrom(s, 0);
    if m.Some? then
      var b := m.value.start + |Segment|;
      var n := RunLength(s, b);
      assert m.value.cid == s[b..b + n];
      m
    else m
  }

  /** The string starts with `Qm` or `bafy`, the prefixes of CIDv0 and base32 CIDv1 hashes. */
  predicate HasHashPrefix(s: string) {
    StartsWith(s, "Qm") || StartsWith(s, "bafy")
  }

  /** A bare hash as a gateway path would carry it. */
  predicate IsBareCid(cid: string) {
    HasHashPrefix(cid) && NoTerminator(cid)
  }

  /** No match can exist in a string without a `/`. */
  lemma NoMatchWithoutSlash(s: string)
    requires NoTerminator(s)
    ensures CidMatch(s).None?
  {
    forall j: nat
      ensures !MatchesAt(s, j)
    {
      NoSegmentWithoutSlash(s, j);
    }
  }

  lemma NoSegmentWithoutSlash(s: string, j: nat)
    requires j < |s| ==> s[j] != '/'
    ensures !OccursAt(s, Segment, j)
  {
    if j + |Segment| <= |s| {
      assert s[j..j + |Segment|][0] == s[j];
    }
  }

  /** In `host + "/ipfs/" + cid + rest`, the first match is the displayed segment and captures
      exactly `cid`, provided no earlier segment exists and `rest` ends the capture. */
  lemma MatchInGatewayUrl(host: string, cid: string, rest: string)
    requires cid != [] && NoTerminator(cid)
    requires rest == [] || IsTerminator(rest[0])
    requires forall j: nat :: !OccursAt(host + "/ipfs", Segment, j)
    ensures CidMatch(host + Segment + cid + rest) == Some(CidSpan(|host|, cid))
  {
    var s := host + Segment + cid + rest;
    var t := host + "/ipfs";
    var b := |host| + |Segment|;
    assert s[|host|..b] == Segment;
    assert s[b] == cid[0];
    assert MatchesAt(s, |host|);
    forall j: nat | j < |host|
      ensures !MatchesAt(s, j)
    {
      if OccursAt(s, Segment, j) {
        assert s[j..j + 6] == t[j..j + 6];
        assert OccursAt(t, Segment, j);
      }
    }
    var m := CidMatch(s);
    assert m.Some? && m.value.start == |host|;
    var c := m.value.cid;
    assert s[b..b + |cid|] == cid;
    assert |c| == |cid|;
  }

  /** Which of the normaliser's cases an input falls in, checked in the code's order:
      empty, already canonical, a gateway path carrying `/ipfs/<cid>`, a bare hash, or none. */
  datatype Form = Empty | Canonical | GatewayPath(cid: string) | BareHash | Unrecognised

  function FormOf(input: string): (f: Form)
    ensures f.Empty? <==> input == []
    ensures f.Canonical? <==> input != [] && StartsWith(input, Scheme)
    ensures f.GatewayPath? <==> input != [] && !StartsWith(input, Scheme) && CidMatch(input).Some?
    ensures f.GatewayPath? ==> f.cid == CidMatch(input).value.cid && f.cid != []
    ensures f.BareHash? <==>
      input != [] && !StartsWith(input, Scheme) && CidMatch(input).None? && HasHashPrefix(input)
    ensures f.Unrecognised? <==>
      input != [] && !StartsWith(input, Scheme) && CidMatch(input).None? && !HasHashPrefix(input)
  {
    if input == [] then Empty
    else if StartsWith(input, Scheme) then Canonical
    else match CidMatch(input)
      case Some(span) => GatewayPath(span.cid)
      case None => if HasHashPrefix(input) then BareHash else Unrecognised
  }

  /** The canonical URI an input stands for, when `FormOf` recognises it. */
  function CanonicalOf(input: string, f: Form): (uri: string)
    requires f == FormOf(input) && !f.Empty? && !f.Unrecognised?
    ensures StartsWith(uri, Scheme)
    ensures !f.Canonical? ==> |uri| > |Scheme|
    ensures f.Canonical? ==> uri == input
    ensures f.GatewayPath? ==> uri == Scheme + CidMatch(input).value.cid
    ensures f.BareHash? ==> uri == Scheme + input
  {
    match f
    case Canonical => input
    case GatewayPath(cid) => Scheme + cid
    case BareHash => Scheme + input
  }

  /** A gateway URL `host/ipfs/<cid>[rest]` and the bare hash `<cid>` fall in different cases
      but name the same canonical URI. */
  lemma {:induction false} GatewayAndBareAgree(host: string, cid: string, rest: string)
    requires IsBareCid(cid)
    requires rest == [] || IsTerminator(rest[0])
    requires forall j: nat :: !OccursAt(host + "/ipfs", Segment, j)
    requires !StartsWith(host + Segment + cid + rest, Scheme)
    ensures FormOf(host + Segment + cid + rest) == GatewayPath(cid)
    ensures FormOf(cid) == BareHash
    ensures CanonicalOf(host + Segment + cid + rest, GatewayPath(cid)) == Scheme + cid
    ensures CanonicalOf(cid, BareHash) == Scheme + cid
  {
    GatewayForm(host, cid, rest);
    BareForm(cid);
  }

  lemma GatewayForm(host: string, cid: string, rest: string)
    requires cid != [] && NoTerminator(cid)
    requires rest == [] || IsTerminator(rest[0])
    requires forall j: nat :: !OccursAt(host + "/ipfs", Segment, j)
    requires !StartsWith(host + Segment + cid + rest, Scheme)
    ensures FormOf(host + Segment + cid + rest) == GatewayPath(cid)
  {
    var url := host + Segment + cid + rest;
    MatchInGatewayUrl(host, cid, rest);
    assert url != [] by { assert |url| >= |Segment|; }
  }

  lemma BareForm(cid: string)
    requires IsBareCid(cid)
    ensures FormOf(cid) == BareHash
  {
    NoMatchWithoutSlash(cid);
    assert cid[0] == 'Q' || cid[0] == 'b';
    assert !StartsWith(cid, Scheme) by {
      if |Scheme| <= |cid| { assert cid[..|Scheme|][0] == cid[0]; }
    }
  }
}
