/**
  `getMediaData`: picks the one resource to play. A resource needing a token
  comes first; then, on any Safari browser, an HLS resource; then a DASH
  resource; otherwise the first resource. `isFirst` plays no part. The
  browser check `IS_ANY_SAFARI` is the parameter `isAnySafari`.
*/
module ResourceSelector {
  import opened Wrappers
  import opened Resources

  /** What one selection rule looks for in a resource. */
  datatype Criterion = TokenBearing | Protocol(streaming: Streaming)

  predicate Matches(c: Criterion, r: Resource) {
    match c
    case TokenBearing => NeedsToken(r)
    case Protocol(s) => r.streaming == s
  }

  /** The index of the first resource of `rs` meeting `c`. */
  function FirstMatching(rs: seq<Resource>, c: Criterion): (i: Option<nat>)
    ensures i.Some? ==> i.value < |rs| && Matches(c, rs[i.value])
    ensures i.Some? ==> forall j :: 0 <= j < i.value ==> !Matches(c, rs[j])
    ensures i.None? ==> forall j :: 0 <= j < |rs| ==> !Matches(c, rs[j])
  {
    if rs == [] then None
    else if Matches(c, rs[0]) then Some(0)
    else match FirstMatching(rs[1..], c)
      case None => None
      case Some(k) => Some(k + 1)
  }

  /** The position of the selected resource; there is one exactly when the list is not empty. */
  function SelectedIndex(rs: seq<Resource>, isAnySafari: bool): (i: Option<nat>)
    ensures i.Some? <==> rs != []
    ensures i.Some? ==> i.value < |rs|
  {
    if rs == [] then None
    else match FirstMatching(rs, TokenBearing)
      case Some(i) => Some(i)
      case None =>
        match (if isAnySafari then FirstMatching(rs, Protocol(HLS)) else None)
        case Some(i) => Some(i)
        case None =>
          match FirstMatching(rs, Protocol(DASH))
          case Some(i) => Some(i)
          case None => Some(0)
  }

  /**
    The selected resource: always one of the input resources; none exactly
    when the list is absent or empty. Each rule picks by position.
  */
  function GetMediaData(resources: Option<seq<Resource>>, isAnySafari: bool): (r: Option<Resource>)
    ensures r.None? <==> resources.GetOr([]) == []
    ensures r.Some? ==> r.value in resources.GetOr([])
  {
    var rs := resources.GetOr([]);
    match SelectedIndex(rs, isAnySafari)
    case None => None
    case Some(i) => Some(rs[i])
  }

  // ---------------------------------------------------------------------------
  // A reference definition of the choice: each resource has a rank, and the
  // choice is the first resource of the lowest rank present.
  // ---------------------------------------------------------------------------

  /** 0 for a token-bearing resource, 1 for HLS on Safari, 2 for DASH, 3 otherwise. */
  function Rank(r: Resource, isAnySafari: bool): nat {
    if NeedsToken(r) then 0
    else if isAnySafari && r.streaming == HLS then 1
    else if r.streaming == DASH then 2
    else 3
  }

  /** `i` is the first of the best-ranked resources of `rs`. */
  ghost predicate IsBestIndex(rs: seq<Resource>, isAnySafari: bool, i: nat) {
    && i < |rs|
    && (forall j :: 0 <= j < |rs| ==> Rank(rs[i], isAnySafari) <= Rank(rs[j], isAnySafari))
    && (forall j :: 0 <= j < i ==> Rank(rs[i], isAnySafari) < Rank(rs[j], isAnySafari))
  }

  /** There is at most one first best-ranked resource. */
  lemma BestIndexUnique(rs: seq<Resource>, isAnySafari: bool, i: nat, j: nat)
    requires IsBestIndex(rs, isAnySafari, i) && IsBestIndex(rs, isAnySafari, j)
    ensures i == j
  {
    assert Rank(rs[i], isAnySafari) == Rank(rs[j], isAnySafari);
  }

  /** The selection rules choose exactly the first best-ranked resource. */
  lemma SelectionIsBestRanked(rs: seq<Resource>, isAnySafari: bool)
    requires rs != []
    ensures IsBestIndex(rs, isAnySafari, SelectedIndex(rs, isAnySafari).value)
  {
    var i := SelectedIndex(rs, isAnySafari).value;
    var token := FirstMatching(rs, TokenBearing);
    var hls := FirstMatching(rs, Protocol(HLS));
    var dash := FirstMatching(rs, Protocol(DASH));
    if token.Some? {
      assert i == token.value;
    } else if isAnySafari && hls.Some? {
      assert i == hls.value;
    } else if dash.Some? {
      assert i == dash.value;
      assert forall j :: 0 <= j < |rs| ==> Rank(rs[j], isAnySafari) >= 2;
    } else {
      assert i == 0;
      assert forall j :: 0 <= j < |rs| ==> Rank(rs[j], isAnySafari) == 3;
    }
  }

  /** The resources `rs` with their `isFirst` flags replaced by `flags`. */
  function WithIsFirst(rs: seq<Resource>, flags: seq<bool>): (out: seq<Resource>)
    requires |flags| == |rs|
  {
    seq(|rs|, i requires 0 <= i < |rs| => rs[i].(isFirst := flags[i]))
  }

  /** `isFirst` is never used for ranking: changing it never moves the choice. */
  lemma IsFirstIgnored(rs: seq<Resource>, flags: seq<bool>, isAnySafari: bool)
    requires |flags| == |rs|
    ensures SelectedIndex(WithIsFirst(rs, flags), isAnySafari) == SelectedIndex(rs, isAnySafari)
  {
    var rs' := WithIsFirst(rs, flags);
    if rs != [] {
      assert forall j :: 0 <= j < |rs| ==> Rank(rs'[j], isAnySafari) == Rank(rs[j], isAnySafari);
      SelectionIsBestRanked(rs, isAnySafari);
      SelectionIsBestRanked(rs', isAnySafari);
      BestIndexUnique(rs, isAnySafari, SelectedIndex(rs, isAnySafari).value, SelectedIndex(rs', isAnySafari).value);
    }
  }

  // ---------------------------------------------------------------------------
  // The rules one by one, as the suite exercises them.
  // ---------------------------------------------------------------------------

  /** The first resource needing a token wins, whatever comes before it. */
  lemma TokenBearingFirst(rs: seq<Resource>, isAnySafari: bool, i: nat)
    requires i < |rs| && NeedsToken(rs[i])
    requires forall j :: 0 <= j < i ==> !NeedsToken(rs[j])
    ensures GetMediaData(Some(rs), isAnySafari) == Some(rs[i])
  {
    var k := FirstMatching(rs, TokenBearing);
    assert k.Some?;
    assert !(k.value < i) && !(i < k.value);
  }

  /** On Safari, with no token-bearing resource, the first HLS resource wins even after a DASH one. */
  lemma SafariPrefersHls(rs: seq<Resource>, i: nat)
    requires forall r :: r in rs ==> !NeedsToken(r)
    requires i < |rs| && rs[i].streaming == HLS
    requires forall j :: 0 <= j < i ==> rs[j].streaming != HLS
    ensures GetMediaData(Some(rs), true) == Some(rs[i])
  {
    assert rs[i] in rs;
    var k := FirstMatching(rs, Protocol(HLS));
    assert k.Some?;
    assert !(k.value < i) && !(i < k.value);
  }

  /**
    Elsewhere, or on Safari without HLS, and with no token-bearing resource,
    the first DASH resource wins even after an HLS one.
  */
  lemma OtherwisePrefersDash(rs: seq<Resource>, isAnySafari: bool, i: nat)
    requires forall r :: r in rs ==> !NeedsToken(r)
    requires isAnySafari ==> forall r :: r in rs ==> r.streaming != HLS
    requires i < |rs| && rs[i].streaming == DASH
    requires forall j :: 0 <= j < i ==> rs[j].streaming != DASH
    ensures GetMediaData(Some(rs), isAnySafari) == Some(rs[i])
  {
    assert rs[i] in rs;
    assert forall j :: 0 <= j < |rs| ==> rs[j] in rs;
    var k := FirstMatching(rs, Protocol(DASH));
    assert k.Some?;
    assert !(k.value < i) && !(i < k.value);
  }

  /** Without a better resource, the first resource of the list wins. */
  lemma FallsBackToFirst(rs: seq<Resource>, isAnySafari: bool)
    requires rs != []
    requires forall r :: r in rs ==> !NeedsToken(r) && r.streaming != DASH
    requires isAnySafari ==> forall r :: r in rs ==> r.streaming != HLS
    ensures GetMediaData(Some(rs), isAnySafari) == Some(rs[0])
  {
    assert forall j :: 0 <= j < |rs| ==> rs[j] in rs;
  }
}
