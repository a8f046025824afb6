/**
  `composeKeySystemsResources`: turns each resource's `drmList` into a
  `keySystems` record, once any resource of the list has a `drmList`.
*/
module KeySystems {
  import opened Wrappers
  import opened Resources

  const WidevineKeySystem: string := "com.widevine.alpha"
  const PlayReadyKeySystem: string := "com.microsoft.playready"
  const FairPlayKeySystem: string := "com.apple.fps.1_0"

  /** The key-system identifier a DRM type is filed under; unknown types have none. */
  function KeySystemId(t: DrmType): Option<string> {
    match t
    case Widevine => Some(WidevineKeySystem)
    case PlayReady => Some(PlayReadyKeySystem)
    case FairPlay => Some(FairPlayKeySystem)
    case OtherDrm(_) => None
  }

  /** FairPlay takes both URLs as URIs; the other schemes take the license URL. */
  function KeySystemEntry(d: Drm): KeySystemValue {
    if d.drmType == FairPlay then FairPlayUris(d.certificateUrl, d.licenseUrl)
    else LicenseUrl(d.licenseUrl)
  }

  /**
    The `keySystems` record of a `drmList`, entries added in list order so
    that a later entry of the same scheme replaces an earlier one. Its keys
    are exactly the identifiers of the known schemes in the list.
  */
  function KeySystemsOf(drms: seq<Drm>): (ks: KeySystems)
    ensures forall k :: k in ks <==> exists d :: d in drms && KeySystemId(d.drmType) == Some(k)
  {
    if drms == [] then map[]
    else
      var init, last := drms[..|drms| - 1], drms[|drms| - 1];
      assert drms == init + [last];
      var ks := KeySystemsOf(init);
      match KeySystemId(last.drmType)
      case None => ks
      case Some(k) => ks[k := KeySystemEntry(last)]
  }

  /**
    The entry a key system ends up with is the last entry of the list filed
    under that key system.
  */
  lemma {:induction false} KeySystemsOfLastWins(drms: seq<Drm>, i: nat)
    requires i < |drms| && KeySystemId(drms[i].drmType).Some?
    requires forall j :: i < j < |drms| ==> KeySystemId(drms[j].drmType) != KeySystemId(drms[i].drmType)
    ensures KeySystemId(drms[i].drmType).value in KeySystemsOf(drms)
    ensures KeySystemsOf(drms)[KeySystemId(drms[i].drmType).value] == KeySystemEntry(drms[i])
  {
    var n := |drms|;
    var init, last := drms[..n - 1], drms[n - 1];
    assert drms == init + [last];
    if i < n - 1 {
      assert init[i] == drms[i];
      KeySystemsOfLastWins(init, i);
      assert KeySystemId(last.drmType) != KeySystemId(drms[i].drmType);
    }
  }

  /** A WIDEVINE entry U files `com.widevine.alpha` under U. */
  lemma WidevineMapsToLicenseUrl(drms: seq<Drm>, i: nat)
    requires i < |drms| && drms[i].drmType == Widevine
    requires forall j :: i < j < |drms| ==> drms[j].drmType != Widevine
    ensures KeySystemsOf(drms)[WidevineKeySystem] == LicenseUrl(drms[i].licenseUrl)
  {
    KeySystemsOfLastWins(drms, i);
  }

  /**
    A FAIRPLAY entry with license L and certificate C files
    `com.apple.fps.1_0` under `{certificateUri: C, licenseUri: L}`.
  */
  lemma FairPlayMapsToUris(drms: seq<Drm>, i: nat)
    requires i < |drms| && drms[i].drmType == FairPlay
    requires forall j :: i < j < |drms| ==> drms[j].drmType != FairPlay
    ensures KeySystemsOf(drms)[FairPlayKeySystem]
            == FairPlayUris(drms[i].certificateUrl, drms[i].licenseUrl)
  {
    KeySystemsOfLastWins(drms, i);
  }

  /** Some resource of the list has a `drmList`, possibly an empty one. */
  predicate AnyHasDrm(rs: seq<Resource>) {
    exists r :: r in rs && r.drmList.Some?
  }

  /** `resource` with the `keySystems` of its `drmList`; no `drmList` gives `{}`. */
  function WithKeySystems(r: Resource): Resource {
    r.(keySystems := Some(KeySystemsOf(r.drmList.GetOr([]))))
  }

  /**
    An absent list reads as the empty list. When no resource has a
    `drmList` the resources come back as given; otherwise every resource gets
    the `keySystems` of its own `drmList`. Length, order and every other field
    are kept.
  */
  function ComposeKeySystemsResources(resources: Option<seq<Resource>>): (out: seq<Resource>)
    ensures var rs := resources.GetOr([]);
      && |out| == |rs|
      && (!AnyHasDrm(rs) ==> out == rs)
      && (forall i :: 0 <= i < |rs| ==> out[i].(keySystems := rs[i].keySystems) == rs[i])
      && (AnyHasDrm(rs) ==> forall i :: 0 <= i < |rs| ==>
            out[i].keySystems == Some(KeySystemsOf(rs[i].drmList.GetOr([]))))
  {
    var rs := resources.GetOr([]);
    if !AnyHasDrm(rs) then rs
    else seq(|rs|, i requires 0 <= i < |rs| => WithKeySystems(rs[i]))
  }

  /** Absent and empty lists give the empty list. */
  lemma ComposeKeySystemsOfNothing()
    ensures ComposeKeySystemsResources(None) == []
    ensures ComposeKeySystemsResources(Some([])) == []
  {
  }

  /**
    Once one resource has a `drmList`, every resource of the list carries
    `keySystems`; one without a `drmList`, or with an empty one, carries `{}`.
  */
  lemma EveryResourceGetsKeySystems(rs: seq<Resource>, i: nat)
    requires AnyHasDrm(rs) && i < |rs|
    ensures ComposeKeySystemsResources(Some(rs))[i].keySystems.Some?
    ensures rs[i].drmList == None || rs[i].drmList == Some([]) ==>
            ComposeKeySystemsResources(Some(rs))[i].keySystems == Some(map[])
  {
  }

  /** The four-resource list of the suite maps to the records it expects. */
  lemma SuiteKeySystemsExample(license: string, certificate: string)
    ensures
      var empty := Resource(DASH, "", "", None, false, None, None, None);
      var widevine := [Drm(Widevine, license, None)];
      var fairPlay := [Drm(FairPlay, license, Some(certificate))];
      var rs := [empty.(drmList := Some(widevine)), empty,
                 empty.(streaming := HLS, drmList := Some(fairPlay)), empty.(streaming := HLS)];
      var out := ComposeKeySystemsResources(Some(rs));
      && |out| == 4
      && out[0].keySystems == Some(map[WidevineKeySystem := LicenseUrl(license)])
      && out[1].keySystems == Some(map[])
      && out[2].keySystems == Some(map[FairPlayKeySystem := FairPlayUris(Some(certificate), license)])
      && out[3].keySystems == Some(map[])
  {
    var empty := Resource(DASH, "", "", None, false, None, None, None);
    var rs0 := empty.(drmList := Some([Drm(Widevine, license, None)]));
    assert rs0 in [rs0, empty] && rs0.drmList.Some?;
    assert KeySystemsOf([Drm(Widevine, license, None)]) == map[WidevineKeySystem := LicenseUrl(license)] by {
      assert [Drm(Widevine, license, None)][..0] == [];
    }
    assert KeySystemsOf([Drm(FairPlay, license, Some(certificate))])
        == map[FairPlayKeySystem := FairPlayUris(Some(certificate), license)] by {
      assert [Drm(FairPlay, license, Some(certificate))][..0] == [];
    }
  }
}
