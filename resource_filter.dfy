/** `filterIncompatibleResources`: drops the resources the player cannot play. */
module ResourceFilter {
  import opened Wrappers
  import opened Resources

  /** HDS and RTMP resources are unplayable; every other protocol is kept. */
  predicate IsCompatible(r: Resource) {
    !r.streaming.HDS? && !r.streaming.RTMP?
  }

  /** The compatible resources of `rs`, in their original order. */
  function Compatible(rs: seq<Resource>): (out: seq<Resource>)
    ensures |out| <= |rs|
    ensures forall r :: r in out <==> r in rs && IsCompatible(r)
  {
    if rs == [] then []
    else if IsCompatible(rs[0]) then [rs[0]] + Compatible(rs[1..])
    else Compatible(rs[1..])
  }

  /**
    An absent list is read as the empty list; the result holds exactly the
    compatible resources of the input.
  */
  function FilterIncompatibleResources(resources: Option<seq<Resource>>): (out: seq<Resource>)
    ensures resources == None || resources == Some([]) ==> out == []
    ensures |out| <= |resources.GetOr([])|
    ensures forall r :: r in out <==> r in resources.GetOr([]) && IsCompatible(r)
  {
    Compatible(resources.GetOr([]))
  }

  /** A list made only of HDS and RTMP resources filters to the empty list. */
  lemma {:induction false} OnlyIncompatibleFiltersToEmpty(rs: seq<Resource>)
    requires forall r :: r in rs ==> r.streaming.HDS? || r.streaming.RTMP?
    ensures FilterIncompatibleResources(Some(rs)) == []
  {
    if rs != [] {
      assert rs[0] in rs;
      forall r | r in rs[1..] ensures r.streaming.HDS? || r.streaming.RTMP? {
        assert r in rs;
      }
      OnlyIncompatibleFiltersToEmpty(rs[1..]);
    }
  }

  /**
    Filtering distributes over concatenation: the surviving resources keep
    their relative order, and each resource is judged on its own.
  */
  lemma {:induction false} CompatibleAppend(a: seq<Resource>, b: seq<Resource>)
    ensures Compatible(a + b) == Compatible(a) + Compatible(b)
  {
    if a == [] {
      assert a + b == b;
    } else {
      assert (a + b)[0] == a[0];
      assert (a + b)[1..] == a[1..] + b;
      CompatibleAppend(a[1..], b);
    }
  }

  /** A list with no incompatible resource comes back as it is. */
  lemma {:induction false} CompatibleKeepsCompatibleList(rs: seq<Resource>)
    requires forall r :: r in rs ==> IsCompatible(r)
    ensures Compatible(rs) == rs
  {
    if rs != [] {
      assert rs[0] in rs;
      forall r | r in rs[1..] ensures IsCompatible(r) {
        assert r in rs;
      }
      CompatibleKeepsCompatibleList(rs[1..]);
    }
  }

  /** Filtering twice is filtering once. */
  lemma FilterIdempotent(resources: Option<seq<Resource>>)
    ensures var once := FilterIncompatibleResources(resources);
            FilterIncompatibleResources(Some(once)) == once
  {
    CompatibleKeepsCompatibleList(FilterIncompatibleResources(resources));
  }
}
