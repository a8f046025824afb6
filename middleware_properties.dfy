/** What a `setSource` call promises, on every input. */
module MiddlewareProperties {
  import opened Wrappers
  import opened Resources
  import opened ResourceFilter
  import opened KeySystems
  import opened AkamaiTokens
  import opened ResourceSelector
  import opened SourceComposer
  import opened Middleware

  /** An undefined source fails at entry: `next` gets the error, and no step but the `catch` runs. */
  lemma UndefinedSourceFailsAtEntry(fetch: string -> FetchResult, isAnySafari: bool, tokenize: Resource -> Option<string>)
    ensures Resolve(None, fetch, isAnySafari, tokenize).completion == Next(Some(MissingSource), None)
    ensures Resolve(None, fetch, isAnySafari, tokenize).events == [Called(ProviderErrorStep)]
  {
  }

  /**
    A rejected request that names its URL is reported as an error carrying
    the rejection and the call returns undefined; a rejection without a URL is
    passed to `next` and nothing is raised.
  */
  lemma RejectedFetch(req: SourceRequest, fetch: string -> FetchResult, isAnySafari: bool,
                      tokenize: Resource -> Option<string>, e: ProviderError)
    requires fetch(req.urn) == Rejected(e)
    ensures var run := Resolve(Some(req), fetch, isAnySafari, tokenize);
      if Truthy(e.url) then
        && run.completion == Undefined
        && run.events == [Called(FetchStep), Called(ProviderErrorStep)] + ErrorEvents(ErrorDescriptor(ProviderMetadata(e)))
      else
        && run.completion == Next(Some(FetchFailed(e)), None)
        && run.events == [Called(FetchStep), Called(ProviderErrorStep)]
  {
  }

  /** The steps that run before `blockingReason` when a resource is selected. */
  const UpToBlocking: seq<Event> :=
    [Called(FetchStep), Called(FilterStep), Called(KeySystemsStep), Called(TokenStep),
     Called(SelectStep), Called(ComposeStep), Called(BlockingStep)]

  /** Once a resource is selected, the call does what `Finish` does after the first five steps. */
  lemma ThroughSelection(req: SourceRequest, fetch: string -> FetchResult, isAnySafari: bool,
                         tokenize: Resource -> Option<string>, candidates: seq<Resource>, selected: Resource)
    requires fetch(req.urn).Fetched?
    requires Candidates(fetch(req.urn).resources, tokenize) == Ok(candidates)
    requires GetMediaData(Some(candidates), isAnySafari) == Some(selected)
    ensures var run := Resolve(Some(req), fetch, isAnySafari, tokenize);
      && run.completion == Finish(req.options, selected).completion
      && run.events == [Called(FetchStep), Called(FilterStep), Called(KeySystemsStep), Called(TokenStep),
                        Called(SelectStep)] + Finish(req.options, selected).events
  {
    var finish := Finish(req.options, selected);
    SelectOfSelected(req.options, candidates, isAnySafari, selected);
    PrepareOfCandidates(req.options, fetch(req.urn).resources, isAnySafari, tokenize, candidates);
    ResolveOfFetched(req, fetch, isAnySafari, tokenize);
    Flatten(FetchStep, FilterStep, KeySystemsStep, TokenStep, SelectStep, finish.events);
  }

  /** A fetched media goes on to `Prepare`, after the fetch step. */
  lemma ResolveOfFetched(req: SourceRequest, fetch: string -> FetchResult, isAnySafari: bool,
                         tokenize: Resource -> Option<string>)
    requires fetch(req.urn).Fetched?
    ensures Resolve(Some(req), fetch, isAnySafari, tokenize)
         == After(FetchStep, Prepare(req.options, fetch(req.urn).resources, isAnySafari, tokenize))
  {
  }

  lemma SelectOfSelected(ctx: Context, candidates: seq<Resource>, isAnySafari: bool, selected: Resource)
    requires GetMediaData(Some(candidates), isAnySafari) == Some(selected)
    ensures Select(ctx, candidates, isAnySafari) == After(SelectStep, Finish(ctx, selected))
  {
  }

  lemma PrepareOfCandidates(ctx: Context, resources: Option<seq<Resource>>, isAnySafari: bool,
                            tokenize: Resource -> Option<string>, candidates: seq<Resource>)
    requires Candidates(resources, tokenize) == Ok(candidates)
    ensures Prepare(ctx, resources, isAnySafari, tokenize)
         == After(FilterStep, After(KeySystemsStep, After(TokenStep, Select(ctx, candidates, isAnySafari))))
  {
  }

  /** Five logged steps in front of `rest`, written as one display; spelled out for the solver. */
  lemma Flatten(a: Step, b: Step, c: Step, d: Step, e: Step, rest: seq<Event>)
    ensures [Called(a)] + ([Called(b)] + ([Called(c)] + ([Called(d)] + ([Called(e)] + rest))))
         == [Called(a), Called(b), Called(c), Called(d), Called(e)] + rest
  {
  }

  /**
    A selected resource with a block reason R: the call returns undefined
    after localizing R and raising `{errorType: R, src}` for the composed
    descriptor; analytics, poster and title bar are not touched.
  */
  lemma BlockedSelection(req: SourceRequest, fetch: string -> FetchResult, isAnySafari: bool,
                         tokenize: Resource -> Option<string>, candidates: seq<Resource>, selected: Resource)
    requires fetch(req.urn).Fetched?
    requires Candidates(fetch(req.urn).resources, tokenize) == Ok(candidates)
    requires GetMediaData(Some(candidates), isAnySafari) == Some(selected)
    requires Truthy(selected.blockReason)
    ensures var run := Resolve(Some(req), fetch, isAnySafari, tokenize);
      && run.completion == Undefined
      && run.events == UpToBlocking + [Localized]
           + ErrorEvents(BlockedError(selected.blockReason.value, ComposeSrcMediaData(req.options, selected)))
  {
    ThroughSelection(req, fetch, isAnySafari, tokenize, candidates, selected);
    var raised := ErrorEvents(BlockedError(selected.blockReason.value, ComposeSrcMediaData(req.options, selected)));
    FinishBlocked(req.options, selected);
    BlockedEvents(raised);
  }

  /** The log of a blocked run, regrouped. */
  lemma BlockedEvents(raised: seq<Event>)
    ensures [Called(FetchStep), Called(FilterStep), Called(KeySystemsStep), Called(TokenStep), Called(SelectStep)]
            + ([Called(ComposeStep), Called(BlockingStep), Localized] + raised)
         == UpToBlocking + [Localized] + raised
  {
  }

  /** A blocked selection composes, checks, localizes and raises. */
  lemma FinishBlocked(ctx: Context, selected: Resource)
    requires Truthy(selected.blockReason)
    ensures Finish(ctx, selected).events
         == [Called(ComposeStep), Called(BlockingStep), Localized]
            + ErrorEvents(BlockedError(selected.blockReason.value, ComposeSrcMediaData(ctx, selected)))
  {
  }

  /**
    A selected resource without a block reason: every step runs once in
    pipeline order, nothing is raised, and `next` gets a null error and the
    descriptor of the selection.
  */
  lemma ResolvedSelection(req: SourceRequest, fetch: string -> FetchResult, isAnySafari: bool,
                          tokenize: Resource -> Option<string>, candidates: seq<Resource>, selected: Resource)
    requires fetch(req.urn).Fetched?
    requires Candidates(fetch(req.urn).resources, tokenize) == Ok(candidates)
    requires GetMediaData(Some(candidates), isAnySafari) == Some(selected)
    requires !Truthy(selected.blockReason)
    ensures var run := Resolve(Some(req), fetch, isAnySafari, tokenize);
      && run.completion == Next(None, Some(ComposeSrcMediaData(req.options, selected)))
      && run.events == UpToBlocking + Decorations
  {
    ThroughSelection(req, fetch, isAnySafari, tokenize, candidates, selected);
    FinishResolved(req.options, selected);
    ResolvedEvents();
  }

  /** An unblocked selection composes, checks, and updates analytics, poster and title bar. */
  lemma FinishResolved(ctx: Context, selected: Resource)
    requires !Truthy(selected.blockReason)
    ensures Finish(ctx, selected).events == [Called(ComposeStep), Called(BlockingStep)] + Decorations
  {
  }

  /** The log of a resolved run, regrouped. */
  lemma ResolvedEvents()
    ensures [Called(FetchStep), Called(FilterStep), Called(KeySystemsStep), Called(TokenStep), Called(SelectStep)]
            + ([Called(ComposeStep), Called(BlockingStep)] + Decorations)
         == UpToBlocking + Decorations
  {
  }

  /** A rejected token exchange is passed to `next`; nothing is raised. */
  lemma RejectedToken(req: SourceRequest, fetch: string -> FetchResult, isAnySafari: bool,
                      tokenize: Resource -> Option<string>, r: Resource)
    requires fetch(req.urn).Fetched?
    requires Candidates(fetch(req.urn).resources, tokenize) == Err(r)
    ensures var run := Resolve(Some(req), fetch, isAnySafari, tokenize);
      && run.completion == Next(Some(TokenFailed(r)), None)
      && run.events == [Called(FetchStep), Called(FilterStep), Called(KeySystemsStep), Called(TokenStep),
                        Called(ProviderErrorStep)]
  {
    var failed := Next(Some(TokenFailed(r)), None);
    PrepareOfRejected(req.options, fetch(req.urn).resources, isAnySafari, tokenize, r);
    ResolveOfFetched(req, fetch, isAnySafari, tokenize);
    assert After(FetchStep, Run(failed, [Called(FilterStep), Called(KeySystemsStep), Called(TokenStep),
                                         Called(ProviderErrorStep)]))
        == Run(failed, [Called(FetchStep), Called(FilterStep), Called(KeySystemsStep), Called(TokenStep),
                        Called(ProviderErrorStep)]);
  }

  lemma PrepareOfRejected(ctx: Context, resources: Option<seq<Resource>>, isAnySafari: bool,
                          tokenize: Resource -> Option<string>, r: Resource)
    requires Candidates(resources, tokenize) == Err(r)
    ensures Prepare(ctx, resources, isAnySafari, tokenize)
         == Run(Next(Some(TokenFailed(r)), None),
                [Called(FilterStep), Called(KeySystemsStep), Called(TokenStep), Called(ProviderErrorStep)])
  {
    assert Caught(TokenFailed(r)) == Run(Next(Some(TokenFailed(r)), None), [Called(ProviderErrorStep)]);
  }

  /** With no resource left to select, the failure is passed to `next`; nothing is composed or raised. */
  lemma NothingToSelect(req: SourceRequest, fetch: string -> FetchResult, isAnySafari: bool,
                        tokenize: Resource -> Option<string>)
    requires fetch(req.urn).Fetched?
    requires Candidates(fetch(req.urn).resources, tokenize) == Ok([])
    ensures var run := Resolve(Some(req), fetch, isAnySafari, tokenize);
      && run.completion == Next(Some(NoPlayableResource), None)
      && run.events == [Called(FetchStep), Called(FilterStep), Called(KeySystemsStep), Called(TokenStep),
                        Called(SelectStep), Called(ProviderErrorStep)]
  {
    SelectOfNothing(req.options, isAnySafari);
    PrepareOfCandidates(req.options, fetch(req.urn).resources, isAnySafari, tokenize, []);
    ResolveOfFetched(req, fetch, isAnySafari, tokenize);
  }

  lemma SelectOfNothing(ctx: Context, isAnySafari: bool)
    ensures Select(ctx, [], isAnySafari)
         == Run(Next(Some(NoPlayableResource), None), [Called(SelectStep), Called(ProviderErrorStep)])
  {
    assert Caught(NoPlayableResource) == Run(Next(Some(NoPlayableResource), None), [Called(ProviderErrorStep)]);
  }

  /** An error was raised on the player. */
  predicate RaisedSome(events: seq<Event>) {
    exists e :: e in events && e.RaisedError? && e.error.Some?
  }

  /**
    The poster and title bar are updated exactly when `next` gets a null
    error, and then it also gets a descriptor; an error is raised exactly when
    the call returns undefined without calling `next`.
  */
  predicate ExclusiveOutcome(run: Run) {
    && (Called(PosterStep) in run.events <==> run.completion.Next? && run.completion.error.None?)
    && (Called(TitleBarStep) in run.events <==> Called(PosterStep) in run.events)
    && (run.completion.Next? ==> (run.completion.error.None? <==> run.completion.source.Some?))
    && (RaisedSome(run.events) <==> run.completion == Undefined)
  }

  /** A log made only of the calls of `steps` raises nothing, and names exactly those steps. */
  lemma CallsOnly(events: seq<Event>, steps: seq<Step>)
    requires |events| == |steps| && forall i :: 0 <= i < |steps| ==> events[i] == Called(steps[i])
    ensures !RaisedSome(events)
    ensures forall step :: Called(step) in events <==> step in steps
  {
    forall e | e in events ensures e.Called? && e.step in steps {
      var i :| 0 <= i < |events| && events[i] == e;
      assert steps[i] in steps;
    }
    forall step | step in steps ensures Called(step) in events {
      var i :| 0 <= i < |steps| && steps[i] == step;
      assert events[i] == Called(step);
    }
  }

  /** A call that passes a failure to `next` after `steps`, raising nothing. */
  lemma FailureIsExclusive(run: Run, steps: seq<Step>, f: Failure)
    requires run.completion == Next(Some(f), None)
    requires |run.events| == |steps| && forall i :: 0 <= i < |steps| ==> run.events[i] == Called(steps[i])
    requires PosterStep !in steps && TitleBarStep !in steps
    ensures ExclusiveOutcome(run)
  {
    CallsOnly(run.events, steps);
  }

  lemma ExclusiveWhenFetchRejected(req: SourceRequest, fetch: string -> FetchResult, isAnySafari: bool,
                                   tokenize: Resource -> Option<string>, e: ProviderError)
    requires fetch(req.urn) == Rejected(e)
    ensures ExclusiveOutcome(Resolve(Some(req), fetch, isAnySafari, tokenize))
  {
    RejectedFetch(req, fetch, isAnySafari, tokenize, e);
    if Truthy(e.url) {
      ReportedRunIsExclusive(e);
    } else {
      var run := Resolve(Some(req), fetch, isAnySafari, tokenize);
      UnreportedFetchRunIsExclusive(e);
      assert run == Run(run.completion, run.events);
    }
  }

  /** The run of an unreported request error raises nothing and updates nothing. */
  lemma UnreportedFetchRunIsExclusive(e: ProviderError)
    ensures ExclusiveOutcome(Run(Next(Some(FetchFailed(e)), None), [Called(FetchStep), Called(ProviderErrorStep)]))
  {
    FailureIsExclusive(Run(Next(Some(FetchFailed(e)), None), [Called(FetchStep), Called(ProviderErrorStep)]),
                       [FetchStep, ProviderErrorStep], FetchFailed(e));
  }

  /** The run of a reported request error raises an error and updates nothing. */
  lemma ReportedRunIsExclusive(e: ProviderError)
    ensures ExclusiveOutcome(Run(Undefined, [Called(FetchStep), Called(ProviderErrorStep)]
                                            + ErrorEvents(ErrorDescriptor(ProviderMetadata(e)))))
  {
    var events := [Called(FetchStep), Called(ProviderErrorStep)] + ErrorEvents(ErrorDescriptor(ProviderMetadata(e)));
    assert events[4] in events;
  }

  lemma ExclusiveWhenBlocked(req: SourceRequest, fetch: string -> FetchResult, isAnySafari: bool,
                             tokenize: Resource -> Option<string>, candidates: seq<Resource>, selected: Resource)
    requires fetch(req.urn).Fetched?
    requires Candidates(fetch(req.urn).resources, tokenize) == Ok(candidates)
    requires GetMediaData(Some(candidates), isAnySafari) == Some(selected)
    requires Truthy(selected.blockReason)
    ensures ExclusiveOutcome(Resolve(Some(req), fetch, isAnySafari, tokenize))
  {
    BlockedSelection(req, fetch, isAnySafari, tokenize, candidates, selected);
    BlockedRunIsExclusive(BlockedError(selected.blockReason.value, ComposeSrcMediaData(req.options, selected)));
  }

  /** The run of a blocked selection raises an error and updates nothing. */
  lemma BlockedRunIsExclusive(err: ErrorDescriptor)
    ensures ExclusiveOutcome(Run(Undefined, UpToBlocking + [Localized] + ErrorEvents(err)))
  {
    var events := UpToBlocking + [Localized] + ErrorEvents(err);
    assert events[|events| - 1] in events;
    forall i | 0 <= i < |events| ensures events[i] != Called(PosterStep) && events[i] != Called(TitleBarStep) {
    }
  }

  lemma ExclusiveWhenResolved(req: SourceRequest, fetch: string -> FetchResult, isAnySafari: bool,
                              tokenize: Resource -> Option<string>, candidates: seq<Resource>, selected: Resource)
    requires fetch(req.urn).Fetched?
    requires Candidates(fetch(req.urn).resources, tokenize) == Ok(candidates)
    requires GetMediaData(Some(candidates), isAnySafari) == Some(selected)
    requires !Truthy(selected.blockReason)
    ensures ExclusiveOutcome(Resolve(Some(req), fetch, isAnySafari, tokenize))
  {
    ResolvedSelection(req, fetch, isAnySafari, tokenize, candidates, selected);
    ResolvedRunIsExclusive(ComposeSrcMediaData(req.options, selected));
  }

  /** The run of a resolved selection raises nothing and updates everything. */
  lemma ResolvedRunIsExclusive(src: SourceDescriptor)
    ensures ExclusiveOutcome(Run(Next(None, Some(src)), UpToBlocking + Decorations))
  {
    CallsOnly(UpToBlocking + Decorations,
              [FetchStep, FilterStep, KeySystemsStep, TokenStep, SelectStep, ComposeStep, BlockingStep,
               AnalyticsStep, PosterStep, TitleBarStep]);
  }

  /** A fetched media whose token exchange succeeded. */
  lemma ExclusiveWhenTokenized(req: SourceRequest, fetch: string -> FetchResult, isAnySafari: bool,
                               tokenize: Resource -> Option<string>, candidates: seq<Resource>)
    requires fetch(req.urn).Fetched?
    requires Candidates(fetch(req.urn).resources, tokenize) == Ok(candidates)
    ensures ExclusiveOutcome(Resolve(Some(req), fetch, isAnySafari, tokenize))
  {
    match GetMediaData(Some(candidates), isAnySafari)
    case None =>
      ExclusiveWhenNothingToSelect(req, fetch, isAnySafari, tokenize);
    case Some(selected) =>
      if Truthy(selected.blockReason) {
        ExclusiveWhenBlocked(req, fetch, isAnySafari, tokenize, candidates, selected);
      } else {
        ExclusiveWhenResolved(req, fetch, isAnySafari, tokenize, candidates, selected);
      }
  }

  /** A fetched media that leaves nothing to select. */
  lemma ExclusiveWhenNothingToSelect(req: SourceRequest, fetch: string -> FetchResult, isAnySafari: bool,
                                     tokenize: Resource -> Option<string>)
    requires fetch(req.urn).Fetched?
    requires Candidates(fetch(req.urn).resources, tokenize) == Ok([])
    ensures ExclusiveOutcome(Resolve(Some(req), fetch, isAnySafari, tokenize))
  {
    NothingToSelect(req, fetch, isAnySafari, tokenize);
    var run := Resolve(Some(req), fetch, isAnySafari, tokenize);
    NothingRunIsExclusive();
    assert run == Run(run.completion, run.events);
  }

  /** The run that finds nothing to select raises nothing and updates nothing. */
  lemma NothingRunIsExclusive()
    ensures ExclusiveOutcome(Run(Next(Some(NoPlayableResource), None),
                                 [Called(FetchStep), Called(FilterStep), Called(KeySystemsStep), Called(TokenStep),
                                  Called(SelectStep), Called(ProviderErrorStep)]))
  {
    FailureIsExclusive(Run(Next(Some(NoPlayableResource), None),
                           [Called(FetchStep), Called(FilterStep), Called(KeySystemsStep), Called(TokenStep),
                            Called(SelectStep), Called(ProviderErrorStep)]),
                       [FetchStep, FilterStep, KeySystemsStep, TokenStep, SelectStep, ProviderErrorStep],
                       NoPlayableResource);
  }

  /** A fetched media whose token exchange was rejected. */
  lemma ExclusiveWhenTokenRejected(req: SourceRequest, fetch: string -> FetchResult, isAnySafari: bool,
                                   tokenize: Resource -> Option<string>, r: Resource)
    requires fetch(req.urn).Fetched?
    requires Candidates(fetch(req.urn).resources, tokenize) == Err(r)
    ensures ExclusiveOutcome(Resolve(Some(req), fetch, isAnySafari, tokenize))
  {
    RejectedToken(req, fetch, isAnySafari, tokenize, r);
    var run := Resolve(Some(req), fetch, isAnySafari, tokenize);
    TokenRejectedRunIsExclusive(r);
    assert run == Run(run.completion, run.events);
  }

  /** The run of a rejected token exchange raises nothing and updates nothing. */
  lemma TokenRejectedRunIsExclusive(r: Resource)
    ensures ExclusiveOutcome(Run(Next(Some(TokenFailed(r)), None),
                                 [Called(FetchStep), Called(FilterStep), Called(KeySystemsStep), Called(TokenStep),
                                  Called(ProviderErrorStep)]))
  {
    FailureIsExclusive(Run(Next(Some(TokenFailed(r)), None),
                           [Called(FetchStep), Called(FilterStep), Called(KeySystemsStep), Called(TokenStep),
                            Called(ProviderErrorStep)]),
                       [FetchStep, FilterStep, KeySystemsStep, TokenStep, ProviderErrorStep], TokenFailed(r));
  }

  /** A fetched media. */
  lemma ExclusiveWhenFetched(req: SourceRequest, fetch: string -> FetchResult, isAnySafari: bool,
                             tokenize: Resource -> Option<string>)
    requires fetch(req.urn).Fetched?
    ensures ExclusiveOutcome(Resolve(Some(req), fetch, isAnySafari, tokenize))
  {
    match Candidates(fetch(req.urn).resources, tokenize)
    case Err(r) =>
      ExclusiveWhenTokenRejected(req, fetch, isAnySafari, tokenize, r);
    case Ok(candidates) =>
      ExclusiveWhenTokenized(req, fetch, isAnySafari, tokenize, candidates);
  }

  /** Every `setSource` call ends in exactly one of its outcomes. */
  lemma OutcomesAreExclusive(request: Option<SourceRequest>, fetch: string -> FetchResult,
                             isAnySafari: bool, tokenize: Resource -> Option<string>)
    ensures ExclusiveOutcome(Resolve(request, fetch, isAnySafari, tokenize))
  {
    match request
    case None =>
      UndefinedSourceFailsAtEntry(fetch, isAnySafari, tokenize);
      FailureIsExclusive(Run(Next(Some(MissingSource), None), [Called(ProviderErrorStep)]),
                         [ProviderErrorStep], MissingSource);
    case Some(req) =>
      match fetch(req.urn)
      case Rejected(e) => ExclusiveWhenFetchRejected(req, fetch, isAnySafari, tokenize, e);
      case Fetched(_) => ExclusiveWhenFetched(req, fetch, isAnySafari, tokenize);
  }

  /**
    A URN whose media offers one HLS and one DASH resource, neither needing a
    token and the DASH one not blocked, resolves off Safari to the DASH resource.
  */
  lemma HlsAndDashResolveToDash(req: SourceRequest, fetch: string -> FetchResult,
                                tokenize: Resource -> Option<string>, hls: Resource, dash: Resource)
    requires hls.streaming == HLS && dash.streaming == DASH
    requires !NeedsToken(hls) && !NeedsToken(dash)
    requires !Truthy(dash.blockReason)
    requires fetch(req.urn) == Fetched(Some([hls, dash]))
    ensures var run := Resolve(Some(req), fetch, false, tokenize);
      && run.completion.Next? && run.completion.error == None && run.completion.source.Some?
      && run.completion.source.value.src == dash.url
      && run.completion.source.value.mimeType == dash.mimeType
  {
    var rs := [hls, dash];
    CompatibleKeepsCompatibleList(rs);
    assert FilterIncompatibleResources(Some(rs)) == rs;
    var ks := ComposeKeySystemsResources(Some(rs));
    assert ks[0].(keySystems := hls.keySystems) == hls && ks[1].(keySystems := dash.keySystems) == dash;
    assert ks == [ks[0], ks[1]];
    NoTokenNoExchange(ks, tokenize);
    assert Candidates(Some(rs), tokenize) == Ok(ks);
    OtherwisePrefersDash(ks, false, 1);
    ResolvedSelection(req, fetch, false, tokenize, ks, ks[1]);
  }

  /**
    A resolved descriptor always plays one of the fetched resources that is
    compatible: its MIME type, and its URL unless that resource needed a token.
  */
  lemma ResolvedSourceIsCompatibleResource(req: SourceRequest, fetch: string -> FetchResult, isAnySafari: bool,
                                           tokenize: Resource -> Option<string>)
    ensures var run := Resolve(Some(req), fetch, isAnySafari, tokenize);
      run.completion.Next? && run.completion.source.Some? ==>
        exists r :: && r in fetch(req.urn).resources.GetOr([]) && IsCompatible(r)
                   && run.completion.source.value.mimeType == r.mimeType
                   && (NeedsToken(r) || run.completion.source.value.src == r.url)
  {
    var run := Resolve(Some(req), fetch, isAnySafari, tokenize);
    if run.completion.Next? && run.completion.source.Some? {
      assert fetch(req.urn).Fetched?;
      var resources := fetch(req.urn).resources;
      var filtered := FilterIncompatibleResources(resources);
      var withKeySystems := ComposeKeySystemsResources(Some(filtered));
      var tokenized := ComposeAkamaiResources(Some(withKeySystems), tokenize);
      assert tokenized.Ok?;
      var candidates := tokenized.value;
      var selected := GetMediaData(Some(candidates), isAnySafari);
      assert selected.Some?;
      assert !Truthy(selected.value.blockReason);
      ResolvedSelection(req, fetch, isAnySafari, tokenize, candidates, selected.value);
      var i :| 0 <= i < |candidates| && candidates[i] == selected.value;
      var r := filtered[i];
      assert withKeySystems[i].(keySystems := r.keySystems) == r;
      assert r in filtered;
      var d := run.completion.source.value;
      assert d.mimeType == r.mimeType && (NeedsToken(r) || d.src == r.url);
    }
  }

  /** `error` calls `player.error` twice: first with `null`, then with the error. */
  lemma ErrorRaisesClearedThenError(err: ErrorDescriptor)
    ensures Raised(ErrorEvents(err)) == [None, Some(err)]
  {
    var cleared, raised := [RaisedError(None)], [RaisedError(Some(err))];
    RaisedAppend(cleared, raised);
    RaisedAppend([Called(ErrorStep)], cleared + raised);
    assert [Called(ErrorStep)] + (cleared + raised) == ErrorEvents(err);
  }

  /**
    `blockingReason` localizes and raises only for a reason, and then raises,
    after clearing the error, one whose metadata is `{errorType: reason, src}`.
  */
  lemma BlockingReasonRaisesOnlyForReason(reason: Option<string>, src: SourceDescriptor)
    ensures Raised(BlockingReasonEvents(reason, src))
         == if Truthy(reason) then [None, Some(BlockedError(reason.value, src))] else []
    ensures var events := BlockingReasonEvents(reason, src);
      && (Localized in events <==> Truthy(reason))
      && (RaisedSome(events) <==> Truthy(reason))
      && (Truthy(reason) ==>
            events[|events| - 2..] == [RaisedError(None), RaisedError(Some(ErrorDescriptor(BlockedMetadata(reason.value, src))))])
  {
    var events := BlockingReasonEvents(reason, src);
    if Truthy(reason) {
      var raised := ErrorEvents(BlockedError(reason.value, src));
      ErrorRaisesClearedThenError(BlockedError(reason.value, src));
      RaisedAppend([Localized], raised);
      RaisedAppend([Called(BlockingStep)], [Localized] + raised);
      assert events[1] == Localized;
      assert events[|events| - 1] in events;
    } else {
      assert events == [Called(BlockingStep)];
    }
  }

  /**
    `dataProviderError` raises an error exactly for a rejected request that
    names its URL, and that error carries the rejection.
  */
  lemma DataProviderErrorRaisesOnlyWithUrl(f: Failure)
    ensures Raised(DataProviderErrorEvents(f))
         == if f.FetchFailed? && Truthy(f.error.url) then [None, Some(ErrorDescriptor(ProviderMetadata(f.error)))] else []
    ensures var events := DataProviderErrorEvents(f);
      && (RaisedSome(events) <==> f.FetchFailed? && Truthy(f.error.url))
      && (f.FetchFailed? && Truthy(f.error.url) ==>
            events[|events| - 1] == RaisedError(Some(ErrorDescriptor(ProviderMetadata(f.error)))))
  {
    var events := DataProviderErrorEvents(f);
    if f.FetchFailed? && Truthy(f.error.url) {
      var raised := ErrorEvents(ErrorDescriptor(ProviderMetadata(f.error)));
      ErrorRaisesClearedThenError(ErrorDescriptor(ProviderMetadata(f.error)));
      RaisedAppend([Called(ProviderErrorStep)], raised);
      assert events[|events| - 1] in events;
    } else {
      assert events == [Called(ProviderErrorStep)];
    }
  }

  /**
    An empty source object, as the suite passes `{}`. Its absent `src` and
    `type` are written as "", which the model treats as absent (JavaScript
    truthiness).
  */
  const EmptySource: SourceDescriptor := SourceDescriptor("", "", None, None, None)

  /**
    On a fresh player, `blockingReason` without a reason returns undefined and
    leaves the player alone; with STARTDATE it returns true, localizes, and the
    second `player.error` call carries `{errorType: 'STARTDATE', src: {}}`.
  */
  method BlockingReasonOnFreshPlayer() returns (unblocked: bool, blocked: bool, log: seq<Event>)
    ensures !unblocked && blocked
    ensures log == [Called(BlockingStep), Called(BlockingStep), Localized, Called(ErrorStep),
                    RaisedError(None), RaisedError(Some(BlockedError("STARTDATE", EmptySource)))]
  {
    var player := new Player();
    StartDateEvents();
    unblocked := player.BlockingReason(None, EmptySource);
    assert player.log == [Called(BlockingStep)];
    blocked := player.BlockingReason(Some("STARTDATE"), EmptySource);
    assert player.log == [Called(BlockingStep)] + BlockingReasonEvents(Some("STARTDATE"), EmptySource);
    log := player.log;
  }

  /** What `blockingReason` logs without a reason, and with STARTDATE. */
  lemma StartDateEvents()
    ensures BlockingReasonEvents(None, EmptySource) == [Called(BlockingStep)]
    ensures BlockingReasonEvents(Some("STARTDATE"), EmptySource)
         == [Called(BlockingStep), Localized, Called(ErrorStep),
             RaisedError(None), RaisedError(Some(BlockedError("STARTDATE", EmptySource)))]
  {
  }

  /**
    On a fresh player, `dataProviderError` with `{}` returns undefined and
    raises nothing; with a 404 rejection naming its URL it returns true and
    raises an error carrying the rejection.
  */
  method DataProviderErrorOnFreshPlayer(url: string) returns (ignored: bool, reported: bool, log: seq<Event>)
    requires url != ""
    ensures !ignored && reported
    ensures var e := ProviderError(Some(url), Some("404"), Some("Not Found"));
      log == [Called(ProviderErrorStep), Called(ProviderErrorStep), Called(ErrorStep),
              RaisedError(None), RaisedError(Some(ErrorDescriptor(ProviderMetadata(e))))]
  {
    var player := new Player();
    ignored := player.DataProviderError(FetchFailed(ProviderError(None, None, None)));
    reported := player.DataProviderError(FetchFailed(ProviderError(Some(url), Some("404"), Some("Not Found"))));
    log := player.log;
  }
}
