/**
  The SrgSsr middleware's `setSource`: resolves a URN into a source
  descriptor by fetching the media's resources, filtering them, adding key
  systems and tokens, selecting one and composing the descriptor, and
  reports a blocked item or a failed request as a player error.

  The player is a `Player` object whose log records what a test observes:
  the middleware steps that ran (in the order a spy on each would see them), the arguments of
  `player.error` and the number of `player.localize` calls. The metadata
  service (`fetch`), the token service (`tokenize`) and the browser check
  (`isAnySafari`) are parameters.
*/
module Middleware {
  import opened Wrappers
  import opened Resources
  import opened ResourceFilter
  import opened KeySystems
  import opened AkamaiTokens
  import opened ResourceSelector
  import opened SourceComposer

  /** A middleware function whose calls a spy can observe. */
  datatype Step =
    | FetchStep          // getMediaComposition
    | FilterStep         // filterIncompatibleResources
    | KeySystemsStep     // composeKeySystemsResources
    | TokenStep          // composeAkamaiResources
    | SelectStep         // getMediaData
    | ComposeStep        // composeSrcMediaData
    | BlockingStep       // blockingReason
    | ProviderErrorStep  // dataProviderError
    | ErrorStep          // error
    | AnalyticsStep      // srgAnalytics
    | PosterStep         // updatePoster
    | TitleBarStep       // updateTitleBar

  /** A rejected metadata request, `{url, status, statusText}`, each possibly absent. */
  datatype ProviderError = ProviderError(url: Option<string>, status: Option<string>, statusText: Option<string>)

  /** What the metadata service answers for a URN: the main resources, or a rejection. */
  datatype FetchResult = Fetched(resources: Option<seq<Resource>>) | Rejected(error: ProviderError)

  /** What the body of `setSource` can throw, and its `catch` receives. */
  datatype Failure =
    | MissingSource                       // the source object is undefined
    | FetchFailed(error: ProviderError)   // the metadata request was rejected
    | TokenFailed(resource: Resource)     // the token exchange of `resource` was rejected
    | NoPlayableResource                  // no resource is left to select

  /** The `metadata` of a raised error. */
  datatype ErrorMetadata =
    | BlockedMetadata(errorType: string, src: SourceDescriptor)
    | ProviderMetadata(error: ProviderError)

  /** An error raised on the player; its code and localized message are not modelled. */
  datatype ErrorDescriptor = ErrorDescriptor(metadata: ErrorMetadata)

  /** A defined source object: `src` is the URN, the rest is the selection context. */
  datatype SourceRequest = SourceRequest(urn: string, options: Context)

  /**
    How `setSource` ends: by calling the next middleware `next(error, source)`,
    or by returning undefined without calling it.
  */
  datatype Completion = Next(error: Option<Failure>, source: Option<SourceDescriptor>) | Undefined

  /** One thing a test observes of the player: a spied step, a `player.error` call, a `player.localize` call. */
  datatype Event = Called(step: Step) | RaisedError(error: Option<ErrorDescriptor>) | Localized

  /**
    Logs compose associatively. Calling this where a method appends to its
    log keeps each stage method of `Player` within the solver's budget.
  */
  lemma LogAppend(a: seq<Event>, b: seq<Event>, c: seq<Event>)
    ensures (a + b) + c == a + (b + c)
  {
  }

  /** The arguments of the `player.error` calls among `events`, in call order. */
  function Raised(events: seq<Event>): seq<Option<ErrorDescriptor>> {
    if |events| == 0 then [] else RaisedBy(events[0]) + Raised(events[1..])
  }

  /** The argument of `e`, when `e` is a `player.error` call. */
  function RaisedBy(e: Event): seq<Option<ErrorDescriptor>> {
    if e.RaisedError? then [e.error] else []
  }

  /** The `player.error` calls of two logs, one after the other, are those of their concatenation. */
  lemma {:induction false} RaisedAppend(a: seq<Event>, b: seq<Event>)
    ensures Raised(a + b) == Raised(a) + Raised(b)
  {
    if |a| == 0 {
      assert a + b == b;
    } else {
      calc {
        Raised(a + b);
        == { assert (a + b)[0] == a[0]; assert (a + b)[1..] == a[1..] + b; }
        RaisedBy(a[0]) + Raised(a[1..] + b);
        == { RaisedAppend(a[1..], b); }
        RaisedBy(a[0]) + (Raised(a[1..]) + Raised(b));
      }
    }
  }

  /** `next` gets exactly one of an error and a source. */
  predicate Settled(c: Completion) {
    c.Next? ==> (c.error.None? <==> c.source.Some?)
  }

  /** JavaScript truthiness of an optional string: present and not empty. */
  predicate Truthy(s: Option<string>) {
    s.Some? && s.value != ""
  }

  /** The request error `dataProviderError` reports: a rejected request that names its URL. */
  function ReportableError(f: Failure): Option<ProviderError> {
    if f.FetchFailed? && Truthy(f.error.url) then Some(f.error) else None
  }

  /** `error(player, err)`: `player.error(null)`, then `player.error(err)`. */
  function ErrorEvents(err: ErrorDescriptor): (events: seq<Event>)
    ensures Localized !in events
  {
    [Called(ErrorStep), RaisedError(None), RaisedError(Some(err))]
  }

  /** The error `blockingReason` raises for `reason`: `{errorType: reason, src}`. */
  function BlockedError(reason: string, src: SourceDescriptor): ErrorDescriptor {
    ErrorDescriptor(BlockedMetadata(reason, src))
  }

  /** `blockingReason(player, reason, src)`: with a reason, localize it and raise the blocked error. */
  function BlockingReasonEvents(reason: Option<string>, src: SourceDescriptor): (events: seq<Event>)
    ensures Localized in events <==> Truthy(reason)
  {
    [Called(BlockingStep)]
      + if Truthy(reason) then [Localized] + ErrorEvents(BlockedError(reason.value, src)) else []
  }

  /** `dataProviderError(player, error)`: raise an error only for a rejected request with a URL. */
  function DataProviderErrorEvents(f: Failure): (events: seq<Event>)
    ensures Localized !in events
  {
    [Called(ProviderErrorStep)]
      + match ReportableError(f)
        case None => []
        case Some(e) => ErrorEvents(ErrorDescriptor(ProviderMetadata(e)))
  }

  /** A whole `setSource` call: how it ends and what the player saw, in order. */
  datatype Run = Run(completion: Completion, events: seq<Event>)

  /**
    The `catch` of `setSource`: a failure `dataProviderError` reports ends
    the call; any other failure is passed to the next middleware.
  */
  function Caught(f: Failure): (run: Run)
    ensures run.completion == Undefined <==> f.FetchFailed? && Truthy(f.error.url)
    ensures run.completion != Undefined ==> run.completion == Next(Some(f), None)
  {
    Run(if ReportableError(f).Some? then Undefined else Next(Some(f), None), DataProviderErrorEvents(f))
  }

  /** `run`, after `step` has run. */
  function After(step: Step, run: Run): (after: Run)
  {
    Run(run.completion, [Called(step)] + run.events)
  }

  /**
    Logging `step` and then doing `run` logs exactly the events of `After(step, run)`.
  */
  lemma StepThen(before: seq<Event>, step: Step, run: Run)
    ensures (before + [Called(step)]) + run.events == before + After(step, run).events
  {
    LogAppend(before, [Called(step)], run.events);
  }

  /** The candidates for selection: filtered, with key systems, then tokenized. */
  function Candidates(resources: Option<seq<Resource>>, tokenize: Resource -> Option<string>)
    : Result<seq<Resource>, Resource>
  {
    ComposeAkamaiResources(Some(ComposeKeySystemsResources(Some(FilterIncompatibleResources(resources)))), tokenize)
  }

  /** `srgAnalytics`, `updatePoster` and `updateTitleBar`, in that order. */
  const Decorations: seq<Event> := [Called(AnalyticsStep), Called(PosterStep), Called(TitleBarStep)]

  /**
    The selected resource becomes a descriptor; a blocked resource ends the
    call after the error is raised, any other goes on to analytics, poster
    and title bar and is passed to the next middleware.
  */
  function Finish(ctx: Context, selected: Resource): (run: Run)
    ensures run.completion == Undefined <==> Truthy(selected.blockReason)
    ensures run.completion != Undefined ==> run.completion == Next(None, Some(ComposeSrcMediaData(ctx, selected)))
  {
    var src := ComposeSrcMediaData(ctx, selected);
    var checked := BlockingReasonEvents(selected.blockReason, src);
    After(ComposeStep,
      if Truthy(selected.blockReason) then Run(Undefined, checked)
      else Run(Next(None, Some(src)), checked + Decorations))
  }

  /** Selection among the candidates; having none to select is a failure. */
  function Select(ctx: Context, candidates: seq<Resource>, isAnySafari: bool): (run: Run)
    ensures Settled(run.completion)
    ensures candidates == [] ==> run.completion == Next(Some(NoPlayableResource), None)
  {
    After(SelectStep,
      match GetMediaData(Some(candidates), isAnySafari)
      case None => Caught(NoPlayableResource)
      case Some(selected) => Finish(ctx, selected))
  }

  /** Filtering, key systems and tokens, then selection; a rejected token exchange is a failure. */
  function Prepare(ctx: Context, resources: Option<seq<Resource>>, isAnySafari: bool,
                   tokenize: Resource -> Option<string>): (run: Run)
    ensures Settled(run.completion)
    ensures Candidates(resources, tokenize).Err? ==>
      run.completion == Next(Some(TokenFailed(Candidates(resources, tokenize).error)), None)
  {
    After(FilterStep, After(KeySystemsStep, After(TokenStep,
      match Candidates(resources, tokenize)
      case Err(r) => Caught(TokenFailed(r))
      case Ok(candidates) => Select(ctx, candidates, isAnySafari))))
  }

  /** What `middleware(player).setSource(request, next)` does, as a function of its inputs. */
  function Resolve(request: Option<SourceRequest>, fetch: string -> FetchResult, isAnySafari: bool,
                   tokenize: Resource -> Option<string>): (run: Run)
    ensures Settled(run.completion)
    ensures request.None? ==> run.completion == Next(Some(MissingSource), None)
  {
    match request
    case None => Caught(MissingSource)
    case Some(req) =>
      After(FetchStep,
        match fetch(req.urn)
        case Rejected(e) => Caught(FetchFailed(e))
        case Fetched(resources) => Prepare(req.options, resources, isAnySafari, tokenize))
  }

  /** The host player, with the log of what the middleware did to it. */
  class Player {
    var log: seq<Event>

    constructor ()
      ensures log == []
    {
      log := [];
    }

    /** `error(player, err)`: clears the player's error, then raises `err`. */
    method Error(err: ErrorDescriptor)
      modifies this
      ensures log == old(log) + ErrorEvents(err)
    {
      log := log + [Called(ErrorStep)];
      log := log + [RaisedError(None)];
      log := log + [RaisedError(Some(err))];
      assert log == old(log) + ErrorEvents(err);
    }

    /**
      `blockingReason(player, reason, src)`: true, after raising an error
      tagged with the reason, when there is a reason; otherwise undefined
      (false) and nothing is localized or raised.
    */
    method BlockingReason(reason: Option<string>, src: SourceDescriptor) returns (blocked: bool)
      modifies this
      ensures blocked <==> Truthy(reason)
      ensures log == old(log) + BlockingReasonEvents(reason, src)
    {
      log := log + [Called(BlockingStep)];
      blocked := Truthy(reason);
      if blocked {
        log := log + [Localized];
        Error(BlockedError(reason.value, src));
        assert log == old(log) + BlockingReasonEvents(reason, src);
      }
    }

    /**
      `dataProviderError(player, error)`: true, after raising an error, when
      `error` is a rejected request with a URL; otherwise undefined (false)
      and nothing is raised.
    */
    method DataProviderError(f: Failure) returns (reported: bool)
      modifies this
      ensures reported <==> ReportableError(f).Some?
      ensures log == old(log) + DataProviderErrorEvents(f)
    {
      log := log + [Called(ProviderErrorStep)];
      var e := ReportableError(f);
      reported := e.Some?;
      if reported {
        Error(ErrorDescriptor(ProviderMetadata(e.value)));
        LogAppend(old(log), [Called(ProviderErrorStep)], ErrorEvents(ErrorDescriptor(ProviderMetadata(e.value))));
      }
    }

    /** The `catch` block of `setSource`. */
    method Catch(f: Failure) returns (c: Completion)
      modifies this
      ensures c == Caught(f).completion
      ensures log == old(log) + Caught(f).events
    {
      var reported := DataProviderError(f);
      c := if reported then Undefined else Next(Some(f), None);
    }

    /** `middleware(player).setSource(request, next)`. */
    method SetSource(request: Option<SourceRequest>, fetch: string -> FetchResult, isAnySafari: bool,
                     tokenize: Resource -> Option<string>) returns (c: Completion)
      modifies this
      ensures c == Resolve(request, fetch, isAnySafari, tokenize).completion
      ensures log == old(log) + Resolve(request, fetch, isAnySafari, tokenize).events
    {
      if request.None? {
        c := Catch(MissingSource);
        return;
      }
      var req := request.value;
      log := log + [Called(FetchStep)];
      var fetched := fetch(req.urn);
      if fetched.Rejected? {
        c := Catch(FetchFailed(fetched.error));
        StepThen(old(log), FetchStep, Caught(FetchFailed(fetched.error)));
      } else {
        c := PrepareSource(req.options, fetched.resources, isAnySafari, tokenize);
        StepThen(old(log), FetchStep, Prepare(req.options, fetched.resources, isAnySafari, tokenize));
      }
    }

    /** The resources of a fetched media, up to the descriptor. */
    method PrepareSource(ctx: Context, resources: Option<seq<Resource>>, isAnySafari: bool,
                         tokenize: Resource -> Option<string>) returns (c: Completion)
      modifies this
      ensures c == Prepare(ctx, resources, isAnySafari, tokenize).completion
      ensures log == old(log) + Prepare(ctx, resources, isAnySafari, tokenize).events
    {
      ghost var tail: Run;
      log := log + [Called(FilterStep)];
      var filtered := FilterIncompatibleResources(resources);
      log := log + [Called(KeySystemsStep)];
      var withKeySystems := ComposeKeySystemsResources(Some(filtered));
      log := log + [Called(TokenStep)];
      ghost var prefix := log;
      var tokenized := ComposeAkamaiResources(Some(withKeySystems), tokenize);
      if tokenized.Err? {
        c := Catch(TokenFailed(tokenized.error));
        tail := Caught(TokenFailed(tokenized.error));
      } else {
        c := SelectSource(ctx, tokenized.value, isAnySafari);
        tail := Select(ctx, tokenized.value, isAnySafari);
      }
      assert log == prefix + tail.events;
      StepThen(old(log) + [Called(FilterStep)] + [Called(KeySystemsStep)], TokenStep, tail);
      StepThen(old(log) + [Called(FilterStep)], KeySystemsStep, After(TokenStep, tail));
      StepThen(old(log), FilterStep, After(KeySystemsStep, After(TokenStep, tail)));
    }

    /** Selection, then the descriptor. */
    method SelectSource(ctx: Context, candidates: seq<Resource>, isAnySafari: bool) returns (c: Completion)
      modifies this
      ensures c == Select(ctx, candidates, isAnySafari).completion
      ensures log == old(log) + Select(ctx, candidates, isAnySafari).events
    {
      log := log + [Called(SelectStep)];
      var selected := GetMediaData(Some(candidates), isAnySafari);
      if selected.None? {
        c := Catch(NoPlayableResource);
        StepThen(old(log), SelectStep, Caught(NoPlayableResource));
      } else {
        c := FinishSource(ctx, selected.value);
        StepThen(old(log), SelectStep, Finish(ctx, selected.value));
      }
    }

    /** The descriptor of the selected resource, unless it is blocked. */
    method FinishSource(ctx: Context, selected: Resource) returns (c: Completion)
      modifies this
      ensures c == Finish(ctx, selected).completion
      ensures log == old(log) + Finish(ctx, selected).events
    {
      log := log + [Called(ComposeStep)];
      var src := ComposeSrcMediaData(ctx, selected);
      var blocked := BlockingReason(selected.blockReason, src);
      ghost var checked := BlockingReasonEvents(selected.blockReason, src);
      if blocked {
        c := Undefined;
        StepThen(old(log), ComposeStep, Run(Undefined, checked));
      } else {
        log := log + [Called(AnalyticsStep)];
        log := log + [Called(PosterStep)];
        log := log + [Called(TitleBarStep)];
        assert log == old(log) + [Called(ComposeStep)] + checked + Decorations;
        LogAppend(old(log) + [Called(ComposeStep)], checked, Decorations);
        c := Next(None, Some(src));
        StepThen(old(log), ComposeStep, Run(c, checked + Decorations));
      }
    }
  }
}
