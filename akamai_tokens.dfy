/**
  `composeAkamaiResources`: exchanges the URL of every resource that needs an
  Akamai token for a signed URL. The token service is the parameter
  `tokenize`, which gives the signed URL of a resource or `None` when the
  exchange is rejected.
*/
module AkamaiTokens {
  import opened Wrappers
  import opened Resources

  /** `r` after its exchange: a signed URL in place of its own, when it needs one. */
  function Tokenized(r: Resource, tokenize: Resource -> Option<string>): Option<Resource> {
    if !NeedsToken(r) then Some(r)
    else match tokenize(r)
      case None => None
      case Some(signed) => Some(r.(url := signed))
  }

  /**
    Every resource after its exchange, in order; the first resource whose
    exchange is rejected rejects the whole list. Each resource either needs
    no token and is kept as it is, or has its URL, and nothing else, replaced.
  */
  function TokenizeAll(rs: seq<Resource>, tokenize: Resource -> Option<string>): (out: Result<seq<Resource>, Resource>)
    ensures out.Ok? <==> forall r :: r in rs && NeedsToken(r) ==> tokenize(r).Some?
    ensures out.Ok? ==> |out.value| == |rs|
    ensures out.Ok? ==> forall i :: 0 <= i < |rs| ==>
      if NeedsToken(rs[i]) then out.value[i] == rs[i].(url := tokenize(rs[i]).value)
      else out.value[i] == rs[i]
    ensures out.Err? ==> out.error in rs && NeedsToken(out.error) && tokenize(out.error).None?
  {
    if rs == [] then Ok([])
    else match Tokenized(rs[0], tokenize)
      case None => Err(rs[0])
      case Some(head) =>
        match TokenizeAll(rs[1..], tokenize)
        case Err(r) => Err(r)
        case Ok(tail) => Ok([head] + tail)
  }

  /** An absent list reads as the empty list. */
  function ComposeAkamaiResources(resources: Option<seq<Resource>>, tokenize: Resource -> Option<string>)
    : (out: Result<seq<Resource>, Resource>)
    ensures resources == None || resources == Some([]) ==> out == Ok([])
  {
    TokenizeAll(resources.GetOr([]), tokenize)
  }

  /**
    The token service is consulted only about resources that need a token:
    two services that agree on those give the same result.
  */
  lemma {:induction false} OnlyTokenBearingAreTokenized(
    rs: seq<Resource>, t1: Resource -> Option<string>, t2: Resource -> Option<string>)
    requires forall r :: r in rs && NeedsToken(r) ==> t1(r) == t2(r)
    ensures TokenizeAll(rs, t1) == TokenizeAll(rs, t2)
  {
    if rs != [] {
      assert rs[0] in rs;
      forall r | r in rs[1..] && NeedsToken(r) ensures t1(r) == t2(r) {
        assert r in rs;
      }
      OnlyTokenBearingAreTokenized(rs[1..], t1, t2);
    }
  }

  /**
    A list where no resource needs a token (tokenType NONE, another type,
    or none at all) comes back unchanged, whatever the token service does.
  */
  lemma NoTokenNoExchange(rs: seq<Resource>, tokenize: Resource -> Option<string>)
    requires forall r :: r in rs ==> !NeedsToken(r)
    ensures ComposeAkamaiResources(Some(rs), tokenize) == Ok(rs)
  {
    var out := TokenizeAll(rs, tokenize);
    assert out.Ok?;
    forall i | 0 <= i < |rs| ensures out.value[i] == rs[i] {
      assert rs[i] in rs;
    }
    assert out.value == rs;
  }

  /** When every exchange succeeds, the list keeps its length. */
  lemma TokenizedKeepsLength(rs: seq<Resource>, tokenize: Resource -> Option<string>)
    requires forall r :: r in rs && NeedsToken(r) ==> tokenize(r).Some?
    ensures ComposeAkamaiResources(Some(rs), tokenize).Ok?
    ensures |ComposeAkamaiResources(Some(rs), tokenize).value| == |rs|
  {
  }
}
