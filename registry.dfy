/** Queries over the provider table that the service relies on: the snapshot
    of regexes of APPROVED providers, the type-scoped provider lookup, the
    lookup by id, the type-existence check, and the resolution modes of the
    action table. */
module Registry {
  import opened Entities

  /** The regex entities of provider `p`, in its insertion order. */
  function RegexesOf(p: Provider): seq<Regex>
  {
    seq(|p.regexes|, i requires 0 <= i < |p.regexes| => Regex(p.regexes[i], p))
  }

  /** findAllRegexesBelongsToApprovedProviders: every regex of every APPROVED
      provider, by provider order and then by regex order within a provider. */
  function ApprovedRegexes(providers: seq<Provider>): (regexes: seq<Regex>)
    ensures forall r :: r in regexes ==>
      r.provider in providers && r.provider.status == Approved && r.pattern in r.provider.regexes
  {
    if providers == [] then []
    else
      (if providers[0].status == Approved then RegexesOf(providers[0]) else [])
      + ApprovedRegexes(providers[1..])
  }

  /** No regex of an APPROVED provider is missing from the snapshot. */
  lemma {:induction false} ApprovedRegexesComplete(providers: seq<Provider>, p: Provider, i: nat)
    requires p in providers && p.status == Approved && i < |p.regexes|
    ensures Regex(p.regexes[i], p) in ApprovedRegexes(providers)
  {
    if providers[0] == p {
      assert RegexesOf(p)[i] == Regex(p.regexes[i], p);
    } else {
      ApprovedRegexesComplete(providers[1..], p, i);
    }
  }

  /** A provider that is not APPROVED adds nothing to the snapshot: appending a
      PENDING provider leaves identification as it was. */
  lemma {:induction false} ApprovedRegexesIgnoreUnapproved(providers: seq<Provider>, p: Provider)
    requires p.status != Approved
    ensures ApprovedRegexes(providers + [p]) == ApprovedRegexes(providers)
  {
    if providers == [] {
      assert ApprovedRegexes([p]) == [] + ApprovedRegexes([]);
    } else {
      assert (providers + [p])[1..] == providers[1..] + [p];
      ApprovedRegexesIgnoreUnapproved(providers[1..], p);
    }
  }

  /** Provider ids are pairwise distinct. */
  ghost predicate IdsDistinct(providers: seq<Provider>)
  {
    forall i, j :: 0 <= i < j < |providers| ==> providers[i].id != providers[j].id
  }

  /** Every provider id is below `bound`, the next id to hand out. */
  ghost predicate IdsBelow(providers: seq<Provider>, bound: nat)
  {
    forall i :: 0 <= i < |providers| ==> providers[i].id < bound
  }

  /** Provider types are pairwise distinct. */
  ghost predicate TypesUnique(providers: seq<Provider>)
  {
    forall i, j :: 0 <= i < j < |providers| ==> providers[i].pidType != providers[j].pidType
  }

  /** Withdrawing approval from a provider removes all of its regexes from the
      snapshot. */
  lemma WithdrawnProviderLeavesSnapshot(providers: seq<Provider>, k: nat, status: ProviderStatus)
    requires IdsDistinct(providers) && k < |providers| && status != Approved
    ensures forall r :: r in ApprovedRegexes(providers[k := providers[k].(status := status)]) ==>
      r.provider.id != providers[k].id
  {
  }

  /** Appending a provider with a new id and an unused type keeps ids distinct
      and types unique. */
  lemma AppendNewProvider(providers: seq<Provider>, p: Provider, bound: nat)
    requires IdsDistinct(providers) && IdsBelow(providers, bound)
    requires p.id == bound && !TypeExists(providers, p.pidType)
    ensures IdsDistinct(providers + [p]) && IdsBelow(providers + [p], bound + 1)
    ensures TypesUnique(providers) ==> TypesUnique(providers + [p])
  {
    var extended := providers + [p];
    assert forall i :: 0 <= i < |providers| ==> extended[i] == providers[i];
  }

  /** Replacing a provider by one with the same id keeps ids distinct and bounded. */
  lemma ReplaceKeepingId(providers: seq<Provider>, k: nat, q: Provider, bound: nat)
    requires IdsDistinct(providers) && IdsBelow(providers, bound)
    requires k < |providers| && q.id == providers[k].id
    ensures IdsDistinct(providers[k := q]) && IdsBelow(providers[k := q], bound)
  {
  }

  /** checkIfTypeExists: some provider, of any status, already has type `t`. */
  predicate TypeExists(providers: seq<Provider>, t: string): (taken: bool)
    ensures taken <==> exists p :: p in providers && p.pidType == t
    ensures FindApproved(providers, t).Some? ==> taken
  {
    exists i :: 0 <= i < |providers| && providers[i].pidType == t
  }

  /** The first APPROVED provider of type `t`, if any. */
  function FindApproved(providers: seq<Provider>, t: string): (found: Option<Provider>)
    ensures found.Some? ==> found.value in providers && found.value.pidType == t && found.value.status == Approved
    ensures found.None? <==> forall i :: 0 <= i < |providers| ==>
      !(providers[i].pidType == t && providers[i].status == Approved)
  {
    if providers == [] then None
    else if providers[0].pidType == t && providers[0].status == Approved then Some(providers[0])
    else FindApproved(providers[1..], t)
  }

  /** findById: the position of the provider with this id, if any. */
  function IndexOf(providers: seq<Provider>, id: nat): (k: Option<nat>)
    ensures k.Some? ==> k.value < |providers| && providers[k.value].id == id
    ensures k.None? <==> forall i :: 0 <= i < |providers| ==> providers[i].id != id
  {
    if providers == [] then None
    else if providers[0].id == id then Some(0)
    else match IndexOf(providers[1..], id)
      case None => None
      case Some(k) => Some(k + 1)
  }

  /** getResolutionModes: the set of modes over all actions of the table. */
  function ResolutionModes(actions: seq<Action>): (modes: set<string>)
    ensures forall m :: m in modes <==> exists i :: 0 <= i < |actions| && actions[i].mode == m
    ensures |modes| <= |actions|
  {
    if actions == [] then {}
    else
      var rest := ResolutionModes(actions[1..]);
      assert forall i :: 1 <= i < |actions| ==> actions[i] == actions[1..][i - 1];
      {actions[0].mode} + rest
  }
}
