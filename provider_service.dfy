/** DatabaseProviderService: the provider store with its create, update and
    status operations, the two validation queries, the lookup by pid and the
    identification scan over the regexes of APPROVED providers. */
module ProviderService {
  import opened Entities
  import opened Registry
  import opened IdentificationScan

  /** providerRepository.valid(pid) and providerRepository.valid(pid, provider):
      repository queries whose internals are not part of this model; each
      yields the regex that validates the pid, if any. */
  datatype RegexOracle = RegexOracle(
    any: string -> Option<Regex>,
    scoped: (string, Provider) -> Option<Regex>)

  const ActionNotSupported := "There is an action that is not supported."

  function TypeNotSupported(t: string): string
  {
    "This type {" + t + "} is not supported."
  }

  function TypeAlreadyExists(t: string): string
  {
    "This Provider type {" + t + "} exists."
  }

  function PidWithoutType(pid: string): string
  {
    pid + " doesn't belong to any of the available types."
  }

  /** The fields of `p` after `update` with `request` succeeded. */
  function Patched(p: Provider, request: UpdateProviderRequest): (q: Provider)
    ensures q.id == p.id && q.createdBy == p.createdBy && q.status == Pending
    ensures q.pidType == (if request.pidType != "" then request.pidType else p.pidType)
    ensures q.name == (if request.name != "" then request.name else p.name)
    ensures q.description == (if request.description != "" then request.description else p.description)
    ensures q.example == (if request.example != "" then request.example else p.example)
    ensures q.actions == (if request.actions != {} then request.actions else p.actions)
    ensures q.regexes == (if request.regexes != [] then request.regexes else p.regexes)
  {
    p.(
      pidType := if request.pidType != "" then request.pidType else p.pidType,
      name := if request.name != "" then request.name else p.name,
      description := if request.description != "" then request.description else p.description,
      example := if request.example != "" then request.example else p.example,
      actions := if request.actions != {} then request.actions else p.actions,
      regexes := if request.regexes != [] then request.regexes else p.regexes,
      status := Pending)
  }

  /** Applying the same update twice is the same as applying it once. */
  lemma PatchedIsIdempotent(p: Provider, request: UpdateProviderRequest)
    ensures Patched(Patched(p, request), request) == Patched(p, request)
  {
  }

  /** An update whose fields and collections are all empty only resets the status. */
  lemma EmptyPatchOnlyResetsStatus(p: Provider, request: UpdateProviderRequest)
    requires request == UpdateProviderRequest("", "", "", "", {}, [])
    ensures Patched(p, request) == p.(status := Pending)
  {
  }

  /** `update` does not check type uniqueness: it can give a provider the
      type another provider already has, which `create` would refuse. */
  lemma UpdateMayDuplicateType(p: Provider, q: Provider, request: UpdateProviderRequest)
    requires p.pidType != q.pidType && p.pidType != "" && request.pidType == p.pidType
    ensures TypesUnique([p, q]) && !TypesUnique([p, Patched(q, request)])
  {
    assert [p, Patched(q, request)][0].pidType == [p, Patched(q, request)][1].pidType;
  }

  /** The forEach of addAction calls: adds every requested action. */
  method AddActions(actions: set<ActionId>, added: set<ActionId>) returns (result: set<ActionId>)
    ensures result == actions + added
  {
    result := actions;
    var pending := added;
    while pending != {}
      invariant pending <= added
      invariant result == actions + (added - pending)
      decreases pending
    {
      var a :| a in pending;
      result := result + {a};
      pending := pending - {a};
    }
  }

  /** The forEach of addRegex calls: appends every requested regex in request order. */
  method AddRegexes(regexes: seq<string>, added: seq<string>) returns (result: seq<string>)
    ensures result == regexes + added
  {
    result := regexes;
    for i := 0 to |added|
      invariant result == regexes + added[..i]
    {
      result := result + [added[i]];
    }
    assert added[..|added|] == added;
  }

  /** update's removeAction over a copy of the actions, then addAction for
      each requested one: the provider ends with exactly the requested set. */
  method ReplaceActions(current: set<ActionId>, requested: set<ActionId>) returns (result: set<ActionId>)
    ensures result == requested
  {
    result := current;
    var stale := current;
    while stale != {}
      invariant result == stale
      decreases stale
    {
      var a :| a in stale;
      result := result - {a};
      stale := stale - {a};
    }
    result := AddActions(result, requested);
  }

  /** update's removeRegex over a copy of the regexes, then addRegex for each
      requested one: the provider ends with exactly the requested list. */
  method ReplaceRegexes(current: seq<string>, requested: seq<string>) returns (result: seq<string>)
    ensures result == requested
  {
    result := current;
    var stale := current;
    for i := 0 to |stale|
      invariant result == stale[i..]
    {
      result := result[1..];
    }
    result := AddRegexes(result, requested);
  }

  class DatabaseProviderService {
    /** The provider table, in registration order. */
    var providers: seq<Provider>
    /** The id the database will give the next provider. */
    var nextId: nat
    /** The action table (read only here). */
    const actionTable: seq<Action>

    ghost predicate Valid()
      reads this
    {
      && IdsDistinct(providers)
      && IdsBelow(providers, nextId)
    }

    constructor (actionTable: seq<Action>)
      ensures Valid() && providers == [] && this.actionTable == actionTable
    {
      this.actionTable := actionTable;
      providers := [];
      nextId := 0;
    }

    /** actionRepository.findByIdOptional(a) is present. */
    predicate Supports(a: ActionId)
    {
      exists x :: x in actionTable && x.id == a
    }

    /** valid(pid): valid exactly when the repository yields a regex; the type
        is that regex's provider type, and empty otherwise. */
    function ValidPid(pid: string, oracle: RegexOracle): (v: Validity)
      ensures v.valid <==> oracle.any(pid).Some?
      ensures v.valid ==> v.pidType == oracle.any(pid).value.provider.pidType
      ensures !v.valid ==> v.pidType == ""
    {
      var regex := oracle.any(pid);
      Validity(regex.Some?, if regex.Some? then regex.value.provider.pidType else "")
    }

    /** valid(pid, type): "not supported" exactly when no APPROVED provider has
        the type, whatever the pid; otherwise the requested type and the
        answer of the query scoped to the first such provider. */
    function ValidForType(pid: string, t: string, oracle: RegexOracle): (r: Result<Validity>)
      reads this
      ensures r.Failure? <==> forall i :: 0 <= i < |providers| ==>
        !(providers[i].pidType == t && providers[i].status == Approved)
      ensures r.Failure? ==> r.error == NotAcceptable(TypeNotSupported(t))
      ensures r.Success? ==> r.value.pidType == t
      ensures r.Success? ==>
        exists p :: p in providers && p.pidType == t && p.status == Approved
                    && (r.value.valid <==> oracle.scoped(pid, p).Some?)
    {
      match FindApproved(providers, t)
      case None => Failure(NotAcceptable(TypeNotSupported(t)))
      case Some(p) => Success(Validity(oracle.scoped(pid, p).Some?, t))
    }

    /** getProviderByPid: fails exactly when valid(pid) says invalid; otherwise
        the provider of the regex found, whose type valid(pid) reports. */
    function ProviderByPid(pid: string, oracle: RegexOracle): (r: Result<Provider>)
      ensures r.Success? <==> ValidPid(pid, oracle).valid
      ensures r.Success? ==> r.value == oracle.any(pid).value.provider
      ensures r.Success? ==> r.value.pidType == ValidPid(pid, oracle).pidType
      ensures r.Failure? ==> r.error == NotAcceptable(PidWithoutType(pid))
    {
      match oracle.any(pid)
      case None => Failure(NotAcceptable(PidWithoutType(pid)))
      case Some(regex) => Success(regex.provider)
    }

    /** identify: scan the regexes of APPROVED providers in order, checking each
        against the text, and stop at the first VALID or AMBIGUOUS record. */
    method Identify(engine: RegexEngine, text: string) returns (identification: Identification)
      ensures fresh(identification)
      ensures identification.Value() == Scan(engine, text, ApprovedRegexes(providers), Unidentified)
      ensures identification.Value() == Classification(engine, text, ApprovedRegexes(providers))
    {
      var regexes := ApprovedRegexes(providers);
      ScanIsClassification(engine, text, regexes);
      identification := new Identification();
      var i := 0;
      while i < |regexes|
        invariant 0 <= i <= |regexes|
        invariant identification.Value() == Unidentified
        invariant Scan(engine, text, regexes, Unidentified) == Scan(engine, text, regexes[i..], Unidentified)
      {
        ScanStepFrom(engine, text, regexes, i);
        Check(engine, text, regexes[i], identification);
        if identification.status == Status.Valid || identification.status == Ambiguous {
          break;
        }
        i := i + 1;
      }
    }

    /** checkIfActionsSupported: every requested action is in the action table. */
    method CheckIfActionsSupported(actions: set<ActionId>) returns (supported: bool)
      ensures supported <==> forall a :: a in actions ==> Supports(a)
    {
      var pending := actions;
      while pending != {}
        invariant pending <= actions
        invariant forall a :: a in actions - pending ==> Supports(a)
        decreases pending
      {
        var a :| a in pending;
        if !Supports(a) {
          return false;
        }
        pending := pending - {a};
      }
      return true;
    }

    /** create: refuse a type that any provider already has, then any unknown
        action; otherwise store one new PENDING provider with the requested
        fields, actions and regexes. A refused request changes nothing. */
    method Create(request: ProviderRequest, createdBy: string) returns (r: Result<Provider>)
      requires Valid()
      modifies this
      ensures Valid()
      ensures r.Failure? ==> providers == old(providers) && nextId == old(nextId)
      ensures TypeExists(old(providers), request.pidType) ==>
        r == Failure(Conflict(TypeAlreadyExists(request.pidType)))
      ensures !TypeExists(old(providers), request.pidType) && !(forall a :: a in request.actions ==> Supports(a)) ==>
        r == Failure(NotFound(ActionNotSupported))
      ensures !TypeExists(old(providers), request.pidType) && (forall a :: a in request.actions ==> Supports(a)) ==>
        && r.Success?
        && r.value == Provider(old(nextId), request.pidType, request.name, request.description,
                               request.example, Pending, request.actions, request.regexes, createdBy)
        && providers == old(providers) + [r.value]
      ensures ApprovedRegexes(providers) == ApprovedRegexes(old(providers))
      ensures TypesUnique(old(providers)) ==> TypesUnique(providers)
    {
      if TypeExists(providers, request.pidType) {
        return Failure(Conflict(TypeAlreadyExists(request.pidType)));
      }
      var supported := CheckIfActionsSupported(request.actions);
      if !supported {
        return Failure(NotFound(ActionNotSupported));
      }
      var actions := AddActions({}, request.actions);
      var regexes := AddRegexes([], request.regexes);
      var p := Provider(nextId, request.pidType, request.name, request.description,
                        request.example, Pending, actions, regexes, createdBy);
      ApprovedRegexesIgnoreUnapproved(providers, p);
      AppendNewProvider(providers, p, nextId);
      providers := providers + [p];
      nextId := nextId + 1;
      r := Success(p);
    }

    /** update: overwrite each non-empty field, replace the action set and the
        regex list when the request's are non-empty (unknown actions refused),
        and reset the status to PENDING. On a missing id the source
        dereferences null, unless the action check fails first. */
    method Update(id: nat, request: UpdateProviderRequest) returns (r: Result<Provider>)
      requires Valid()
      modifies this
      ensures Valid() && nextId == old(nextId)
      ensures r.Failure? ==> providers == old(providers)
      ensures var unsupported := request.actions != {} && !(forall a :: a in request.actions ==> Supports(a));
        IndexOf(old(providers), id).None? ==>
          r == Failure(if request.pidType == "" && unsupported then NotFound(ActionNotSupported) else NullProvider)
      ensures var unsupported := request.actions != {} && !(forall a :: a in request.actions ==> Supports(a));
        IndexOf(old(providers), id).Some? && unsupported ==> r == Failure(NotFound(ActionNotSupported))
      ensures var unsupported := request.actions != {} && !(forall a :: a in request.actions ==> Supports(a));
        var k := IndexOf(old(providers), id);
        k.Some? && !unsupported ==>
          && r == Success(Patched(old(providers)[k.value], request))
          && providers == old(providers)[k.value := r.value]
    {
      var k := IndexOf(providers, id);
      if k.None? {
        if request.pidType != "" {
          return Failure(NullProvider);
        }
        if request.actions != {} {
          var supported := CheckIfActionsSupported(request.actions);
          if !supported {
            return Failure(NotFound(ActionNotSupported));
          }
        }
        return Failure(NullProvider);
      }
      var p := providers[k.value];
      if request.pidType != "" {
        p := p.(pidType := request.pidType);
      }
      if request.actions != {} {
        var supported := CheckIfActionsSupported(request.actions);
        if !supported {
          // the transaction is rolled back: the stored provider is untouched
          return Failure(NotFound(ActionNotSupported));
        }
        var actions := ReplaceActions(p.actions, request.actions);
        p := p.(actions := actions);
      }
      if request.regexes != [] {
        var regexes := ReplaceRegexes(p.regexes, request.regexes);
        p := p.(regexes := regexes);
      }
      if request.name != "" {
        p := p.(name := request.name);
      }
      if request.description != "" {
        p := p.(description := request.description);
      }
      if request.example != "" {
        p := p.(example := request.example);
      }
      p := p.(status := Pending);
      assert p == Patched(providers[k.value], request);
      ReplaceKeepingId(providers, k.value, p, nextId);
      providers := providers[k.value := p];
      r := Success(p);
    }

    /** updateProviderStatus: set only the status of the provider with this
        id; a withdrawn approval takes all its regexes out of the snapshot. */
    method UpdateProviderStatus(id: nat, status: ProviderStatus) returns (r: Result<Provider>)
      requires Valid()
      modifies this
      ensures Valid() && nextId == old(nextId)
      ensures IndexOf(old(providers), id).None? ==> r == Failure(NullProvider) && providers == old(providers)
      ensures var k := IndexOf(old(providers), id);
        k.Some? ==>
          && r == Success(old(providers)[k.value].(status := status))
          && providers == old(providers)[k.value := r.value]
      ensures status != Approved ==> forall x :: x in ApprovedRegexes(providers) ==> x.provider.id != id
    {
      var k := IndexOf(providers, id);
      if k.None? {
        return Failure(NullProvider);
      }
      if status != Approved {
        WithdrawnProviderLeavesSnapshot(providers, k.value, status);
      }
      var p := providers[k.value].(status := status);
      ReplaceKeepingId(providers, k.value, p, nextId);
      providers := providers[k.value := p];
      r := Success(p);
    }
  }
}
