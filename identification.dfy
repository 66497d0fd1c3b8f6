/** The identification scan: the mutable Identification record, the step that
    tests one regex against the input (`check`), the loop's meaning as a
    function (`Scan`), an independent first-decisive-rule reference
    (`Classification`) and the properties that relate them. */
module IdentificationScan {
  import opened Entities

  /** Outcome of an identification. */
  datatype Status = Valid | Ambiguous | Invalid

  /** The two java.util.regex predicates the scan relies on, left uninterpreted:
      `matches(p, s)` is Matcher.matches() of pattern p on input s, and
      `hitEnd(p, s)` is Matcher.hitEnd() right after that attempt. */
  datatype RegexEngine = RegexEngine(
    matches: (string, string) -> bool,
    hitEnd: (string, string) -> bool)

  /** The value held by an Identification record. */
  datatype Outcome = Outcome(status: Status, pidType: string, example: string, actions: set<ActionId>)

  /** The record as `identify` initialises it: INVALID, empty type and example. */
  const Unidentified := Outcome(Invalid, "", "", {})

  /** A record filled in from provider `p`. */
  function Hit(status: Status, p: Provider): Outcome
  {
    Outcome(status, p.pidType, p.example, p.actions)
  }

  /** A regex decides the scan when it fully matches the input or the attempt hit its end. */
  predicate Decides(engine: RegexEngine, text: string, regex: Regex)
  {
    engine.matches(regex.pattern, text) || engine.hitEnd(regex.pattern, text)
  }

  /** What `check` leaves in the record that held `current`. */
  function CheckStep(engine: RegexEngine, text: string, regex: Regex, current: Outcome): (next: Outcome)
    ensures !Decides(engine, text, regex) ==> next == current
    ensures Decides(engine, text, regex) ==>
      && next.pidType == regex.provider.pidType
      && next.example == regex.provider.example
      && next.actions == regex.provider.actions
      && (next.status == Valid <==> engine.matches(regex.pattern, text))
    ensures next.status != Invalid <==> Decides(engine, text, regex) || current.status != Invalid
  {
    if engine.matches(regex.pattern, text) then Hit(Valid, regex.provider)
    else if engine.hitEnd(regex.pattern, text) then Hit(Ambiguous, regex.provider)
    else current
  }

  /** `r` is the record `check` writes for some regex of `regexes` that decides. */
  ghost predicate FilledFromSome(engine: RegexEngine, text: string, regexes: seq<Regex>, r: Outcome)
  {
    exists k :: 0 <= k < |regexes| && Decides(engine, text, regexes[k])
      && r == Hit(if engine.matches(regexes[k].pattern, text) then Valid else Ambiguous, regexes[k].provider)
  }

  /** The record after the `for` loop of `identify` has run over `regexes`
      from `current`: check each regex, stop at the first VALID or AMBIGUOUS. */
  function Scan(engine: RegexEngine, text: string, regexes: seq<Regex>, current: Outcome): (r: Outcome)
    ensures r == current || FilledFromSome(engine, text, regexes, r)
    ensures current.status == Invalid && r.status == Invalid ==> r == current
    decreases |regexes|
  {
    if regexes == [] then current
    else
      var next := CheckStep(engine, text, regexes[0], current);
      if next.status == Valid || next.status == Ambiguous then next
      else Scan(engine, text, regexes[1..], next)
  }

  /** One iteration of the scan from regex i, started from the INVALID record. */
  lemma ScanStepFrom(engine: RegexEngine, text: string, regexes: seq<Regex>, i: nat)
    requires i < |regexes|
    ensures var next := CheckStep(engine, text, regexes[i], Unidentified);
      Scan(engine, text, regexes[i..], Unidentified)
        == if next.status != Invalid then next else Scan(engine, text, regexes[i + 1..], Unidentified)
  {
    assert regexes[i..][0] == regexes[i];
    assert regexes[i..][1..] == regexes[i + 1..];
  }

  /** Index of the first regex that decides the scan, if any. */
  function FirstDecisive(engine: RegexEngine, text: string, regexes: seq<Regex>): (k: Option<nat>)
    ensures k.Some? ==> k.value < |regexes| && Decides(engine, text, regexes[k.value])
    ensures k.Some? ==> forall j :: 0 <= j < k.value ==> !Decides(engine, text, regexes[j])
    ensures k.None? <==> forall j :: 0 <= j < |regexes| ==> !Decides(engine, text, regexes[j])
  {
    if regexes == [] then None
    else if Decides(engine, text, regexes[0]) then Some(0)
    else match FirstDecisive(engine, text, regexes[1..])
      case None => None
      case Some(k) => Some(k + 1)
  }

  /** Reference meaning of an identification: INVALID when no regex decides;
      otherwise the first deciding regex's provider, VALID exactly when that
      regex fully matches. */
  function Classification(engine: RegexEngine, text: string, regexes: seq<Regex>): Outcome
  {
    match FirstDecisive(engine, text, regexes)
    case None => Unidentified
    case Some(k) =>
      Hit(if engine.matches(regexes[k].pattern, text) then Valid else Ambiguous, regexes[k].provider)
  }

  /** The loop of `identify` computes the reference classification. */
  lemma {:induction false} ScanIsClassification(engine: RegexEngine, text: string, regexes: seq<Regex>)
    ensures Scan(engine, text, regexes, Unidentified) == Classification(engine, text, regexes)
  {
    if regexes != [] && !Decides(engine, text, regexes[0]) {
      assert CheckStep(engine, text, regexes[0], Unidentified) == Unidentified;
      ScanIsClassification(engine, text, regexes[1..]);
      match FirstDecisive(engine, text, regexes[1..])
      case None =>
      case Some(k) => assert regexes[1..][k] == regexes[k + 1];
    }
  }

  /** With no regexes, or when no regex fully matches or hits the end, the
      result is INVALID with empty type, example and actions. */
  lemma {:induction false} NoDecisiveRegexIsInvalid(engine: RegexEngine, text: string, regexes: seq<Regex>)
    requires forall j :: 0 <= j < |regexes| ==> !Decides(engine, text, regexes[j])
    ensures Scan(engine, text, regexes, Unidentified) == Unidentified
  {
    ScanIsClassification(engine, text, regexes);
  }

  /** The first regex in scan order that fully matches or hits the end decides
      the result: its provider's type, example and actions, and VALID exactly
      when it fully matches. */
  lemma FirstDecisiveRegexWins(engine: RegexEngine, text: string, regexes: seq<Regex>, k: nat)
    requires k < |regexes| && Decides(engine, text, regexes[k])
    requires forall j :: 0 <= j < k ==> !Decides(engine, text, regexes[j])
    ensures var r := Scan(engine, text, regexes, Unidentified);
      && r.pidType == regexes[k].provider.pidType
      && r.example == regexes[k].provider.example
      && r.actions == regexes[k].provider.actions
      && (r.status == Valid <==> engine.matches(regexes[k].pattern, text))
      && (r.status == Ambiguous <==> !engine.matches(regexes[k].pattern, text))
  {
    ScanIsClassification(engine, text, regexes);
  }

  /** A VALID or AMBIGUOUS result always comes from the first deciding regex;
      the result is not INVALID exactly when some regex decides. */
  lemma {:induction false} IdentifiedIffSomeRegexDecides(engine: RegexEngine, text: string, regexes: seq<Regex>)
    ensures var r := Scan(engine, text, regexes, Unidentified);
      r.status != Invalid <==> exists j :: 0 <= j < |regexes| && Decides(engine, text, regexes[j])
    ensures var r := Scan(engine, text, regexes, Unidentified);
      r.status != Invalid ==>
        exists k :: 0 <= k < |regexes| && Decides(engine, text, regexes[k])
          && (forall j :: 0 <= j < k ==> !Decides(engine, text, regexes[j]))
          && r == Hit(r.status, regexes[k].provider)
  {
    ScanIsClassification(engine, text, regexes);
  }

  /** A regex that merely hits the end wins over every later regex, even one
      that fully matches: the result is AMBIGUOUS with the earlier provider. */
  lemma EarlierHitEndWins(engine: RegexEngine, text: string, regexes: seq<Regex>, i: nat, j: nat)
    requires i < j < |regexes|
    requires forall l :: 0 <= l < i ==> !Decides(engine, text, regexes[l])
    requires !engine.matches(regexes[i].pattern, text) && engine.hitEnd(regexes[i].pattern, text)
    requires engine.matches(regexes[j].pattern, text)
    ensures var r := Scan(engine, text, regexes, Unidentified);
      r.status == Ambiguous && r.pidType == regexes[i].provider.pidType
  {
    FirstDecisiveRegexWins(engine, text, regexes, i);
  }

  /** An input that fully matches some regex is never INVALID, and the type
      reported is that of a provider owning a regex at or before it. */
  lemma FullMatchIsNeverInvalid(engine: RegexEngine, text: string, regexes: seq<Regex>, j: nat)
    requires j < |regexes| && engine.matches(regexes[j].pattern, text)
    ensures var r := Scan(engine, text, regexes, Unidentified);
      r.status != Invalid && exists k :: 0 <= k <= j && r.pidType == regexes[k].provider.pidType
  {
    ScanIsClassification(engine, text, regexes);
    var f := FirstDecisive(engine, text, regexes);
    assert f.Some? && f.value <= j;
  }

  /** Once a prefix of the regexes has decided the result, no later regex is
      examined: appending regexes does not change it. */
  lemma {:induction false} DecidedPrefixIgnoresRest(engine: RegexEngine, text: string, prefix: seq<Regex>, rest: seq<Regex>)
    requires Scan(engine, text, prefix, Unidentified).status != Invalid
    ensures Scan(engine, text, prefix + rest, Unidentified) == Scan(engine, text, prefix, Unidentified)
  {
    assert prefix != [];
    assert (prefix + rest)[0] == prefix[0];
    if !Decides(engine, text, prefix[0]) {
      assert (prefix + rest)[1..] == prefix[1..] + rest;
      DecidedPrefixIgnoresRest(engine, text, prefix[1..], rest);
    }
  }

  /** When a prefix of the regexes leaves the result INVALID, the scan goes on
      as if the prefix were absent. */
  lemma {:induction false} UndecidedPrefixIsSkipped(engine: RegexEngine, text: string, prefix: seq<Regex>, rest: seq<Regex>)
    requires Scan(engine, text, prefix, Unidentified).status == Invalid
    ensures Scan(engine, text, prefix + rest, Unidentified) == Scan(engine, text, rest, Unidentified)
  {
    if prefix == [] {
      assert prefix + rest == rest;
    } else {
      assert (prefix + rest)[0] == prefix[0];
      assert !Decides(engine, text, prefix[0]);
      assert (prefix + rest)[1..] == prefix[1..] + rest;
      UndecidedPrefixIsSkipped(engine, text, prefix[1..], rest);
    }
  }

  /** The mutable Identification record that `identify` fills in. */
  class Identification {
    var status: Status
    var pidType: string
    var example: string
    var actions: set<ActionId>

    /** A new record holds INVALID with empty type, example and actions. */
    constructor ()
      ensures Value() == Unidentified
    {
      status, pidType, example, actions := Invalid, "", "", {};
    }

    function Value(): Outcome
      reads this
    {
      Outcome(status, pidType, example, actions)
    }
  }

  /** `check`: overwrite the record from the regex's provider when the pattern
      fully matches (VALID) or the attempt hit the end (AMBIGUOUS); otherwise
      leave it exactly as it was. */
  method Check(engine: RegexEngine, text: string, regex: Regex, identification: Identification)
    modifies identification
    ensures identification.Value() == CheckStep(engine, text, regex, old(identification.Value()))
    ensures !Decides(engine, text, regex) ==> unchanged(identification)
    ensures old(identification.status) != Invalid ==> identification.status != Invalid
  {
    if engine.matches(regex.pattern, text) {
      identification.status := Valid;
      identification.pidType := regex.provider.pidType;
      identification.example := regex.provider.example;
      identification.actions := regex.provider.actions;
      return;
    }
    if engine.hitEnd(regex.pattern, text) {
      identification.status := Ambiguous;
      identification.pidType := regex.provider.pidType;
      identification.example := regex.provider.example;
      identification.actions := regex.provider.actions;
    }
  }
}
