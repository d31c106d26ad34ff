/** Versioned migration chains: registered steps lift a stored event to a schema version, leaving its identity alone. */
module Upcaster {
  import opened Events

  datatype Ident = Absent | Text(text: string) | Number(number: int)

  predicate IsIdentifier(id: Ident) {
    match id case Absent => false case Text(t) => t != "" case Number(n) => PositiveSafe(n)
  }

  datatype Moment = Normalized(milliseconds: int) | Otherwise(text: string)

  /** The eight fields no migration may change. */
  datatype Identity = Identity(
    eventId: Ident, aggregateId: Ident, sequence: int, timestamp: Moment,
    commandId: Ident, correlationId: Ident, causationId: Ident, eventType: string)

  /** `fact` is there if the payload has the fields its event type requires; `rest` is everything else it holds. */
  datatype Payload = Payload(fact: Option<Fact>, rest: string)

  datatype Stored = Stored(identity: Identity, schemaVersion: Option<int>, payload: Payload)

  function TypeOf(fact: Fact): string {
    match fact
    case OrderCreated(_, _) => "OrderCreated"
    case InventoryReserved(_, _, _) => "InventoryReserved"
    case PaymentCharged(_, _) => "PaymentCharged"
    case PaymentRefunded(_, _) => "PaymentRefunded"
    case InventoryReleased(_, _) => "InventoryReleased"
    case OrderRolledBack(_) => "OrderRolledBack"
    case OrderDeleted(_) => "OrderDeleted"
  }

  predicate StructurallyValid(e: Stored) {
    && e.payload.fact.Some? && TypeOf(e.payload.fact.value) == e.identity.eventType && ValidFact(e.payload.fact.value)
    && IsIdentifier(e.identity.aggregateId) && PositiveSafe(e.identity.sequence) && e.identity.timestamp.Normalized?
    && IsIdentifier(e.identity.eventId) && IsIdentifier(e.identity.commandId)
    && IsIdentifier(e.identity.correlationId) && IsIdentifier(e.identity.causationId)
    && e.identity.causationId != e.identity.eventId
  }

  /** What a callback leaves behind: it threw or returned something unusable, or plain data shaped as an event. */
  datatype Output = Unusable | Usable(event: Stored)

  /** A registered step. Callbacks need not be deterministic: the second argument counts callback runs. */
  datatype Step = Step(eventType: string, fromVersion: int, toVersion: int, transform: (Stored, nat) -> Output)

  datatype Fault = BadArgument | OutputInvalid | IdentityViolation | NonDeterministic
  datatype Outcome = Migrated(event: Stored) | Refused(fault: Fault)

  function VersionOf(e: Stored): int {
    if e.schemaVersion.Some? then e.schemaVersion.value else 1
  }

  /** `runValidatedUpcast`: one guarded callback run. The registry, not the callback, moves the schema version. */
  function RunValidated(step: Step, current: Stored, run: nat): Outcome {
    match step.transform(current, run)
    case Unusable => Refused(OutputInvalid)
    case Usable(output) =>
      if output.schemaVersion != current.schemaVersion then Refused(OutputInvalid)
      else
        var migrated := output.(schemaVersion := Some(step.toVersion));
        if migrated.identity != current.identity then Refused(IdentityViolation)
        else if !StructurallyValid(migrated) then Refused(OutputInvalid)
        else Migrated(migrated)
  }

  /** One step, run twice to catch callbacks that answer differently. */
  function RunTwice(step: Step, current: Stored, run: nat): Outcome {
    match RunValidated(step, current, run)
    case Refused(fault) => Refused(fault)
    case Migrated(first) =>
      match RunValidated(step, current, run + 1)
      case Refused(fault) => Refused(fault)
      case Migrated(second) => if first == second then Migrated(first) else Refused(NonDeterministic)
  }

  datatype StepKey = StepKey(eventType: string, fromVersion: int)

  /** The steps registered so far, by event type and source version, and the highest version reached by each type. */
  datatype Registry = Registry(steps: map<StepKey, Step>, latest: map<string, int>)

  const EMPTY := Registry(map[], map[])

  function KeyOf(step: Step): StepKey {
    StepKey(step.eventType, step.fromVersion)
  }

  predicate Registrable(r: Registry, step: Step) {
    && step.eventType != "" && PositiveSafe(step.fromVersion) && PositiveSafe(step.toVersion)
    && step.toVersion == step.fromVersion + 1 && KeyOf(step) !in r.steps
  }

  function Max(a: int, b: int): int {
    if a < b then b else a
  }

  function LatestOf(r: Registry, eventType: string): int {
    if eventType in r.latest then r.latest[eventType] else 1
  }

  function Extended(r: Registry, step: Step): Registry {
    if !Registrable(r, step) then r
    else Registry(r.steps[KeyOf(step) := step],
                  r.latest[step.eventType := Max(LatestOf(r, step.eventType), step.toVersion)])
  }

  /** The chain from `version` to `target`, with the number of callback runs so far. */
  function Chain(r: Registry, current: Stored, version: int, target: int, run: nat): Outcome
    decreases target - version
  {
    if version >= target then Migrated(current)
    else
      var key := StepKey(current.identity.eventType, version);
      if key !in r.steps || r.steps[key].toVersion <= version then Refused(OutputInvalid)
      else match RunTwice(r.steps[key], current, run)
        case Refused(fault) => Refused(fault)
        case Migrated(next) => Chain(r, next, r.steps[key].toVersion, target, run + 2)
  }

  /** The version a migration aims for: the requested one, or the latest registered one, or none in particular. */
  function TargetOf(r: Registry, e: Stored, target: Option<int>): int {
    if target.Some? then target.value
    else if e.identity.eventType in r.latest then r.latest[e.identity.eventType]
    else VersionOf(e)
  }

  function UpcastBy(r: Registry, e: Stored, target: Option<int>, run: nat): Outcome {
    if !PositiveSafe(VersionOf(e)) || (target.Some? && !PositiveSafe(target.value)) then Refused(BadArgument)
    else if TargetOf(r, e, target) < VersionOf(e) then Refused(OutputInvalid)
    else Chain(r, e, VersionOf(e), TargetOf(r, e, target), run)
  }

  predicate Fits(step: Step, key: StepKey, latest: map<string, int>) {
    && KeyOf(step) == key && step.toVersion == key.fromVersion + 1 && PositiveSafe(key.fromVersion)
    && PositiveSafe(step.toVersion) && key.eventType in latest && step.toVersion <= latest[key.eventType]
  }

  ghost predicate WellFormed(r: Registry) {
    && (forall key :: key in r.steps ==> Fits(r.steps[key], key, r.latest))
    && (forall t :: t in r.latest ==> StepKey(t, r.latest[t] - 1) in r.steps)
  }

  lemma ExtendedKeepsWellFormed(r: Registry, step: Step)
    requires WellFormed(r)
    ensures WellFormed(Extended(r, step))
  {
    var r' := Extended(r, step);
    if Registrable(r, step) {
      forall t | t in r'.latest ensures StepKey(t, r'.latest[t] - 1) in r'.steps {
        if t in r.latest { assert StepKey(t, r.latest[t] - 1) in r.steps; }
      }
    }
  }

  class EventUpcasterRegistry {
    var steps: map<StepKey, Step>
    var latestSchemaVersions: map<string, int>
    var runs: nat

    ghost predicate Valid()
      reads this
    {
      WellFormed(Contents())
    }

    ghost function Contents(): Registry
      reads this
    {
      Registry(steps, latestSchemaVersions)
    }

    constructor ()
      ensures Valid() && Contents() == EMPTY && runs == 0
    {
      steps, latestSchemaVersions, runs := map[], map[], 0;
    }

    method Register(step: Step) returns (ok: bool)
      requires Valid()
      modifies this`steps, this`latestSchemaVersions
      ensures Valid()
      ensures ok == Registrable(old(Contents()), step)
      ensures Contents() == Extended(old(Contents()), step)
    {
      ExtendedKeepsWellFormed(Contents(), step);
      if step.eventType == "" || !PositiveSafe(step.fromVersion) || !PositiveSafe(step.toVersion) {
        return false;
      }
      if step.toVersion <= step.fromVersion || step.toVersion != step.fromVersion + 1 {
        return false;
      }
      var key := KeyOf(step);
      if key in steps {
        return false;
      }
      steps := steps[key := step];
      var latest := if step.eventType in latestSchemaVersions then latestSchemaVersions[step.eventType] else 1;
      latestSchemaVersions := latestSchemaVersions[step.eventType := Max(latest, step.toVersion)];
      return true;
    }

    method RunValidatedUpcast(step: Step, current: Stored) returns (r: Outcome)
      modifies this`runs
      ensures r == RunValidated(step, current, old(runs)) && runs == old(runs) + 1
    {
      var output := step.transform(current, runs);
      runs := runs + 1;
      if output.Unusable? || output.event.schemaVersion != current.schemaVersion {
        return Refused(OutputInvalid);
      }
      var migrated := output.event.(schemaVersion := Some(step.toVersion));
      if migrated.identity != current.identity {
        return Refused(IdentityViolation);
      }
      if !StructurallyValid(migrated) {
        return Refused(OutputInvalid);
      }
      return Migrated(migrated);
    }

    /** The migration loop computes the chain, and terminates. */
    method Upcast(event: Stored, target: Option<int>) returns (r: Outcome)
      requires Valid()
      modifies this`runs
      ensures r == UpcastBy(Contents(), event, target, old(runs))
      ensures runs >= old(runs)
    {
      var currentVersion := VersionOf(event);
      if !PositiveSafe(currentVersion) || (target.Some? && !PositiveSafe(target.value)) {
        return Refused(BadArgument);
      }
      var eventType := event.identity.eventType;
      var resolved := currentVersion;
      if target.Some? {
        resolved := target.value;
      } else if eventType in latestSchemaVersions {
        resolved := latestSchemaVersions[eventType];
      }
      if resolved < currentVersion {
        return Refused(OutputInvalid);
      }
      var current, version := event, currentVersion;
      ghost var registry := Contents();
      while version < resolved
        invariant Contents() == registry && runs >= old(runs)
        invariant Chain(registry, event, currentVersion, resolved, old(runs))
                  == Chain(registry, current, version, resolved, runs)
        decreases resolved - version
      {
        var key := StepKey(current.identity.eventType, version);
        if key !in steps {
          return Refused(OutputInvalid);
        }
        var step := steps[key];
        var first := RunValidatedUpcast(step, current);
        if first.Refused? {
          return first;
        }
        var second := RunValidatedUpcast(step, current);
        if second.Refused? {
          return second;
        }
        if first.event != second.event {
          return Refused(NonDeterministic);
        }
        current, version := first.event, step.toVersion;
      }
      return Migrated(current);
    }
  }

  /** What one run of an honest callback leaves behind: the event with its identity and its schema version as they were,
      and a payload that fits the version aimed for. */
  predicate Honest(step: Step, current: Stored, output: Output) {
    && output.Usable? && output.event.schemaVersion == current.schemaVersion
    && output.event.identity == current.identity
    && StructurallyValid(output.event.(schemaVersion := Some(step.toVersion)))
  }

  /** The event one version on: the registry's version, the same identity, the callback's payload. */
  function Lifted(step: Step, current: Stored, run: nat): Stored
    requires step.transform(current, run).Usable?
  {
    Stored(current.identity, Some(step.toVersion), step.transform(current, run).event.payload)
  }

  /** A callback's run is accepted exactly if it is honest. */
  lemma HonestRunsPass(step: Step, current: Stored, run: nat)
    ensures RunValidated(step, current, run).Migrated? <==> Honest(step, current, step.transform(current, run))
    ensures RunValidated(step, current, run).Migrated? ==>
              RunValidated(step, current, run) == Migrated(Lifted(step, current, run))
  {
  }

  /** A run that touches the schema version, one that leaves it alone but touches the identity, and two honest ones that
      differ: each is refused as what it is, and nothing else is refused as a violation or as non-deterministic. */
  lemma DishonestRunsAreNamed(step: Step, current: Stored, run: nat)
    ensures var one, other := step.transform(current, run), step.transform(current, run + 1);
            var r := RunTwice(step, current, run);
            && (one.Usable? && one.event.schemaVersion != current.schemaVersion ==> r == Refused(OutputInvalid))
            && (r == Refused(NonDeterministic) <==>
                  Honest(step, current, one) && Honest(step, current, other) && one != other)
            && (r == Refused(IdentityViolation) <==>
                  ChangesIdentity(current, one) || (Honest(step, current, one) && ChangesIdentity(current, other)))
            && (r == Refused(OutputInvalid) <==>
                  IsInvalid(step, current, one) || (Honest(step, current, one) && IsInvalid(step, current, other)))
            && r != Refused(BadArgument)
  {
  }

  predicate ChangesIdentity(current: Stored, output: Output) {
    output.Usable? && output.event.schemaVersion == current.schemaVersion && output.event.identity != current.identity
  }

  predicate IsInvalid(step: Step, current: Stored, output: Output) {
    || output.Unusable?
    || output.event.schemaVersion != current.schemaVersion
    || (output.event.identity == current.identity
        && !StructurallyValid(output.event.(schemaVersion := Some(step.toVersion))))
  }

  /** The step that lifts the event from this version is registered, and answers honestly and alike in both runs. */
  predicate StageHolds(r: Registry, current: Stored, version: int, run: nat) {
    var key := StepKey(current.identity.eventType, version);
    && key in r.steps
    && Honest(r.steps[key], current, r.steps[key].transform(current, run))
    && r.steps[key].transform(current, run) == r.steps[key].transform(current, run + 1)
  }

  /** The stage holds, and its payload is the callback's. */
  predicate Stage(r: Registry, current: Stored, next: Stored, version: int, run: nat) {
    && StageHolds(r, current, version, run)
    && next == Lifted(r.steps[StepKey(current.identity.eventType, version)], current, run)
  }

  /** The event at each version from `version` to `target`; two callback runs lead from each to the next. */
  ghost predicate Journey(r: Registry, stages: seq<Stored>, version: int, target: int, run: nat) {
    && version <= target && |stages| == target - version + 1
    && forall k :: 0 <= k < target - version ==> Stage(r, stages[k], stages[k + 1], version + k, run + 2 * k)
  }

  lemma JourneysBegin(r: Registry, current: Stored, rest: seq<Stored>, version: int, target: int, run: nat)
    requires Journey(r, rest, version + 1, target, run + 2) && Stage(r, current, rest[0], version, run)
    ensures Journey(r, [current] + rest, version, target, run)
  {
    var stages := [current] + rest;
    forall k | 0 <= k < target - version ensures Stage(r, stages[k], stages[k + 1], version + k, run + 2 * k) {
      if k > 0 {
        assert Stage(r, rest[k - 1], rest[k - 1 + 1], version + 1 + (k - 1), run + 2 + 2 * (k - 1));
      }
    }
  }

  lemma JourneysGoOn(r: Registry, stages: seq<Stored>, version: int, target: int, run: nat)
    requires Journey(r, stages, version, target, run) && version < target
    ensures Stage(r, stages[0], stages[1], version, run)
    ensures Journey(r, stages[1..], version + 1, target, run + 2)
    ensures stages[1..][0] == stages[1] && stages[1..][|stages| - 2] == stages[|stages| - 1]
  {
    var rest := stages[1..];
    assert Stage(r, stages[0], stages[0 + 1], version + 0, run + 2 * 0);
    forall k | 0 <= k < target - version - 1
      ensures Stage(r, rest[k], rest[k + 1], version + 1 + k, run + 2 + 2 * k)
    {
      assert Stage(r, stages[k + 1], stages[k + 1 + 1], version + (k + 1), run + 2 * (k + 1));
    }
  }

  lemma OneStage(r: Registry, current: Stored, next: Stored, version: int, target: int, run: nat)
    requires WellFormed(r) && version < target && Stage(r, current, next, version, run)
    ensures Chain(r, current, version, target, run) == Chain(r, next, version + 1, target, run + 2)
  {
    var key := StepKey(current.identity.eventType, version);
    HonestRunsPass(r.steps[key], current, run);
    HonestRunsPass(r.steps[key], current, run + 1);
    assert Fits(r.steps[key], key, r.latest);
  }

  lemma NoStage(r: Registry, current: Stored, version: int, target: int, run: nat)
    requires WellFormed(r) && version < target && !StageHolds(r, current, version, run)
    ensures var key := StepKey(current.identity.eventType, version);
            Chain(r, current, version, target, run)
            == if key !in r.steps then Refused(OutputInvalid) else RunTwice(r.steps[key], current, run)
    ensures Chain(r, current, version, target, run).Refused?
  {
    var key := StepKey(current.identity.eventType, version);
    if key in r.steps {
      HonestRunsPass(r.steps[key], current, run);
      HonestRunsPass(r.steps[key], current, run + 1);
      assert Fits(r.steps[key], key, r.latest);
    }
  }

  /** After the first part of a journey the chain goes on from where it ended. */
  lemma {:induction false} ChainAfterJourney(r: Registry, stages: seq<Stored>, first: Stored, last: Stored,
                                             version: int, middle: int, target: int, run: nat, later: nat)
    requires WellFormed(r) && Journey(r, stages, version, middle, run) && middle <= target
    requires first == stages[0] && last == stages[|stages| - 1] && later == run + 2 * (middle - version)
    ensures Chain(r, first, version, target, run) == Chain(r, last, middle, target, later)
    decreases middle - version
  {
    if version < middle {
      JourneysGoOn(r, stages, version, middle, run);
      OneStage(r, first, stages[1], version, target, run);
      ChainAfterJourney(r, stages[1..], stages[1], last, version + 1, middle, target, run + 2, later);
    }
  }

  lemma {:induction false} ChainTravels(r: Registry, current: Stored, version: int, target: int, run: nat)
    returns (stages: seq<Stored>)
    requires WellFormed(r) && version <= target && Chain(r, current, version, target, run).Migrated?
    ensures Journey(r, stages, version, target, run) && stages[0] == current
    ensures stages[|stages| - 1] == Chain(r, current, version, target, run).event
    decreases target - version
  {
    if version == target {
      stages := [current];
    } else {
      if !StageHolds(r, current, version, run) {
        NoStage(r, current, version, target, run);
        assert false;
      }
      var next := Lifted(r.steps[StepKey(current.identity.eventType, version)], current, run);
      OneStage(r, current, next, version, target, run);
      var rest := ChainTravels(r, next, version + 1, target, run + 2);
      JourneysBegin(r, current, rest, version, target, run);
      stages := [current] + rest;
    }
  }

  /** An event migrates exactly if every version on its way has a registered step whose callback answers honestly, twice
      alike; what comes out is what the callbacks made of it, stage by stage. */
  lemma MigratesExactly(r: Registry, e: Stored, target: Option<int>, run: nat, e': Stored)
    requires WellFormed(r) && PositiveSafe(VersionOf(e)) && (target.Some? ==> PositiveSafe(target.value))
    ensures UpcastBy(r, e, target, run) == Migrated(e') <==>
            exists stages :: Journey(r, stages, VersionOf(e), TargetOf(r, e, target), run)
                             && stages[0] == e && stages[|stages| - 1] == e'
  {
    var version, aim := VersionOf(e), TargetOf(r, e, target);
    if UpcastBy(r, e, target, run) == Migrated(e') {
      var stages := ChainTravels(r, e, version, aim, run);
    } else if stages :| Journey(r, stages, version, aim, run) && stages[0] == e && stages[|stages| - 1] == e' {
      ChainAfterJourney(r, stages, e, e', version, aim, aim, run, run + 2 * (aim - version));
    }
  }

  /** Otherwise the refusal is that of the first stage that does not hold: that no step is registered, or what the first
      dishonest run did. */
  lemma RefusesTheFirstFault(r: Registry, stages: seq<Stored>, target: Option<int>, version: int, run: nat)
    requires WellFormed(r) && |stages| > 0 && PositiveSafe(VersionOf(stages[0]))
    requires target.Some? ==> PositiveSafe(target.value)
    requires Journey(r, stages, VersionOf(stages[0]), version, run) && version < TargetOf(r, stages[0], target)
    requires var last := stages[|stages| - 1];
             !StageHolds(r, last, version, run + 2 * (version - VersionOf(stages[0])))
    ensures var last := stages[|stages| - 1];
            var key := StepKey(last.identity.eventType, version);
            UpcastBy(r, stages[0], target, run)
            == if key !in r.steps then Refused(OutputInvalid)
               else RunTwice(r.steps[key], last, run + 2 * (version - VersionOf(stages[0])))
    ensures UpcastBy(r, stages[0], target, run).Refused?
  {
    var last, later := stages[|stages| - 1], run + 2 * (version - VersionOf(stages[0]));
    ChainAfterJourney(r, stages, stages[0], last, VersionOf(stages[0]), version, TargetOf(r, stages[0], target), run,
                      later);
    NoStage(r, last, version, TargetOf(r, stages[0], target), later);
  }

  /** Whatever the callbacks do: a migration either refuses or answers the event at exactly the version aimed for, with
      its identity untouched, and, if it went any way at all, structurally valid. */
  lemma {:induction false} ChainArrives(r: Registry, current: Stored, version: int, target: int, run: nat)
    requires WellFormed(r) && version <= target && VersionOf(current) == version
    requires Chain(r, current, version, target, run).Migrated?
    ensures var e := Chain(r, current, version, target, run).event;
            && VersionOf(e) == target && e.identity == current.identity
            && (version < target ==> e.schemaVersion == Some(target) && StructurallyValid(e))
    decreases target - version
  {
    if version < target {
      var step := r.steps[StepKey(current.identity.eventType, version)];
      ChainArrives(r, RunTwice(step, current, run).event, step.toVersion, target, run + 2);
    }
  }

  lemma UpcastArrives(r: Registry, e: Stored, target: Option<int>, run: nat)
    requires WellFormed(r) && UpcastBy(r, e, target, run).Migrated?
    ensures var e' := UpcastBy(r, e, target, run).event;
            && e'.identity == e.identity
            && VersionOf(e') == TargetOf(r, e, target)
            && (if VersionOf(e') == VersionOf(e) then e' == e else StructurallyValid(e'))
  {
    ChainArrives(r, e, VersionOf(e), TargetOf(r, e, target), run);
  }

  /** Migrating to the registry's own target a second time changes nothing, even with callbacks that are not
      deterministic: the second time none of them runs. */
  lemma DefaultUpcastIsIdempotent(r: Registry, e: Stored, run: nat, later: nat)
    requires WellFormed(r) && UpcastBy(r, e, None, run).Migrated?
    ensures var e' := UpcastBy(r, e, None, run).event;
            UpcastBy(r, e', None, later) == Migrated(e')
  {
    UpcastArrives(r, e, None, run);
    var t := e.identity.eventType;
    if t in r.latest { assert StepKey(t, r.latest[t] - 1) in r.steps; }
  }

  ghost predicate Deterministic(r: Registry) {
    forall key, e, i, j :: key in r.steps ==> r.steps[key].transform(e, i) == r.steps[key].transform(e, j)
  }

  /** With deterministic callbacks it does not matter when a chain runs. */
  lemma {:induction false} ChainAnyTime(r: Registry, current: Stored, version: int, target: int, run: nat, other: nat)
    requires Deterministic(r)
    ensures Chain(r, current, version, target, run) == Chain(r, current, version, target, other)
    decreases target - version
  {
    var key := StepKey(current.identity.eventType, version);
    if version < target && key in r.steps && r.steps[key].toVersion > version {
      RunTwiceAnyTime(r, key, current, run, other);
      if RunTwice(r.steps[key], current, run).Migrated? {
        ChainAnyTime(r, RunTwice(r.steps[key], current, run).event, r.steps[key].toVersion, target, run + 2, other + 2);
      }
    }
  }

  lemma RunTwiceAnyTime(r: Registry, key: StepKey, current: Stored, run: nat, other: nat)
    requires Deterministic(r) && key in r.steps
    ensures RunTwice(r.steps[key], current, run) == RunTwice(r.steps[key], current, other)
  {
    var f := r.steps[key].transform;
    assert f(current, run) == f(current, run + 1) == f(current, other) == f(current, other + 1);
  }

  lemma {:induction false} ChainInStages(r: Registry, current: Stored, version: int, middle: int, target: int,
                                         run: nat, later: nat)
    requires WellFormed(r) && Deterministic(r) && version <= middle <= target
    ensures Chain(r, current, version, target, run) ==
            match Chain(r, current, version, middle, run)
            case Refused(fault) => Refused(fault)
            case Migrated(e) => Chain(r, e, middle, target, later)
    decreases middle - version
  {
    if version == middle {
      ChainAnyTime(r, current, version, target, run, later);
    } else {
      var key := StepKey(current.identity.eventType, version);
      if key in r.steps && RunTwice(r.steps[key], current, run).Migrated? {
        ChainInStages(r, RunTwice(r.steps[key], current, run).event, r.steps[key].toVersion, middle, target,
                      run + 2, later);
      }
    }
  }

  /** With deterministic callbacks, migrating through any version on the way is migrating in one go: the same event,
      or the same fault. */
  lemma TwoStagesAreOne(r: Registry, e: Stored, middle: int, target: int, run: nat, later: nat)
    requires WellFormed(r) && Deterministic(r)
    requires PositiveSafe(middle) && PositiveSafe(target) && VersionOf(e) <= middle <= target
    ensures UpcastBy(r, e, Some(target), run) ==
            match UpcastBy(r, e, Some(middle), run)
            case Refused(fault) => Refused(fault)
            case Migrated(e') => UpcastBy(r, e', Some(target), later)
  {
    if PositiveSafe(VersionOf(e)) {
      ChainInStages(r, e, VersionOf(e), middle, target, run, later);
      if UpcastBy(r, e, Some(middle), run).Migrated? {
        UpcastArrives(r, e, Some(middle), run);
      }
    }
  }

  /** A registry that accepts `steps` one after the other. */
  function RegisterAll(steps: seq<Step>): Registry {
    if steps == [] then EMPTY else Extended(RegisterAll(steps[..|steps| - 1]), steps[|steps| - 1])
  }

  predicate AllAccepted(steps: seq<Step>) {
    steps != [] ==>
      && AllAccepted(steps[..|steps| - 1])
      && Registrable(RegisterAll(steps[..|steps| - 1]), steps[|steps| - 1])
  }

  ghost predicate Holds(r: Registry, steps: seq<Step>) {
    && (forall key :: key in r.steps ==> r.steps[key] in steps)
    && (forall i :: 0 <= i < |steps| ==> KeyOf(steps[i]) in r.steps && r.steps[KeyOf(steps[i])] == steps[i])
  }

  lemma HoldsOneMore(r: Registry, steps: seq<Step>, step: Step)
    requires Holds(r, steps) && Registrable(r, step)
    ensures Holds(Extended(r, step), steps + [step])
  {
    var r' := Extended(r, step);
    forall key | key in r'.steps ensures r'.steps[key] in steps + [step] {
      if key in r.steps && key != KeyOf(step) { assert r.steps[key] in steps; }
    }
  }

  lemma HoldsAll(r: Registry, shorter: seq<Step>, last: Step, steps: seq<Step>)
    requires WellFormed(r) && Holds(r, shorter) && Registrable(r, last) && steps == shorter + [last]
    ensures WellFormed(Extended(r, last)) && Holds(Extended(r, last), steps)
  {
    ExtendedKeepsWellFormed(r, last);
    HoldsOneMore(r, shorter, last);
  }

  lemma {:induction false} RegistryHoldsSteps(steps: seq<Step>)
    requires AllAccepted(steps)
    ensures WellFormed(RegisterAll(steps)) && Holds(RegisterAll(steps), steps)
  {
    if steps != [] {
      var shorter, last := steps[..|steps| - 1], steps[|steps| - 1];
      RegistryHoldsSteps(shorter);
      HoldsAll(RegisterAll(shorter), shorter, last, steps);
    }
  }

  lemma HeldStepsAreShared(a: Registry, one: seq<Step>, b: Registry, other: seq<Step>, key: StepKey)
    requires Holds(a, one) && Holds(b, other) && WellFormed(a) && key in a.steps
    requires forall step :: step in one ==> step in other
    ensures key in b.steps && b.steps[key] == a.steps[key]
  {
    var step := a.steps[key];
    assert step in one && Fits(step, key, a.latest);
    var i :| 0 <= i < |other| && other[i] == step;
  }

  /** The steps determine the latest versions. */
  lemma LatestFollowsSteps(a: Registry, b: Registry)
    requires WellFormed(a) && WellFormed(b) && a.steps == b.steps
    ensures a == b
  {
    forall t ensures t in a.latest <==> t in b.latest {
      if t in a.latest { assert StepKey(t, a.latest[t] - 1) in b.steps; }
      if t in b.latest { assert StepKey(t, b.latest[t] - 1) in a.steps; }
    }
    forall t | t in a.latest ensures a.latest[t] == b.latest[t] {
      assert StepKey(t, a.latest[t] - 1) in b.steps && StepKey(t, b.latest[t] - 1) in a.steps;
    }
  }

  ghost predicate Included(a: Registry, b: Registry) {
    forall key :: key in a.steps ==> key in b.steps && b.steps[key] == a.steps[key]
  }

  lemma SharedSteps(a: Registry, one: seq<Step>, b: Registry, other: seq<Step>)
    requires Holds(a, one) && Holds(b, other) && WellFormed(a)
    requires forall step :: step in one ==> step in other
    ensures Included(a, b)
  {
    forall key | key in a.steps ensures key in b.steps && b.steps[key] == a.steps[key] {
      HeldStepsAreShared(a, one, b, other, key);
    }
  }

  lemma MutuallyIncluded(a: Registry, b: Registry)
    requires WellFormed(a) && WellFormed(b) && Included(a, b) && Included(b, a)
    ensures a == b
  {
    assert a.steps == b.steps;
    LatestFollowsSteps(a, b);
  }

  /** The order of registration does not matter: the same steps make the same registry, so all events migrate alike. */
  lemma OrderDoesNotMatter(one: seq<Step>, other: seq<Step>)
    requires AllAccepted(one) && AllAccepted(other) && (forall step :: step in one <==> step in other)
    ensures RegisterAll(one) == RegisterAll(other)
  {
    RegistryHoldsSteps(one);
    RegistryHoldsSteps(other);
    SharedSteps(RegisterAll(one), one, RegisterAll(other), other);
    SharedSteps(RegisterAll(other), other, RegisterAll(one), one);
    MutuallyIncluded(RegisterAll(one), RegisterAll(other));
  }
}
