/** The observation contract: what New fills in and what Validate rejects. */
module Observations {
  import opened Domain

  const SCHEMA_VERSION := 1

  datatype Observation = Observation(
    id: string, sessionId: string, source: string, kind: EvidenceType,
    confidence: real, severity: Severity, schemaVersion: int, service: string, detail: string)

  datatype FieldError =
    | EmptyId | EmptySessionId | EmptySource | UnspecifiedKind | UnspecifiedLevel
    | ConfidenceOutOfRange | UnsupportedSchemaVersion

  /** The contract, field by field. */
  predicate Violates(o: Observation, e: FieldError) {
    match e
    case EmptyId => o.id == ""
    case EmptySessionId => o.sessionId == ""
    case EmptySource => o.source == ""
    case UnspecifiedKind => o.kind.UnspecifiedType?
    case UnspecifiedLevel => o.severity.UnspecifiedSeverity?
    case ConfidenceOutOfRange => !(0.0 <= o.confidence <= 1.0)
    case UnsupportedSchemaVersion => o.schemaVersion != SCHEMA_VERSION
  }

  /** An observation conforms exactly when its four names are set, its confidence is a
    * probability and its schema version is 1; each breach shows as an error of its own. */
  lemma ConformsMeans(o: Observation)
    ensures Conforms(o) <==>
      && o.id != "" && o.sessionId != "" && o.source != "" && o.kind != UnspecifiedType
      && o.severity != UnspecifiedSeverity && 0.0 <= o.confidence <= 1.0 && o.schemaVersion == 1
    ensures Violates(o, EmptyId) <==> o.id == ""
    ensures Violates(o, EmptySessionId) <==> o.sessionId == ""
    ensures Violates(o, EmptySource) <==> o.source == ""
    ensures Violates(o, UnspecifiedKind) <==> o.kind == UnspecifiedType
    ensures Violates(o, UnspecifiedLevel) <==> o.severity == UnspecifiedSeverity
    ensures Violates(o, ConfidenceOutOfRange) <==> o.confidence < 0.0 || o.confidence > 1.0
    ensures Violates(o, UnsupportedSchemaVersion) <==> o.schemaVersion != 1
  {
    if !Conforms(o) { var e :| Violates(o, e); }
    assert Conforms(o) ==> !Violates(o, EmptyId) && !Violates(o, EmptySessionId) && !Violates(o, EmptySource);
    assert Conforms(o) ==> !Violates(o, UnspecifiedKind) && !Violates(o, UnspecifiedLevel);
    assert Conforms(o) ==> !Violates(o, ConfidenceOutOfRange) && !Violates(o, UnsupportedSchemaVersion);
  }

  predicate Conforms(o: Observation) { forall e :: !Violates(o, e) }

  /** errs lists the violations among the fields seen, each once. */
  ghost predicate Collected(o: Observation, seen: set<FieldError>, errs: seq<FieldError>) {
    Distinct(errs) && forall e :: e in errs <==> e in seen && Violates(o, e)
  }

  method Check(o: Observation, ghost seen: set<FieldError>, errs: seq<FieldError>, bad: bool, e: FieldError)
      returns (errs': seq<FieldError>)
    requires Collected(o, seen, errs) && e !in seen && (bad <==> Violates(o, e))
    ensures Collected(o, seen + {e}, errs')
  {
    errs' := if bad then errs + [e] else errs;
  }

  /** Every violation is collected, once. */
  method Validate(o: Observation) returns (errs: seq<FieldError>)
    ensures Distinct(errs) && forall e :: e in errs <==> Violates(o, e)
    ensures errs == [] <==> Conforms(o)
  {
    ghost var seen: set<FieldError> := {};
    errs := Check(o, seen, [], o.id == "", EmptyId);
    errs := Check(o, seen + {EmptyId}, errs, o.sessionId == "", EmptySessionId);
    seen := seen + {EmptyId} + {EmptySessionId};
    errs := Check(o, seen, errs, o.source == "", EmptySource);
    errs := Check(o, seen + {EmptySource}, errs, o.kind.UnspecifiedType?, UnspecifiedKind);
    seen := seen + {EmptySource} + {UnspecifiedKind};
    errs := Check(o, seen, errs, o.severity.UnspecifiedSeverity?, UnspecifiedLevel);
    errs := Check(o, seen + {UnspecifiedLevel}, errs, o.confidence < 0.0 || o.confidence > 1.0, ConfidenceOutOfRange);
    seen := seen + {UnspecifiedLevel} + {ConfidenceOutOfRange};
    var unsupported := o.schemaVersion < SCHEMA_VERSION || o.schemaVersion > SCHEMA_VERSION;
    errs := Check(o, seen, errs, unsupported, UnsupportedSchemaVersion);
    Full(seen + {UnsupportedSchemaVersion});
    if errs != [] { assert errs[0] in errs; }
  }

  lemma Full(seen: set<FieldError>)
    requires {EmptyId, EmptySessionId, EmptySource, UnspecifiedKind, UnspecifiedLevel, ConfidenceOutOfRange,
              UnsupportedSchemaVersion} <= seen
    ensures forall e: FieldError :: e in seen
  {
    forall e: FieldError
      ensures e in seen
    {
      match e
      case EmptyId =>
      case EmptySessionId =>
      case EmptySource =>
      case UnspecifiedKind =>
      case UnspecifiedLevel =>
      case ConfidenceOutOfRange =>
      case UnsupportedSchemaVersion =>
    }
  }

  /** What New can still reject: the fields it leaves to the caller. */
  predicate Emittable(o: Observation) {
    o.sessionId != "" && o.source != "" && !o.kind.UnspecifiedType? && !o.severity.UnspecifiedSeverity?
    && 0.0 <= o.confidence <= 1.0
  }

  function Completed(o: Observation, uuid: string): Observation {
    o.(id := if o.id == "" then uuid else o.id, schemaVersion := SCHEMA_VERSION)
  }

  /** New succeeds exactly on emittable observations, and what it returns conforms. */
  method New(o: Observation, uuid: string) returns (r: Option<Observation>)
    requires uuid != ""
    ensures r == if Emittable(o) then Some(Completed(o, uuid)) else None
    ensures r.Some? ==> Conforms(r.value)
    ensures r.Some? <==>
      && o.sessionId != "" && o.source != "" && o.kind != UnspecifiedType && o.severity != UnspecifiedSeverity
      && 0.0 <= o.confidence <= 1.0
    ensures r.Some? ==>
      && r.value.id == (if o.id == "" then uuid else o.id) && r.value.schemaVersion == 1
      && r.value.(id := o.id, schemaVersion := o.schemaVersion) == o
  {
    var filled := o;
    if filled.id == "" { filled := filled.(id := uuid); }
    filled := filled.(schemaVersion := SCHEMA_VERSION);
    EmittableIffConforms(o, uuid);
    var errs := Validate(filled);
    r := if errs == [] then Some(filled) else None;
  }

  lemma EmittableIffConforms(o: Observation, uuid: string)
    requires uuid != ""
    ensures Emittable(o) <==> Conforms(Completed(o, uuid))
  {
    var c := Completed(o, uuid);
    if Conforms(c) {
      assert !Violates(c, EmptySessionId) && !Violates(c, EmptySource) && !Violates(c, UnspecifiedKind);
      assert !Violates(c, UnspecifiedLevel) && !Violates(c, ConfidenceOutOfRange);
    }
  }
}
