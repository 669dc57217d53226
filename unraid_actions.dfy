/**
 * The three container actions of the Unraid client (restart, stop and
 * force update) as the sequence of GraphQL mutations each one issues and
 * the error it ends with. Every GraphQL call is represented by its result:
 * the container lookup's, the introspection's, and for each mutation the
 * error text it failed with, if any.
 */
module UnraidActions {
  import opened Wrappers
  import opened Text
  import opened UnraidNames
  import opened UnraidSchema

  datatype Mutation =
    | StopCall(id: string)
    | StartCall(id: string)
    | ForceUpdateCall(query: string, id: string)

  /** How a stop or start mutation ended. */
  datatype CallResult = Done | Already | CallFailed(msg: string)

  /**
   * stopContainer / startContainer: a failure whose text mentions both
   * "already" and the target state is the "already stopped/started" error.
   */
  function Classify(err: Option<string>, state: string): (r: CallResult)
    ensures err.None? <==> r == Done
    ensures r == Already <==> err.Some? && Contains(err.value, "already") && Contains(err.value, state)
  {
    match err
    case None => Done
    case Some(msg) =>
      if Contains(msg, "already") && Contains(msg, state) then Already else CallFailed(msg)
  }

  /** What the introspection queries found: a failure, no docker mutation type, or its fields. */
  datatype Detection = DetectFailed(msg: string) | NoDockerType | Fields(fields: map<string, FieldMeta>)

  datatype ActionError =
    | LookupError(lookupErr: LookupError)
    | MutationFailed(msg: string)
    | IntrospectionFailed(msg: string)
    | SelectionError(selectErr: SelectError)
    | Unsupported

  datatype ActionOutcome = ActionOutcome(calls: seq<Mutation>, err: Option<ActionError>)

  /**
   * RestartContainerByName: find the container, stop it (an "already
   * stopped" failure is tolerated), then start it (an "already started"
   * failure is tolerated).
   */
  function Restart(fetched: Result<seq<Container>, string>, name: string,
                   stopErr: Option<string>, startErr: Option<string>): (o: ActionOutcome)
    ensures Lookup(fetched, name).Err? ==> o == ActionOutcome([], Some(LookupError(Lookup(fetched, name).error)))
    ensures Lookup(fetched, name).Ok? ==> |o.calls| >= 1 && o.calls[0] == StopCall(Lookup(fetched, name).value)
    ensures o.err.None? <==>
      Lookup(fetched, name).Ok? && !Classify(stopErr, "stopped").CallFailed? && !Classify(startErr, "started").CallFailed?
    ensures Lookup(fetched, name).Ok? && !Classify(stopErr, "stopped").CallFailed? ==>
      o.calls == [StopCall(Lookup(fetched, name).value), StartCall(Lookup(fetched, name).value)]
  {
    match Lookup(fetched, name)
    case Err(e) => ActionOutcome([], Some(LookupError(e)))
    case Ok(id) =>
      match Classify(stopErr, "stopped")
      case CallFailed(msg) => ActionOutcome([StopCall(id)], Some(MutationFailed(msg)))
      case _ =>
        match Classify(startErr, "started")
        case CallFailed(msg) => ActionOutcome([StopCall(id), StartCall(id)], Some(MutationFailed(msg)))
        case _ => ActionOutcome([StopCall(id), StartCall(id)], None)
  }

  /** StopContainerByName: find the container and stop it; "already stopped" counts as success. */
  function Stop(fetched: Result<seq<Container>, string>, name: string, stopErr: Option<string>): (o: ActionOutcome)
    ensures Lookup(fetched, name).Err? ==> o == ActionOutcome([], Some(LookupError(Lookup(fetched, name).error)))
    ensures Lookup(fetched, name).Ok? ==> o.calls == [StopCall(Lookup(fetched, name).value)]
    ensures o.err.None? <==> Lookup(fetched, name).Ok? && !Classify(stopErr, "stopped").CallFailed?
  {
    match Lookup(fetched, name)
    case Err(e) => ActionOutcome([], Some(LookupError(e)))
    case Ok(id) =>
      match Classify(stopErr, "stopped")
      case CallFailed(msg) => ActionOutcome([StopCall(id)], Some(MutationFailed(msg)))
      case _ => ActionOutcome([StopCall(id)], None)
  }

  /** A name no container carries makes every action fail before any mutation is sent. */
  lemma UnknownNameIssuesNoMutation(cs: seq<Container>, name: string, stopErr: Option<string>, startErr: Option<string>)
    requires NormalizeName(name) !in AllNames(cs)
    ensures Restart(Ok(cs), name, stopErr, startErr) == ActionOutcome([], Some(LookupError(NotFound(name, Examples(cs)))))
    ensures Stop(Ok(cs), name, stopErr) == ActionOutcome([], Some(LookupError(NotFound(name, Examples(cs)))))
  {
    assert FirstMatch(cs, NormalizeName(name)).None?;
  }

  /** Restart and stop agree on the stop step: when stopping fails for another reason, both report it. */
  lemma RestartStopsLikeStop(fetched: Result<seq<Container>, string>, name: string,
                             stopErr: Option<string>, startErr: Option<string>)
    ensures Stop(fetched, name, stopErr).err.Some? ==> Restart(fetched, name, stopErr, startErr) == Stop(fetched, name, stopErr)
    ensures Stop(fetched, name, stopErr).err.None? ==>
      Restart(fetched, name, stopErr, startErr).calls == Stop(fetched, name, stopErr).calls + [StartCall(Lookup(fetched, name).value)]
  {
  }

  /** The text of the force-update mutation. */
  function ForceUpdateQuery(m: MutationMeta): string {
    var selection := if m.returnNeedsSelection then " { __typename }" else "";
    "mutation ForceUpdate($v: " + m.argType + ") { docker { " + m.fieldName + "(" + m.argName + ": $v)" + selection + " } }"
  }

  /** `s` ends with `suffix`. */
  predicate EndsWith(s: string, suffix: string) {
    |suffix| <= |s| && s[|s| - |suffix|..] == suffix
  }

  /** The mutation description of a field names it and carries what PickIDArg and the return type give. */
  lemma MetaForFacts(name: string, f: FieldMeta, m: MutationMeta)
    requires MetaFor(name, f) == Some(m)
    ensures m.fieldName == name
    ensures PickIDArg(f.args) == Some(IdArg(m.argName, m.argType))
    ensures m.returnNeedsSelection == RequiresSelectionSet(f.typ)
  {
  }

  /** A selected mutation is the description of a usable field, the configured one when a name is configured. */
  lemma SelectedIsMetaFor(configured: string, fields: map<string, FieldMeta>, m: MutationMeta)
    requires SelectForceUpdate(configured, fields) == Ok(Some(m))
    ensures m.fieldName in fields && MetaFor(m.fieldName, fields[m.fieldName]) == Some(m)
    ensures configured != "" ==> m.fieldName == configured
  {
    if configured != "" {
      assert Usable(fields, configured);
    } else if FirstUsable(FixedCandidates, fields).Some? {
      assert m == FirstUsable(FixedCandidates, fields).value;
    } else {
      var names := FilterUpdateLike(SortedNames(fields));
      assert m == FirstUsable(names, fields).value;
    }
  }

  /** The query ends in a `{ __typename }` selection exactly when the description asks for one. */
  lemma QuerySelectsWhenNeeded(m: MutationMeta)
    ensures var q := ForceUpdateQuery(m);
      && HasPrefix(q, "mutation ForceUpdate($v: " + m.argType + ") { docker { " + m.fieldName + "(" + m.argName + ": $v)")
      && (EndsWith(q, " { __typename } } }") <==> m.returnNeedsSelection)
  {
    var head := "mutation ForceUpdate($v: " + m.argType + ") { docker { " + m.fieldName + "(" + m.argName + ": $v)";
    var q := ForceUpdateQuery(m);
    var suffix := " { __typename } } }";
    if m.returnNeedsSelection {
      assert q == head + suffix;
    } else {
      assert q == head + " } }";
      assert q[|q| - 5] == ')';
      if |suffix| <= |q| {
        assert q[|q| - |suffix|..][14] == q[|q| - 5];
        assert suffix[14] == '}';
      }
    }
  }

  /**
   * The force-update mutation sent for a selected field: it names that
   * field (the configured one when a name is configured), passes the
   * container ID as the argument PickIDArg chose, declares the variable
   * with that argument's rendered type, and asks for `{ __typename }`
   * exactly when the field's return type is an object, interface or union.
   */
  lemma ForceUpdateQueryMatchesSchema(configured: string, fields: map<string, FieldMeta>, m: MutationMeta)
    requires SelectForceUpdate(configured, fields) == Ok(Some(m))
    ensures m.fieldName in fields
    ensures configured != "" ==> m.fieldName == configured
    ensures PickIDArg(fields[m.fieldName].args) == Some(IdArg(m.argName, m.argType))
    ensures var q := ForceUpdateQuery(m);
      && HasPrefix(q, "mutation ForceUpdate($v: " + m.argType + ") { docker { " + m.fieldName + "(" + m.argName + ": $v)")
      && (EndsWith(q, " { __typename } } }") <==> BaseKind(fields[m.fieldName].typ) in {"OBJECT", "INTERFACE", "UNION"})
  {
    SelectedIsMetaFor(configured, fields, m);
    MetaForFacts(m.fieldName, fields[m.fieldName], m);
    QuerySelectsWhenNeeded(m);
  }

  /**
   * ForceUpdateContainerByName: look the container up, detect the
   * mutation, then call it with the container ID.
   */
  ghost function ForceUpdate(fetched: Result<seq<Container>, string>, name: string, configured: string,
                             detection: Detection, callErr: Option<string>): (o: ActionOutcome)
    ensures Lookup(fetched, name).Err? ==> o == ActionOutcome([], Some(LookupError(Lookup(fetched, name).error)))
    ensures Lookup(fetched, name).Ok? && detection.DetectFailed? ==>
      o == ActionOutcome([], Some(IntrospectionFailed(detection.msg)))
    ensures Lookup(fetched, name).Ok? && detection.NoDockerType? ==> o == ActionOutcome([], Some(Unsupported))
    ensures Lookup(fetched, name).Ok? && detection.Fields? && SelectForceUpdate(configured, detection.fields).Err? ==>
      o == ActionOutcome([], Some(SelectionError(SelectForceUpdate(configured, detection.fields).error)))
    ensures Lookup(fetched, name).Ok? && detection.Fields? && SelectForceUpdate(configured, detection.fields) == Ok(None) ==>
      o == ActionOutcome([], Some(Unsupported))
    ensures (Lookup(fetched, name).Ok? && detection.Fields? && SelectForceUpdate(configured, detection.fields).Ok?
             && SelectForceUpdate(configured, detection.fields).value.Some?) ==>
      && o.calls == [ForceUpdateCall(ForceUpdateQuery(SelectForceUpdate(configured, detection.fields).value.value),
                                     Lookup(fetched, name).value)]
      && (o.err.None? <==> callErr.None?)
      && (callErr.Some? ==> o.err == Some(MutationFailed(callErr.value)))
    ensures |o.calls| <= 1
    ensures o.calls != [] ==> Lookup(fetched, name).Ok? && detection.Fields?
    ensures o.err.None? ==>
      && Lookup(fetched, name).Ok? && callErr.None? && detection.Fields?
      && SelectForceUpdate(configured, detection.fields).Ok?
      && SelectForceUpdate(configured, detection.fields).value.Some?
      && o.calls == [ForceUpdateCall(ForceUpdateQuery(SelectForceUpdate(configured, detection.fields).value.value), Lookup(fetched, name).value)]
  {
    match Lookup(fetched, name)
    case Err(e) => ActionOutcome([], Some(LookupError(e)))
    case Ok(id) =>
      match detection
      case DetectFailed(msg) => ActionOutcome([], Some(IntrospectionFailed(msg)))
      case NoDockerType => ActionOutcome([], Some(Unsupported))
      case Fields(fields) =>
        match SelectForceUpdate(configured, fields)
        case Err(e) => ActionOutcome([], Some(SelectionError(e)))
        case Ok(None) => ActionOutcome([], Some(Unsupported))
        case Ok(Some(m)) =>
          var call := ForceUpdateCall(ForceUpdateQuery(m), id);
          match callErr
          case Some(msg) => ActionOutcome([call], Some(MutationFailed(msg)))
          case None => ActionOutcome([call], None)
  }

  /**
   * A schema whose docker mutations offer `update(id: PrefixedID!)`
   * returning an object: the field is picked with its ID argument and a
   * selection set.
   */
  lemma UpdateFieldIsPicked()
    ensures var idType := TypeRef("NON_NULL", "", Some(TypeRef("SCALAR", "PrefixedID", None)));
      var f := FieldMeta("update", [ArgMeta("id", idType)], TypeRef("OBJECT", "DockerContainer", None));
      SelectForceUpdate("", map["update" := f]) == Ok(Some(MutationMeta("update", "id", "PrefixedID!", true)))
  {
    var idType := TypeRef("NON_NULL", "", Some(TypeRef("SCALAR", "PrefixedID", None)));
    var f := FieldMeta("update", [ArgMeta("id", idType)], TypeRef("OBJECT", "DockerContainer", None));
    var fields := map["update" := f];
    var scalar := TypeRef("SCALAR", "PrefixedID", None);
    assert scalar.kind[0] == 'S';
    assert TypeString(scalar) == "PrefixedID";
    assert TypeString(idType) == "PrefixedID!";
    assert FindArg(f.args, "id") == Some(ArgMeta("id", idType));
    assert f.typ.kind[0] == 'O';
    assert BaseKind(f.typ) == "OBJECT";
    assert MetaFor("update", f) == Some(MutationMeta("update", "id", "PrefixedID!", true));
    forall j | 0 <= j < 3
      ensures !Usable(fields, FixedCandidates[j])
    {
      assert FixedCandidates[j] != "update" by {
        assert |FixedCandidates[j]| != 6;
      }
    }
    FixedCandidateWins(fields, 3);
  }
}
