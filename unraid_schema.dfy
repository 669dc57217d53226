/**
 * What the Unraid client reads from GraphQL introspection: type
 * references, the ID argument of a mutation field, and the choice of the
 * "force update" mutation among the fields of the docker mutation type.
 *
 * A type reference is the introspection record (kind, name, ofType).
 * Rendering it gives the type syntax of section 2.11 "Type References" of
 * the GraphQL specification (October 2021): `T!` for a non-null type and
 * `[T]` for a list type.
 */
module UnraidSchema {
  import opened Wrappers
  import opened Text
  import Ordering

  datatype TypeRef = TypeRef(kind: string, name: string, ofType: Option<TypeRef>)

  /** gqlTypeRef.String */
  function TypeString(t: TypeRef): (r: string)
    ensures r != []
  {
    if t.kind == "NON_NULL" then
      (match t.ofType
       case None => "String!"
       case Some(inner) => TypeString(inner) + "!")
    else if t.kind == "LIST" then
      (match t.ofType
       case None => "[String]"
       case Some(inner) => "[" + TypeString(inner) + "]")
    else if t.name != "" then t.name
    else
      (match t.ofType
       case None => "String"
       case Some(inner) => TypeString(inner))
  }

  /** gqlTypeRef.baseKind: the kind under the NON_NULL and LIST wrappers. */
  function BaseKind(t: TypeRef): string {
    if t.kind == "NON_NULL" || t.kind == "LIST" then
      (match t.ofType
       case None => t.kind
       case Some(inner) => BaseKind(inner))
    else t.kind
  }

  /** gqlTypeRef.RequiresSelectionSet */
  predicate RequiresSelectionSet(t: TypeRef) {
    var base := BaseKind(t);
    base == "OBJECT" || base == "INTERFACE" || base == "UNION"
  }

  // ---------------------------------------------------------------------
  // The type syntax these records stand for

  /** A type as written in GraphQL: a named type of some kind, a list, or a non-null type. */
  datatype GqlType =
    | Named(name: string, namedKind: string)
    | ListOf(elem: GqlType)
    | NonNull(inner: GqlType)

  /** A named type has a name and a kind other than the two wrappers. */
  predicate WellFormed(g: GqlType) {
    match g
    case Named(name, k) => name != "" && k != "NON_NULL" && k != "LIST"
    case ListOf(e) => WellFormed(e)
    case NonNull(i) => WellFormed(i) && !i.NonNull?
  }

  /** The type written out in GraphQL syntax. */
  function Render(g: GqlType): string {
    match g
    case Named(name, _) => name
    case ListOf(e) => "[" + Render(e) + "]"
    case NonNull(i) => Render(i) + "!"
  }

  /** The introspection record describing the type. */
  function Introspect(g: GqlType): TypeRef {
    match g
    case Named(name, k) => TypeRef(k, name, None)
    case ListOf(e) => TypeRef("LIST", "", Some(Introspect(e)))
    case NonNull(i) => TypeRef("NON_NULL", "", Some(Introspect(i)))
  }

  function Innermost(g: GqlType): (r: GqlType)
    ensures r.Named?
  {
    match g
    case Named(_, _) => g
    case ListOf(e) => Innermost(e)
    case NonNull(i) => Innermost(i)
  }

  /** Rendering an introspected type gives its GraphQL syntax back. */
  lemma {:induction false} TypeStringOfIntrospection(g: GqlType)
    requires WellFormed(g)
    ensures TypeString(Introspect(g)) == Render(g)
  {
    match g
    case Named(_, _) =>
    case ListOf(e) => TypeStringOfIntrospection(e);
    case NonNull(i) => TypeStringOfIntrospection(i);
  }

  /** The base kind of an introspected type is the kind of its innermost named type. */
  lemma {:induction false} BaseKindOfIntrospection(g: GqlType)
    requires WellFormed(g)
    ensures BaseKind(Introspect(g)) == Innermost(g).namedKind
  {
    match g
    case Named(_, _) =>
    case ListOf(e) => BaseKindOfIntrospection(e);
    case NonNull(i) => BaseKindOfIntrospection(i);
  }

  /** A field needs a selection set exactly when its innermost type is an object, interface or union. */
  lemma SelectionSetOfIntrospection(g: GqlType)
    requires WellFormed(g)
    ensures RequiresSelectionSet(Introspect(g)) <==>
      Innermost(g).namedKind in {"OBJECT", "INTERFACE", "UNION"}
  {
    BaseKindOfIntrospection(g);
  }

  // ---------------------------------------------------------------------
  // pickIDArg

  datatype ArgMeta = ArgMeta(name: string, typ: TypeRef)

  /** The first argument with the given name. */
  function FindArg(args: seq<ArgMeta>, name: string): (r: Option<ArgMeta>)
    ensures r.Some? ==> r.value in args && r.value.name == name
    ensures r.None? <==> forall i :: 0 <= i < |args| ==> args[i].name != name
  {
    if args == [] then None
    else if args[0].name == name then Some(args[0])
    else FindArg(args[1..], name)
  }

  /** The chosen argument: its name and its rendered type. */
  datatype IdArg = IdArg(name: string, typ: string)

  /** pickIDArg: "id", else "dockerId", else the only argument, else none. */
  function PickIDArg(args: seq<ArgMeta>): (r: Option<IdArg>)
    ensures FindArg(args, "id").Some? ==> r == Some(IdArg("id", TypeString(FindArg(args, "id").value.typ)))
    ensures FindArg(args, "id").None? && FindArg(args, "dockerId").Some? ==>
      r == Some(IdArg("dockerId", TypeString(FindArg(args, "dockerId").value.typ)))
    ensures FindArg(args, "id").None? && FindArg(args, "dockerId").None? ==>
      (r.Some? <==> |args| == 1) && (|args| == 1 ==> r == Some(IdArg(args[0].name, TypeString(args[0].typ))))
  {
    match FindArg(args, "id")
    case Some(a) => Some(IdArg("id", TypeString(a.typ)))
    case None =>
      match FindArg(args, "dockerId")
      case Some(a) => Some(IdArg("dockerId", TypeString(a.typ)))
      case None =>
        if |args| == 1 then Some(IdArg(args[0].name, TypeString(args[0].typ))) else None
  }

  // ---------------------------------------------------------------------
  // detectDockerForceUpdateMutation

  datatype FieldMeta = FieldMeta(name: string, args: seq<ArgMeta>, typ: TypeRef)

  datatype MutationMeta = MutationMeta(fieldName: string, argName: string, argType: string, returnNeedsSelection: bool)

  /** The mutation description of a field, when it takes an ID argument. */
  function MetaFor(name: string, f: FieldMeta): Option<MutationMeta> {
    match PickIDArg(f.args)
    case None => None
    case Some(a) => Some(MutationMeta(name, a.name, a.typ, RequiresSelectionSet(f.typ)))
  }

  predicate Usable(fields: map<string, FieldMeta>, name: string) {
    name in fields && MetaFor(name, fields[name]).Some?
  }

  /** The first name in `names` naming a usable field. */
  function FirstUsable(names: seq<string>, fields: map<string, FieldMeta>): (r: Option<MutationMeta>)
    ensures r.None? <==> forall i :: 0 <= i < |names| ==> !Usable(fields, names[i])
    ensures r.Some? ==>
      exists i :: 0 <= i < |names| && Usable(fields, names[i]) && r == MetaFor(names[i], fields[names[i]])
        && forall j :: 0 <= j < i ==> !Usable(fields, names[j])
    ensures r.Some? ==>
      && r.value.fieldName in names && Usable(fields, r.value.fieldName)
      && r == MetaFor(r.value.fieldName, fields[r.value.fieldName])
  {
    if names == [] then None
    else if Usable(fields, names[0]) then Some(MetaFor(names[0], fields[names[0]]).value)
    else
      var r := FirstUsable(names[1..], fields);
      assert forall i :: 0 < i < |names| ==> names[i] == names[1..][i - 1];
      r
  }

  /** The fixed names tried first, in order. */
  const FixedCandidates: seq<string> := [
    "forceUpdate", "forceUpdateDocker", "force_update", "update", "updateContainer",
    "updateDocker", "update_container", "recreate", "pull"]

  /** A field name that looks like an update once lower-cased. */
  predicate LooksLikeUpdate(name: string) {
    var lower := ToLower(name);
    Contains(lower, "update") || Contains(lower, "pull") || Contains(lower, "recreate")
  }

  function FilterUpdateLike(names: seq<string>): (r: seq<string>)
    ensures forall x :: x in r <==> x in names && LooksLikeUpdate(x)
    ensures Ordering.Sorted(names) ==> Ordering.Sorted(r)
  {
    if names == [] then []
    else
      var rest := FilterUpdateLike(names[1..]);
      assert names == [names[0]] + names[1..];
      if LooksLikeUpdate(names[0]) then
        assert Ordering.Sorted(names) ==> forall j :: 0 <= j < |rest| ==> Ordering.LexLeq(names[0], rest[j]) by {
          if Ordering.Sorted(names) {
            forall j | 0 <= j < |rest| ensures Ordering.LexLeq(names[0], rest[j]) {
              assert rest[j] in names[1..];
              var k :| 0 <= k < |names[1..]| && names[1..][k] == rest[j];
              assert names[k + 1] == rest[j];
            }
          }
        }
        [names[0]] + rest
      else rest
  }

  /** The keys of a map of fields, in sorted order. */
  ghost function SortedNames(fields: map<string, FieldMeta>): (r: seq<string>)
    ensures Ordering.Sorted(r)
    ensures forall x :: x in r <==> x in fields
  {
    var names := SetToSeq(fields.Keys);
    Ordering.SortStringsCorrect(names);
    var r := Ordering.SortStrings(names);
    assert forall x :: x in r <==> x in multiset(r);
    assert forall x :: x in names <==> x in multiset(names);
    r
  }

  /** Some enumeration of a finite set. */
  ghost function SetToSeq(s: set<string>): (r: seq<string>)
    ensures forall x :: x in r <==> x in s
    decreases |s|
  {
    if s == {} then []
    else
      var x :| x in s;
      [x] + SetToSeq(s - {x})
  }

  datatype SelectError = ConfiguredMissing(name: string) | ConfiguredWithoutIdArg(name: string)

  /**
   * The mutation to call: the configured one, which must exist and take
   * an ID; else the first usable fixed candidate; else the alphabetically
   * first usable field whose name looks like an update. Ok(None) means the
   * API offers none.
   */
  ghost function SelectForceUpdate(configured: string, fields: map<string, FieldMeta>): (r: Result<Option<MutationMeta>, SelectError>)
    ensures configured != "" ==>
      && (configured !in fields ==> r == Err(ConfiguredMissing(configured)))
      && (configured in fields && !Usable(fields, configured) ==> r == Err(ConfiguredWithoutIdArg(configured)))
      && (Usable(fields, configured) ==> r == Ok(MetaFor(configured, fields[configured])))
    ensures configured == "" ==> r.Ok?
  {
    if configured != "" then
      if configured !in fields then Err(ConfiguredMissing(configured))
      else match MetaFor(configured, fields[configured])
        case None => Err(ConfiguredWithoutIdArg(configured))
        case Some(m) => Ok(Some(m))
    else
      match FirstUsable(FixedCandidates, fields)
      case Some(m) => Ok(Some(m))
      case None => Ok(FirstUsable(FilterUpdateLike(SortedNames(fields)), fields))
  }

  /** Without a configured name, a usable fixed candidate wins, the earliest in the fixed order. */
  lemma FixedCandidateWins(fields: map<string, FieldMeta>, i: nat)
    requires i < |FixedCandidates| && Usable(fields, FixedCandidates[i])
    requires forall j :: 0 <= j < i ==> !Usable(fields, FixedCandidates[j])
    ensures SelectForceUpdate("", fields) == Ok(MetaFor(FixedCandidates[i], fields[FixedCandidates[i]]))
  {
    var r := FirstUsable(FixedCandidates, fields);
    var k :| 0 <= k < |FixedCandidates| && Usable(fields, FixedCandidates[k])
      && r == MetaFor(FixedCandidates[k], fields[FixedCandidates[k]])
      && forall j :: 0 <= j < k ==> !Usable(fields, FixedCandidates[j]);
    assert k == i;
  }

  /** Over a sorted list, the first usable name is below every usable name of the list. */
  lemma FirstUsableOfSortedIsLeast(names: seq<string>, fields: map<string, FieldMeta>)
    requires Ordering.Sorted(names)
    ensures var r := FirstUsable(names, fields);
      r.Some? ==> forall n :: n in names && Usable(fields, n) ==> Ordering.LexLeq(r.value.fieldName, n)
  {
    var r := FirstUsable(names, fields);
    if r.Some? {
      var i :| 0 <= i < |names| && Usable(fields, names[i])
        && r == MetaFor(names[i], fields[names[i]])
        && forall j :: 0 <= j < i ==> !Usable(fields, names[j]);
      assert r.value.fieldName == names[i];
      forall n | n in names && Usable(fields, n) ensures Ordering.LexLeq(names[i], n) {
        var k :| 0 <= k < |names| && names[k] == n;
        assert i <= k;
        if k == i {
          Ordering.LexLeqTotal(n, n);
        }
      }
    }
  }

  /**
   * Otherwise the choice is the alphabetically least usable field whose
   * lower-cased name contains "update", "pull" or "recreate", and there
   * is none exactly when no field qualifies.
   */
  lemma FallbackIsAlphabeticallyFirst(fields: map<string, FieldMeta>)
    requires forall j :: 0 <= j < |FixedCandidates| ==> !Usable(fields, FixedCandidates[j])
    ensures var r := SelectForceUpdate("", fields);
      && r.Ok?
      && (r.value.None? <==> forall n :: n in fields && LooksLikeUpdate(n) ==> !Usable(fields, n))
      && (r.value.Some? ==>
            var m := r.value.value;
            && Usable(fields, m.fieldName) && LooksLikeUpdate(m.fieldName)
            && m == MetaFor(m.fieldName, fields[m.fieldName]).value
            && forall n :: n in fields && LooksLikeUpdate(n) && Usable(fields, n) ==> Ordering.LexLeq(m.fieldName, n))
  {
    var names := FilterUpdateLike(SortedNames(fields));
    assert FirstUsable(FixedCandidates, fields).None?;
    assert SelectForceUpdate("", fields) == Ok(FirstUsable(names, fields));
    FirstUsableOfSortedIsLeast(names, fields);
    if FirstUsable(names, fields).None? {
      forall n | n in fields && LooksLikeUpdate(n) ensures !Usable(fields, n) {
        var k :| 0 <= k < |names| && names[k] == n;
      }
    }
  }
}
