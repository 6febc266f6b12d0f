/**
 * The field-role classifier of `#[derive(Decode)]` for structs with named
 * fields: each field's `knuffel` attributes give it at most one role, and one
 * left-to-right pass sorts the fields into the slots of a decoding plan, or
 * reports the first role conflict.
 */
module Definition {

  import opened Wrappers
  import opened Diagnostics

  /** The roles a `knuffel` attribute can give a field. */
  datatype FieldMode = Argument | Property | Arguments | Properties | Children

  /** One item of a parsed `#[knuffel(...)]` attribute. */
  datatype Attr = FieldModeAttr(mode: FieldMode)

  /**
   * The part of a field's declared type that matters here. A path type
   * records whether it is qualified (`<T as Trait>::X`), whether it starts with
   * `::`, and its segments; every other kind of type is `OtherType`.
   */
  datatype Type =
    | PathType(qualified: bool, leadingColon: bool, segments: seq<PathSegment>)
    | OtherType

  /** A path segment: its identifier and its generic arguments. */
  datatype PathSegment = PathSegment(ident: Ident, arguments: seq<Type>)

  /**
   * A named field as the front end hands it over: its identifier, its type,
   * and one chunk of attribute items per `#[knuffel(...)]` attribute (outer
   * attributes with another path are already dropped).
   */
  datatype Field = Field(ident: Ident, ty: Type, attrs: seq<seq<Attr>>)

  datatype ArgKind = Value(option: bool)

  datatype Arg = Arg(field: Ident, kind: ArgKind)

  datatype VarArgs = VarArgs(field: Ident)

  datatype Prop = Prop(field: Ident, option: bool)

  datatype VarProps = VarProps(field: Ident)

  datatype VarChildren = VarChildren(field: Ident)

  datatype ExtraKind = Default

  datatype ExtraField = ExtraField(ident: Ident, kind: ExtraKind)

  /** The decoding plan of a struct with named fields. */
  datatype Struct = Struct(
    ident: Ident,
    arguments: seq<Arg>,
    varArgs: Option<VarArgs>,
    properties: seq<Prop>,
    varProps: Option<VarProps>,
    childrenOnly: bool,
    children: Option<VarChildren>,
    extraFields: seq<ExtraField>)

  /** The role after applying `attrs` to `mode`: the last item wins. */
  function Updated(mode: Option<FieldMode>, attrs: seq<Attr>): (m: Option<FieldMode>)
  {
    if attrs == [] then mode else Some(attrs[|attrs| - 1].mode)
  }

  /** The role a field carries so far while its attributes are read. */
  class FieldAttrs {
    var mode: Option<FieldMode>

    constructor ()
      ensures mode == None
    {
      mode := None;
    }

    method Update(attrs: seq<Attr>)
      modifies this
      ensures mode == Updated(old(mode), attrs)
    {
      for i := 0 to |attrs|
        invariant mode == Updated(old(mode), attrs[..i])
      {
        match attrs[i] {
          case FieldModeAttr(m) => mode := Some(m);
        }
        assert attrs[..i + 1][i] == attrs[i];
      }
      assert attrs[..|attrs|] == attrs;
    }
  }

  /** The role left after applying the field's attribute chunks in order. */
  function Chunked(mode: Option<FieldMode>, chunks: seq<seq<Attr>>): (m: Option<FieldMode>)
  {
    if chunks == [] then mode
    else Updated(Chunked(mode, chunks[..|chunks| - 1]), chunks[|chunks| - 1])
  }

  /** The role of a field, `None` when no attribute gives it one. */
  function ModeOf(f: Field): Option<FieldMode>
  {
    Chunked(None, f.attrs)
  }

  /** `is_option`: the type is written as a plain one-segment path `Option<..>`. */
  predicate IsOption(ty: Type)
  {
    match ty
    case PathType(qualified, leadingColon, segments) =>
      !qualified && !leadingColon && |segments| == 1 && segments[0].ident == "Option"
    case OtherType => false
  }

  /** `Prop::name`: the name a property is looked up by in the document. */
  function PropName(p: Prop): string
  {
    p.field
  }

  function MakeArg(f: Field): Arg
  {
    Arg(f.ident, Value(IsOption(f.ty)))
  }

  function MakeProp(f: Field): Prop
  {
    Prop(f.ident, IsOption(f.ty))
  }

  /** The six accumulators of the classification pass. */
  datatype Slots = Slots(
    arguments: seq<Arg>,
    varArgs: Option<VarArgs>,
    properties: seq<Prop>,
    varProps: Option<VarProps>,
    children: Option<VarChildren>,
    extraFields: seq<ExtraField>)

  const NoSlots := Slots([], None, [], None, None, [])

  /**
   * The identifier of the field that already holds the catch-all guarding a
   * field of role `mode`: `arguments` guards both argument roles,
   * `properties` both property roles, and `children` itself.
   */
  function Holder(s: Slots, mode: FieldMode): (holder: Option<Ident>)
  {
    match mode
    case Argument | Arguments => (match s.varArgs case Some(v) => Some(v.field) case None => None)
    case Property | Properties => (match s.varProps case Some(v) => Some(v.field) case None => None)
    case Children => (match s.children case Some(v) => Some(v.field) case None => None)
  }

  /** Field `f` placed into the accumulators by its role; a catch-all keeps its first holder. */
  function Place(s: Slots, f: Field): (next: Slots)
  {
    match ModeOf(f)
    case Some(Argument) => s.(arguments := s.arguments + [MakeArg(f)])
    case Some(Arguments) => if s.varArgs.Some? then s else s.(varArgs := Some(VarArgs(f.ident)))
    case Some(Property) => s.(properties := s.properties + [MakeProp(f)])
    case Some(Properties) => if s.varProps.Some? then s else s.(varProps := Some(VarProps(f.ident)))
    case Some(Children) => if s.children.Some? then s else s.(children := Some(VarChildren(f.ident)))
    case None => s.(extraFields := s.extraFields + [ExtraField(f.ident, Default)])
  }

  /** The accumulators after placing every field of `fields` in order. */
  function Scan(fields: seq<Field>): (s: Slots)
  {
    if fields == [] then NoSlots else Place(Scan(fields[..|fields| - 1]), fields[|fields| - 1])
  }

  /** `children_only`: no argument or property slot of the plan is used. */
  function ChildrenOnly(s: Slots): bool
  {
    s.arguments == [] && s.properties == [] && s.varArgs.None? && s.varProps.None?
  }

  /** The plan a conflict-free field list compiles to. */
  function Plan(ident: Ident, fields: seq<Field>): (plan: Struct)
  {
    var s := Scan(fields);
    Struct(ident, s.arguments, s.varArgs, s.properties, s.varProps, ChildrenOnly(s),
           s.children, s.extraFields)
  }

  /** Field `i` has a role whose guarding catch-all an earlier field already holds. */
  predicate Conflicts(fields: seq<Field>, i: nat)
    requires i < |fields|
  {
    ModeOf(fields[i]).Some? && Holder(Scan(fields[..i]), ModeOf(fields[i]).value).Some?
  }

  predicate Admissible(fields: seq<Field>)
  {
    forall i :: 0 <= i < |fields| ==> !Conflicts(fields, i)
  }

  /** No field before position `k` conflicts; the loop's view of `Admissible`. */
  predicate FreeUpTo(fields: seq<Field>, k: nat)
    requires k <= |fields|
  {
    k == 0 || (FreeUpTo(fields, k - 1) && !Conflicts(fields, k - 1))
  }

  lemma {:induction false} FreeUpToMeans(fields: seq<Field>, k: nat)
    requires k <= |fields|
    ensures FreeUpTo(fields, k) <==> forall i :: 0 <= i < k ==> !Conflicts(fields, i)
  {
    if k > 0 {
      FreeUpToMeans(fields, k - 1);
    }
  }

  predicate FirstConflict(fields: seq<Field>, i: nat)
  {
    i < |fields| && Conflicts(fields, i) && forall k :: 0 <= k < i ==> !Conflicts(fields, k)
  }

  /** The pair of messages reported for a conflict on a field of role `mode`. */
  function ConflictMessages(mode: FieldMode): (string, string)
  {
    match mode
    case Argument =>
      ("extra `argument` after capture all `arguments`", "capture all `arguments` is defined here")
    case Arguments =>
      ("only single `arguments` allowed", "previous `arguments` is defined here")
    case Property =>
      ("extra `property` after capture all `properties`", "capture all `properties` is defined here")
    case Properties =>
      ("only single `properties` is allowed", "previous `properties` is defined here")
    case Children =>
      ("only single catch all `children` is allowed", "previous `children` is defined here")
  }

  /**
   * The error for a conflict on field `i`: at the field itself, and at the
   * earlier field holding the guarding catch-all.
   */
  function ConflictError(fields: seq<Field>, i: nat): (d: Diagnostic)
    requires i < |fields| && Conflicts(fields, i)
    ensures |Locations(d)| == 2 && Locations(d)[0] == fields[i].ident
    ensures Messages(d) == [ConflictMessages(ModeOf(fields[i]).value).0,
                            ConflictMessages(ModeOf(fields[i]).value).1]
  {
    var mode := ModeOf(fields[i]).value;
    var prev := Holder(Scan(fields[..i]), mode).value;
    ErrPair(fields[i].ident, prev, ConflictMessages(mode).0, ConflictMessages(mode).1)
  }

  lemma ScanSnoc(fields: seq<Field>, k: nat)
    requires k < |fields|
    ensures Scan(fields[..k + 1]) == Place(Scan(fields[..k]), fields[k])
  {
    assert fields[..k + 1][..k] == fields[..k];
  }

  lemma ChunkedSnoc(chunks: seq<seq<Attr>>, j: nat)
    requires j < |chunks|
    ensures Chunked(None, chunks[..j + 1]) == Updated(Chunked(None, chunks[..j]), chunks[j])
  {
    assert chunks[..j + 1][..j] == chunks[..j];
  }

  /**
   * The attribute pass over one field: a fresh `FieldAttrs` updated with each
   * `#[knuffel(...)]` chunk in turn; its final mode is the field's role.
   */
  method ReadFieldAttrs(fld: Field) returns (mode: Option<FieldMode>)
    ensures mode == ModeOf(fld)
  {
    var attrs := new FieldAttrs();
    for j := 0 to |fld.attrs|
      invariant attrs.mode == Chunked(None, fld.attrs[..j])
    {
      attrs.Update(fld.attrs[j]);
      ChunkedSnoc(fld.attrs, j);
    }
    assert fld.attrs[..|fld.attrs|] == fld.attrs;
    mode := attrs.mode;
  }

  /**
   * A conflict at field `k` after a conflict-free prefix is the first one, and
   * its error names field `k` and the holder of the guarding catch-all.
   */
  lemma ConflictAt(fields: seq<Field>, k: nat, mode: FieldMode, prev: Ident)
    requires k < |fields| && FreeUpTo(fields, k)
    requires ModeOf(fields[k]) == Some(mode) && Holder(Scan(fields[..k]), mode) == Some(prev)
    ensures FirstConflict(fields, k) && !Admissible(fields)
    ensures ConflictError(fields, k)
         == ErrPair(fields[k].ident, prev, ConflictMessages(mode).0, ConflictMessages(mode).1)
  {
    FreeUpToMeans(fields, k);
    assert Conflicts(fields, k);
  }

  /** `Struct::new`: classify the fields in one pass, stopping at the first conflict. */
  method NewStruct(ident: Ident, fields: seq<Field>) returns (r: Result<Struct, Diagnostic>)
    ensures r.Ok? <==> Admissible(fields)
    ensures r.Ok? ==> r.value == Plan(ident, fields)
    ensures r.Err? ==> exists i :: FirstConflict(fields, i) && r.error == ConflictError(fields, i)
  {
    var arguments: seq<Arg> := [];
    var varArgs: Option<VarArgs> := None;
    var properties: seq<Prop> := [];
    var varProps: Option<VarProps> := None;
    var children: Option<VarChildren> := None;
    var extraFields: seq<ExtraField> := [];
    for k := 0 to |fields|
      invariant FreeUpTo(fields, k)
      invariant Slots(arguments, varArgs, properties, varProps, children, extraFields)
             == Scan(fields[..k])
    {
      var fld := fields[k];
      var mode := ReadFieldAttrs(fld);
      ScanSnoc(fields, k);
      match mode {
        case Some(Argument) =>
          match varArgs {
            case Some(prev) =>
              r := Err(ErrPair(fld.ident, prev.field,
                "extra `argument` after capture all `arguments`",
                "capture all `arguments` is defined here"));
              ConflictAt(fields, k, Argument, prev.field);
              return;
            case None =>
          }
          arguments := arguments + [Arg(fld.ident, Value(IsOption(fld.ty)))];
        case Some(Arguments) =>
          match varArgs {
            case Some(prev) =>
              r := Err(ErrPair(fld.ident, prev.field,
                "only single `arguments` allowed",
                "previous `arguments` is defined here"));
              ConflictAt(fields, k, Arguments, prev.field);
              return;
            case None =>
          }
          varArgs := Some(VarArgs(fld.ident));
        case Some(Property) =>
          match varProps {
            case Some(prev) =>
              r := Err(ErrPair(fld.ident, prev.field,
                "extra `property` after capture all `properties`",
                "capture all `properties` is defined here"));
              ConflictAt(fields, k, Property, prev.field);
              return;
            case None =>
          }
          properties := properties + [Prop(fld.ident, IsOption(fld.ty))];
        case Some(Properties) =>
          match varProps {
            case Some(prev) =>
              r := Err(ErrPair(fld.ident, prev.field,
                "only single `properties` is allowed",
                "previous `properties` is defined here"));
              ConflictAt(fields, k, Properties, prev.field);
              return;
            case None =>
          }
          varProps := Some(VarProps(fld.ident));
        case Some(Children) =>
          match children {
            case Some(prev) =>
              r := Err(ErrPair(fld.ident, prev.field,
                "only single catch all `children` is allowed",
                "previous `children` is defined here"));
              ConflictAt(fields, k, Children, prev.field);
              return;
            case None =>
          }
          children := Some(VarChildren(fld.ident));
        case None =>
          extraFields := extraFields + [ExtraField(fld.ident, Default)];
      }
    }
    assert fields[..|fields|] == fields;
    FreeUpToMeans(fields, |fields|);
    r := Ok(Struct(
      ident,
      arguments,
      varArgs,
      properties,
      varProps,
      arguments == [] && properties == [] && varArgs.None? && varProps.None?,
      children,
      extraFields));
  }

  function ArgFields(args: seq<Arg>): seq<Ident>
  {
    if args == [] then [] else ArgFields(args[..|args| - 1]) + [args[|args| - 1].field]
  }

  function PropFields(props: seq<Prop>): seq<Ident>
  {
    if props == [] then [] else PropFields(props[..|props| - 1]) + [props[|props| - 1].field]
  }

  function ExtraIdents(extras: seq<ExtraField>): seq<Ident>
  {
    if extras == [] then [] else ExtraIdents(extras[..|extras| - 1]) + [extras[|extras| - 1].ident]
  }

  function VarArgsField(v: Option<VarArgs>): seq<Ident>
  {
    match v case Some(x) => [x.field] case None => []
  }

  function VarPropsField(v: Option<VarProps>): seq<Ident>
  {
    match v case Some(x) => [x.field] case None => []
  }

  function ChildrenField(v: Option<VarChildren>): seq<Ident>
  {
    match v case Some(x) => [x.field] case None => []
  }

  /** The field identifiers a plan mentions, slot by slot. */
  function Roster(s: Struct): seq<Ident>
  {
    ArgFields(s.arguments) + VarArgsField(s.varArgs) + PropFields(s.properties)
    + VarPropsField(s.varProps) + ChildrenField(s.children) + ExtraIdents(s.extraFields)
  }

  /** `res.extend(arguments.iter().map(|a| &a.field))`. */
  method ExtendArgFields(res: seq<Ident>, args: seq<Arg>) returns (out: seq<Ident>)
    ensures out == res + ArgFields(args)
  {
    out := res;
    for i := 0 to |args|
      invariant out == res + ArgFields(args[..i])
    {
      assert args[..i + 1][..i] == args[..i];
      out := out + [args[i].field];
    }
    assert args[..|args|] == args;
  }

  /** `res.extend(properties.iter().map(|p| &p.field))`. */
  method ExtendPropFields(res: seq<Ident>, props: seq<Prop>) returns (out: seq<Ident>)
    ensures out == res + PropFields(props)
  {
    out := res;
    for i := 0 to |props|
      invariant out == res + PropFields(props[..i])
    {
      assert props[..i + 1][..i] == props[..i];
      out := out + [props[i].field];
    }
    assert props[..|props|] == props;
  }

  /** `res.extend(extra_fields.iter().map(|f| &f.ident))`. */
  method ExtendExtraIdents(res: seq<Ident>, extras: seq<ExtraField>) returns (out: seq<Ident>)
    ensures out == res + ExtraIdents(extras)
  {
    out := res;
    for i := 0 to |extras|
      invariant out == res + ExtraIdents(extras[..i])
    {
      assert extras[..i + 1][..i] == extras[..i];
      out := out + [extras[i].ident];
    }
    assert extras[..|extras|] == extras;
  }

  /** `Struct::all_fields`: every field identifier of the plan, built slot by slot. */
  method AllFields(s: Struct) returns (res: seq<Ident>)
    ensures res == Roster(s)
  {
    res := ExtendArgFields([], s.arguments);
    res := res + VarArgsField(s.varArgs);
    res := ExtendPropFields(res, s.properties);
    res := res + VarPropsField(s.varProps);
    res := res + ChildrenField(s.children);
    res := ExtendExtraIdents(res, s.extraFields);
  }
}
