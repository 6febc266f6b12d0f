/**
 * What the field-role classifier guarantees, stated against reference
 * definitions (the fields of each role, picked out of the input in order)
 * and proved about the fold `Definition.Scan` that `Definition.NewStruct`
 * is verified against.
 */
module ClassifyFacts {

  import opened Wrappers
  import opened Diagnostics
  import opened Definition

  /** The fields whose role is `mode`, in input order. */
  function Pick(fields: seq<Field>, mode: Option<FieldMode>): (picked: seq<Field>)
  {
    if fields == [] then []
    else
      var last := fields[|fields| - 1];
      Pick(fields[..|fields| - 1], mode) + (if ModeOf(last) == mode then [last] else [])
  }

  function Idents(fields: seq<Field>): seq<Ident>
  {
    seq(|fields|, i requires 0 <= i < |fields| => fields[i].ident)
  }

  /** All attribute items of a field, chunk after chunk. */
  function Flatten(chunks: seq<seq<Attr>>): seq<Attr>
  {
    if chunks == [] then [] else Flatten(chunks[..|chunks| - 1]) + chunks[|chunks| - 1]
  }

  /** The catch-all role whose presence earlier in the list forbids a field of role `mode`. */
  function Guard(mode: FieldMode): FieldMode
  {
    match mode
    case Argument => Arguments
    case Arguments => Arguments
    case Property => Properties
    case Properties => Properties
    case Children => Children
  }

  /** No field of role `later` comes after a field of role `first`. */
  predicate NoneAfter(fields: seq<Field>, first: FieldMode, later: FieldMode)
  {
    forall i, j :: 0 <= i < j < |fields| && ModeOf(fields[i]) == Some(first) ==> ModeOf(fields[j]) != Some(later)
  }

  // ---------------------------------------------------------------------------
  // Attributes: the last role named wins

  /** Applying two runs of attribute items one after the other is applying their concatenation. */
  lemma UpdatedConcat(mode: Option<FieldMode>, a: seq<Attr>, b: seq<Attr>)
    ensures Updated(Updated(mode, a), b) == Updated(mode, a + b)
  {
    if b != [] {
      assert (a + b)[|a + b| - 1] == b[|b| - 1];
    }
  }

  lemma {:induction false} ChunkedIsFlat(mode: Option<FieldMode>, chunks: seq<seq<Attr>>)
    ensures Chunked(mode, chunks) == Updated(mode, Flatten(chunks))
  {
    if chunks != [] {
      var init := chunks[..|chunks| - 1];
      ChunkedIsFlat(mode, init);
      UpdatedConcat(mode, Flatten(init), chunks[|chunks| - 1]);
    }
  }

  /**
   * A field's role is the one named by the last role item over all its
   * `knuffel` attributes; it has no role exactly when it has no role item.
   */
  lemma ModeIsLastItem(f: Field)
    ensures ModeOf(f) == Updated(None, Flatten(f.attrs))
    ensures ModeOf(f).None? <==> Flatten(f.attrs) == []
    ensures Flatten(f.attrs) != [] ==> ModeOf(f) == Some(Flatten(f.attrs)[|Flatten(f.attrs)| - 1].mode)
  {
    ChunkedIsFlat(None, f.attrs);
  }

  // ---------------------------------------------------------------------------
  // The reference selection `Pick`

  lemma {:induction false} PickAppend(a: seq<Field>, b: seq<Field>, mode: Option<FieldMode>)
    ensures Pick(a + b, mode) == Pick(a, mode) + Pick(b, mode)
  {
    if b == [] {
      assert a + b == a;
    } else {
      var init := b[..|b| - 1];
      assert (a + b)[..|a + b| - 1] == a + init;
      PickAppend(a, init, mode);
    }
  }

  lemma {:induction false} PickMembers(fields: seq<Field>, mode: Option<FieldMode>)
    ensures forall x :: x in Pick(fields, mode) <==> x in fields && ModeOf(x) == mode
  {
    if fields != [] {
      var init := fields[..|fields| - 1];
      PickMembers(init, mode);
      assert fields == init + [fields[|fields| - 1]];
    }
  }

  lemma {:induction false} PickEmpty(fields: seq<Field>, mode: Option<FieldMode>)
    ensures Pick(fields, mode) == [] <==> forall i :: 0 <= i < |fields| ==> ModeOf(fields[i]) != mode
  {
    if fields != [] {
      var init := fields[..|fields| - 1];
      PickEmpty(init, mode);
      assert forall i :: 0 <= i < |init| ==> init[i] == fields[i];
    }
  }

  lemma NoneAfterSnoc(fields: seq<Field>, mode: FieldMode)
    requires fields != []
    ensures NoneAfter(fields, mode, mode) <==>
      && NoneAfter(fields[..|fields| - 1], mode, mode)
      && (ModeOf(fields[|fields| - 1]) == Some(mode) ==>
            forall i :: 0 <= i < |fields| - 1 ==> ModeOf(fields[i]) != Some(mode))
  {
    var init := fields[..|fields| - 1];
    assert forall i :: 0 <= i < |init| ==> init[i] == fields[i];
  }

  lemma {:induction false} PickAtMostOne(fields: seq<Field>, mode: FieldMode)
    ensures |Pick(fields, Some(mode))| <= 1 <==> NoneAfter(fields, mode, mode)
  {
    if fields != [] {
      var init := fields[..|fields| - 1];
      PickAtMostOne(init, mode);
      PickEmpty(init, Some(mode));
      NoneAfterSnoc(fields, mode);
      assert forall i :: 0 <= i < |init| ==> init[i] == fields[i];
    }
  }

  // ---------------------------------------------------------------------------
  // The fold agrees with the reference selection

  /** What placing one field does to each accumulator. */
  lemma PlaceParts(s: Slots, f: Field)
    ensures Place(s, f).arguments
      == s.arguments + (if ModeOf(f) == Some(Argument) then [MakeArg(f)] else [])
    ensures Place(s, f).properties
      == s.properties + (if ModeOf(f) == Some(Property) then [MakeProp(f)] else [])
    ensures Place(s, f).extraFields
      == s.extraFields + (if ModeOf(f).None? then [ExtraField(f.ident, Default)] else [])
    ensures Place(s, f).varArgs
      == if s.varArgs.None? && ModeOf(f) == Some(Arguments) then Some(VarArgs(f.ident)) else s.varArgs
    ensures Place(s, f).varProps
      == if s.varProps.None? && ModeOf(f) == Some(Properties) then Some(VarProps(f.ident)) else s.varProps
    ensures Place(s, f).children
      == if s.children.None? && ModeOf(f) == Some(Children) then Some(VarChildren(f.ident)) else s.children
  {
  }

  /** The argument list after the pass holds the `argument` fields in input order. */
  lemma {:induction false} ScanArguments(fields: seq<Field>)
    ensures |Scan(fields).arguments| == |Pick(fields, Some(Argument))|
    ensures forall k :: 0 <= k < |Scan(fields).arguments| ==>
      Scan(fields).arguments[k] == MakeArg(Pick(fields, Some(Argument))[k])
  {
    if fields != [] {
      var init := fields[..|fields| - 1];
      ScanArguments(init);
      PlaceParts(Scan(init), fields[|fields| - 1]);
    }
  }

  /** The property list after the pass holds the `property` fields in input order. */
  lemma {:induction false} ScanProperties(fields: seq<Field>)
    ensures |Scan(fields).properties| == |Pick(fields, Some(Property))|
    ensures forall k :: 0 <= k < |Scan(fields).properties| ==>
      Scan(fields).properties[k] == MakeProp(Pick(fields, Some(Property))[k])
  {
    if fields != [] {
      var init := fields[..|fields| - 1];
      ScanProperties(init);
      PlaceParts(Scan(init), fields[|fields| - 1]);
    }
  }

  /** The extras after the pass are the role-less fields in input order. */
  lemma {:induction false} ScanExtras(fields: seq<Field>)
    ensures |Scan(fields).extraFields| == |Pick(fields, None)|
    ensures forall k :: 0 <= k < |Scan(fields).extraFields| ==>
      Scan(fields).extraFields[k] == ExtraField(Pick(fields, None)[k].ident, Default)
  {
    if fields != [] {
      var init := fields[..|fields| - 1];
      ScanExtras(init);
      PlaceParts(Scan(init), fields[|fields| - 1]);
    }
  }

  /** Each catch-all slot after the pass holds the first field of its role, if any. */
  lemma {:induction false} ScanCatchAlls(fields: seq<Field>)
    ensures Scan(fields).varArgs == if Pick(fields, Some(Arguments)) == [] then None
      else Some(VarArgs(Pick(fields, Some(Arguments))[0].ident))
    ensures Scan(fields).varProps == if Pick(fields, Some(Properties)) == [] then None
      else Some(VarProps(Pick(fields, Some(Properties))[0].ident))
    ensures Scan(fields).children == if Pick(fields, Some(Children)) == [] then None
      else Some(VarChildren(Pick(fields, Some(Children))[0].ident))
  {
    if fields != [] {
      var init := fields[..|fields| - 1];
      ScanCatchAlls(init);
      PlaceParts(Scan(init), fields[|fields| - 1]);
    }
  }

  /** The argument, property and extra lists of consecutive field runs are concatenated. */
  lemma {:induction false} ScanAppend(a: seq<Field>, b: seq<Field>)
    ensures Scan(a + b).arguments == Scan(a).arguments + Scan(b).arguments
    ensures Scan(a + b).properties == Scan(a).properties + Scan(b).properties
    ensures Scan(a + b).extraFields == Scan(a).extraFields + Scan(b).extraFields
  {
    if b == [] {
      assert a + b == a;
    } else {
      var init := b[..|b| - 1];
      assert (a + b)[..|a + b| - 1] == a + init;
      ScanAppend(a, init);
      PlaceParts(Scan(a + init), b[|b| - 1]);
      PlaceParts(Scan(init), b[|b| - 1]);
    }
  }

  // ---------------------------------------------------------------------------
  // When classification succeeds

  /** The holder of a catch-all after the pass is the first field with that catch-all role. */
  lemma HolderIsFirst(fields: seq<Field>, mode: FieldMode)
    ensures var p := Pick(fields, Some(Guard(mode)));
      Holder(Scan(fields), mode) == if p == [] then None else Some(p[0].ident)
  {
    ScanCatchAlls(fields);
  }

  /** A field conflicts exactly when an earlier field holds the catch-all guarding its role. */
  lemma ConflictsMeans(fields: seq<Field>, i: nat)
    requires i < |fields|
    ensures Conflicts(fields, i) <==>
      ModeOf(fields[i]).Some? &&
      exists j :: 0 <= j < i && ModeOf(fields[j]) == Some(Guard(ModeOf(fields[i]).value))
  {
    var p := fields[..i];
    assert forall j :: 0 <= j < i ==> p[j] == fields[j];
    if ModeOf(fields[i]).Some? {
      HolderIsFirst(p, ModeOf(fields[i]).value);
      PickEmpty(p, Some(Guard(ModeOf(fields[i]).value)));
    }
  }

  lemma AdmissibleMeans(fields: seq<Field>)
    ensures Admissible(fields) <==> forall i :: 0 <= i < |fields| ==>
      !(ModeOf(fields[i]).Some? &&
        exists j :: 0 <= j < i && ModeOf(fields[j]) == Some(Guard(ModeOf(fields[i]).value)))
  {
    forall i | 0 <= i < |fields| {
      ConflictsMeans(fields, i);
    }
  }

  /**
   * Classification succeeds exactly when there is at most one `arguments`,
   * one `properties` and one `children` field, and no `argument` follows an
   * `arguments` field and no `property` a `properties` field. An
   * `argument` before `arguments` (and a `property` before `properties`) is
   * allowed.
   */
  lemma AdmissibleIff(fields: seq<Field>)
    ensures Admissible(fields) <==>
      && |Pick(fields, Some(Arguments))| <= 1
      && |Pick(fields, Some(Properties))| <= 1
      && |Pick(fields, Some(Children))| <= 1
      && NoneAfter(fields, Arguments, Argument)
      && NoneAfter(fields, Properties, Property)
  {
    AdmissibleMeans(fields);
    PickAtMostOne(fields, Arguments);
    PickAtMostOne(fields, Properties);
    PickAtMostOne(fields, Children);
  }

  lemma AdmissiblePrefix(fields: seq<Field>, k: nat)
    requires k <= |fields|
    requires forall i :: 0 <= i < k ==> !Conflicts(fields, i)
    ensures Admissible(fields[..k])
  {
    forall i | 0 <= i < k
      ensures !Conflicts(fields[..k], i)
    {
      assert fields[..k][..i] == fields[..i];
      assert fields[..k][i] == fields[i];
      assert !Conflicts(fields, i);
    }
  }

  /** In a conflict-free list, a field with a catch-all role is the only one with that role. */
  lemma OnlyHolder(fields: seq<Field>, j: nat, c: FieldMode)
    requires Admissible(fields)
    requires c == Arguments || c == Properties || c == Children
    requires j < |fields| && ModeOf(fields[j]) == Some(c)
    ensures Pick(fields, Some(c)) == [fields[j]]
  {
    forall i, k | 0 <= i < k < |fields| && ModeOf(fields[i]) == Some(c)
      ensures ModeOf(fields[k]) != Some(c)
    {
      if ModeOf(fields[k]) == Some(c) {
        var p := fields[..k];
        assert p[i] == fields[i];
        PickMembers(p, Some(c));
        assert p[i] in Pick(p, Some(c));
        HolderIsFirst(p, c);
        assert Conflicts(fields, k);
      }
    }
    PickAtMostOne(fields, c);
    PickMembers(fields, Some(c));
    assert fields[j] in Pick(fields, Some(c));
  }

  /**
   * The error for the first conflicting field names, as its second location,
   * the earlier field that holds the catch-all of the same category.
   */
  lemma ConflictErrorLocations(fields: seq<Field>, i: nat, j: nat)
    requires FirstConflict(fields, i)
    requires j < i && ModeOf(fields[j]) == Some(Guard(ModeOf(fields[i]).value))
    ensures ConflictError(fields, i)
      == ErrPair(fields[i].ident, fields[j].ident,
                 ConflictMessages(ModeOf(fields[i]).value).0,
                 ConflictMessages(ModeOf(fields[i]).value).1)
    ensures Locations(ConflictError(fields, i)) == [fields[i].ident, fields[j].ident]
  {
    var p := fields[..i];
    var mode := ModeOf(fields[i]).value;
    AdmissiblePrefix(fields, i);
    assert p[j] == fields[j];
    OnlyHolder(p, j, Guard(mode));
    HolderIsFirst(p, mode);
  }

  /** With a conflict-free input, each catch-all slot holds the one field of that role. */
  lemma CatchAllIsTheField(ident: Ident, fields: seq<Field>, j: nat)
    requires Admissible(fields)
    requires j < |fields|
    ensures ModeOf(fields[j]) == Some(Arguments) ==> Plan(ident, fields).varArgs == Some(VarArgs(fields[j].ident))
    ensures ModeOf(fields[j]) == Some(Properties) ==> Plan(ident, fields).varProps == Some(VarProps(fields[j].ident))
    ensures ModeOf(fields[j]) == Some(Children) ==> Plan(ident, fields).children == Some(VarChildren(fields[j].ident))
  {
    ScanCatchAlls(fields);
    match ModeOf(fields[j]) {
      case Some(Arguments) => OnlyHolder(fields, j, Arguments);
      case Some(Properties) => OnlyHolder(fields, j, Properties);
      case Some(Children) => OnlyHolder(fields, j, Children);
      case _ =>
    }
  }

  /** A catch-all slot is empty exactly when no field has that role. */
  lemma CatchAllAbsent(ident: Ident, fields: seq<Field>)
    ensures Plan(ident, fields).varArgs.None? <==> forall i :: 0 <= i < |fields| ==> ModeOf(fields[i]) != Some(Arguments)
    ensures Plan(ident, fields).varProps.None? <==> forall i :: 0 <= i < |fields| ==> ModeOf(fields[i]) != Some(Properties)
    ensures Plan(ident, fields).children.None? <==> forall i :: 0 <= i < |fields| ==> ModeOf(fields[i]) != Some(Children)
  {
    ScanCatchAlls(fields);
    PickEmpty(fields, Some(Arguments));
    PickEmpty(fields, Some(Properties));
    PickEmpty(fields, Some(Children));
  }

  /**
   * Each argument and property of the plan is its field's identifier and
   * `is_option` of its field's type; a property's document name is the field
   * identifier's text; the extras are the role-less fields, filled by default.
   */
  lemma PlanEntries(ident: Ident, fields: seq<Field>)
    ensures var a := Plan(ident, fields).arguments; var p := Pick(fields, Some(Argument));
      |a| == |p| && forall k :: 0 <= k < |p| ==>
        a[k].field == p[k].ident && a[k].kind.option == IsOption(p[k].ty)
    ensures var q := Plan(ident, fields).properties; var p := Pick(fields, Some(Property));
      |q| == |p| && forall k :: 0 <= k < |p| ==>
        PropName(q[k]) == p[k].ident && q[k].option == IsOption(p[k].ty)
    ensures var e := Plan(ident, fields).extraFields; var p := Pick(fields, None);
      |e| == |p| && forall k :: 0 <= k < |p| ==> e[k].ident == p[k].ident && e[k].kind == Default
  {
    ScanArguments(fields);
    ScanProperties(fields);
    ScanExtras(fields);
  }

  /**
   * The names a struct's properties are looked up by (`Prop::name`) are the
   * identifier texts of its `property` fields, in input order.
   */
  lemma PropNamesAreFieldTexts(ident: Ident, fields: seq<Field>)
    ensures var q := Plan(ident, fields).properties;
      seq(|q|, k requires 0 <= k < |q| => PropName(q[k])) == Idents(Pick(fields, Some(Property)))
  {
    PlanEntries(ident, fields);
  }

  /** The plan's lists keep input order: the plan of a concatenation concatenates them. */
  lemma PlanKeepsOrder(ident: Ident, a: seq<Field>, b: seq<Field>)
    ensures Plan(ident, a + b).arguments == Plan(ident, a).arguments + Plan(ident, b).arguments
    ensures Plan(ident, a + b).properties == Plan(ident, a).properties + Plan(ident, b).properties
    ensures Plan(ident, a + b).extraFields == Plan(ident, a).extraFields + Plan(ident, b).extraFields
  {
    ScanAppend(a, b);
  }

  // ---------------------------------------------------------------------------
  // children_only

  lemma ScanListsEmpty(fields: seq<Field>)
    ensures Scan(fields).arguments == [] <==> Pick(fields, Some(Argument)) == []
    ensures Scan(fields).properties == [] <==> Pick(fields, Some(Property)) == []
  {
    ScanArguments(fields);
    ScanProperties(fields);
  }

  /** `children_only` holds exactly when every field is a `children` field or has no role. */
  lemma ChildrenOnlyMeans(ident: Ident, fields: seq<Field>)
    ensures Plan(ident, fields).childrenOnly <==>
      forall i :: 0 <= i < |fields| ==> ModeOf(fields[i]).None? || ModeOf(fields[i]) == Some(Children)
  {
    ScanListsEmpty(fields);
    ScanCatchAlls(fields);
    PickEmpty(fields, Some(Argument));
    PickEmpty(fields, Some(Arguments));
    PickEmpty(fields, Some(Property));
    PickEmpty(fields, Some(Properties));
    assert Plan(ident, fields).childrenOnly <==>
      && Pick(fields, Some(Argument)) == [] && Pick(fields, Some(Property)) == []
      && Pick(fields, Some(Arguments)) == [] && Pick(fields, Some(Properties)) == [];
    if Plan(ident, fields).childrenOnly {
      forall i | 0 <= i < |fields|
        ensures ModeOf(fields[i]).None? || ModeOf(fields[i]) == Some(Children)
      {
        assert ModeOf(fields[i]) != Some(Argument) && ModeOf(fields[i]) != Some(Property);
        assert ModeOf(fields[i]) != Some(Arguments) && ModeOf(fields[i]) != Some(Properties);
        match ModeOf(fields[i]) {
          case None =>
          case Some(m) => assert m.Children?;
        }
      }
    }
  }

  /** Adding a `children` field or a role-less field never changes `children_only`. */
  lemma ChildrenOnlyIgnoresChildrenAndExtras(ident: Ident, fields: seq<Field>, f: Field)
    requires ModeOf(f).None? || ModeOf(f) == Some(Children)
    ensures Plan(ident, fields + [f]).childrenOnly == Plan(ident, fields).childrenOnly
  {
    assert (fields + [f])[..|fields|] == fields;
    PlaceParts(Scan(fields), f);
  }

  // ---------------------------------------------------------------------------
  // all_fields

  lemma ArgFieldsSnoc(args: seq<Arg>, x: Arg)
    ensures ArgFields(args + [x]) == ArgFields(args) + [x.field]
  {
    assert (args + [x])[..|args|] == args;
  }

  lemma PropFieldsSnoc(props: seq<Prop>, x: Prop)
    ensures PropFields(props + [x]) == PropFields(props) + [x.field]
  {
    assert (props + [x])[..|props|] == props;
  }

  lemma ExtraIdentsSnoc(extras: seq<ExtraField>, x: ExtraField)
    ensures ExtraIdents(extras + [x]) == ExtraIdents(extras) + [x.ident]
  {
    assert (extras + [x])[..|extras|] == extras;
  }

  /** The roster of the accumulators as a bag, slot by slot. */
  function RosterBag(s: Slots): multiset<Ident>
  {
    multiset(ArgFields(s.arguments)) + multiset(VarArgsField(s.varArgs))
    + multiset(PropFields(s.properties)) + multiset(VarPropsField(s.varProps))
    + multiset(ChildrenField(s.children)) + multiset(ExtraIdents(s.extraFields))
  }

  /** Adding one bag to any of six summands adds it to the sum. */
  lemma AddToSummand(a: multiset<Ident>, b: multiset<Ident>, c: multiset<Ident>,
                     d: multiset<Ident>, e: multiset<Ident>, g: multiset<Ident>, x: multiset<Ident>)
    ensures (a + x) + b + c + d + e + g == a + b + c + d + e + g + x
    ensures a + (b + x) + c + d + e + g == a + b + c + d + e + g + x
    ensures a + b + (c + x) + d + e + g == a + b + c + d + e + g + x
    ensures a + b + c + (d + x) + e + g == a + b + c + d + e + g + x
    ensures a + b + c + d + (e + x) + g == a + b + c + d + e + g + x
    ensures a + b + c + d + e + (g + x) == a + b + c + d + e + g + x
  {
  }

  /** Placing a field that meets no held catch-all adds its identifier to the roster once. */
  lemma RosterPlace(s: Slots, f: Field)
    requires ModeOf(f).Some? ==> Holder(s, ModeOf(f).value).None?
    ensures RosterBag(Place(s, f)) == RosterBag(s) + multiset{f.ident}
  {
    var p := Place(s, f);
    var one := multiset{f.ident};
    AddToSummand(multiset(ArgFields(s.arguments)), multiset(VarArgsField(s.varArgs)),
                 multiset(PropFields(s.properties)), multiset(VarPropsField(s.varProps)),
                 multiset(ChildrenField(s.children)), multiset(ExtraIdents(s.extraFields)), one);
    match ModeOf(f) {
      case Some(Argument) =>
        assert p == s.(arguments := s.arguments + [MakeArg(f)]);
        ArgFieldsSnoc(s.arguments, MakeArg(f));
      case Some(Arguments) =>
        assert p == s.(varArgs := Some(VarArgs(f.ident)));
      case Some(Property) =>
        assert p == s.(properties := s.properties + [MakeProp(f)]);
        PropFieldsSnoc(s.properties, MakeProp(f));
      case Some(Properties) =>
        assert p == s.(varProps := Some(VarProps(f.ident)));
      case Some(Children) =>
        assert p == s.(children := Some(VarChildren(f.ident)));
      case None =>
        assert p == s.(extraFields := s.extraFields + [ExtraField(f.ident, Default)]);
        ExtraIdentsSnoc(s.extraFields, ExtraField(f.ident, Default));
    }
  }

  lemma {:induction false} RosterOfScan(fields: seq<Field>)
    requires Admissible(fields)
    ensures RosterBag(Scan(fields)) == multiset(Idents(fields))
  {
    if fields == [] {
      assert Idents(fields) == [];
    } else {
      var n := |fields| - 1;
      var init := fields[..n];
      AdmissiblePrefix(fields, n);
      RosterOfScan(init);
      assert Idents(fields) == Idents(init) + [fields[n].ident];
      assert !Conflicts(fields, n);
      RosterPlace(Scan(init), fields[n]);
    }
  }

  /**
   * On success every input field appears in `all_fields` exactly once: the
   * plan's field identifiers are a permutation of the input's.
   */
  lemma AllFieldsIsPermutation(ident: Ident, fields: seq<Field>)
    requires Admissible(fields)
    ensures multiset(Roster(Plan(ident, fields))) == multiset(Idents(fields))
  {
    RosterOfScan(fields);
  }

  /** What `Struct::new` followed by `all_fields` yields on a conflict-free input. */
  method ClassifiedFields(ident: Ident, fields: seq<Field>) returns (r: Option<seq<Ident>>)
    ensures r.Some? <==> Admissible(fields)
    ensures r.Some? ==> multiset(r.value) == multiset(Idents(fields))
  {
    var plan := NewStruct(ident, fields);
    match plan {
      case Ok(s) =>
        var names := AllFields(s);
        AllFieldsIsPermutation(ident, fields);
        r := Some(names);
      case Err(_) =>
        r := None;
    }
  }

  // ---------------------------------------------------------------------------
  // is_option

  /**
   * `is_option` accepts `Option<T>` and a bare `Option` whatever the generic
   * arguments, and rejects a qualified path, a path with a leading `::`, a
   * path of any other length (such as `std::option::Option<T>` or
   * `Option::Foo`), a one-segment path with any other name, and any type that
   * is not a path.
   */
  lemma IsOptionShapes(args: seq<Type>, n: Ident, segs: seq<PathSegment>)
    ensures IsOption(PathType(false, false, [PathSegment("Option", args)]))
    ensures !IsOption(PathType(true, false, [PathSegment("Option", args)]))
    ensures !IsOption(PathType(false, true, [PathSegment("Option", args)]))
    ensures |segs| != 1 ==> !IsOption(PathType(false, false, segs))
    ensures n != "Option" ==> !IsOption(PathType(false, false, [PathSegment(n, args)]))
    ensures !IsOption(OtherType)
  {
  }
}
