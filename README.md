# knuffel derive: field classification and scalar enums

This project models two parts of the `knuffel` derive crate. `knuffel` is a
KDL document decoder for Rust. Each part is modelled and then proved correct.

* **Struct classification** (`derive/src/definition.rs`). `Struct::new` walks
  the named fields of a struct with `#[derive(Decode)]`. It reads each field's
  `#[knuffel(...)]` role items into a `FieldAttrs`, where the last item wins.
  It then puts the field in one of six slots:
  * the positional-argument list, or the single catch-all `arguments` field;
  * the property list, or the single catch-all `properties` field;
  * the single catch-all `children` field;
  * the role-less extras, which are filled with `Default`.

  `Struct::new` refuses a field whose catch-all is already taken, with a
  two-location error. It also computes `children_only`.
  `Struct::all_fields` lists every classified field.
* **Scalar enums** (`derive/src/scalar.rs`). `Enum::new` accepts only
  unit variants and tags each one with the kebab-case form of its name. The
  code that `emit_enum` generates does two things:
  * `raw_decode` maps a string literal to the first variant whose tag equals
    it. Otherwise it builds a fixed value error, whose wording depends on the
    number of variants.
  * `type_check` refuses any type annotation.

  The model expresses that generated code as functions.

Modules:

* `Wrappers` holds `Option` and `Result`.
* `Diagnostics` models a `syn::Error` as an ordered list of
  labels. Each label is a message at a location. `syn::Error::new` gives
  one label, and `err_pair` gives two, combined in order.
* `Definition` holds the data model of `definition.rs`:
  * the `FieldAttrs` class;
  * the `NewStruct` pass, as a loop over six accumulators;
  * `AllFields`.

  `NewStruct` is proved against a specification fold, `Scan`/`Place`, over
  the six slots (`Slots`). The fold also gives the success condition,
  `Admissible`, and the error for a conflict at a field, `ConflictError`.
  `AllFields` is proved against `Roster`, the slot-by-slot concatenation of a
  `Struct`'s field identifiers.
* `ClassifyFacts` relates the fold to an independent reference, `Pick`. `Pick`
  selects the fields of one role in input order. The module proves that:
  * classification succeeds exactly under the counting and ordering rules;
  * the error points at the first offending field and the holder of its
    catch-all;
  * every list keeps input order;
  * `all_fields` is a permutation of the input fields;
  * `children_only` means what it says.
* `Scalar` models `Enum::new` (a loop method), the message texts, first-match
  dispatch, `raw_decode` and `type_check`.
* `ScalarFacts` proves the decoder's properties. These are that the first match wins, that
  a tag decodes to its own variant, the exact message shapes, that the
  printed count reads back as the number of remaining variants, and that a
  type name is always refused.

The model works on values that are already parsed:

* A field is its identifier, its type's shape (enough for `is_option`) and
  its `knuffel` attributes. The attributes are already parsed into role items,
  one chunk per attribute.
* A source variant is its identifier and its field shape.
* Locations in derive diagnostics are identifier texts. `err_pair` takes the
  spans of two field identifiers, so for it this is exact. The `Enum::new`
  error is placed at the variant's identifier, while the code uses
  `var.span()`, the span of the whole variant (derive/src/scalar.rs:38).
  Decode errors carry a generic span type `S`.
* Two foreign functions become parameters:
  * `heck`'s kebab-case conversion is `kebab: string -> string`;
  * `str::escape_default` is `escape: string -> string`.

Two behaviours of the code are worth stating explicitly:

* With more than three variants the value error reads "expected \`a\`, \`b\`,
  or one of N others" (derive/src/scalar.rs:89). Here N is the number of
  variants after the first two.
* `Enum::new` returns at the first non-unit variant
  (derive/src/scalar.rs:37-40), so only that variant is reported.

## Model

| member | source | states |
|---|---|---|
| Definition.FieldAttrs.constructor | derive/src/definition.rs:290-294 | a new attribute record has no role |
| Definition.FieldAttrs.Update | derive/src/definition.rs:295-303 | the role after a chunk is the last role item of the chunk, or the old role if the chunk is empty |
| Definition.ReadFieldAttrs | derive/src/definition.rs:158-167 | updating a fresh record with each attribute chunk in turn yields the field's role (`ModeOf`) |
| Definition.ConflictError | derive/src/definition.rs:168-220 | a conflict error has two locations, the first at the offending field, with the message pair fixed by the role (the code's literal texts) |
| Definition.ConflictAt | derive/src/definition.rs:168-220 | a conflict after a conflict-free prefix is the first conflict, makes the input inadmissible, and yields the error at the field and the holder |
| Definition.NewStruct | derive/src/definition.rs:145-242 | succeeds exactly when no field conflicts; on success the result is the fold's plan, including `children_only`; on failure the error is the one for the first conflicting field |
| Definition.ExtendArgFields | derive/src/definition.rs:245 | appends the argument fields' identifiers in order |
| Definition.ExtendPropFields | derive/src/definition.rs:247 | appends the property fields' identifiers in order |
| Definition.ExtendExtraIdents | derive/src/definition.rs:250 | appends the extra fields' identifiers in order |
| Definition.AllFields | derive/src/definition.rs:243-252 | lists arguments, the `arguments` field, properties, the `properties` field, the `children` field and the extras, in that order |
| Diagnostics.ErrPair | derive/src/definition.rs:123-130 | the combined error has the first span and text, then the second |
| Diagnostics.Single | derive/src/scalar.rs:38-39 | a plain error has one label, with the given location and text |
| ClassifyFacts.ModeIsLastItem | derive/src/definition.rs:295-303 | across all of a field's attributes the role is the last role item; no role exactly when there are no items |
| ClassifyFacts.ConflictsMeans | derive/src/definition.rs:168-220 | a field conflicts exactly when an earlier field holds the catch-all that guards its role (`arguments` for both argument roles, `properties` for both property roles, `children`) |
| ClassifyFacts.AdmissibleIff | derive/src/definition.rs:168-220 | classification succeeds exactly when there is at most one each of `arguments`, `properties` and `children`, and no `argument` after an `arguments` and no `property` after a `properties` |
| ClassifyFacts.ConflictErrorLocations | derive/src/definition.rs:170-216 | the first conflict's error is at the offending field and at the earlier field with the guarding catch-all, with the role's message pair |
| ClassifyFacts.OnlyHolder | derive/src/definition.rs:180-220 | in a conflict-free input a catch-all role is held by exactly one field |
| ClassifyFacts.CatchAllIsTheField | derive/src/definition.rs:180-220 | on success each catch-all slot holds the field with that role |
| ClassifyFacts.CatchAllAbsent | derive/src/definition.rs:180-220 | a catch-all slot is empty exactly when no field has that role |
| ClassifyFacts.PlanEntries | derive/src/definition.rs:169-226 | arguments, properties and extras are exactly the fields of those roles, in order; each argument and property option flag is `is_option` of the field's type; each property's name (`Prop::name`) is its field identifier's text; each extra is filled by `Default` |
| ClassifyFacts.PropNamesAreFieldTexts | derive/src/definition.rs:337-341 | the names properties are looked up by (`Prop::name`) are the identifier texts of the `property` fields, in input order |
| ClassifyFacts.PlanKeepsOrder | derive/src/definition.rs:157-228 | the lists for a concatenation of fields are the concatenation of the lists |
| ClassifyFacts.ChildrenOnlyMeans | derive/src/definition.rs:233-234 | `children_only` holds exactly when every field is a `children` field or has no role |
| ClassifyFacts.ChildrenOnlyIgnoresChildrenAndExtras | derive/src/definition.rs:233-234 | adding a `children` or role-less field never changes `children_only` |
| ClassifyFacts.AllFieldsIsPermutation | derive/src/definition.rs:243-252 | on success `all_fields` is a permutation of the input field identifiers |
| ClassifyFacts.ClassifiedFields | derive/src/definition.rs:145-252 | `Struct::new` then `all_fields` yields a result exactly when the input is admissible, and that result is a permutation of the input identifiers |
| ClassifyFacts.IsOptionShapes | derive/src/definition.rs:132-143 | `Option` with any generic arguments is an option type; a qualified path, a leading `::`, a path of any length other than one, a one-segment path with any other name, and a non-path type are not |
| Scalar.NewEnum | derive/src/scalar.rs:21-47 | succeeds exactly when every variant is a unit variant; keeps the type identifier and the variants' order and identifiers, and tags each with the kebab-case of its identifier; otherwise the error is at the first non-unit variant, with the code's text |
| ScalarFacts.DispatchIsFirstMatch | derive/src/scalar.rs:94-113 | a string matches exactly when some tag equals it, and then the result is the earliest such variant |
| ScalarFacts.DecodesOwnTag | derive/src/scalar.rs:94-113 | a variant's own tag decodes to that variant unless an earlier variant has the same tag |
| ScalarFacts.RawDecodeMeans | derive/src/scalar.rs:107-117 | `raw_decode` of a string gives the first matching variant, or else the value error; any other literal gives "expected string value"; every error is at the value's span |
| ScalarFacts.TypeNameRefused | derive/src/scalar.rs:119-127 | `type_check` succeeds exactly without a type name; a type name is refused at its span with "unexpected type name for" and the enum's name |
| ScalarFacts.ValueErrorFew | derive/src/scalar.rs:82-87 | with at most three variants the message is "expected one of " and the backquoted, escaped tags joined by ", " |
| ScalarFacts.ValueErrorNamesTag | derive/src/scalar.rs:82-87 | (a corollary of ValueErrorFew, stated for any index) with at most three variants every backquoted, escaped tag occurs in the message |
| ScalarFacts.ValueErrorMany | derive/src/scalar.rs:88-93 | with more than three variants the message names the first two escaped tags and then "or one of N others"; N is the decimal text of the variant count minus two, has no leading zero, and reads back as that number |
| ScalarFacts.DecimalRoundTrip | derive/src/scalar.rs:89-92 | the printed count is all digits, has no leading zero and reads back as the number |
| ScalarFacts.JoinContains | derive/src/scalar.rs:84-87 | (helper for ValueErrorNamesTag) each part of a joined list occurs in the joined text |
| ScalarFacts.ValueErrorExamples | derive/src/scalar.rs:82-93 | the messages for two variants `a`, `b` and for five variants `a` to `e` |

## Left out

- Parsing with `syn`, namely `Parse for Definition` (derive/src/definition.rs:255-287), `Parse for Scalar`, `parse_field_attrs` and `Attr::parse_field`. Inputs are already-parsed fields and variants. For the same reason the attribute filter at derive/src/definition.rs:159-167, which keeps only outer `#[knuffel]` attributes, is not modelled, and neither is the early return of a parse error there.
- Token generation with `quote!`, `emit_scalar` and the generated `impl` block itself. Only the behaviour of the generated `raw_decode` and `type_check`, and the message texts, are modelled.
- `heck`'s kebab-case conversion and `str::escape_default`: they are foreign code, so both are function parameters. Their own behaviour, such as escaping quotes, is not modelled.
- Source spans and `proc_macro2` tokens. Diagnostics in derive code are located by identifier text. The `Enum::new` error is therefore located at the variant's identifier rather than the whole variant's span. Decode errors carry an abstract span type.
- The `generics` field of `Struct`, the unused `_attrs` parameters, and `Kind`.
- `TupleStruct::new` is a `todo!()` in the source, and `UnitStruct::new` only copies its inputs; both are outside this model.
- The panic of `fld.ident.unwrap()`: a named field always has an identifier, so a modelled field always carries one.
- Rust's `usize` formatting: the count in the value error is rendered by a decimal-text function instead.
