/**
 * `#[derive(DecodeScalar)]` for enums: every variant must be a unit variant
 * and is decoded from a string literal equal to its kebab-case tag. The
 * generated `raw_decode` and `type_check` are modelled by what they compute,
 * not by the tokens that spell them.
 *
 * Two foreign string functions are parameters: `kebab` is the case conversion
 * of the `heck` crate and `escape` is Rust's `str::escape_default`.
 */
module Scalar {

  import opened Wrappers
  import opened Diagnostics

  /** The shape of a variant's fields, as `syn::Fields`. */
  datatype VariantFields = Unit | Named(names: seq<Ident>) | Unnamed(arity: nat)

  /** A variant as declared in the enum. */
  datatype SourceVariant = SourceVariant(ident: Ident, fields: VariantFields)

  /** An accepted variant with the tag it is decoded from. */
  datatype Variant = Variant(ident: Ident, name: string)

  datatype Enum = Enum(ident: Ident, variants: seq<Variant>)

  const UnitOnly := "only unit variants are allowed for DecodeScalar"

  /**
   * `Enum::new`: accept the variants in order, tagging each with the kebab
   * case of its identifier; the first variant with fields is an error at
   * that variant.
   */
  method NewEnum(ident: Ident, srcVariants: seq<SourceVariant>, kebab: string -> string)
    returns (r: Result<Enum, Diagnostic>)
    ensures r.Ok? <==> forall i :: 0 <= i < |srcVariants| ==> srcVariants[i].fields.Unit?
    ensures r.Ok? ==> r.value.ident == ident && |r.value.variants| == |srcVariants|
    ensures r.Ok? ==> forall i :: 0 <= i < |srcVariants| ==>
      r.value.variants[i] == Variant(srcVariants[i].ident, kebab(srcVariants[i].ident))
    ensures r.Err? ==> exists i ::
      && 0 <= i < |srcVariants|
      && !srcVariants[i].fields.Unit?
      && (forall k :: 0 <= k < i ==> srcVariants[k].fields.Unit?)
      && r.error == Single(srcVariants[i].ident, UnitOnly)
  {
    var variants: seq<Variant> := [];
    for i := 0 to |srcVariants|
      invariant |variants| == i
      invariant forall k :: 0 <= k < i ==> srcVariants[k].fields.Unit?
      invariant forall k :: 0 <= k < i ==>
        variants[k] == Variant(srcVariants[k].ident, kebab(srcVariants[k].ident))
    {
      var v := srcVariants[i];
      match v.fields {
        case Unit =>
          var name := kebab(v.ident);
          variants := variants + [Variant(v.ident, name)];
        case _ =>
          r := Err(Single(v.ident, UnitOnly));
          return;
      }
    }
    r := Ok(Enum(ident, variants));
  }

  /** A tag as the message shows it: escaped and in backticks. */
  function Quoted(name: string, escape: string -> string): string
  {
    "`" + escape(name) + "`"
  }

  /** `parts` joined with `sep` between neighbours, as `[String]::join`. */
  function Join(parts: seq<string>, sep: string): (joined: string)
  {
    if |parts| == 0 then ""
    else if |parts| == 1 then parts[0]
    else parts[0] + sep + Join(parts[1..], sep)
  }

  function Digit(d: nat): char
    requires d < 10
  {
    "0123456789"[d]
  }

  /** A count written in decimal, as `format!("{}", n)` renders a `usize`. */
  function DecimalText(n: nat): (text: string)
  {
    if n < 10 then [Digit(n)] else DecimalText(n / 10) + [Digit(n % 10)]
  }

  /** The message for a string that matches no tag. */
  function ValueError(e: Enum, escape: string -> string): (message: string)
  {
    var vs := e.variants;
    if |vs| <= 3 then
      "expected one of "
        + Join(seq(|vs|, i requires 0 <= i < |vs| => Quoted(vs[i].name, escape)), ", ")
    else
      "expected `" + escape(vs[0].name) + "`, `" + escape(vs[1].name) + "`, or one of "
        + DecimalText(|vs| - 2) + " others"
  }

  /** A literal of the document, as `knuffel::ast::Literal`. */
  datatype Literal = Null | Bool(b: bool) | Int(digits: string) | Decimal(digits: string) | String(s: string)

  /** A type annotation on a value, as `knuffel::ast::TypeName`. */
  datatype TypeName = TypeName(name: string)

  /** A value together with its position in the document, of any span type `S`. */
  datatype Spanned<T, S> = Spanned(value: T, span: S)

  /** A decoding error at a position of the document. */
  datatype DecodeError<S> = DecodeError(span: S, message: string)

  /** The string-equality match over the tags, tried in declaration order. */
  function Dispatch(variants: seq<Variant>, s: string): (found: Option<Ident>)
  {
    if variants == [] then None
    else if variants[0].name == s then Some(variants[0].ident)
    else Dispatch(variants[1..], s)
  }

  /** The generated `raw_decode`: the variant identifier a literal decodes to. */
  function RawDecode<S>(e: Enum, val: Spanned<Literal, S>, escape: string -> string)
    : (r: Result<Ident, DecodeError<S>>)
  {
    match val.value
    case String(s) =>
      (match Dispatch(e.variants, s)
       case Some(id) => Ok(id)
       case None => Err(DecodeError(val.span, ValueError(e, escape))))
    case _ => Err(DecodeError(val.span, "expected string value"))
  }

  /** The generated `type_check`: a scalar enum accepts no type annotation. */
  function TypeCheck<S>(e: Enum, typeName: Option<Spanned<TypeName, S>>): (r: Result<(), DecodeError<S>>)
  {
    match typeName
    case Some(typ) => Err(DecodeError(typ.span, "unexpected type name for " + e.ident))
    case None => Ok(())
  }
}
