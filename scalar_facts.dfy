/**
 * What the scalar-enum decoder guarantees: the first matching tag wins, the
 * error messages have the promised shapes, and a type annotation is always
 * refused.
 */
module ScalarFacts {

  import opened Wrappers
  import opened Scalar

  // ---------------------------------------------------------------------------
  // Dispatch: the first variant with an equal tag

  /**
   * `Dispatch` finds a variant exactly when some tag equals the string, and
   * then it is the earliest such variant.
   */
  lemma {:induction false} DispatchIsFirstMatch(variants: seq<Variant>, s: string)
    ensures Dispatch(variants, s).Some? <==> exists i :: 0 <= i < |variants| && variants[i].name == s
    ensures Dispatch(variants, s).Some? ==> exists i ::
      && 0 <= i < |variants| && variants[i].name == s
      && (forall j :: 0 <= j < i ==> variants[j].name != s)
      && Dispatch(variants, s) == Some(variants[i].ident)
  {
    if variants != [] && variants[0].name != s {
      var rest := variants[1..];
      DispatchIsFirstMatch(rest, s);
      assert forall i :: 0 <= i < |rest| ==> rest[i] == variants[i + 1];
      if Dispatch(rest, s).Some? {
        var i :| 0 <= i < |rest| && rest[i].name == s
          && (forall j :: 0 <= j < i ==> rest[j].name != s)
          && Dispatch(rest, s) == Some(rest[i].ident);
        assert variants[i + 1].name == s;
        assert forall j :: 0 <= j < i + 1 ==> variants[j].name != s by {
          forall j | 0 <= j < i + 1 ensures variants[j].name != s {
            if j > 0 {
              assert variants[j] == rest[j - 1];
            }
          }
        }
      }
      if exists i :: 0 <= i < |variants| && variants[i].name == s {
        var i :| 0 <= i < |variants| && variants[i].name == s;
        assert rest[i - 1].name == s;
      }
    }
  }

  /** A variant's own tag decodes to it unless an earlier variant has the same tag. */
  lemma DecodesOwnTag<S>(e: Enum, i: nat, span: S, escape: string -> string)
    requires i < |e.variants|
    requires forall j :: 0 <= j < i ==> e.variants[j].name != e.variants[i].name
    ensures RawDecode(e, Spanned(String(e.variants[i].name), span), escape) == Ok(e.variants[i].ident)
  {
    var vs := e.variants;
    DispatchIsFirstMatch(vs, vs[i].name);
    var k :| 0 <= k < |vs| && vs[k].name == vs[i].name
      && (forall j :: 0 <= j < k ==> vs[j].name != vs[i].name)
      && Dispatch(vs, vs[i].name) == Some(vs[k].ident);
    assert k == i;
  }

  // ---------------------------------------------------------------------------
  // raw_decode and type_check

  /**
   * Decoding a string gives the variant of the earliest equal tag, or the
   * value error; any other literal gives "expected string value". Every
   * error is reported at the value's span.
   */
  lemma RawDecodeMeans<S>(e: Enum, val: Spanned<Literal, S>, escape: string -> string)
    ensures RawDecode(e, val, escape).Err? ==> RawDecode(e, val, escape).error.span == val.span
    ensures !val.value.String? ==>
      RawDecode(e, val, escape) == Err(DecodeError(val.span, "expected string value"))
    ensures val.value.String? ==>
      (RawDecode(e, val, escape).Ok? <==> exists i :: 0 <= i < |e.variants| && e.variants[i].name == val.value.s)
    ensures val.value.String? && RawDecode(e, val, escape).Ok? ==> exists i ::
      && 0 <= i < |e.variants| && e.variants[i].name == val.value.s
      && (forall j :: 0 <= j < i ==> e.variants[j].name != val.value.s)
      && RawDecode(e, val, escape).value == e.variants[i].ident
    ensures val.value.String? && RawDecode(e, val, escape).Err? ==>
      RawDecode(e, val, escape).error.message == ValueError(e, escape)
  {
    if val.value.String? {
      DispatchIsFirstMatch(e.variants, val.value.s);
    }
  }

  /**
   * `type_check` succeeds exactly when no type name is given; a type name is
   * refused at its own span. It never looks at the literal, so a value with a
   * type name is refused even when its string is a valid tag.
   */
  lemma TypeNameRefused<S>(e: Enum, typeName: Option<Spanned<TypeName, S>>)
    ensures TypeCheck(e, typeName).Ok? <==> typeName.None?
    ensures typeName.Some? ==>
      TypeCheck(e, typeName) == Err(DecodeError(typeName.value.span, "unexpected type name for " + e.ident))
  {
  }

  // ---------------------------------------------------------------------------
  // The value error

  /** Reading a decimal text back as a number. */
  function DecimalValue(s: string): nat
  {
    if s == [] then 0
    else DecimalValue(s[..|s| - 1]) * 10 + (if '0' <= s[|s| - 1] <= '9' then s[|s| - 1] as int - '0' as int else 0)
  }

  lemma DecimalValueSnoc(t: string, d: nat)
    requires d < 10
    ensures DecimalValue(t + [Digit(d)]) == DecimalValue(t) * 10 + d
  {
    assert (t + [Digit(d)])[..|t|] == t;
    assert "0123456789"[d] as int - '0' as int == d;
  }

  /** The decimal text of a count is all digits, has no leading zero, and reads back as the count. */
  lemma {:induction false} DecimalRoundTrip(n: nat)
    ensures DecimalValue(DecimalText(n)) == n
    ensures forall k :: 0 <= k < |DecimalText(n)| ==> '0' <= DecimalText(n)[k] <= '9'
    ensures |DecimalText(n)| >= 1 && (DecimalText(n)[0] == '0' ==> n == 0)
  {
    if n < 10 {
      assert "0123456789"[n] as int - '0' as int == n;
    } else {
      DecimalRoundTrip(n / 10);
      DecimalValueSnoc(DecimalText(n / 10), n % 10);
    }
  }

  /** `Join` puts every part between a prefix and a suffix of the joined text. */
  lemma {:induction false} JoinContains(parts: seq<string>, sep: string, i: nat)
    requires i < |parts|
    ensures exists pre, post :: Join(parts, sep) == pre + parts[i] + post
  {
    if |parts| == 1 {
      assert Join(parts, sep) == "" + parts[0] + "";
    } else if i == 0 {
      assert Join(parts, sep) == "" + parts[0] + (sep + Join(parts[1..], sep));
    } else {
      JoinContains(parts[1..], sep, i - 1);
      var pre, post :| Join(parts[1..], sep) == pre + parts[1..][i - 1] + post;
      assert Join(parts, sep) == (parts[0] + sep + pre) + parts[i] + post;
    }
  }

  /**
   * With at most three variants the message is "expected one of " followed by
   * the quoted, escaped tags joined with ", ", and nothing after it for no
   * variant.
   */
  lemma ValueErrorFew(e: Enum, escape: string -> string)
    requires |e.variants| <= 3
    ensures var vs := e.variants;
      && (|vs| == 0 ==> ValueError(e, escape) == "expected one of ")
      && (|vs| == 1 ==> ValueError(e, escape) == "expected one of " + Quoted(vs[0].name, escape))
      && (|vs| == 2 ==> ValueError(e, escape) == "expected one of " + Quoted(vs[0].name, escape)
                          + ", " + Quoted(vs[1].name, escape))
      && (|vs| == 3 ==> ValueError(e, escape) == "expected one of " + Quoted(vs[0].name, escape)
                          + ", " + Quoted(vs[1].name, escape) + ", " + Quoted(vs[2].name, escape))
  {
    var vs := e.variants;
    var parts := seq(|vs|, i requires 0 <= i < |vs| => Quoted(vs[i].name, escape));
    if |vs| == 2 {
      assert Join(parts[1..], ", ") == parts[1];
    } else if |vs| == 3 {
      assert Join(parts[1..][1..], ", ") == parts[2];
      assert Join(parts[1..], ", ") == parts[1] + ", " + parts[2];
    }
  }

  /** With at most three variants every quoted, escaped tag appears in the message. */
  lemma ValueErrorNamesTag(e: Enum, escape: string -> string, i: nat)
    requires |e.variants| <= 3 && i < |e.variants|
    ensures exists pre, post ::
      ValueError(e, escape) == "expected one of " + pre + Quoted(e.variants[i].name, escape) + post
  {
    var vs := e.variants;
    var parts := seq(|vs|, k requires 0 <= k < |vs| => Quoted(vs[k].name, escape));
    JoinContains(parts, ", ", i);
    var pre, post :| Join(parts, ", ") == pre + parts[i] + post;
    assert ValueError(e, escape) == "expected one of " + pre + Quoted(vs[i].name, escape) + post;
  }

  /**
   * With more than three variants the message names the first two tags and
   * counts the rest in decimal, without a leading zero: the count it prints
   * plus the two named tags is the number of variants.
   */
  lemma ValueErrorMany(e: Enum, escape: string -> string)
    requires |e.variants| > 3
    ensures exists count ::
      && ValueError(e, escape) == "expected `" + escape(e.variants[0].name) + "`, `"
           + escape(e.variants[1].name) + "`, or one of " + count + " others"
      && count == DecimalText(|e.variants| - 2)
      && DecimalValue(count) + 2 == |e.variants|
      && |count| >= 1 && count[0] != '0'
      && forall k :: 0 <= k < |count| ==> '0' <= count[k] <= '9'
  {
    DecimalRoundTrip(|e.variants| - 2);
    var count := DecimalText(|e.variants| - 2);
    assert ValueError(e, escape) == "expected `" + escape(e.variants[0].name) + "`, `"
           + escape(e.variants[1].name) + "`, or one of " + count + " others";
  }

  /** Two variants tagged `a` and `b`, and five tagged `a` to `e`, with escaping that changes nothing. */
  lemma ValueErrorExamples()
    ensures ValueError(Enum("E", [Variant("A", "a"), Variant("B", "b")]), s => s)
      == "expected one of `a`, `b`"
    ensures ValueError(Enum("E", [Variant("A", "a"), Variant("B", "b"), Variant("C", "c"),
                                  Variant("D", "d"), Variant("E", "e")]), s => s)
      == "expected `a`, `b`, or one of 3 others"
  {
    var two := Enum("E", [Variant("A", "a"), Variant("B", "b")]);
    ValueErrorFew(two, s => s);
  }
}
