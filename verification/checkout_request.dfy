/** The checkout request body as products/serializers_checkout.py validates
    it: `items` is a list of `{product_id: UUID, qty: integer >= 1}`, and
    `customer_name` and `notes` are optional, possibly blank, strings. The
    field semantics are Django REST framework's (UUIDField, IntegerField,
    CharField with whitespace trimming); errors of every field are
    collected, not only the first. */
module CheckoutRequest {
  import opened Common
  import opened Text

  /** IntegerField's conversion of a string: `int(re.sub(r'\.0*\s*$', '', s))`
      with Python's `int` grammar, which is foreign to this model. */
  type IntTextParser = string -> Option<int>

  /** IntegerField refuses strings longer than this before converting. */
  const MAX_STRING_LENGTH: int := 1000

  /** A validated cart line. */
  datatype CartItem = CartItem(productId: Uuid, qty: int)

  /** The validated body, with the view's defaults (`''`) applied to the
      optional strings. */
  datatype Request = Request(items: seq<CartItem>, customerName: string, notes: string)

  datatype ErrorKind =
    | NotAnObject      // the body or a cart line is neither an object nor null
    | Required         // a required key is missing
    | NullNotAllowed   // the value is JSON null
    | NotAList         // `items` is not a list
    | Invalid          // the value does not convert to the field's type
    | MaxStringLength  // an integer given as a string of over 1000 characters
    | MinValue         // qty below 1
    | NullCharacters   // a text value containing U+0000

  /** An error for `field`, inside `items[index]` when an index is given. A
      null cart line is refused as a whole, with a bare error list and no
      key: its `field` is `LINE`. */
  datatype FieldError = FieldError(field: string, index: Option<nat>, kind: ErrorKind)

  /** The key under which a serializer reports errors of the whole object. */
  const NON_FIELD_ERRORS: string := "non_field_errors"

  /** The (absent) key of an error about a cart line as a whole. */
  const LINE: string := ""

  /** `UUIDField()` as a required, non-null field. */
  function UuidValue(v: Json, hex: HexUuidParser): (r: Result<Uuid, ErrorKind>)
    ensures r.Ok? <==> UuidField(v, hex).Some?
    ensures r.Ok? ==> r.value == UuidField(v, hex).value
    ensures v.JNull? ==> r == Err(NullNotAllowed)
    ensures !v.JNull? && r.Err? ==> r.error == Invalid
  {
    if v.JNull? then Err(NullNotAllowed)
    else match UuidField(v, hex)
      case Some(u) => Ok(u)
      case None => Err(Invalid)
  }

  /** `IntegerField(min_value=1)` as a required, non-null field. A JSON
      integer is taken as it is; a string goes through the integer grammar;
      `true`/`false`, lists and objects do not convert. */
  function QtyValue(v: Json, intText: IntTextParser): (r: Result<int, ErrorKind>)
    ensures r.Ok? ==> r.value >= 1
    ensures v.JNull? ==> r == Err(NullNotAllowed)
    ensures v.JInt? ==> (r.Ok? <==> v.i >= 1)
    ensures v.JInt? && r.Ok? ==> r.value == v.i
    ensures v.JInt? && r.Err? ==> r.error == MinValue
    ensures v.JStr? && |v.s| > MAX_STRING_LENGTH ==> r == Err(MaxStringLength)
    ensures v.JStr? && |v.s| <= MAX_STRING_LENGTH ==>
              (r.Ok? <==> intText(v.s).Some? && intText(v.s).value >= 1)
    ensures v.JStr? && r.Ok? ==> intText(v.s) == Some(r.value)
    ensures v.JBool? || v.JArr? || v.JObj? ==> r == Err(Invalid)
  {
    var n: Result<int, ErrorKind> :=
      match v
      case JNull => Err(NullNotAllowed)
      case JInt(i) => Ok(i)
      case JStr(s) =>
        if |s| > MAX_STRING_LENGTH then Err(MaxStringLength)
        else (match intText(s) case Some(i) => Ok(i) case None => Err(Invalid))
      case _ => Err(Invalid);
    if n.Err? then n
    else if n.value < 1 then Err(MinValue)
    else n
  }

  /** Blank for CharField: `data == ''` or `str(data).strip() == ''`. Only a
      string can be blank: `str()` of a number, boolean, list or object is
      never empty after stripping. */
  predicate IsBlank(v: Json) {
    v.JStr? && Strip(v.s) == ""
  }

  /** CharField's conversion of a present, non-blank, non-null value:
      strings are stripped, integers rendered with `str()`, and the rest
      refused; then a NUL character is refused. */
  function TextOf(v: Json): (r: Result<string, ErrorKind>)
    ensures r.Ok? ==> Strip(r.value) == r.value && NoChar(r.value, '\0')
    ensures r.Ok? && v.JStr? ==> r.value == Strip(v.s)
    ensures v.JStr? ==> (r.Ok? <==> NoChar(Strip(v.s), '\0'))
    ensures v.JStr? && r.Err? ==> r.error == NullCharacters
    ensures v.JInt? ==> r == Ok(IntToString(v.i))
    ensures !v.JStr? && !v.JInt? ==> r == Err(Invalid)
  {
    if v.JStr? then StrippedText(v.s)
    else if v.JInt? then Ok(IntText(v.i))
    else Err(Invalid)
  }

  /** A string value: stripped, then refused when it holds a NUL. */
  function StrippedText(s: string): (r: Result<string, ErrorKind>)
    ensures r.Ok? <==> NoChar(Strip(s), '\0')
    ensures r.Ok? ==> r.value == Strip(s) && Strip(r.value) == r.value
    ensures r.Err? ==> r.error == NullCharacters
  {
    if NoChar(Strip(s), '\0') then StripIdempotent(s); Ok(Strip(s))
    else Err(NullCharacters)
  }

  /** An integer value: `str(i)`, which the trimming and the NUL check
      leave alone. */
  function IntText(i: int): (r: string)
    ensures r == IntToString(i)
    ensures Strip(r) == r && NoChar(r, '\0')
  {
    IntToStringStripped(i);
    IntToStringNoNul(i);
    IntToString(i)
  }

  /** `str(i)` is a sign and digits, so the NUL check never refuses it. */
  lemma IntToStringNoNul(i: int)
    ensures NoChar(IntToString(i), '\0')
  {
    var n := NatToString(if i < 0 then -i else i);
    assert forall k :: 0 <= k < |n| ==> IsDigit(n[k]);
  }

  /** `CharField(required=False, allow_blank=True)` read with the view's
      `.get(key, '')`: absent and blank give `''`; a string is stripped; an
      integer is rendered with `str()`; null, booleans, lists and objects are
      refused, and so is a value holding a NUL character. */
  function TextValue(m: map<string, Json>, key: string): (r: Result<string, ErrorKind>)
    ensures key !in m ==> r == Ok("")
    ensures key in m && IsBlank(m[key]) ==> r == Ok("")
    ensures key in m && m[key].JNull? ==> r == Err(NullNotAllowed)
    ensures r.Ok? ==> Strip(r.value) == r.value && NoChar(r.value, '\0')
    ensures key in m && m[key].JStr? && r.Ok? ==> r.value == Strip(m[key].s)
    ensures key in m && !m[key].JNull? && !IsBlank(m[key]) ==> r == TextOf(m[key])
  {
    if key !in m then Ok("")
    else if m[key].JNull? then Err(NullNotAllowed)
    else if IsBlank(m[key]) then
      assert Strip("") == "";
      Ok("")
    else TextOf(m[key])
  }

  /** `str(i)` has no surrounding whitespace. */
  lemma IntToStringStripped(i: int)
    ensures Strip(IntToString(i)) == IntToString(i)
  {
    var s := IntToString(i);
    var n := NatToString(if i < 0 then -i else i);
    assert s[|s| - 1] == n[|n| - 1];
    StripUnchanged(s);
  }

  /** The errors of one field: none, or one. */
  function ErrorsOf<T>(r: Result<T, ErrorKind>, field: string, index: Option<nat>): seq<FieldError> {
    if r.Err? then [FieldError(field, index, r.error)] else []
  }

  /** The required `product_id` of a cart line: missing gives `Required`. */
  function ProductIdField(m: map<string, Json>, hex: HexUuidParser): Result<Uuid, ErrorKind> {
    if "product_id" in m then UuidValue(m["product_id"], hex) else Err(Required)
  }

  /** The required `qty` of a cart line: missing gives `Required`. */
  function QtyField(m: map<string, Json>, intText: IntTextParser): Result<int, ErrorKind> {
    if "qty" in m then QtyValue(m["qty"], intText) else Err(Required)
  }

  /** One cart line, `CheckoutItemSerializer`. A null line is refused with
      the null error before the object check; in an object, the error of
      each failing field is reported, product_id's first, and nothing else. */
  function ValidateItem(v: Json, index: nat, hex: HexUuidParser, intText: IntTextParser)
    : (r: Result<CartItem, seq<FieldError>>)
    ensures r.Err? ==> |r.error| > 0
    ensures r.Err? ==> forall e :: e in r.error ==> e.index == Some(index)
    ensures v.JNull? ==> r == Err([FieldError(LINE, Some(index), NullNotAllowed)])
    ensures !v.JNull? && !v.JObj? ==> r == Err([FieldError(NON_FIELD_ERRORS, Some(index), NotAnObject)])
    ensures r.Ok? <==> v.JObj? && "product_id" in v.fields && "qty" in v.fields
                       && UuidValue(v.fields["product_id"], hex).Ok?
                       && QtyValue(v.fields["qty"], intText).Ok?
    ensures r.Ok? ==> r.value.productId == UuidField(v.fields["product_id"], hex).value
    ensures r.Ok? ==> r.value.qty == QtyValue(v.fields["qty"], intText).value && r.value.qty >= 1
    ensures v.JObj? && ProductIdField(v.fields, hex).Err? ==>
              r.Err? && FieldError("product_id", Some(index), ProductIdField(v.fields, hex).error) in r.error
    ensures v.JObj? && QtyField(v.fields, intText).Err? ==>
              r.Err? && FieldError("qty", Some(index), QtyField(v.fields, intText).error) in r.error
    ensures v.JObj? && r.Err? ==> forall e :: e in r.error ==>
              || (e.field == "product_id" && ProductIdField(v.fields, hex).Err?)
              || (e.field == "qty" && QtyField(v.fields, intText).Err?)
  {
    if v.JNull? then Err([FieldError(LINE, Some(index), NullNotAllowed)])
    else if !v.JObj? then Err([FieldError(NON_FIELD_ERRORS, Some(index), NotAnObject)])
    else
      var id := ProductIdField(v.fields, hex);
      var qty := QtyField(v.fields, intText);
      if id.Ok? && qty.Ok? then Ok(CartItem(id.value, qty.value))
      else Err(ErrorsOf(id, "product_id", Some(index)) + ErrorsOf(qty, "qty", Some(index)))
  }

  /** The cart lines from `from` on, validated one by one; the errors of all
      invalid lines are collected in order. */
  function ValidateItems(xs: seq<Json>, from: nat, hex: HexUuidParser, intText: IntTextParser)
    : (r: Result<seq<CartItem>, seq<FieldError>>)
    requires from <= |xs|
    ensures r.Err? ==> |r.error| > 0
    ensures r.Ok? <==> forall i :: from <= i < |xs| ==> ValidateItem(xs[i], i, hex, intText).Ok?
    ensures r.Ok? ==> |r.value| == |xs| - from
    ensures r.Ok? ==>
      forall i :: from <= i < |xs| ==> r.value[i - from] == ValidateItem(xs[i], i, hex, intText).value
    decreases |xs| - from
  {
    if from == |xs| then Ok([])
    else ConsLine(ValidateItem(xs[from], from, hex, intText), ValidateItems(xs, from + 1, hex, intText))
  }

  /** One line's result in front of the rest's: the lines when both are
      valid, otherwise the errors of both in order. */
  function ConsLine(head: Result<CartItem, seq<FieldError>>, tail: Result<seq<CartItem>, seq<FieldError>>)
    : (r: Result<seq<CartItem>, seq<FieldError>>)
    ensures r.Ok? <==> head.Ok? && tail.Ok?
    ensures r.Ok? ==> r.value == [head.value] + tail.value
    ensures r.Err? ==> r.error == (if head.Err? then head.error else []) + (if tail.Err? then tail.error else [])
  {
    match (head, tail)
    case (Ok(h), Ok(t)) => Ok([h] + t)
    case (Err(e), Ok(_)) => assert e + [] == e; Err(e)
    case (Ok(_), Err(e)) => assert [] + e == e; Err(e)
    case (Err(e1), Err(e2)) => Err(e1 + e2)
  }

  /** `e` is one of the errors of the invalid line `i`. */
  predicate LineError(xs: seq<Json>, i: nat, hex: HexUuidParser, intText: IntTextParser, e: FieldError)
    requires i < |xs|
  {
    ValidateItem(xs[i], i, hex, intText).Err? && e in ValidateItem(xs[i], i, hex, intText).error
  }

  /** The errors are grouped by line with the line indices never going down. */
  predicate LinesInOrder(errs: seq<FieldError>)
  {
    (forall k :: 0 <= k < |errs| ==> errs[k].index.Some?)
    && forall a, b :: 0 <= a < b < |errs| ==> errs[a].index.value <= errs[b].index.value
  }

  /** Every error of every invalid line from `from` on is in `errs`. */
  ghost predicate AllLineErrorsIn(xs: seq<Json>, from: nat, hex: HexUuidParser, intText: IntTextParser,
                                  errs: seq<FieldError>)
  {
    forall i, e :: from <= i < |xs| && LineError(xs, i, hex, intText, e) ==> e in errs
  }

  /** Every error in `errs` is an error of the line, from `from` on, that its index names. */
  predicate OnlyLineErrors(xs: seq<Json>, from: nat, hex: HexUuidParser, intText: IntTextParser,
                           errs: seq<FieldError>)
  {
    forall e :: e in errs ==> e.index.Some? && from <= e.index.value < |xs|
                              && LineError(xs, e.index.value, hex, intText, e)
  }

  /** `errs` are exactly the errors of the invalid lines from `from` on,
      with the lines in list order. */
  ghost predicate ErrorsOfLines(xs: seq<Json>, from: nat, hex: HexUuidParser, intText: IntTextParser,
                                errs: seq<FieldError>)
  {
    AllLineErrorsIn(xs, from, hex, intText, errs) && OnlyLineErrors(xs, from, hex, intText, errs)
    && LinesInOrder(errs)
  }

  /** The errors of line `from`, none when it is valid. */
  function HeadErrors(xs: seq<Json>, from: nat, hex: HexUuidParser, intText: IntTextParser): (r: seq<FieldError>)
    requires from < |xs|
    ensures forall e :: e in r ==> e.index == Some(from) && LineError(xs, from, hex, intText, e)
  {
    var v := ValidateItem(xs[from], from, hex, intText);
    if v.Err? then v.error else []
  }

  lemma AllLineErrorsCons(xs: seq<Json>, from: nat, hex: HexUuidParser, intText: IntTextParser, t: seq<FieldError>)
    requires from < |xs|
    requires AllLineErrorsIn(xs, from + 1, hex, intText, t)
    ensures AllLineErrorsIn(xs, from, hex, intText, HeadErrors(xs, from, hex, intText) + t)
  {
  }

  lemma OnlyLineErrorsCons(xs: seq<Json>, from: nat, hex: HexUuidParser, intText: IntTextParser, t: seq<FieldError>)
    requires from < |xs|
    requires OnlyLineErrors(xs, from + 1, hex, intText, t)
    ensures OnlyLineErrors(xs, from, hex, intText, HeadErrors(xs, from, hex, intText) + t)
  {
  }

  lemma LinesInOrderCons(h: seq<FieldError>, t: seq<FieldError>, from: nat)
    requires forall e :: e in h ==> e.index == Some(from)
    requires forall e :: e in t ==> e.index.Some? && from < e.index.value
    requires LinesInOrder(t)
    ensures LinesInOrder(h + t)
  {
    var errs := h + t;
    forall a, b | 0 <= a < b < |errs|
      ensures errs[a].index.value <= errs[b].index.value
    {
      if b < |h| {
        assert errs[a] in h && errs[b] in h;
      } else if a < |h| {
        assert errs[a] in h;
        assert errs[b] == t[b - |h|];
      } else {
        assert errs[a] == t[a - |h|];
        assert errs[b] == t[b - |h|];
      }
    }
  }

  /** Prepending line `from`'s errors extends the match by that line. */
  lemma ErrorsOfLinesCons(xs: seq<Json>, from: nat, hex: HexUuidParser, intText: IntTextParser, t: seq<FieldError>)
    requires from < |xs|
    requires ErrorsOfLines(xs, from + 1, hex, intText, t)
    ensures ErrorsOfLines(xs, from, hex, intText, HeadErrors(xs, from, hex, intText) + t)
  {
    AllLineErrorsCons(xs, from, hex, intText, t);
    OnlyLineErrorsCons(xs, from, hex, intText, t);
    LinesInOrderCons(HeadErrors(xs, from, hex, intText), t, from);
  }

  /** When every line from `from` on is valid, no error matches. */
  lemma NoLineErrors(xs: seq<Json>, from: nat, hex: HexUuidParser, intText: IntTextParser)
    requires from <= |xs|
    requires ValidateItems(xs, from, hex, intText).Ok?
    ensures ErrorsOfLines(xs, from, hex, intText, [])
  {
  }

  /** A rejected list's errors are the first line's followed by the rest's. */
  lemma ValidateItemsErrStep(xs: seq<Json>, from: nat, hex: HexUuidParser, intText: IntTextParser)
    requires from < |xs|
    requires ValidateItems(xs, from, hex, intText).Err?
    ensures var tail := ValidateItems(xs, from + 1, hex, intText);
            ValidateItems(xs, from, hex, intText).error
              == HeadErrors(xs, from, hex, intText) + (if tail.Err? then tail.error else [])
  {
    assert ValidateItems(xs, from, hex, intText)
        == ConsLine(ValidateItem(xs[from], from, hex, intText), ValidateItems(xs, from + 1, hex, intText));
  }

  /** A rejected list reports exactly the errors of its invalid lines. */
  lemma {:induction false} ValidateItemsErrors(xs: seq<Json>, from: nat, hex: HexUuidParser, intText: IntTextParser)
    requires from <= |xs|
    ensures ValidateItems(xs, from, hex, intText).Err? ==>
              ErrorsOfLines(xs, from, hex, intText, ValidateItems(xs, from, hex, intText).error)
    decreases |xs| - from
  {
    if from < |xs| && ValidateItems(xs, from, hex, intText).Err? {
      ValidateItemsErrors(xs, from + 1, hex, intText);
      var tail := ValidateItems(xs, from + 1, hex, intText);
      if tail.Ok? {
        NoLineErrors(xs, from + 1, hex, intText);
      }
      ErrorsOfLinesCons(xs, from, hex, intText, if tail.Err? then tail.error else []);
      ValidateItemsErrStep(xs, from, hex, intText);
    }
  }

  /** `items`: required, not null, a list (possibly empty) of cart lines. */
  function ItemsValue(m: map<string, Json>, hex: HexUuidParser, intText: IntTextParser)
    : (r: Result<seq<CartItem>, seq<FieldError>>)
    ensures r.Err? ==> |r.error| > 0
    ensures r.Ok? <==> "items" in m && m["items"].JArr?
                       && ValidateItems(m["items"].elems, 0, hex, intText).Ok?
    ensures r.Ok? ==> r == ValidateItems(m["items"].elems, 0, hex, intText)
    ensures "items" !in m ==> r == Err([FieldError("items", None, Required)])
    ensures "items" in m && m["items"].JNull? ==> r == Err([FieldError("items", None, NullNotAllowed)])
    ensures "items" in m && !m["items"].JNull? && !m["items"].JArr? ==> r == Err([FieldError("items", None, NotAList)])
    ensures "items" in m && m["items"].JArr? ==> r == ValidateItems(m["items"].elems, 0, hex, intText)
  {
    if "items" !in m then Err([FieldError("items", None, Required)])
    else match m["items"]
      case JNull => Err([FieldError("items", None, NullNotAllowed)])
      case JArr(xs) => ValidateItems(xs, 0, hex, intText)
      case _ => Err([FieldError("items", None, NotAList)])
  }

  /** `CheckoutValidateSerializer(data=body).is_valid()` followed by the
      view's reads of `items`, `customer_name` and `notes`. The request is
      accepted exactly when the body is an object whose `items` is a list of
      well-formed lines and whose optional strings convert; the accepted
      lines are those lines, in order, each with qty >= 1. */
  function ValidateCheckout(body: Json, hex: HexUuidParser, intText: IntTextParser)
    : (r: Result<Request, seq<FieldError>>)
    ensures r.Err? ==> |r.error| > 0
    ensures body.JNull? ==> r == Err([FieldError(NON_FIELD_ERRORS, None, NullNotAllowed)])
    ensures !body.JNull? && !body.JObj? ==> r == Err([FieldError(NON_FIELD_ERRORS, None, NotAnObject)])
    ensures body.JObj? && TextValue(body.fields, "customer_name").Err? ==>
      r.Err? && FieldError("customer_name", None, TextValue(body.fields, "customer_name").error) in r.error
    ensures body.JObj? && TextValue(body.fields, "notes").Err? ==>
      r.Err? && FieldError("notes", None, TextValue(body.fields, "notes").error) in r.error
    ensures body.JObj? && ItemsValue(body.fields, hex, intText).Err? ==>
      r.Err? && ItemsValue(body.fields, hex, intText).error <= r.error
    ensures r.Ok? <==>
      && body.JObj? && "items" in body.fields && body.fields["items"].JArr?
      && (forall i :: 0 <= i < |body.fields["items"].elems| ==>
            ValidateItem(body.fields["items"].elems[i], i, hex, intText).Ok?)
      && TextValue(body.fields, "customer_name").Ok?
      && TextValue(body.fields, "notes").Ok?
    ensures r.Ok? ==> |r.value.items| == |body.fields["items"].elems|
    ensures r.Ok? ==> forall i :: 0 <= i < |r.value.items| ==>
      r.value.items[i] == ValidateItem(body.fields["items"].elems[i], i, hex, intText).value
    ensures r.Ok? ==> forall i :: 0 <= i < |r.value.items| ==> r.value.items[i].qty >= 1
    ensures r.Ok? ==> r.value.customerName == TextValue(body.fields, "customer_name").value
    ensures r.Ok? ==> r.value.notes == TextValue(body.fields, "notes").value
  {
    if body.JNull? then Err([FieldError(NON_FIELD_ERRORS, None, NullNotAllowed)])
    else if !body.JObj? then Err([FieldError(NON_FIELD_ERRORS, None, NotAnObject)])
    else
      var m := body.fields;
      var items := ItemsValue(m, hex, intText);
      var name := TextValue(m, "customer_name");
      var notes := TextValue(m, "notes");
      if items.Ok? && name.Ok? && notes.Ok? then
        ItemsQty(m["items"].elems, items.value, hex, intText);
        Ok(Request(items.value, name.value, notes.value))
      else
        Err((if items.Err? then items.error else [])
            + ErrorsOf(name, "customer_name", None)
            + ErrorsOf(notes, "notes", None))
  }

  lemma ItemsQty(xs: seq<Json>, items: seq<CartItem>, hex: HexUuidParser, intText: IntTextParser)
    requires |items| == |xs|
    requires forall i :: 0 <= i < |xs| ==> ValidateItem(xs[i], i, hex, intText).Ok?
    requires forall i :: 0 <= i < |xs| ==> items[i] == ValidateItem(xs[i], i, hex, intText).value
    ensures forall i :: 0 <= i < |items| ==> items[i].qty >= 1
  {
    forall i | 0 <= i < |items| ensures items[i].qty >= 1 {
      assert ValidateItem(xs[i], i, hex, intText).value.qty >= 1;
    }
  }
}
