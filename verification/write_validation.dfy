/** The field validation of `ProductWriteSerializer` (products/serializers.py):
    `category_ids`, a list of UUIDs that must all name existing categories,
    and `images`, a JSON list of image operations whose shape is checked
    before anything is written. Errors of both fields are collected. */
module WriteValidation {
  import opened Common

  // ---------------------------------------------------------------------
  // images
  // ---------------------------------------------------------------------

  /** The only keys an image operation may carry. */
  const ALLOWED_KEYS: set<string> := {"id", "alt_text", "delete", "file_key"}

  /** What is wrong with one image operation. */
  datatype OpError =
    | NotAnObject
    | UnknownKeys(extra: set<string>)
    | InvalidImageId
    | DeleteWithoutId
    | NothingToCreate   // neither `id` nor `file_key`

  /** `validate_images` stops at the first offending element and names its
      index; a null sent in a JSON body is refused before it runs. */
  datatype ImagesError = ImagesNullRefused | ImagesNotAList | BadOp(index: nat, kind: OpError)

  /** The validated value of `images`: the key was absent, held `None` (the
      multipart string "null"), or held a list of operations. */
  datatype ImageOps = Absent | Null | Ops(ops: seq<map<string, Json>>)

  /** `item['id'] not in (None, '')`: an id the validator insists on parsing.
      Python compares with `==`, so `0` and `false` are not excluded. */
  predicate IdGiven(op: map<string, Json>) {
    "id" in op && op["id"] != JNull && op["id"] != JStr("")
  }

  /** The keys are all known. */
  predicate KnownKeys(op: map<string, Json>) {
    op.Keys <= ALLOWED_KEYS
  }

  /** A given id parses as a UUID. */
  predicate IdParses(op: map<string, Json>, hex: HexUuidParser) {
    IdGiven(op) ==> UuidField(op["id"], hex).Some?
  }

  /** `delete: true` comes with a truthy id. */
  predicate DeleteHasId(op: map<string, Json>) {
    !(GetIsTrue(op, "delete") && !GetTruthy(op, "id"))
  }

  /** The operation names an existing image or an uploaded file. */
  predicate NamesImage(op: map<string, Json>) {
    GetTruthy(op, "id") || GetTruthy(op, "file_key")
  }

  /** What a well-formed operation is, as one conjunction: an object with
      known keys only, whose given id parses as a UUID, that does not ask to
      delete without a (truthy) id, and that names an image or a file. */
  predicate WellFormedOp(item: Json, hex: HexUuidParser) {
    && item.JObj?
    && KnownKeys(item.fields)
    && IdParses(item.fields, hex)
    && DeleteHasId(item.fields)
    && NamesImage(item.fields)
  }

  /** The checks of one element, in the order `validate_images` makes them:
      each kind is reported exactly when its check is the first to fail. */
  function CheckOp(item: Json, hex: HexUuidParser): (r: Option<OpError>)
    ensures r.None? <==> WellFormedOp(item, hex)
    ensures r == Some(NotAnObject) <==> !item.JObj?
    ensures (r.Some? && r.value.UnknownKeys?) <==> item.JObj? && !KnownKeys(item.fields)
    ensures r.Some? && r.value.UnknownKeys? ==>
              r.value.extra == item.fields.Keys - ALLOWED_KEYS && r.value.extra != {}
    ensures r == Some(InvalidImageId) <==>
              item.JObj? && KnownKeys(item.fields) && !IdParses(item.fields, hex)
    ensures r == Some(DeleteWithoutId) <==>
              item.JObj? && KnownKeys(item.fields) && IdParses(item.fields, hex) && !DeleteHasId(item.fields)
    ensures r == Some(NothingToCreate) <==>
              && item.JObj? && KnownKeys(item.fields) && IdParses(item.fields, hex) && DeleteHasId(item.fields)
              && !NamesImage(item.fields)
  {
    if !item.JObj? then Some(NotAnObject)
    else
      var op := item.fields;
      var extra := op.Keys - ALLOWED_KEYS;
      if extra != {} then Some(UnknownKeys(extra))
      else if IdGiven(op) && UuidField(op["id"], hex).None? then Some(InvalidImageId)
      else if GetIsTrue(op, "delete") && !GetTruthy(op, "id") then Some(DeleteWithoutId)
      else if !GetTruthy(op, "id") && !GetTruthy(op, "file_key") then Some(NothingToCreate)
      else None
  }

  /** The first offending element from index `from` on, if any. */
  function FirstBadOp(xs: seq<Json>, from: nat, hex: HexUuidParser): (r: Option<ImagesError>)
    requires from <= |xs|
    ensures r.None? <==> forall i :: from <= i < |xs| ==> WellFormedOp(xs[i], hex)
    ensures r.Some? ==> r.value.BadOp? && from <= r.value.index < |xs|
                        && CheckOp(xs[r.value.index], hex) == Some(r.value.kind)
                        && forall i :: from <= i < r.value.index ==> WellFormedOp(xs[i], hex)
    decreases |xs| - from
  {
    if from == |xs| then None
    else
      match CheckOp(xs[from], hex)
      case Some(k) => Some(BadOp(from, k))
      case None => FirstBadOp(xs, from + 1, hex)
  }

  /** `validate_images`: `None` passes through, anything but a list is
      refused, and a list passes when every element is well formed; the
      error names the first element that is not. */
  function ValidateImages(v: Json, hex: HexUuidParser): (r: Result<ImageOps, ImagesError>)
    ensures r.Ok? <==> v.JNull? || (v.JArr? && forall i :: 0 <= i < |v.elems| ==> WellFormedOp(v.elems[i], hex))
    ensures r == Err(ImagesNotAList) <==> !v.JNull? && !v.JArr?
    ensures r.Ok? && v.JNull? ==> r.value == Null
    ensures r.Ok? && v.JArr? ==> r.value.Ops? && |r.value.ops| == |v.elems|
                                 && forall i :: 0 <= i < |v.elems| ==> v.elems[i] == JObj(r.value.ops[i])
    ensures r.Err? && v.JArr? ==> r.error.BadOp? && var i := r.error.index;
                                  && i < |v.elems| && !WellFormedOp(v.elems[i], hex)
                                  && forall j :: 0 <= j < i ==> WellFormedOp(v.elems[j], hex)
  {
    match v
    case JNull => Ok(Null)
    case JArr(xs) =>
      (match FirstBadOp(xs, 0, hex)
       case Some(e) => Err(e)
       case None => Ok(Ops(seq(|xs|, i requires 0 <= i < |xs| => xs[i].fields))))
    case _ => Err(ImagesNotAList)
  }

  /** `JSONField(required=False)` leaves `allow_null` off, so a null sent in
      a JSON body is refused before `validate_images` runs. A multipart form
      sends text: its "null" passes that check as a string and is parsed to
      `None` only afterwards, so it reaches `validate_images`. */
  function ImagesValue(v: Json, multipart: bool, hex: HexUuidParser): (r: Result<ImageOps, ImagesError>)
    ensures v.JNull? && !multipart ==> r == Err(ImagesNullRefused)
    ensures r.Ok? <==> (v.JNull? ==> multipart) && ValidateImages(v, hex).Ok?
    ensures r.Ok? ==> r == ValidateImages(v, hex)
    ensures r.Ok? ==> (r.value == Null <==> v.JNull?)
    ensures r.Err? && !v.JNull? ==> r == ValidateImages(v, hex)
  {
    if v.JNull? && !multipart then Err(ImagesNullRefused)
    else ValidateImages(v, hex)
  }

  // ---------------------------------------------------------------------
  // category_ids
  // ---------------------------------------------------------------------

  datatype CategoryIdsError =
    | CategoryIdsNull                    // the field does not allow null
    | CategoryIdsNotAList
    | InvalidCategoryIds(indices: seq<nat>)   // elements that are not UUIDs
    | CategoriesNotFound(missing: seq<Uuid>)

  /** The listed ids with no category, in input order, repeats kept. */
  function MissingCategories(ids: seq<Uuid>, categories: set<Uuid>): (r: seq<Uuid>)
    ensures forall x :: x in r <==> x in ids && x !in categories
    ensures forall x :: x !in categories ==> multiset(r)[x] == multiset(ids)[x]
    ensures |r| <= |ids|
  {
    if |ids| == 0 then []
    else
      var rest := MissingCategories(ids[..|ids| - 1], categories);
      var last := ids[|ids| - 1];
      assert ids == ids[..|ids| - 1] + [last];
      rest + (if last in categories then [] else [last])
  }

  /** One more id adds itself at the end when it names no category. */
  lemma MissingCategoriesSnoc(ids: seq<Uuid>, x: Uuid, categories: set<Uuid>)
    ensures MissingCategories(ids + [x], categories)
            == MissingCategories(ids, categories) + (if x in categories then [] else [x])
  {
    assert (ids + [x])[..|ids|] == ids;
  }

  /** The missing ids of two lists side by side are those of the first
      followed by those of the second: the error follows input order. */
  lemma {:induction false} MissingCategoriesAppend(a: seq<Uuid>, b: seq<Uuid>, categories: set<Uuid>)
    ensures MissingCategories(a + b, categories) == MissingCategories(a, categories) + MissingCategories(b, categories)
    decreases |b|
  {
    if |b| == 0 {
      assert a + b == a;
    } else {
      var front := b[..|b| - 1];
      var last := b[|b| - 1];
      assert b == front + [last];
      assert a + b == (a + front) + [last];
      var tail := if last in categories then [] else [last];
      var ma, mf := MissingCategories(a, categories), MissingCategories(front, categories);
      MissingCategoriesSnoc(front, last, categories);
      MissingCategoriesSnoc(a + front, last, categories);
      MissingCategoriesAppend(a, front, categories);
      calc {
        MissingCategories(a + b, categories);
        MissingCategories(a + front, categories) + tail;
        (ma + mf) + tail;
        { ConcatAssoc(ma, mf, tail); }
        ma + (mf + tail);
        ma + MissingCategories(b, categories);
      }
    }
  }

  /** `validate_category_ids`: the list passes unchanged when every id names
      an existing category; otherwise the error lists the missing ones. */
  function ValidateCategoryIds(ids: seq<Uuid>, categories: set<Uuid>): (r: Result<seq<Uuid>, CategoryIdsError>)
    ensures r.Ok? <==> forall i :: 0 <= i < |ids| ==> ids[i] in categories
    ensures r.Ok? ==> r.value == ids
    ensures r.Err? ==> r.error == CategoriesNotFound(MissingCategories(ids, categories))
                       && |r.error.missing| > 0
  {
    var missing := MissingCategories(ids, categories);
    if |missing| > 0 then
      assert missing[0] in missing;
      Err(CategoriesNotFound(missing))
    else
      assert forall i :: 0 <= i < |ids| ==> ids[i] in ids;
      Ok(ids)
  }

  /** The indices, from `from` on, of elements that are not UUIDs. */
  function BadUuidIndices(xs: seq<Json>, from: nat, hex: HexUuidParser): (r: seq<nat>)
    requires from <= |xs|
    ensures forall i :: i in r <==> from <= i < |xs| && UuidField(xs[i], hex).None?
    decreases |xs| - from
  {
    if from == |xs| then []
    else (if UuidField(xs[from], hex).None? then [from] else []) + BadUuidIndices(xs, from + 1, hex)
  }

  predicate Increasing(s: seq<nat>) {
    forall a, b :: 0 <= a < b < |s| ==> s[a] < s[b]
  }

  /** The bad indices are listed in increasing order, each once, as
      `ListField` reports its per-element errors. */
  lemma {:induction false} BadUuidIndicesIncreasing(xs: seq<Json>, from: nat, hex: HexUuidParser)
    requires from <= |xs|
    ensures Increasing(BadUuidIndices(xs, from, hex))
    decreases |xs| - from
  {
    if from < |xs| {
      BadUuidIndicesIncreasing(xs, from + 1, hex);
      var rest := BadUuidIndices(xs, from + 1, hex);
      assert Increasing(rest);
      forall k | 0 <= k < |rest| ensures rest[k] > from {
        var i: int := rest[k];
        assert i in rest;
      }
      var head: seq<nat> := if UuidField(xs[from], hex).None? then [from] else [];
      var r := BadUuidIndices(xs, from, hex);
      assert r == head + rest;
      forall a, b | 0 <= a < b < |r| ensures r[a] < r[b] {
        if |head| == 1 && a == 0 {
          assert r[a] == from && r[b] == rest[b - 1];
        } else {
          assert r[a] == rest[a - |head|] && r[b] == rest[b - |head|];
          assert 0 <= a - |head| < b - |head| < |rest|;
          assert rest[a - |head|] < rest[b - |head|];
        }
      }
    }
  }

  /** `ListField(child=UUIDField(), allow_empty=True)` followed by
      `validate_category_ids`. */
  function CategoryIdsValue(v: Json, categories: set<Uuid>, hex: HexUuidParser)
    : (r: Result<seq<Uuid>, CategoryIdsError>)
    ensures r.Ok? <==> v.JArr? && forall i :: 0 <= i < |v.elems| ==>
                         UuidField(v.elems[i], hex).Some? && UuidField(v.elems[i], hex).value in categories
    ensures r.Ok? ==> |r.value| == |v.elems|
                      && forall i :: 0 <= i < |v.elems| ==> r.value[i] == UuidField(v.elems[i], hex).value
    ensures v.JNull? ==> r == Err(CategoryIdsNull)
    ensures !v.JNull? && !v.JArr? ==> r == Err(CategoryIdsNotAList)
    ensures v.JArr? ==> r == CategoryIdsList(v.elems, categories, hex)
  {
    match v
    case JNull => Err(CategoryIdsNull)
    case JArr(xs) => CategoryIdsList(xs, categories, hex)
    case _ => Err(CategoryIdsNotAList)
  }

  /** The list case: every element is converted, the bad ones reported by
      index, and the converted ids checked for existence. */
  function CategoryIdsList(xs: seq<Json>, categories: set<Uuid>, hex: HexUuidParser)
    : (r: Result<seq<Uuid>, CategoryIdsError>)
    ensures r.Ok? <==> forall i :: 0 <= i < |xs| ==>
                         UuidField(xs[i], hex).Some? && UuidField(xs[i], hex).value in categories
    ensures r.Ok? ==> |r.value| == |xs|
                      && forall i :: 0 <= i < |xs| ==> r.value[i] == UuidField(xs[i], hex).value
    ensures |BadUuidIndices(xs, 0, hex)| > 0 ==> r == Err(InvalidCategoryIds(BadUuidIndices(xs, 0, hex)))
    ensures |BadUuidIndices(xs, 0, hex)| == 0 ==>
              AllUuids(xs, hex) && r == ValidateCategoryIds(ConvertedIds(xs, hex), categories)
  {
    var bad := BadUuidIndices(xs, 0, hex);
    if |bad| > 0 then
      assert bad[0] in bad;
      Err(InvalidCategoryIds(bad))
    else
      assert forall i :: 0 <= i < |xs| ==> (i in bad <==> UuidField(xs[i], hex).None?);
      ValidateCategoryIds(ConvertedIds(xs, hex), categories)
  }

  /** Every element of the list converts to a uuid. */
  predicate AllUuids(xs: seq<Json>, hex: HexUuidParser)
  {
    forall i :: 0 <= i < |xs| ==> UuidField(xs[i], hex).Some?
  }

  /** The uuids of a list whose elements all convert, position by position. */
  function ConvertedIds(xs: seq<Json>, hex: HexUuidParser): (r: seq<Uuid>)
    requires AllUuids(xs, hex)
    ensures |r| == |xs| && forall i :: 0 <= i < |xs| ==> r[i] == UuidField(xs[i], hex).value
  {
    seq(|xs|, i requires 0 <= i < |xs| => UuidField(xs[i], hex).value)
  }

  // ---------------------------------------------------------------------
  // The two fields together
  // ---------------------------------------------------------------------

  datatype WriteError = CategoryIdsInvalid(c: CategoryIdsError) | ImagesInvalid(i: ImagesError)

  /** The validated relational part of a write: category ids when the key was
      sent, and the image operations. */
  datatype WriteInput = WriteInput(categoryIds: Option<seq<Uuid>>, images: ImageOps)

  /** `is_valid()` on the two relational fields: each absent key is skipped,
      each present one is validated, and the error of every failing field is
      reported, category_ids' first. `multipart` tells how the request body
      was sent. */
  function ValidateWrite(categoryIds: Option<Json>, images: Option<Json>, multipart: bool,
                         categories: set<Uuid>, hex: HexUuidParser)
    : (r: Result<WriteInput, seq<WriteError>>)
    ensures r.Ok? <==>
      && (categoryIds.Some? ==> CategoryIdsValue(categoryIds.value, categories, hex).Ok?)
      && (images.Some? ==> ImagesValue(images.value, multipart, hex).Ok?)
    ensures r.Ok? ==> (r.value.categoryIds.Some? <==> categoryIds.Some?)
    ensures r.Ok? && categoryIds.Some? ==>
              r.value.categoryIds.value == CategoryIdsValue(categoryIds.value, categories, hex).value
    ensures r.Ok? && images.None? ==> r.value.images == Absent
    ensures r.Ok? && images.Some? ==> r.value.images == ValidateImages(images.value, hex).value
    ensures categoryIds.Some? && CategoryIdsValue(categoryIds.value, categories, hex).Err? ==>
              r.Err? && CategoryIdsInvalid(CategoryIdsValue(categoryIds.value, categories, hex).error) in r.error
    ensures images.Some? && ImagesValue(images.value, multipart, hex).Err? ==>
              r.Err? && ImagesInvalid(ImagesValue(images.value, multipart, hex).error) in r.error
    ensures r.Err? ==> forall e :: e in r.error ==>
              || (e.CategoryIdsInvalid? && categoryIds.Some?
                  && CategoryIdsValue(categoryIds.value, categories, hex) == Err(e.c))
              || (e.ImagesInvalid? && images.Some? && ImagesValue(images.value, multipart, hex) == Err(e.i))
    ensures r.Err? ==> 1 <= |r.error| <= 2 && (|r.error| == 2 ==> r.error[0].CategoryIdsInvalid?)
  {
    var c: Result<Option<seq<Uuid>>, CategoryIdsError> :=
      if categoryIds.None? then Ok(None)
      else
        var cv := CategoryIdsValue(categoryIds.value, categories, hex);
        if cv.Ok? then Ok(Some(cv.value)) else Err(cv.error);
    var im: Result<ImageOps, ImagesError> :=
      if images.None? then Ok(Absent) else ImagesValue(images.value, multipart, hex);
    if c.Ok? && im.Ok? then Ok(WriteInput(c.value, im.value))
    else
      Err((if c.Err? then [CategoryIdsInvalid(c.error)] else [])
          + (if im.Err? then [ImagesInvalid(im.error)] else []))
  }

  // ---------------------------------------------------------------------
  // Examples
  // ---------------------------------------------------------------------

  /** A create followed by a delete without an id: the second element is
      reported, and an element with an unknown key is reported with the
      offending keys. */
  lemma ImagesExamples(hex: HexUuidParser)
    ensures ValidateImages(JArr([JObj(map["file_key" := JStr("img1")]), JObj(map["delete" := JBool(true)])]), hex)
              == Err(BadOp(1, DeleteWithoutId))
    ensures ValidateImages(JArr([JObj(map["file_key" := JStr("img1"), "url" := JStr("x")])]), hex)
              == Err(BadOp(0, UnknownKeys({"url"})))
    ensures ValidateImages(JStr("img1"), hex) == Err(ImagesNotAList)
  {
    var a := JObj(map["file_key" := JStr("img1")]);
    var b := JObj(map["delete" := JBool(true)]);
    assert CheckOp(a, hex).None?;
    assert CheckOp(b, hex) == Some(DeleteWithoutId);
    var c := map["file_key" := JStr("img1"), "url" := JStr("x")];
    assert c.Keys - ALLOWED_KEYS == {"url"};
  }

  /** Every missing id is reported, in order and as often as it was sent. */
  lemma MissingCategoriesExample(a: Uuid, b: Uuid)
    requires a != b
    ensures ValidateCategoryIds([a, b, a], {b}) == Err(CategoriesNotFound([a, a]))
  {
    assert [a, b, a][..2] == [a, b];
    assert [a, b][..1] == [a];
    assert [a][..0] == [];
    assert MissingCategories([a], {b}) == [a];
    assert MissingCategories([a, b], {b}) == [a];
    assert MissingCategories([a, b, a], {b}) == [a, a];
  }
}
