/** What `create` and `update` promise: category replacement yields exactly
    the listed categories, an image of another product can never be touched,
    a failure anywhere undoes everything, and the database constraints of
    products/models.py are kept. */
module ReconcilerProperties {
  import opened Common
  import opened Catalog
  import opened WriteValidation
  import opened Reconciler

  /** Sending `category_ids` replaces the product's categories by exactly
      the listed ones, duplicates collapsing; the links of every other
      product are untouched, and no (product, category) pair appears twice.
      Omitting the key leaves the links as they were. */
  lemma UpdateSetsCategories(db: Db, next: nat, pid: Uuid, patch: Patch, input: WriteInput, env: Env)
    requires pid in db.products
    requires input.categoryIds.Some? ==>
               FreshIn(env.gen, next, next + |input.categoryIds.value|, db.links.Keys)
    ensures var r := Update(db, next, pid, patch, input, env);
            r.Saved? ==>
              && (input.categoryIds.None? ==> r.db.links == db.links)
              && (input.categoryIds.Some? ==> CategoriesOf(r.db.links, pid) == set c | c in input.categoryIds.value)
              && (forall l :: l in db.links && db.links[l].product != pid ==> l in r.db.links && r.db.links[l] == db.links[l])
              && (forall l :: l in r.db.links && r.db.links[l].product != pid ==> l in db.links)
              && (UniqueLinks(db.links) ==> UniqueLinks(r.db.links))
  {
    var st := UpdateStart(db, next, pid, patch, input.categoryIds, env.gen);
    var res := UpdateOps(st, pid, OpsOf(input.images), env);
    assert res.Ok? ==> res.value.db.links == st.db.links;
  }

  /** Replacing the categories with `[A, A, B]` gives the product exactly
      the categories A and B, each linked once. */
  lemma DuplicateCategoriesCollapse(db: Db, next: nat, pid: Uuid, a: Uuid, b: Uuid, env: Env)
    requires pid in db.products && UniqueLinks(db.links)
    requires FreshIn(env.gen, next, next + 3, db.links.Keys)
    ensures var r := Update(db, next, pid, Patch(None, None, None, None), WriteInput(Some([a, a, b]), Absent), env);
            r.Saved? ==> CategoriesOf(r.db.links, pid) == {a, b} && UniqueLinks(r.db.links)
  {
    var input := WriteInput(Some([a, a, b]), Absent);
    UpdateSetsCategories(db, next, pid, Patch(None, None, None, None), input, env);
    assert (set c | c in [a, a, b]) == {a, b};
  }

  /** Once an operation names an image the product does not own, nothing
      the earlier operations did can make it owned (they only create images
      under fresh keys), so the whole batch fails. */
  lemma {:induction false} UpdateOpsForeignImage(st: St, pid: Uuid, ops: seq<map<string, Json>>, env: Env, j: nat, x: Uuid)
    requires j < |ops| && GetTruthy(ops[j], "id") && UuidField(ops[j]["id"], env.hex) == Some(x)
    requires x !in ImagesOf(st.db.images, pid)
    requires forall k :: k >= st.next ==> env.gen(k) != x
    ensures UpdateOps(st, pid, ops, env).Err?
    decreases j
  {
    if j > 0 {
      match UpdateOp(st, pid, ops[0], env)
      case Err(_) =>
      case Ok(st1) =>
        assert x !in Generated(env.gen, st.next, st1.next);
        assert x in st1.db.images ==> x in st.db.images;
        assert ops[1..][j - 1] == ops[j];
        UpdateOpsForeignImage(st1, pid, ops[1..], env, j - 1, x);
    }
  }

  /** The ownership check: an update naming an image id that is not one of
      this product's images (and that no key drawn during the request could
      produce) is rolled back as a whole, whatever the other operations. */
  lemma UpdateForeignImageFails(db: Db, next: nat, pid: Uuid, patch: Patch, input: WriteInput, env: Env, j: nat, x: Uuid)
    requires pid in db.products && input.images.Ops?
    requires j < |input.images.ops| && GetTruthy(input.images.ops[j], "id")
    requires UuidField(input.images.ops[j]["id"], env.hex) == Some(x)
    requires x !in ImagesOf(db.images, pid)
    requires forall k :: k >= next ==> env.gen(k) != x
    ensures Update(db, next, pid, patch, input, env).Failed?
    ensures After(db, Update(db, next, pid, patch, input, env)) == db
  {
    var st := UpdateStart(db, next, pid, patch, input.categoryIds, env.gen);
    UpdateOpsForeignImage(st, pid, input.images.ops, env, j, x);
  }

  /** The rollback example: renaming the alt text of an owned image X and
      then naming an image Y of another product fails on Y, and X keeps its
      old alt text because the database is left as it was. */
  lemma RollbackExample(db: Db, next: nat, pid: Uuid, x: Uuid, y: Uuid, sx: string, sy: string, env: Env)
    requires pid in db.products && x in ImagesOf(db.images, pid) && y !in ImagesOf(db.images, pid)
    requires sx != "" && sy != "" && env.hex(sx) == Some(x) && env.hex(sy) == Some(y)
    ensures var ops := [map["id" := JStr(sx), "alt_text" := JStr("ok")], map["id" := JStr(sy)]];
            var r := Update(db, next, pid, Patch(None, None, None, None), WriteInput(None, Ops(ops)), env);
            && r == Failed(ImageNotOwned(y))
            && After(db, r).images[x] == db.images[x]
  {
    var ops := [map["id" := JStr(sx), "alt_text" := JStr("ok")], map["id" := JStr(sy)]];
    var st := UpdateStart(db, next, pid, Patch(None, None, None, None), None, env.gen);
    assert GetTruthy(ops[0], "id") && UuidField(ops[0]["id"], env.hex) == Some(x);
    assert !GetIsTrue(ops[0], "delete") && !GetTruthy(ops[0], "file_key");
    var st1 := St(st.db.(images := st.db.images[x := Image(pid, st.db.images[x].blob, JStr("ok"))]), next);
    assert UpdateOp(st, pid, ops[0], env) == Ok(st1);
    assert y !in ImagesOf(st1.db.images, pid);
    assert GetTruthy(ops[1], "id") && UuidField(ops[1]["id"], env.hex) == Some(y);
    assert UpdateOp(st1, pid, ops[1], env) == Err(ImageNotOwned(y));
    assert ops[1..] == [ops[1]];
    assert UpdateOps(st, pid, ops, env) == Err(ImageNotOwned(y));
  }

  /** An update that commits keeps every constraint of the schema, given
      that the written fields are valid (the serializer's field validation
      guarantees it). */
  lemma UpdatePreservesValid(db: Db, next: nat, pid: Uuid, patch: Patch, input: WriteInput, env: Env)
    requires Valid(db) && pid in db.products
    requires ValidProduct(ApplyPatch(db.products[pid], patch))
    ensures Valid(After(db, Update(db, next, pid, patch, input, env)))
  {
    var st := UpdateStart(db, next, pid, patch, input.categoryIds, env.gen);
    assert UniqueLinks(st.db.links);
    var res := UpdateOps(st, pid, OpsOf(input.images), env);
    assert res.Ok? ==> res.value.db.links == st.db.links;
  }

  /** A create that commits keeps every constraint of the schema, given a
      valid product. */
  lemma CreatePreservesValid(db: Db, next: nat, product: Product, input: WriteInput, env: Env)
    requires Valid(db) && ValidProduct(product)
    ensures Valid(After(db, Create(db, next, product, input, env)))
  {
    var st := CreateStart(db, next, product, CidsOf(input), env.gen);
    assert UniqueLinks(st.db.links);
    var res := CreateOps(st, env.gen(next), OpsOf(input.images), env);
    assert res.Ok? ==> res.value.db.links == st.db.links;
  }

  /** A key absent from the products table owns no link and no image. */
  lemma NewProductOwnsNothing(db: Db, pid: Uuid)
    requires Valid(db) && pid !in db.products
    ensures CategoriesOf(db.links, pid) == {} && ImagesOf(db.images, pid) == {}
  {
    forall l | l in db.links ensures db.links[l].product != pid { }
  }

  lemma CreatedImagesOwned(st: St, st2: St, pid: Uuid, gen: IdGen)
    requires OnlyImagesOf(st.db, st2.db, pid)
    requires st2.db.images.Keys == st.db.images.Keys + Generated(gen, st.next, st2.next)
    requires forall i :: i in Generated(gen, st.next, st2.next) ==> i !in st.db.images
    requires ImagesOf(st.db.images, pid) == {}
    ensures ImagesOf(st2.db.images, pid) == Generated(gen, st.next, st2.next)
  {
    forall i | i in Generated(gen, st.next, st2.next) ensures i in ImagesOf(st2.db.images, pid) {
      assert i in st2.db.images && i !in st.db.images;
    }
    forall i | i in ImagesOf(st2.db.images, pid) ensures i in Generated(gen, st.next, st2.next) {
      assert i !in ImagesOf(st.db.images, pid);
    }
  }

  /** On create, a truthy `id` in any image operation fails the request. */
  lemma CreateRejectsImageIds(db: Db, next: nat, product: Product, input: WriteInput, env: Env, j: nat)
    requires input.images.Ops? && j < |input.images.ops| && GetTruthy(input.images.ops[j], "id")
    ensures !Create(db, next, product, input, env).Saved?
  {
    var st := CreateStart(db, next, product, CidsOf(input), env.gen);
    var res := CreateOps(st, env.gen(next), input.images.ops, env);
  }

  /** A committed create adds exactly one image per operation, all owned
      by the new product and stored under the keys drawn after the product's
      and the links'; the new product owns no other image, and its
      categories are the listed ones. */
  lemma CreateAddsImages(db: Db, next: nat, product: Product, input: WriteInput, env: Env)
    requires Valid(db)
    requires input.categoryIds.Some? ==>
               FreshIn(env.gen, next + 1, next + 1 + |input.categoryIds.value|, db.links.Keys)
    ensures var r := Create(db, next, product, input, env);
            var cids := CidsOf(input);
            r.Saved? ==>
              && r.next == next + 1 + |cids| + |OpsOf(input.images)|
              && ImagesOf(r.db.images, r.id) == Generated(env.gen, next + 1 + |cids|, r.next)
              && (forall i :: i in db.images ==> i in r.db.images && r.db.images[i] == db.images[i])
              && CategoriesOf(r.db.links, r.id) == set c | c in cids
  {
    var pid := env.gen(next);
    if pid !in db.products {
      var st := CreateStart(db, next, product, CidsOf(input), env.gen);
      NewProductOwnsNothing(db, pid);
      var res := CreateOps(st, pid, OpsOf(input.images), env);
      if res.Ok? {
        CreatedImagesOwned(st, res.value, pid, env.gen);
        var cids := CidsOf(input);
        assert FreshIn(env.gen, next + 1, next + 1 + |cids|, db.links.Keys);
        assert CategoriesOf(st.db.links, pid) == set c | c in cids;
        assert res.value.db.links == st.db.links;
      }
    }
  }

  /** On update, an operation naming an owned image deletes exactly that
      image when `delete` is `true`; otherwise the image stays under its key
      and owner, its alt text changes only when a non-null one is given, and
      its file only when a file key is given. Nothing else changes. */
  lemma UpdateOpOnOwnedImage(st: St, pid: Uuid, op: map<string, Json>, env: Env, x: Uuid)
    requires GetTruthy(op, "id") && UuidField(op["id"], env.hex) == Some(x)
    requires x in ImagesOf(st.db.images, pid)
    ensures var r := UpdateOp(st, pid, op, env);
            && (GetIsTrue(op, "delete") ==> r == Ok(st.(db := st.db.(images := st.db.images - {x}))))
            && (!GetIsTrue(op, "delete") && !GetTruthy(op, "file_key") ==> r.Ok?)
            && (r.Ok? && !GetIsTrue(op, "delete") ==>
                  && r.value.next == st.next
                  && r.value.db.images.Keys == st.db.images.Keys
                  && (forall i :: i in st.db.images && i != x ==> r.value.db.images[i] == st.db.images[i])
                  && r.value.db.images[x].owner == pid
                  && r.value.db.images[x].alt ==
                       (if "alt_text" in op && op["alt_text"] != JNull then op["alt_text"] else st.db.images[x].alt)
                  && r.value.db.images[x].blob ==
                       (if GetTruthy(op, "file_key") then FileFor(env.files, op["file_key"]).value
                        else st.db.images[x].blob))
  {
  }

  /** On update, an operation without an id creates one image of the
      product from the named file, with alt text `alt_text or ''`; with
      `delete: true` it is ignored. */
  lemma UpdateOpNewImage(st: St, pid: Uuid, op: map<string, Json>, env: Env)
    requires !GetTruthy(op, "id")
    ensures var r := UpdateOp(st, pid, op, env);
            && (GetIsTrue(op, "delete") ==> r == Ok(st))
            && (!GetIsTrue(op, "delete") && !GetTruthy(op, "file_key") ==> r == Err(MissingFileKey))
            && (!GetIsTrue(op, "delete") && r.Ok? ==>
                  && r.value.next == st.next + 1
                  && env.gen(st.next) !in st.db.images
                  && r.value.db.images == st.db.images[env.gen(st.next) := Image(pid,
                       FileFor(env.files, op["file_key"]).value,
                       if GetTruthy(op, "alt_text") then op["alt_text"] else JStr(""))])
  {
  }

  /** What `validate_images` lets through never trips the two checks of
      `update` that duplicate it: a truthy id always converts, and an
      operation without one always has a file key. */
  lemma ValidatedOpSkipsRechecks(st: St, pid: Uuid, op: map<string, Json>, env: Env)
    requires WellFormedOp(JObj(op), env.hex)
    ensures UpdateOp(st, pid, op, env) != Err(ImageIdNotUuid)
    ensures UpdateOp(st, pid, op, env) != Err(MissingFileKey)
    ensures UpdateOp(st, pid, op, env) != Err(ForeignKeyViolation)
  {
    if GetTruthy(op, "id") {
      assert IdGiven(op);
    }
  }

  lemma {:induction false} ValidatedOpsSkipRechecks(st: St, pid: Uuid, ops: seq<map<string, Json>>, env: Env)
    requires forall i :: 0 <= i < |ops| ==> WellFormedOp(JObj(ops[i]), env.hex)
    ensures UpdateOps(st, pid, ops, env) != Err(ImageIdNotUuid)
    ensures UpdateOps(st, pid, ops, env) != Err(MissingFileKey)
    ensures UpdateOps(st, pid, ops, env) != Err(ForeignKeyViolation)
    decreases |ops|
  {
    if |ops| > 0 {
      ValidatedOpSkipsRechecks(st, pid, ops[0], env);
      match UpdateOp(st, pid, ops[0], env)
      case Err(_) =>
      case Ok(st1) =>
        assert forall i :: 0 <= i < |ops[1..]| ==> ops[1..][i] == ops[i + 1];
        ValidatedOpsSkipRechecks(st1, pid, ops[1..], env);
    }
  }

  lemma ValidatedStartHoldsKeys(db: Db, next: nat, pid: Uuid, patch: Patch, cids: Option<seq<Uuid>>, gen: IdGen)
    requires Valid(db) && pid in db.products
    requires cids.Some? ==> forall i :: 0 <= i < |cids.value| ==> cids.value[i] in db.categories
    ensures ForeignKeysHold(UpdateStart(db, next, pid, patch, cids, gen).db)
  {
    if cids.Some? {
      assert forall c :: c in cids.value ==> c in db.categories;
    }
  }

  lemma ValidatedOpsWellFormed(images: Option<Json>, validated: ImageOps, multipart: bool, hex: HexUuidParser)
    requires images.None? ==> validated == Absent
    requires images.Some? ==> ImagesValue(images.value, multipart, hex) == Ok(validated)
    ensures forall i :: 0 <= i < |OpsOf(validated)| ==> WellFormedOp(JObj(OpsOf(validated)[i]), hex)
  {
    if validated.Ops? {
      var xs := images.value.elems;
      assert forall i :: 0 <= i < |validated.ops| ==> xs[i] == JObj(validated.ops[i]);
    }
  }

  lemma ForeignKeysKept(a: Db, b: Db, pid: Uuid)
    requires ForeignKeysHold(a) && pid in a.products && OnlyImagesOf(a, b, pid)
    ensures ForeignKeysHold(b)
  {
  }

  /** The category ids `validate_category_ids` accepted all exist, so an
      update from a valid database never fails its foreign-key check at
      commit, and a validated image list never fails the re-checks. */
  lemma ValidatedUpdateNeverFailsChecks(db: Db, next: nat, pid: Uuid, patch: Patch, categoryIds: Option<Json>,
                                        images: Option<Json>, env: Env)
    requires Valid(db) && pid in db.products
    ensures var r := UpdateProduct(db, next, pid, patch, categoryIds, images, env);
            r != Failed(ForeignKeyViolation) && r != Failed(ImageIdNotUuid) && r != Failed(MissingFileKey)
  {
    var v := ValidateWrite(categoryIds, images, env.multipart, db.categories.Keys, env.hex);
    if v.Ok? {
      var input := v.value;
      var st := UpdateStart(db, next, pid, patch, input.categoryIds, env.gen);
      ValidatedStartHoldsKeys(db, next, pid, patch, input.categoryIds, env.gen);
      var ops := OpsOf(input.images);
      ValidatedOpsWellFormed(images, input.images, env.multipart, env.hex);
      ValidatedOpsSkipRechecks(st, pid, ops, env);
      var res := UpdateOps(st, pid, ops, env);
      if res.Ok? {
        ForeignKeysKept(st.db, res.value.db, pid);
      }
    }
  }

  /** `"images": null` sent in a JSON body is a validation error on create
      and on update alike, so nothing is written. The multipart "null"
      passes validation instead, and create then fails on it. */
  lemma NullImagesByTransport(db: Db, next: nat, product: Product, pid: Uuid, patch: Patch,
                              categoryIds: Option<Json>, env: Env)
    requires pid in db.products
    ensures var r := CreateProduct(db, next, product, categoryIds, Some(JNull), env);
            !env.multipart ==> r.Invalid? && ImagesInvalid(ImagesNullRefused) in r.errors
    ensures var r := UpdateProduct(db, next, pid, patch, categoryIds, Some(JNull), env);
            !env.multipart ==> r.Invalid? && ImagesInvalid(ImagesNullRefused) in r.errors
    ensures env.multipart ==> !CreateProduct(db, next, product, categoryIds, Some(JNull), env).Saved?
  {
  }
}
