/** `ProductWriteSerializer.create` and `.update` (products/serializers.py):
    the scalar fields are written, the category links are replaced when
    `category_ids` was sent, and the image operations are applied one by one
    in input order. Both run inside `transaction.atomic`: a failure at any
    step leaves the database as it was, which the model states by returning
    either the whole new state or a failure, never a partial state.

    Primary keys come from `uuid.uuid4()`; the model draws them from a
    generator `gen` at a counter `next`, one per row constructed, in the
    order the source constructs the rows. */
module Reconciler {
  import opened Common
  import opened Catalog
  import opened WriteValidation

  type IdGen = nat -> Uuid

  /** What the write path needs from outside: whether the body came as a
      multipart form, the uploaded files of a multipart request (absent when
      the serializer has no request), the primary-key generator, and the
      UUID hex grammar. */
  datatype Env = Env(multipart: bool, files: Option<map<string, Blob>>, gen: IdGen, hex: HexUuidParser)

  /** Why a create or update is abandoned. The first four are the
      `ValidationError`s the methods raise; the rest are exceptions the
      database or Python raises on the way. */
  datatype Failure =
    | IdOnCreate             // an image operation names an id on create
    | FileNotFound(key: Json) // the file key names no uploaded file
    | MissingFileKey         // a new image on update without a file key
    | ImageNotOwned(id: Uuid) // the id is not an image of this product
    | ImageIdNotUuid         // the id does not convert to a UUID
    | UnhashableFileKey      // a list or object used as a dictionary key
    | NullAltText            // a NULL alt text refused by the NOT NULL column
    | DuplicateKey           // a generated primary key already in use
    | ForeignKeyViolation    // a link to a missing category, found at commit
    | ImagesNull             // iterating over `None` on create

  /** The database and the next value of the key generator. */
  datatype St = St(db: Db, next: nat)

  /** The validated scalar fields a request sets; the others keep their
      values. */
  datatype Patch = Patch(name: Option<string>, description: Option<string>, price: Option<int>, stock: Option<nat>)

  /** The result of a whole create or update: field validation refused the
      request, the transaction was rolled back, or it committed. */
  datatype Outcome =
    | Invalid(errors: seq<WriteError>)
    | Failed(failure: Failure)
    | Saved(id: Uuid, db: Db, next: nat)

  /** The database after the request: the committed state, or the state
      before it. */
  function After(db: Db, r: Outcome): Db {
    if r.Saved? then r.db else db
  }

  // ---------------------------------------------------------------------
  // Generated keys
  // ---------------------------------------------------------------------

  /** The keys the generator yields for counters in [lo, hi). */
  function Generated(gen: IdGen, lo: nat, hi: nat): set<Uuid> {
    set k | lo <= k < hi :: gen(k)
  }

  /** The keys drawn for counters in [lo, hi) are pairwise distinct and
      none of them is already in `used`: what `uuid4` gives in practice. */
  predicate FreshIn(gen: IdGen, lo: nat, hi: nat, used: set<Uuid>) {
    forall k :: lo <= k < hi ==> gen(k) !in used && forall j :: lo <= j < k ==> gen(j) != gen(k)
  }

  lemma FreshInSub(gen: IdGen, lo: nat, hi: nat, used: set<Uuid>, lo': nat, hi': nat, used': set<Uuid>)
    requires FreshIn(gen, lo, hi, used) && lo <= lo' && hi' <= hi && used' <= used
    ensures FreshIn(gen, lo', hi', used')
  {
  }

  // ---------------------------------------------------------------------
  // Scalar fields
  // ---------------------------------------------------------------------

  /** `setattr` for every validated field, then `save()`. */
  function ApplyPatch(p: Product, patch: Patch): (r: Product)
    ensures r.name == (if patch.name.Some? then patch.name.value else p.name)
    ensures r.description == (if patch.description.Some? then patch.description.value else p.description)
    ensures r.price == (if patch.price.Some? then patch.price.value else p.price)
    ensures r.stock == (if patch.stock.Some? then patch.stock.value else p.stock)
  {
    Product(
      if patch.name.Some? then patch.name.value else p.name,
      if patch.description.Some? then patch.description.value else p.description,
      if patch.price.Some? then patch.price.value else p.price,
      if patch.stock.Some? then patch.stock.value else p.stock)
  }

  // ---------------------------------------------------------------------
  // Category links
  // ---------------------------------------------------------------------

  /** `bulk_create([...], ignore_conflicts=True)`: one row per listed
      category, keys drawn in order; a row whose key or whose (product,
      category) pair is already present is skipped. */
  function InsertLinks(links: map<Uuid, Link>, pid: Uuid, cids: seq<Uuid>, gen: IdGen, next: nat)
    : (r: map<Uuid, Link>)
    ensures UniqueLinks(links) ==> UniqueLinks(r)
    ensures forall l :: l in links ==> l in r && r[l] == links[l]
    ensures forall l :: l in r && l !in links ==> r[l].product == pid && r[l].category in cids
    ensures FreshIn(gen, next, next + |cids|, links.Keys) ==>
              CategoriesOf(r, pid) == CategoriesOf(links, pid) + set c | c in cids
    decreases |cids|
  {
    if |cids| == 0 then links
    else
      var id := gen(next);
      var link := Link(pid, cids[0]);
      var links1 := if id in links || link in links.Values then links else links[id := link];
      var r := InsertLinks(links1, pid, cids[1..], gen, next + 1);
      InsertLinksStep(links, links1, pid, cids, gen, next, r);
      r
  }

  lemma InsertLinksStep(links: map<Uuid, Link>, links1: map<Uuid, Link>, pid: Uuid, cids: seq<Uuid>,
                        gen: IdGen, next: nat, r: map<Uuid, Link>)
    requires |cids| > 0
    requires links1 == if gen(next) in links || Link(pid, cids[0]) in links.Values then links
                       else links[gen(next) := Link(pid, cids[0])]
    requires FreshIn(gen, next + 1, next + |cids|, links1.Keys) ==>
               CategoriesOf(r, pid) == CategoriesOf(links1, pid) + set c | c in cids[1..]
    ensures FreshIn(gen, next, next + |cids|, links.Keys) ==>
              CategoriesOf(r, pid) == CategoriesOf(links, pid) + set c | c in cids
  {
    if FreshIn(gen, next, next + |cids|, links.Keys) {
      var link := Link(pid, cids[0]);
      assert gen(next) !in links;
      assert FreshIn(gen, next + 1, next + |cids|, links1.Keys);
      assert CategoriesOf(links1, pid) == CategoriesOf(links, pid) + {cids[0]} by {
        if link in links.Values {
          var l :| l in links && links[l] == link;
          assert cids[0] in CategoriesOf(links, pid);
        } else {
          CategoriesOfAdd(links, gen(next), link, pid);
        }
      }
      assert (set c | c in cids) == {cids[0]} + set c | c in cids[1..] by {
        assert cids == [cids[0]] + cids[1..];
      }
    }
  }

  lemma CategoriesOfAdd(links: map<Uuid, Link>, id: Uuid, link: Link, p: Uuid)
    requires id !in links && link.product == p
    ensures CategoriesOf(links[id := link], p) == CategoriesOf(links, p) + {link.category}
  {
    var links1 := links[id := link];
    assert link.category in CategoriesOf(links1, p) by { assert links1[id] == link; }
    forall c | c in CategoriesOf(links, p) ensures c in CategoriesOf(links1, p) {
      var l :| l in links && links[l].product == p && links[l].category == c;
      assert links1[l] == links[l];
    }
  }

  /** `ProductCategory.objects.filter(product=p).delete()` followed, for a
      non-empty list, by the insertion. Returns the links and the counter. */
  function ReplaceLinks(links: map<Uuid, Link>, pid: Uuid, cids: seq<Uuid>, gen: IdGen, next: nat)
    : (r: (map<Uuid, Link>, nat))
    ensures r.1 == next + |cids|
    ensures UniqueLinks(links) ==> UniqueLinks(r.0)
    ensures forall l :: l in links && links[l].product != pid ==> l in r.0 && r.0[l] == links[l]
    ensures forall l :: l in r.0 && r.0[l].product != pid ==> l in links && links[l] == r.0[l]
    ensures forall l :: l in r.0 && r.0[l].product == pid ==> r.0[l].category in cids
    ensures FreshIn(gen, next, next + |cids|, links.Keys) ==> CategoriesOf(r.0, pid) == set c | c in cids
  {
    var kept := map l | l in links && links[l].product != pid :: links[l];
    assert CategoriesOf(kept, pid) == {};
    assert UniqueLinks(links) ==> UniqueLinks(kept);
    (InsertLinks(kept, pid, cids, gen, next), next + |cids|)
  }

  // ---------------------------------------------------------------------
  // Uploaded files
  // ---------------------------------------------------------------------

  /** `self._get_uploaded_file(file_key)`: no request gives `None`;
      otherwise `request.FILES.get(file_key)`, which finds only string keys
      and raises `TypeError` for a list or an object. */
  function UploadedFile(files: Option<map<string, Blob>>, key: Json): (r: Result<Option<Blob>, Failure>)
    ensures r.Err? <==> files.Some? && (key.JArr? || key.JObj?)
    ensures r.Err? ==> r.error == UnhashableFileKey
    ensures r.Ok? && r.value.Some? <==> files.Some? && key.JStr? && key.s in files.value
    ensures r.Ok? && r.value.Some? ==> r.value.value == files.value[key.s]
  {
    match files
    case None => Ok(None)
    case Some(fs) =>
      match key
      case JStr(s) => Ok(if s in fs then Some(fs[s]) else None)
      case JArr(_) => Err(UnhashableFileKey)
      case JObj(_) => Err(UnhashableFileKey)
      case _ => Ok(None)
  }

  /** The file a truthy file key must name. */
  function FileFor(files: Option<map<string, Blob>>, key: Json): (r: Result<Blob, Failure>)
    ensures r.Ok? ==> UploadedFile(files, key) == Ok(Some(r.value))
    ensures UploadedFile(files, key).Ok? && UploadedFile(files, key).value.Some? ==> r.Ok?
    ensures UploadedFile(files, key) == Ok(None) ==> r == Err(FileNotFound(key))
  {
    match UploadedFile(files, key)
    case Err(e) => Err(e)
    case Ok(None) => Err(FileNotFound(key))
    case Ok(Some(b)) => Ok(b)
  }

  // ---------------------------------------------------------------------
  // Image operations
  // ---------------------------------------------------------------------

  /** Two databases differ at most in the images of product `pid`: every
      other table is equal and every image of another product is kept. */
  predicate OnlyImagesOf(a: Db, b: Db, pid: Uuid) {
    && a.products == b.products && a.categories == b.categories && a.links == b.links
    && (forall i :: i in a.images && a.images[i].owner != pid ==> i in b.images && b.images[i] == a.images[i])
    && (forall i :: i in b.images && b.images[i].owner != pid ==> i in a.images && a.images[i] == b.images[i])
  }

  lemma OnlyImagesOfTrans(a: Db, b: Db, c: Db, pid: Uuid)
    requires OnlyImagesOf(a, b, pid) && OnlyImagesOf(b, c, pid)
    ensures OnlyImagesOf(a, c, pid)
  {
  }

  /** `ProductImage.objects.create(product=pid, image=blob, alt_text=alt)`
      with the next generated key. */
  function NewImage(st: St, pid: Uuid, blob: Blob, alt: Json, gen: IdGen): (r: Result<St, Failure>)
    ensures r.Ok? <==> gen(st.next) !in st.db.images
    ensures r.Ok? ==> r.value.next == st.next + 1
    ensures r.Ok? ==> r.value.db == st.db.(images := st.db.images[gen(st.next) := Image(pid, blob, alt)])
    ensures r.Ok? ==> OnlyImagesOf(st.db, r.value.db, pid)
  {
    var id := gen(st.next);
    if id in st.db.images then Err(DuplicateKey)
    else Ok(St(st.db.(images := st.db.images[id := Image(pid, blob, alt)]), st.next + 1))
  }

  /** One operation of `update`. With a truthy id the image must belong to
      the product; it is then deleted, or its alt text (when given and not
      null) and its file (when a file key is given) are replaced. Without an
      id, a delete is ignored and anything else creates an image from the
      named file, with alt text `alt_text or ''`. */
  function UpdateOp(st: St, pid: Uuid, op: map<string, Json>, env: Env): (r: Result<St, Failure>)
    ensures r.Ok? ==> OnlyImagesOf(st.db, r.value.db, pid)
    ensures r.Ok? ==> r.value.next >= st.next
    ensures r.Ok? ==> Generated(env.gen, st.next, r.value.next) <= {env.gen(st.next)}
    ensures r.Ok? ==> forall i :: i in r.value.db.images ==>
                        i in st.db.images || i in Generated(env.gen, st.next, r.value.next)
  {
    if GetTruthy(op, "id") then
      match UuidField(op["id"], env.hex)
      case None => Err(ImageIdNotUuid)
      case Some(x) =>
        if x !in ImagesOf(st.db.images, pid) then Err(ImageNotOwned(x))
        else if GetIsTrue(op, "delete") then
          Ok(St(st.db.(images := st.db.images - {x}), st.next))
        else
          var img := st.db.images[x];
          var alt := if "alt_text" in op && op["alt_text"] != JNull then op["alt_text"] else img.alt;
          if GetTruthy(op, "file_key") then
            match FileFor(env.files, op["file_key"])
            case Err(e) => Err(e)
            case Ok(b) => Ok(St(st.db.(images := st.db.images[x := Image(pid, b, alt)]), st.next))
          else Ok(St(st.db.(images := st.db.images[x := Image(pid, img.blob, alt)]), st.next))
    else if GetIsTrue(op, "delete") then Ok(st)
    else if !GetTruthy(op, "file_key") then Err(MissingFileKey)
    else
      match FileFor(env.files, op["file_key"])
      case Err(e) => Err(e)
      case Ok(b) =>
        var alt := if GetTruthy(op, "alt_text") then op["alt_text"] else JStr("");
        var r := NewImage(st, pid, b, alt, env.gen);
        assert r.Ok? ==> Generated(env.gen, st.next, r.value.next) == {env.gen(st.next)};
        r
  }

  /** The operations of `update`, front to back; the first failure ends
      the loop. */
  function UpdateOps(st: St, pid: Uuid, ops: seq<map<string, Json>>, env: Env): (r: Result<St, Failure>)
    ensures r.Ok? ==> OnlyImagesOf(st.db, r.value.db, pid)
    ensures r.Ok? ==> st.next <= r.value.next <= st.next + |ops|
    ensures r.Ok? ==> forall i :: i in r.value.db.images ==>
                        i in st.db.images || i in Generated(env.gen, st.next, r.value.next)
    decreases |ops|
  {
    if |ops| == 0 then Ok(st)
    else
      match UpdateOp(st, pid, ops[0], env)
      case Err(f) => Err(f)
      case Ok(st1) =>
        var r := UpdateOps(st1, pid, ops[1..], env);
        if r.Ok? then
          GeneratedSplit(env.gen, st.next, st1.next, r.value.next);
          r
        else r
  }

  lemma GeneratedSplit(gen: IdGen, a: nat, b: nat, c: nat)
    requires a <= b <= c
    ensures Generated(gen, a, c) == Generated(gen, a, b) + Generated(gen, b, c)
  {
    forall u | u in Generated(gen, a, c) ensures u in Generated(gen, a, b) + Generated(gen, b, c) {
      var k :| a <= k < c && gen(k) == u;
      if k < b { assert u in Generated(gen, a, b); } else { assert u in Generated(gen, b, c); }
    }
  }

  /** The alt text `create` stores: `op.get('alt_text', '')`. */
  function CreateAlt(op: map<string, Json>): Json {
    if "alt_text" in op then op["alt_text"] else JStr("")
  }

  /** One operation of `create`: it may not name an id, it must name an
      uploaded file, and it always creates an image; a `delete` flag is
      ignored. */
  function CreateOp(st: St, pid: Uuid, op: map<string, Json>, env: Env): (r: Result<St, Failure>)
    ensures r.Ok? <==>
      && !GetTruthy(op, "id") && GetTruthy(op, "file_key")
      && FileFor(env.files, op["file_key"]).Ok?
      && CreateAlt(op) != JNull
      && env.gen(st.next) !in st.db.images
    ensures GetTruthy(op, "id") ==> r == Err(IdOnCreate)
    ensures r.Ok? ==> r.value.next == st.next + 1
    ensures r.Ok? ==> r.value.db == st.db.(images := st.db.images[env.gen(st.next) :=
                        Image(pid, FileFor(env.files, op["file_key"]).value, CreateAlt(op))])
    ensures r.Ok? ==> OnlyImagesOf(st.db, r.value.db, pid)
  {
    if GetTruthy(op, "id") then Err(IdOnCreate)
    else if !GetTruthy(op, "file_key") then Err(FileNotFound(if "file_key" in op then op["file_key"] else JNull))
    else
      match FileFor(env.files, op["file_key"])
      case Err(e) => Err(e)
      case Ok(b) =>
        if CreateAlt(op) == JNull then Err(NullAltText)
        else NewImage(st, pid, b, CreateAlt(op), env.gen)
  }

  /** The operations of `create`, front to back. Each success adds exactly
      one image of the product under the next generated key. */
  function CreateOps(st: St, pid: Uuid, ops: seq<map<string, Json>>, env: Env): (r: Result<St, Failure>)
    ensures r.Ok? ==> r.value.next == st.next + |ops|
    ensures r.Ok? ==> OnlyImagesOf(st.db, r.value.db, pid)
    ensures r.Ok? ==> forall i :: i in st.db.images ==> i in r.value.db.images && r.value.db.images[i] == st.db.images[i]
    ensures r.Ok? ==> r.value.db.images.Keys == st.db.images.Keys + Generated(env.gen, st.next, r.value.next)
    ensures r.Ok? ==> forall i :: i in Generated(env.gen, st.next, r.value.next) ==> i !in st.db.images
    ensures r.Ok? ==> forall i :: 0 <= i < |ops| ==> !GetTruthy(ops[i], "id")
    decreases |ops|
  {
    if |ops| == 0 then
      assert Generated(env.gen, st.next, st.next) == {};
      Ok(st)
    else
      match CreateOp(st, pid, ops[0], env)
      case Err(f) => Err(f)
      case Ok(st1) =>
        var r := CreateOps(st1, pid, ops[1..], env);
        if r.Ok? then
          CreateOpsStep(st, st1, r.value, pid, ops, env);
          r
        else r
  }

  lemma CreateOpsStep(st: St, st1: St, st2: St, pid: Uuid, ops: seq<map<string, Json>>, env: Env)
    requires |ops| > 0 && CreateOp(st, pid, ops[0], env) == Ok(st1)
    requires st2.next == st1.next + |ops[1..]|
    requires OnlyImagesOf(st1.db, st2.db, pid)
    requires forall i :: i in st1.db.images ==> i in st2.db.images && st2.db.images[i] == st1.db.images[i]
    requires st2.db.images.Keys == st1.db.images.Keys + Generated(env.gen, st1.next, st2.next)
    requires forall i :: i in Generated(env.gen, st1.next, st2.next) ==> i !in st1.db.images
    requires forall i :: 0 <= i < |ops[1..]| ==> !GetTruthy(ops[1..][i], "id")
    ensures st2.next == st.next + |ops|
    ensures OnlyImagesOf(st.db, st2.db, pid)
    ensures forall i :: i in st.db.images ==> i in st2.db.images && st2.db.images[i] == st.db.images[i]
    ensures st2.db.images.Keys == st.db.images.Keys + Generated(env.gen, st.next, st2.next)
    ensures forall i :: i in Generated(env.gen, st.next, st2.next) ==> i !in st.db.images
    ensures forall i :: 0 <= i < |ops| ==> !GetTruthy(ops[i], "id")
  {
    GeneratedSplit(env.gen, st.next, st1.next, st2.next);
    assert Generated(env.gen, st.next, st1.next) == {env.gen(st.next)};
    assert forall i :: 1 <= i < |ops| ==> ops[i] == ops[1..][i - 1];
    OnlyImagesOfTrans(st.db, st1.db, st2.db, pid);
  }

  // ---------------------------------------------------------------------
  // create and update
  // ---------------------------------------------------------------------

  /** Foreign keys are checked when the transaction commits: every link
      must name an existing category and product, every image an existing
      product. */
  predicate ForeignKeysHold(db: Db) {
    && (forall l :: l in db.links ==> db.links[l].product in db.products && db.links[l].category in db.categories)
    && (forall i :: i in db.images ==> db.images[i].owner in db.products)
  }

  function Commit(st: St, pid: Uuid): (r: Outcome)
    ensures r.Saved? <==> ForeignKeysHold(st.db)
    ensures r.Saved? ==> r == Saved(pid, st.db, st.next)
    ensures !r.Saved? ==> r == Failed(ForeignKeyViolation)
  {
    if ForeignKeysHold(st.db) then Saved(pid, st.db, st.next) else Failed(ForeignKeyViolation)
  }

  /** The operations of a validated `images` value; absent and `None`
      give none. */
  function OpsOf(images: ImageOps): (r: seq<map<string, Json>>)
    ensures images.Ops? ==> r == images.ops
    ensures !images.Ops? ==> r == []
  {
    if images.Ops? then images.ops else []
  }

  /** The end of the atomic block: a failure rolls back, otherwise the
      transaction commits. */
  function Finish(res: Result<St, Failure>, pid: Uuid): (r: Outcome)
    ensures res.Err? ==> r == Failed(res.error)
    ensures res.Ok? ==> r == Commit(res.value, pid)
  {
    match res
    case Err(f) => Failed(f)
    case Ok(st) => Commit(st, pid)
  }

  /** `update` up to its image loop: the patched product is saved and, when
      `category_ids` was sent, the links are replaced. */
  function UpdateStart(db: Db, next: nat, pid: Uuid, patch: Patch, cids: Option<seq<Uuid>>, gen: IdGen): (st: St)
    requires pid in db.products
    ensures st.db.products == db.products[pid := ApplyPatch(db.products[pid], patch)]
    ensures st.db.categories == db.categories && st.db.images == db.images
    ensures cids.None? ==> st.db.links == db.links && st.next == next
    ensures cids.Some? ==> (st.db.links, st.next) == ReplaceLinks(db.links, pid, cids.value, gen, next)
    ensures st.db.products.Keys == db.products.Keys
    ensures forall q :: q in db.products && q != pid ==> st.db.products[q] == db.products[q]
    ensures UniqueLinks(db.links) ==> UniqueLinks(st.db.links)
    ensures forall l :: l in db.links && db.links[l].product != pid ==> l in st.db.links && st.db.links[l] == db.links[l]
    ensures cids.Some? && FreshIn(gen, next, next + |cids.value|, db.links.Keys) ==>
              CategoriesOf(st.db.links, pid) == set c | c in cids.value
  {
    var links := if cids.Some? then ReplaceLinks(db.links, pid, cids.value, gen, next) else (db.links, next);
    St(db.(products := db.products[pid := ApplyPatch(db.products[pid], patch)], links := links.0), links.1)
  }

  /** `update(instance, validated_data)` inside `transaction.atomic`. A
      `None` image list, like an absent one, leaves the images alone. */
  function Update(db: Db, next: nat, pid: Uuid, patch: Patch, input: WriteInput, env: Env): (r: Outcome)
    requires pid in db.products
    ensures !r.Invalid?
    ensures r.Saved? ==> r.id == pid && r.db.products == db.products[pid := ApplyPatch(db.products[pid], patch)]
    ensures r.Saved? ==> r.db.categories == db.categories
    ensures r.Saved? && input.categoryIds.None? ==> r.db.links == db.links
    ensures r.Saved? && !input.images.Ops? ==> r.db.images == db.images
  {
    var st := UpdateStart(db, next, pid, patch, input.categoryIds, env.gen);
    Finish(UpdateOps(st, pid, OpsOf(input.images), env), pid)
  }

  /** `create` up to its image loop: the product row under the first drawn
      key, then one link per listed category. */
  function CreateStart(db: Db, next: nat, product: Product, cids: seq<Uuid>, gen: IdGen): (st: St)
    ensures st.db.products == db.products[gen(next) := product]
    ensures st.db.categories == db.categories && st.db.images == db.images
    ensures st.db.links == InsertLinks(db.links, gen(next), cids, gen, next + 1)
    ensures st.next == next + 1 + |cids|
    ensures st.db.products.Keys == db.products.Keys + {gen(next)}
    ensures forall q :: q in db.products && q != gen(next) ==> st.db.products[q] == db.products[q]
    ensures UniqueLinks(db.links) ==> UniqueLinks(st.db.links)
    ensures forall l :: l in db.links ==> l in st.db.links && st.db.links[l] == db.links[l]
    ensures FreshIn(gen, next + 1, next + 1 + |cids|, db.links.Keys) ==>
              CategoriesOf(st.db.links, gen(next)) == CategoriesOf(db.links, gen(next)) + set c | c in cids
  {
    St(db.(products := db.products[gen(next) := product],
           links := InsertLinks(db.links, gen(next), cids, gen, next + 1)),
       next + 1 + |cids|)
  }

  /** The category ids `create` inserts: `validated_data.pop('category_ids', [])`. */
  function CidsOf(input: WriteInput): (r: seq<Uuid>)
    ensures input.categoryIds.Some? ==> r == input.categoryIds.value
    ensures input.categoryIds.None? ==> r == []
  {
    if input.categoryIds.Some? then input.categoryIds.value else []
  }

  /** `create(validated_data)` inside `transaction.atomic`. */
  function Create(db: Db, next: nat, product: Product, input: WriteInput, env: Env): (r: Outcome)
    ensures !r.Invalid?
    ensures r.Saved? ==> r.id == env.gen(next) && r.id !in db.products
                         && r.db.products == db.products[r.id := product]
    ensures r.Saved? ==> r.db.categories == db.categories
    ensures input.images == Null ==> !r.Saved?
  {
    var pid := env.gen(next);
    if pid in db.products then Failed(DuplicateKey)
    else if input.images.Null? then Failed(ImagesNull)
    else
      var st := CreateStart(db, next, product, CidsOf(input), env.gen);
      Finish(CreateOps(st, pid, OpsOf(input.images), env), pid)
  }

  /** POST: field validation, then `create`. */
  function CreateProduct(db: Db, next: nat, product: Product, categoryIds: Option<Json>, images: Option<Json>, env: Env)
    : (r: Outcome)
    ensures r.Invalid? <==> ValidateWrite(categoryIds, images, env.multipart, db.categories.Keys, env.hex).Err?
    ensures !r.Invalid? ==> r == Create(db, next, product, ValidateWrite(categoryIds, images, env.multipart, db.categories.Keys, env.hex).value, env)
  {
    match ValidateWrite(categoryIds, images, env.multipart, db.categories.Keys, env.hex)
    case Err(e) => Invalid(e)
    case Ok(input) => Create(db, next, product, input, env)
  }

  /** PUT/PATCH: field validation, then `update`. */
  function UpdateProduct(db: Db, next: nat, pid: Uuid, patch: Patch, categoryIds: Option<Json>, images: Option<Json>, env: Env)
    : (r: Outcome)
    requires pid in db.products
    ensures r.Invalid? <==> ValidateWrite(categoryIds, images, env.multipart, db.categories.Keys, env.hex).Err?
    ensures !r.Invalid? ==> r == Update(db, next, pid, patch, ValidateWrite(categoryIds, images, env.multipart, db.categories.Keys, env.hex).value, env)
  {
    match ValidateWrite(categoryIds, images, env.multipart, db.categories.Keys, env.hex)
    case Err(e) => Invalid(e)
    case Ok(input) => Update(db, next, pid, patch, input, env)
  }
}
