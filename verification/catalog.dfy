/** The catalog entities of products/models.py and the database constraints
    on them: price and stock columns, unique (product, category) links, and
    the foreign keys that cascade when a product or category is deleted.
    The audit header every entity inherits (UUID primary key, timestamps,
    created_by/updated_by) is reduced to the key: the map key of each table. */
module Catalog {
  import opened Common

  /** A price is a DecimalField with 10 digits, 2 of them after the point:
      kept as whole cents, |cents| < 10^10. The field has no lower bound. */
  const PRICE_LIMIT: int := 10_000_000_000

  /** CharField(max_length=255). */
  const NAME_MAX: int := 255

  /** `price` is in cents; `stock` is a PositiveIntegerField. */
  datatype Product = Product(name: string, description: string, price: int, stock: nat)

  datatype Category = Category(name: string, description: string)

  /** A row of the ProductCategory join table. */
  datatype Link = Link(product: Uuid, category: Uuid)

  /** Stored image content, opaque to the model. */
  type Blob = seq<bv8>

  /** A ProductImage row. The alt text is the JSON value the client sent;
      the database column holds Python's `str()` of it. */
  datatype Image = Image(owner: Uuid, blob: Blob, alt: Json)

  /** The four tables, keyed by primary key. */
  datatype Db = Db(
    products: map<Uuid, Product>,
    categories: map<Uuid, Category>,
    links: map<Uuid, Link>,
    images: map<Uuid, Image>)

  predicate ValidPrice(cents: int) {
    -PRICE_LIMIT < cents < PRICE_LIMIT
  }

  predicate ValidProduct(p: Product) {
    ValidPrice(p.price) && |p.name| <= NAME_MAX
  }

  /** `Product.is_in_stock()`. */
  predicate IsInStock(p: Product) {
    p.stock > 0
  }

  /** `unique_together = ('product', 'category')`. */
  predicate UniqueLinks(links: map<Uuid, Link>) {
    forall a, b :: a in links && b in links && a != b ==> links[a] != links[b]
  }

  /** The constraints the database enforces: column ranges, foreign keys
      (every link and every image points at an existing row), and link
      uniqueness. */
  predicate Valid(db: Db) {
    && (forall p :: p in db.products ==> ValidProduct(db.products[p]))
    && (forall l :: l in db.links ==> db.links[l].product in db.products)
    && (forall l :: l in db.links ==> db.links[l].category in db.categories)
    && UniqueLinks(db.links)
    && (forall i :: i in db.images ==> db.images[i].owner in db.products)
  }

  /** The categories a product is linked to. */
  function CategoriesOf(links: map<Uuid, Link>, p: Uuid): set<Uuid> {
    set l | l in links && links[l].product == p :: links[l].category
  }

  /** The images a product owns. */
  function ImagesOf(images: map<Uuid, Image>, p: Uuid): set<Uuid> {
    set i | i in images && images[i].owner == p
  }

  /** Deleting a product cascades (`on_delete=models.CASCADE`) to its
      category links and its images; every other row stays as it was. */
  function DeleteProduct(db: Db, p: Uuid): (r: Db)
    ensures r.products == db.products - {p}
    ensures r.categories == db.categories
    ensures forall l :: l in r.links <==> l in db.links && db.links[l].product != p
    ensures forall l :: l in r.links ==> r.links[l] == db.links[l]
    ensures forall i :: i in r.images <==> i in db.images && db.images[i].owner != p
    ensures forall i :: i in r.images ==> r.images[i] == db.images[i]
    ensures CategoriesOf(r.links, p) == {} && ImagesOf(r.images, p) == {}
    ensures Valid(db) ==> Valid(r)
  {
    Db(
      db.products - {p},
      db.categories,
      map l | l in db.links && db.links[l].product != p :: db.links[l],
      map i | i in db.images && db.images[i].owner != p :: db.images[i])
  }

  /** Deleting a category cascades to the links that name it. */
  function DeleteCategory(db: Db, c: Uuid): (r: Db)
    ensures r.products == db.products && r.images == db.images
    ensures r.categories == db.categories - {c}
    ensures forall l :: l in r.links <==> l in db.links && db.links[l].category != c
    ensures forall l :: l in r.links ==> r.links[l] == db.links[l]
    ensures Valid(db) ==> Valid(r)
  {
    Db(
      db.products,
      db.categories - {c},
      map l | l in db.links && db.links[l].category != c :: db.links[l],
      db.images)
  }
}
