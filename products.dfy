/** The product handlers of `controllers/productController.js` over an abstract
    product store. The size formatter of the upload utility and the way the
    store merges an update into a document are parameters of the controller. */
module Products {
  import opened Http
  import Users

  /** The scalar fields of a product, as `req.body` carries them and the store keeps them. */
  datatype Fields = Fields(
    name: Field,
    comment: Field,
    category: Field,
    model: Field,
    inventorynumber: Field,
    serialnumber: Field,
    guarantee: Field,
    price: Field,
    statusDevice: Field,
    belongTo: Field,
    description: Field)

  /** The file of a multipart upload (`req.file`). */
  datatype Upload = Upload(originalname: string, path: string, mimetype: string, size: nat)

  /** The `image` of a product: `{}` or the metadata of an uploaded file. */
  datatype Image =
    | NoImage
    | FileData(fileName: string, filePath: string, fileType: string, fileSize: string)

  datatype Product = Product(id: Id, user: Id, fields: Fields, image: Image, createdAt: int)

  datatype ProductBody = One(product: Product) | Many(products: seq<Product>)

  const FillRequired := "All required fields have to be filled"
  const ProductNotFound := "Product not found"

  /** The create handler's validator: name, category, inventory number, price,
      status and model must all be truthy. */
  predicate HasRequired(f: Fields)
  {
    && Truthy(f.name)
    && Truthy(f.category)
    && Truthy(f.inventorynumber)
    && Truthy(f.price)
    && Truthy(f.statusDevice)
    && Truthy(f.model)
  }

  /** Ordered by `createdAt`, newest first (`sort("-createdAt")`). */
  ghost predicate NewestFirst(ps: seq<Product>)
  {
    forall i, j :: 0 <= i < j < |ps| ==> ps[i].createdAt >= ps[j].createdAt
  }

  ghost predicate DistinctIds(ps: seq<Product>)
  {
    forall i, j :: 0 <= i < j < |ps| ==> ps[i].id != ps[j].id
  }

  /** `list` holds every stored product exactly once, and nothing else. */
  ghost predicate ListsEveryProduct(list: seq<Product>, products: map<Id, Product>)
  {
    && (forall q :: q in list ==> q.id in products && products[q.id] == q)
    && (forall id :: id in products ==> products[id] in list)
    && DistinctIds(list)
  }

  /** Where `p` goes in a newest-first list: after every product at least as new,
      before the first older one. */
  function InsertionPoint(p: Product, ps: seq<Product>): (k: nat)
    ensures k <= |ps|
    ensures forall i :: 0 <= i < k ==> ps[i].createdAt >= p.createdAt
    ensures k < |ps| ==> ps[k].createdAt < p.createdAt
  {
    if ps == [] || ps[0].createdAt < p.createdAt then 0
    else 1 + InsertionPoint(p, ps[1..])
  }

  /** `p` inserted at its place: the list gains exactly `p`, stays newest first,
      and keeps its ids distinct when `p`'s id is new. */
  function InsertNewestFirst(p: Product, ps: seq<Product>): (r: seq<Product>)
    ensures |r| == |ps| + 1
    ensures forall q :: q in r <==> q == p || q in ps
    ensures NewestFirst(ps) ==> NewestFirst(r)
    ensures DistinctIds(ps) && (forall q :: q in ps ==> q.id != p.id) ==> DistinctIds(r)
  {
    var k := InsertionPoint(p, ps);
    ps[..k] + [p] + ps[k..]
  }

  class ProductController {
    /** `fileSizeFormatter(size, 2)` of the upload utility. */
    const formatSize: nat -> string
    /** The scalar fields `findByIdAndUpdate` stores, given the stored ones and
        the request's; the store's own merge and validation decide them. */
    const applyUpdate: (Fields, Fields) -> Fields

    /** The product collection, keyed by `_id`. */
    var products: map<Id, Product>
    /** The id the store assigns to the next product it creates. */
    var nextId: Id

    ghost predicate Valid()
      reads this
    {
      forall id :: id in products ==> products[id].id == id && id < nextId
    }

    constructor (formatSize: nat -> string, applyUpdate: (Fields, Fields) -> Fields)
      ensures Valid()
      ensures this.formatSize == formatSize && this.applyUpdate == applyUpdate
      ensures products == map[] && nextId == 0
    {
      this.formatSize, this.applyUpdate := formatSize, applyUpdate;
      products, nextId := map[], 0;
    }

    /** The `fileData` record built from an uploaded file. */
    function Described(file: Upload): Image
    {
      FileData(file.originalname, file.path, file.mimetype, formatSize(file.size))
    }

    /** `createProduct`: the required-field check, then one new product owned by
        `req.user`, with the upload's metadata or `{}` as its image. */
    method CreateProduct(reqUser: Users.Profile, body: Fields, file: Option<Upload>, now: int)
      returns (res: Response<ProductBody>)
      requires Valid()
      modifies this
      ensures Valid()
      ensures !HasRequired(body) ==> unchanged(this) && res == Failed(400, FillRequired)
      ensures HasRequired(body) ==>
        var p := Product(old(nextId), reqUser.id, body,
                         if file.None? then NoImage else Described(file.value), now);
        && p.id !in old(products)
        && products == old(products)[p.id := p]
        && nextId == old(nextId) + 1
        && res == Replied(201, One(p))
    {
      res := Fresh();
      if !HasRequired(body) {
        res := res.(status := 400, thrown := Some(FillRequired));
        return;
      }
      var fileData := NoImage;
      if file.Some? {
        fileData := Described(file.value);
      }
      var product := Product(nextId, reqUser.id, body, fileData, now);
      products := products[nextId := product];
      nextId := nextId + 1;
      res := res.(status := 201, body := Some(One(product)));
    }

    /** `getProducts`: every stored product, newest first. */
    method GetProducts() returns (res: Response<ProductBody>)
      requires Valid()
      ensures res.status == 200 && res.cookie == None && res.thrown == None
      ensures res.body.Some? && res.body.value.Many?
      ensures ListsEveryProduct(res.body.value.products, products)
      ensures NewestFirst(res.body.value.products)
    {
      var sorted: seq<Product> := [];
      var left := products.Keys;
      while left != {}
        invariant left <= products.Keys
        invariant forall q :: q in sorted ==> q.id in products && q.id !in left && products[q.id] == q
        invariant forall id :: id in products && id !in left ==> products[id] in sorted
        invariant DistinctIds(sorted)
        invariant NewestFirst(sorted)
        decreases left
      {
        var id :| id in left;
        var p := products[id];
        sorted := InsertNewestFirst(p, sorted);
        left := left - {id};
      }
      res := Replied(200, Many(sorted));
    }

    /** `getProduct`: exactly the stored record, or 404. */
    method GetProduct(id: Id) returns (res: Response<ProductBody>)
      ensures id in products ==> res == Replied(200, One(products[id]))
      ensures id !in products ==> res == Failed(404, ProductNotFound)
    {
      res := Fresh();
      if id !in products {
        res := res.(status := 404, thrown := Some(ProductNotFound));
        return;
      }
      res := res.(status := 200, body := Some(One(products[id])));
    }

    /** `deleteProduct`: removes that one entry and answers with it, or 404. */
    method DeleteProduct(id: Id) returns (res: Response<ProductBody>)
      requires Valid()
      modifies this
      ensures Valid()
      ensures id !in old(products) ==> unchanged(this) && res == Failed(404, ProductNotFound)
      ensures id in old(products) ==>
        && products == old(products) - {id}
        && nextId == old(nextId)
        && res == Replied(200, One(old(products)[id]))
    {
      res := Fresh();
      if id !in products {
        res := res.(status := 404, thrown := Some(ProductNotFound));
        return;
      }
      var product := products[id];
      products := products - {id};
      res := res.(status := 200, body := Some(One(product)));
    }

    /** `updateProduct`: only the product with that id changes; it keeps its owner
        and creation time, takes the fields the store merges in, and keeps its
        image unless a file was uploaded. */
    method UpdateProduct(id: Id, body: Fields, file: Option<Upload>) returns (res: Response<ProductBody>)
      requires Valid()
      modifies this
      ensures Valid()
      ensures id !in old(products) ==> unchanged(this) && res == Failed(404, ProductNotFound)
      ensures id in old(products) ==>
        var p := old(products)[id];
        var q := Product(id, p.user, applyUpdate(p.fields, body),
                         if file.None? then p.image else Described(file.value), p.createdAt);
        && products == old(products)[id := q]
        && nextId == old(nextId)
        && res == Replied(201, One(q))
    {
      res := Fresh();
      if id !in products {
        res := res.(status := 404, thrown := Some(ProductNotFound));
        return;
      }
      var product := products[id];
      var fileData := NoImage;
      if file.Some? {
        fileData := Described(file.value);
      }
      // an empty file record keeps the stored image
      var image := if fileData == NoImage then product.image else fileData;
      var updated := Product(id, product.user, applyUpdate(product.fields, body), image, product.createdAt);
      products := products[id := updated];
      res := res.(status := 201, body := Some(One(updated)));
    }
  }
}
