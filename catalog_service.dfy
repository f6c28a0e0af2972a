/** The catalog and seller-account service: the request handlers of the
    HTTP API, each a sequence of checks followed by at most one change to
    the seller table or the product table. */
module CatalogService {
  import opened Text
  import opened JsValues
  import opened Seqs
  import opened Products
  /** The upload limit of the image middleware: 5 MiB. */
  const MAX_IMAGE_BYTES: nat := 5 * 1024 * 1024
  const MIN_PASSWORD_LENGTH: nat := 8

  const MSG_REGISTER_REQUIRED := "storeName, sellerEmail, phone, and password are required"
  const MSG_PASSWORD_SHORT := "Password must be at least 8 characters"
  const MSG_STORE_TAKEN := "Store name already registered. Please log in."
  const MSG_REGISTER_FAILED := "Failed to register seller account"
  const MSG_LOGIN_REQUIRED := "storeName and password are required"
  const MSG_INVALID_LOGIN := "Invalid store name or password"
  const MSG_ONLY_IMAGES := "Only image uploads are allowed"
  const MSG_FILE_TOO_LARGE := "File too large"
  const MSG_PRODUCT_REQUIRED := "name, category, and price are required"
  const MSG_IMAGE_REQUIRED := "Image upload is required"
  const MSG_PRICE_INVALID := "price must be a positive number"
  const MSG_CREATE_FAILED := "Failed to create product"
  const MSG_NOT_FOUND := "Product not found"

  /** An HTTP reply: a status with a JSON body, or a status with `{ message }`. */
  datatype Reply<T> = Ok(status: int, body: T) | Error(status: int, message: string)

  /** The auxiliary profile fields, stored as one JSON blob. */
  datatype Profile = Profile(address: string, shippingMethod: string, deliveryOption: string,
                             accountHolder: string, accountNumber: string, ifsc: string,
                             aadhaar: string, pan: string)

  /** A row of the seller_accounts table. */
  datatype SellerAccount = SellerAccount(
    id: string, normalizedStoreName: string, storeName: string, sellerEmail: string,
    phone: string, passwordHash: string, passwordSalt: string, profile: Profile, createdAt: nat)

  /** The body of a registration request; `None` is a missing field. */
  datatype RegisterRequest = RegisterRequest(
    storeName: Option<string>, sellerEmail: Option<string>, phone: Option<string>,
    password: Option<string>, address: Option<string>, shippingMethod: Option<string>,
    deliveryOption: Option<string>, accountHolder: Option<string>, accountNumber: Option<string>,
    ifsc: Option<string>, aadhaar: Option<string>, pan: Option<string>)

  datatype LoginRequest = LoginRequest(storeName: Option<string>, password: Option<string>)

  /** What registration and login send back: no hash and no salt. */
  datatype SellerDescriptor = SellerDescriptor(
    id: string, sellerId: string, name: string, storeName: string,
    email: string, phone: string, isSeller: bool)

  /** A row of the products table. */
  datatype ProductRow = ProductRow(
    id: string, name: string, category: string, price: real, size: string,
    condition: string, description: string, imageUrl: string, imagePath: string,
    sellerEmail: string, listedAt: nat, soldAt: Option<nat>, status: string)

  /** The uploaded image as the upload middleware sees it, with the file name it stored it under. */
  datatype Upload = Upload(mimetype: string, size: nat, path: string, filename: string)

  /** The multipart fields of a create-product request and its optional image. */
  datatype CreateProductRequest = CreateProductRequest(
    name: Option<string>, category: Option<string>, price: Option<string>, size: Option<string>,
    condition: Option<string>, description: Option<string>, sellerEmail: Option<string>,
    image: Option<Upload>)

  /** The login key: the store name trimmed and lower-cased, "" when missing. */
  function NormalizeStoreName(name: Option<string>): (r: string)
    ensures !Present(name) ==> r == ""
  {
    Lower(Trim(OrEmpty(name)))
  }

  /** A key has no surrounding white space and no upper-case ASCII letter. */
  lemma NormalizeIsNormal(name: Option<string>)
    ensures IsTrimmed(NormalizeStoreName(name)) && Lower(NormalizeStoreName(name)) == NormalizeStoreName(name)
  {
    var t := Trim(OrEmpty(name));
    LowerKeepsTrimmed(t);
    LowerIdempotent(t);
  }

  /** Normalising an already normalised name changes nothing. */
  lemma NormalizeIdempotent(name: Option<string>)
    ensures NormalizeStoreName(Some(NormalizeStoreName(name))) == NormalizeStoreName(name)
  {
    NormalizeIsNormal(name);
    TrimTrimmed(NormalizeStoreName(name));
  }

  lemma {:induction false} TrimStartLower(s: string)
    ensures TrimStart(Lower(s)) == Lower(TrimStart(s))
  {
    if s != [] {
      LowerCharSpace(s[0]);
      assert Lower(s)[1..] == Lower(s[1..]);
      TrimStartLower(s[1..]);
    }
  }

  lemma {:induction false} TrimEndLower(s: string)
    ensures TrimEnd(Lower(s)) == Lower(TrimEnd(s))
  {
    if s != [] {
      LowerCharSpace(s[|s| - 1]);
      assert Lower(s)[..|s| - 1] == Lower(s[..|s| - 1]);
      TrimEndLower(s[..|s| - 1]);
    }
  }

  /** Names that differ only in the case of their letters normalise alike. */
  lemma NormalizeIgnoresCase(s: string)
    ensures NormalizeStoreName(Some(Lower(s))) == NormalizeStoreName(Some(s))
  {
    TrimStartLower(s);
    TrimEndLower(TrimStart(s));
    LowerIdempotent(Trim(s));
  }

  lemma {:induction false} TrimStartPadded(pad: string, s: string)
    requires forall i :: 0 <= i < |pad| ==> IsJsSpace(pad[i])
    ensures TrimStart(pad + s) == TrimStart(s)
  {
    if pad != [] {
      assert (pad + s)[1..] == pad[1..] + s;
      TrimStartPadded(pad[1..], s);
    } else {
      assert pad + s == s;
    }
  }

  lemma {:induction false} TrimEndPadded(s: string, pad: string)
    requires forall i :: 0 <= i < |pad| ==> IsJsSpace(pad[i])
    ensures TrimEnd(s + pad) == TrimEnd(s)
  {
    if pad != [] {
      assert (s + pad)[..|s + pad| - 1] == s + pad[..|pad| - 1];
      TrimEndPadded(s, pad[..|pad| - 1]);
    } else {
      assert s + pad == s;
    }
  }

  /** White space around a name does not change its normal form. */
  lemma NormalizeIgnoresPadding(before: string, s: string, after: string)
    requires forall i :: 0 <= i < |before| ==> IsJsSpace(before[i])
    requires forall i :: 0 <= i < |after| ==> IsJsSpace(after[i])
    requires s != [] && !IsJsSpace(s[0])
    ensures NormalizeStoreName(Some(before + s + after)) == NormalizeStoreName(Some(s))
  {
    assert before + s + after == before + (s + after);
    TrimStartPadded(before, s + after);
    assert TrimStart(s + after) == s + after;
    TrimEndPadded(s, after);
    assert TrimStart(s) == s;
  }

  /** An example of NormalizeIgnoresPadding and NormalizeIgnoresCase, which
      carry the general property: " MyShop " and "myshop" are the same store. */
  lemma NormalizeExample()
    ensures NormalizeStoreName(Some(" MyShop ")) == NormalizeStoreName(Some("myshop"))
  {
    assert " MyShop " == " " + "MyShop" + " ";
    assert !IsJsSpace('M');
    NormalizeIgnoresPadding(" ", "MyShop", " ");
    NormalizeIgnoresCase("MyShop");
    LowerMyShop();
  }

  /** The single lower-casing step of NormalizeExample. */
  lemma LowerMyShop()
    ensures Lower("MyShop") == "myshop"
  {
    var l := Lower("MyShop");
    assert l[0] == 'm' && l[1] == 'y' && l[2] == 's' && l[3] == 'h' && l[4] == 'o' && l[5] == 'p';
  }

  /** The stored (trimmed) store name normalises to the login key of the name it came from. */
  lemma NormalizeTrimmed(s: string)
    ensures NormalizeStoreName(Some(Trim(s))) == NormalizeStoreName(Some(s))
  {
    TrimTrimmed(Trim(s));
  }

  /** The seller descriptor of a stored account. */
  function DescriptorOf(a: SellerAccount): (d: SellerDescriptor)
    ensures d.id == a.id && d.sellerId == a.id && d.isSeller
    ensures d.name == a.storeName && d.storeName == a.storeName
    ensures d.email == a.sellerEmail && d.phone == a.phone
  {
    SellerDescriptor(a.id, a.id, a.storeName, a.storeName, a.sellerEmail, a.phone, true)
  }

  /** All four required registration fields are present. */
  predicate HasRegisterFields(req: RegisterRequest) {
    Present(req.storeName) && Present(req.sellerEmail) && Present(req.phone) && Present(req.password)
  }

  /** The required fields are present and the password is long enough. */
  predicate RegisterValid(req: RegisterRequest) {
    HasRegisterFields(req) && |req.password.value| >= MIN_PASSWORD_LENGTH
  }

  /** The profile blob of a registration: every missing field becomes "". */
  function ProfileOf(req: RegisterRequest): Profile {
    Profile(OrEmpty(req.address), OrEmpty(req.shippingMethod), OrEmpty(req.deliveryOption),
            OrEmpty(req.accountHolder), OrEmpty(req.accountNumber), OrEmpty(req.ifsc),
            OrEmpty(req.aadhaar), OrEmpty(req.pan))
  }

  /** The image middleware refuses the upload: not an image, or too large. */
  predicate UploadRejected(req: CreateProductRequest)
    ensures req.image.None? ==> !UploadRejected(req)
    ensures req.image.Some? && !UploadRejected(req) ==>
              StartsWith(req.image.value.mimetype, "image/") && req.image.value.size <= MAX_IMAGE_BYTES
  {
    req.image.Some? &&
    (!StartsWith(req.image.value.mimetype, "image/") || req.image.value.size > MAX_IMAGE_BYTES)
  }

  /** The create-product request passes every check of the handler. */
  predicate ProductValid(req: CreateProductRequest) {
    && !UploadRejected(req)
    && Present(req.name) && Present(req.category) && Present(req.price)
    && req.image.Some?
    && IsFinite(ParseNumber(req.price.value)) && ParseNumber(req.price.value).value > 0.0
  }

  /** `status === "sold" ? "sold" : "available"`: any other value means available. */
  function NextStatus(status: Option<string>): (r: string)
    ensures r == SOLD <==> status == Some(SOLD)
    ensures r == AVAILABLE <==> status != Some(SOLD)
  {
    if status == Some(SOLD) then SOLD else AVAILABLE
  }

  /** `{...row, price: Number(row.price || 0)}`: stored prices are finite and
      above 0, so neither the `|| 0` fallback nor `Number` changes them and the
      reply row is the stored row. */
  function MapProductRow(row: ProductRow): (r: ProductRow)
    ensures r == row
  {
    row
  }

  /** The listing order key. */
  function ListedAt(r: ProductRow): int {
    r.listedAt
  }

  /** An account stored under key `k`: its normalizedStoreName is `k`, which is
      the normal form of its stored store name. */
  ghost predicate KeyedBy(k: string, a: SellerAccount) {
    a.normalizedStoreName == k && k == NormalizeStoreName(Some(a.storeName))
  }

  /** Every account is stored under its own key. */
  ghost predicate KeysNormalized(sellers: map<string, SellerAccount>) {
    forall k :: k in sellers ==> KeyedBy(k, sellers[k])
  }

  /** No two accounts share an id. */
  ghost predicate IdsDistinct(sellers: map<string, SellerAccount>) {
    forall a, b :: a in sellers && b in sellers && sellers[a].id == sellers[b].id ==> a == b
  }

  ghost predicate SellersValid(sellers: map<string, SellerAccount>) {
    KeysNormalized(sellers) && IdsDistinct(sellers)
  }

  /** A product row under key `k`: its id is `k`, it is available with no sale
      time or sold with one, and its price is positive. */
  ghost predicate ValidRow(k: string, r: ProductRow) {
    && r.id == k
    && (r.status == AVAILABLE || r.status == SOLD)
    && (r.soldAt.Some? <==> r.status == SOLD)
    && r.price > 0.0
  }

  ghost predicate ProductsValid(products: map<string, ProductRow>) {
    forall k :: k in products ==> ValidRow(k, products[k])
  }

  /** Adding an account under its own fresh key, with a fresh id, keeps the seller table valid. */
  lemma AddSellerValid(sellers: map<string, SellerAccount>, key: string, a: SellerAccount)
    requires SellersValid(sellers)
    requires key !in sellers && KeyedBy(key, a)
    requires forall k :: k in sellers ==> sellers[k].id != a.id
    ensures SellersValid(sellers[key := a])
  {
    AddKeyed(sellers, key, a);
    AddFreshId(sellers, key, a);
  }

  lemma AddKeyed(sellers: map<string, SellerAccount>, key: string, a: SellerAccount)
    requires KeysNormalized(sellers) && KeyedBy(key, a)
    ensures KeysNormalized(sellers[key := a])
  {
    var m := sellers[key := a];
    forall k | k in m ensures KeyedBy(k, m[k]) {
      if k != key {
        assert m[k] == sellers[k];
      }
    }
  }

  lemma AddFreshId(sellers: map<string, SellerAccount>, key: string, a: SellerAccount)
    requires IdsDistinct(sellers) && key !in sellers
    requires forall k :: k in sellers ==> sellers[k].id != a.id
    ensures IdsDistinct(sellers[key := a])
  {
    var m := sellers[key := a];
    forall x, y | x in m && y in m && m[x].id == m[y].id ensures x == y {
      if x != key && y != key {
        assert m[x] == sellers[x] && m[y] == sellers[y];
      }
    }
  }

  /** Halfway through the listing: the rows taken so far are the stored rows of
      the keys no longer remaining, each once. */
  ghost predicate Listed(products: map<string, ProductRow>, remaining: set<string>, rows: seq<ProductRow>) {
    && remaining <= products.Keys
    && |rows| == |products.Keys| - |remaining|
    && (forall i :: 0 <= i < |rows| ==>
          rows[i].id in products && products[rows[i].id] == rows[i] && rows[i].id !in remaining)
    && (forall id :: id in products && id !in remaining ==> products[id] in rows)
  }

  /** Taking one more key's row into the sorted listing. */
  lemma ListStep(products: map<string, ProductRow>, remaining: set<string>, rows: seq<ProductRow>, id: string)
    requires ProductsValid(products) && Listed(products, remaining, rows) && SortedDesc(rows, ListedAt)
    requires id in remaining
    ensures Listed(products, remaining - {id}, InsertDesc(products[id], rows, ListedAt))
  {
    var row := products[id];
    assert ValidRow(id, row);
    var next := InsertDesc(row, rows, ListedAt);
    assert multiset(next) == multiset(rows) + multiset{row};
    forall i | 0 <= i < |next|
      ensures next[i].id in products && products[next[i].id] == next[i] && next[i].id !in remaining - {id}
    {
      assert next[i] in multiset(next);
      if next[i] != row {
        assert next[i] in multiset(rows);
        assert next[i] in rows;
      }
    }
    forall k | k in products && k !in remaining - {id} ensures products[k] in next {
      if k != id {
        assert products[k] in multiset(rows);
      }
      assert products[k] in multiset(next);
    }
  }

  /** Writing a valid row keeps the product table valid. */
  lemma SetProductValid(products: map<string, ProductRow>, id: string, r: ProductRow)
    requires ProductsValid(products) && ValidRow(id, r)
    ensures ProductsValid(products[id := r])
  {
  }

  /** A seller table and a product table, with the password hash it was built with. */
  class Service {
    /** seller_accounts, keyed by normalized store name (the UNIQUE column). */
    var sellers: map<string, SellerAccount>
    /** products, keyed by id (the PRIMARY KEY). */
    var products: map<string, ProductRow>
    /** PBKDF2(password, salt) as hex; no other property of it is used. */
    const hash: (string, string) -> string

    /** The tables' invariants, see `SellersValid` and `ProductsValid`. */
    ghost predicate Valid()
      reads this
    {
      SellersValid(sellers) && ProductsValid(products)
    }

    /** A fresh service with empty tables. */
    constructor (hash: (string, string) -> string)
      ensures Valid() && sellers == map[] && products == map[] && this.hash == hash
    {
      this.hash := hash;
      sellers := map[];
      products := map[];
    }

    /** Some account already has the primary key `id`. */
    predicate SellerIdTaken(id: string)
      reads this
    {
      exists k :: k in sellers && sellers[k].id == id
    }

    /** The row registration stores. */
    function NewAccount(req: RegisterRequest, id: string, salt: string, createdAt: nat): SellerAccount
      requires HasRegisterFields(req)
    {
      SellerAccount(id, NormalizeStoreName(req.storeName), Trim(req.storeName.value),
                    Trim(req.sellerEmail.value), Trim(req.phone.value),
                    hash(req.password.value, salt), salt, ProfileOf(req), createdAt)
    }

    /** The stored account keeps the generated id, salt and time, its store
        name, e-mail and phone carry no surrounding white space, and the
        password it was registered with passes the check Login makes. */
    lemma NewAccountAcceptsPassword(req: RegisterRequest, id: string, salt: string, createdAt: nat)
      requires HasRegisterFields(req)
      ensures var a := NewAccount(req, id, salt, createdAt);
              && a.id == id && a.passwordSalt == salt && a.createdAt == createdAt
              && IsTrimmed(a.storeName) && IsTrimmed(a.sellerEmail) && IsTrimmed(a.phone)
              && hash(req.password.value, a.passwordSalt) == a.passwordHash
    {
    }

    /** POST /api/seller-auth/register. The id, the salt and the creation time
        are the values the handler generates. */
    method Register(req: RegisterRequest, id: string, salt: string, createdAt: nat)
      returns (reply: Reply<SellerDescriptor>)
      requires Valid()
      modifies this`sellers
      ensures Valid()
      ensures reply.Error? ==> sellers == old(sellers)
      ensures if !HasRegisterFields(req) then reply == Error(400, MSG_REGISTER_REQUIRED)
              else if !RegisterValid(req) then reply == Error(400, MSG_PASSWORD_SHORT)
              else if NormalizeStoreName(req.storeName) in old(sellers) then reply == Error(409, MSG_STORE_TAKEN)
              else if old(SellerIdTaken(id)) then reply == Error(500, MSG_REGISTER_FAILED)
              else
                && sellers == old(sellers)[NormalizeStoreName(req.storeName) := NewAccount(req, id, salt, createdAt)]
                && reply == Ok(201, DescriptorOf(NewAccount(req, id, salt, createdAt)))
    {
      if !HasRegisterFields(req) {
        return Error(400, MSG_REGISTER_REQUIRED);
      }
      if |req.password.value| < MIN_PASSWORD_LENGTH {
        assert !RegisterValid(req);
        return Error(400, MSG_PASSWORD_SHORT);
      }
      var key := NormalizeStoreName(req.storeName);
      if key in sellers {
        return Error(409, MSG_STORE_TAKEN);
      }
      if SellerIdTaken(id) {
        // the INSERT violates the primary key; the handler reports a server error
        return Error(500, MSG_REGISTER_FAILED);
      }
      var account := NewAccount(req, id, salt, createdAt);
      NormalizeTrimmed(req.storeName.value);
      assert KeyedBy(key, account);
      AddSellerValid(sellers, key, account);
      sellers := sellers[key := account];
      reply := Ok(201, DescriptorOf(account));
    }

    /** POST /api/seller-auth/login. An unknown store and a wrong password get the same reply. */
    method Login(req: LoginRequest) returns (reply: Reply<SellerDescriptor>)
      requires Valid()
      ensures !Present(req.storeName) || !Present(req.password) ==> reply == Error(400, MSG_LOGIN_REQUIRED)
      ensures Present(req.storeName) && Present(req.password) ==>
                var key := NormalizeStoreName(req.storeName);
                if key in sellers && hash(req.password.value, sellers[key].passwordSalt) == sellers[key].passwordHash
                then reply == Ok(200, DescriptorOf(sellers[key]))
                else reply == Error(401, MSG_INVALID_LOGIN)
    {
      if !Present(req.storeName) || !Present(req.password) {
        return Error(400, MSG_LOGIN_REQUIRED);
      }
      var key := NormalizeStoreName(req.storeName);
      if key !in sellers {
        return Error(401, MSG_INVALID_LOGIN);
      }
      var row := sellers[key];
      if hash(req.password.value, row.passwordSalt) != row.passwordHash {
        return Error(401, MSG_INVALID_LOGIN);
      }
      reply := Ok(200, DescriptorOf(row));
    }

    /** The row create-product stores. */
    function NewProduct(req: CreateProductRequest, id: string, listedAt: nat, protocol: string, host: string): (r: ProductRow)
      requires ProductValid(req)
      ensures r.id == id && r.listedAt == listedAt
      ensures r.status == AVAILABLE && r.soldAt == None
      ensures r.price > 0.0 && ParseNumber(req.price.value) == Finite(r.price)
    {
      ProductRow(id, req.name.value, req.category.value, ParseNumber(req.price.value).value,
                 OrEmpty(req.size), OrDefault(req.condition, "Good"), OrEmpty(req.description),
                 protocol + "://" + host + "/uploads/" + req.image.value.filename,
                 req.image.value.path, OrEmpty(req.sellerEmail), listedAt, None, AVAILABLE)
    }

    /** POST /api/products, with the image middleware in front of the handler.
        The id, the listing time and the request's protocol and host are parameters. */
    method CreateProduct(req: CreateProductRequest, id: string, listedAt: nat, protocol: string, host: string)
      returns (reply: Reply<ProductRow>)
      requires Valid()
      modifies this`products
      ensures Valid()
      ensures (UploadRejected(req) && !StartsWith(req.image.value.mimetype, "image/"))
                ==> reply == Error(400, MSG_ONLY_IMAGES)
      ensures (UploadRejected(req) && StartsWith(req.image.value.mimetype, "image/"))
                ==> reply == Error(400, MSG_FILE_TOO_LARGE)
      ensures (!UploadRejected(req) && !(Present(req.name) && Present(req.category) && Present(req.price)))
                ==> reply == Error(400, MSG_PRODUCT_REQUIRED)
      ensures (!UploadRejected(req) && Present(req.name) && Present(req.category) && Present(req.price)
                 && req.image.None?) ==> reply == Error(400, MSG_IMAGE_REQUIRED)
      ensures (!UploadRejected(req) && Present(req.name) && Present(req.category) && Present(req.price)
                 && req.image.Some? && !ProductValid(req)) ==> reply == Error(400, MSG_PRICE_INVALID)
      ensures ProductValid(req) && id in old(products) ==> reply == Error(500, MSG_CREATE_FAILED)
      ensures reply.Error? ==> products == old(products)
      ensures reply.Ok? <==> ProductValid(req) && id !in old(products)
      ensures reply.Ok? ==>
                && products == old(products)[id := NewProduct(req, id, listedAt, protocol, host)]
                && reply == Ok(201, products[id])
    {
      if req.image.Some? {
        if !StartsWith(req.image.value.mimetype, "image/") {
          return Error(400, MSG_ONLY_IMAGES);
        }
        if req.image.value.size > MAX_IMAGE_BYTES {
          return Error(400, MSG_FILE_TOO_LARGE);
        }
      }
      if !Present(req.name) || !Present(req.category) || !Present(req.price) {
        return Error(400, MSG_PRODUCT_REQUIRED);
      }
      if req.image.None? {
        return Error(400, MSG_IMAGE_REQUIRED);
      }
      var parsedPrice := ParseNumber(req.price.value);
      if !IsFinite(parsedPrice) || parsedPrice.value <= 0.0 {
        return Error(400, MSG_PRICE_INVALID);
      }
      if id in products {
        // the INSERT violates the primary key; the handler reports a server error
        return Error(500, MSG_CREATE_FAILED);
      }
      var row := NewProduct(req, id, listedAt, protocol, host);
      SetProductValid(products, id, row);
      products := products[id := row];
      reply := Ok(201, MapProductRow(products[id]));
    }

    /** PATCH /api/products/:id with body `{ status }`; `now` is the current time. */
    method UpdateStatus(id: string, status: Option<string>, now: nat) returns (reply: Reply<ProductRow>)
      requires Valid()
      modifies this`products
      ensures Valid()
      ensures id !in old(products) ==> reply == Error(404, MSG_NOT_FOUND) && products == old(products)
      ensures id in old(products) ==>
                && products == old(products)[id := old(products)[id].(
                     status := NextStatus(status),
                     soldAt := if NextStatus(status) == SOLD then Some(now) else None)]
                && reply == Ok(200, products[id])
    {
      var nextStatus := NextStatus(status);
      var soldAt := if nextStatus == SOLD then Some(now) else None;
      if id !in products {
        // the UPDATE changed no row
        return Error(404, MSG_NOT_FOUND);
      }
      var row := products[id].(status := nextStatus, soldAt := soldAt);
      assert ValidRow(id, products[id]);
      SetProductValid(products, id, row);
      products := products[id := row];
      reply := Ok(200, MapProductRow(products[id]));
    }

    /** DELETE /api/products/:id; removing the image file is not modelled. */
    method DeleteProduct(id: string) returns (reply: Reply<()>)
      requires Valid()
      modifies this`products
      ensures Valid()
      ensures id !in old(products) ==> reply == Error(404, MSG_NOT_FOUND) && products == old(products)
      ensures id in old(products) ==> reply == Ok(204, ()) && products == old(products) - {id}
    {
      if id !in products {
        return Error(404, MSG_NOT_FOUND);
      }
      products := products - {id};
      reply := Ok(204, ());
    }

    /** GET /api/products: every row exactly once, newest listing first
        (rows listed at the same time in no particular order). */
    method ListProducts() returns (rows: seq<ProductRow>)
      requires Valid()
      ensures SortedDesc(rows, ListedAt)
      ensures |rows| == |products|
      ensures forall i :: 0 <= i < |rows| ==> rows[i].id in products && products[rows[i].id] == rows[i]
      ensures forall id :: id in products ==> products[id] in rows
    {
      var remaining := products.Keys;
      rows := [];
      while remaining != {}
        invariant SortedDesc(rows, ListedAt)
        invariant Listed(products, remaining, rows)
        decreases |remaining|
      {
        var id :| id in remaining;
        var row := MapProductRow(products[id]);
        ListStep(products, remaining, rows, id);
        rows := InsertDesc(row, rows, ListedAt);
        remaining := remaining - {id};
      }
    }
  }

  /** Registering a store and then logging in with the same name and password
      gives back the descriptor registration returned. */
  method RegisterThenLogin(svc: Service, req: RegisterRequest, id: string, salt: string, createdAt: nat)
    returns (registered: Reply<SellerDescriptor>, loggedIn: Reply<SellerDescriptor>)
    requires svc.Valid()
    requires RegisterValid(req)
    requires NormalizeStoreName(req.storeName) !in svc.sellers && !svc.SellerIdTaken(id)
    modifies svc
    ensures registered.Ok? && registered.status == 201
    ensures loggedIn.Ok? && loggedIn.status == 200
    ensures loggedIn.body == registered.body
  {
    registered := svc.Register(req, id, salt, createdAt);
    loggedIn := svc.Login(LoginRequest(req.storeName, req.password));
  }

  /** A second store whose name differs only in case and surrounding white space is refused. */
  method RegisterTwice(svc: Service, first: RegisterRequest, second: RegisterRequest,
                       id1: string, id2: string, salt: string, createdAt: nat)
    returns (r1: Reply<SellerDescriptor>, r2: Reply<SellerDescriptor>)
    requires svc.Valid()
    requires RegisterValid(first) && RegisterValid(second)
    requires NormalizeStoreName(first.storeName) !in svc.sellers && !svc.SellerIdTaken(id1)
    requires NormalizeStoreName(second.storeName) == NormalizeStoreName(first.storeName)
    modifies svc
    ensures r1.Ok? && r2 == Error(409, MSG_STORE_TAKEN)
    ensures svc.sellers == old(svc.sellers)[NormalizeStoreName(first.storeName) := svc.NewAccount(first, id1, salt, createdAt)]
  {
    r1 := svc.Register(first, id1, salt, createdAt);
    r2 := svc.Register(second, id2, salt, createdAt);
  }
}
