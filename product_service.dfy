/**
 * ProductService: the product catalog, a keyed store of products with unique SKUs.
 * The store (ProductRepository) is a map from id to product, with the counter that
 * hands out identity ids.
 */
module ProductServiceModel {
  import opened Common
  import opened ProductModel

  /** The exceptions ProductService throws. */
  datatype ProductError =
    | DuplicateSku(sku: string)   // IllegalArgumentException: the SKU is already stored
    | ProductNotFound(id: int)    // update or delete of an unknown id

  /** No two stored products share a SKU. */
  ghost predicate UniqueSkus(products: map<int, Product>)
  {
    forall i, j :: i in products && j in products && products[i].sku == products[j].sku ==> i == j
  }

  /** Some stored product has this SKU (exact, case-sensitive comparison). */
  predicate SkuTaken(products: map<int, Product>, sku: string)
  {
    exists id :: id in products && products[id].sku == sku
  }

  /** ProductRepository.findBySku: the one product with this SKU, or null. */
  ghost function FindBySku(products: map<int, Product>, sku: string): (r: Option<Product>)
    requires UniqueSkus(products)
    ensures r.Some? <==> SkuTaken(products, sku)
    ensures r.Some? ==> r.value.sku == sku
    ensures forall id :: id in products && products[id].sku == sku ==> r == Some(products[id])
  {
    if SkuTaken(products, sku) then
      var id :| id in products && products[id].sku == sku;
      Some(products[id])
    else
      None
  }

  /** Storing a product whose SKU is not taken keeps the SKUs unique. */
  lemma InsertFreshSkuKeepsUnique(products: map<int, Product>, id: int, p: Product)
    requires UniqueSkus(products)
    requires !SkuTaken(products, p.sku)
    ensures UniqueSkus(products[id := p])
  {
  }

  /** Updating a stored product keeps the SKUs unique, since the SKU is not overwritten. */
  lemma OverwriteKeepsUnique(products: map<int, Product>, id: int, request: Product)
    requires UniqueSkus(products) && id in products
    ensures UniqueSkus(products[id := Overwrite(products[id], request)])
  {
    OverwriteKeepsIdentity(products[id], request);
  }

  /** Once created, a product is what a lookup by its SKU finds. */
  lemma CreatedIsFoundBySku(products: map<int, Product>, id: int, p: Product)
    requires UniqueSkus(products) && !SkuTaken(products, p.sku)
    ensures UniqueSkus(products[id := p])
    ensures FindBySku(products[id := p], p.sku) == Some(p)
  {
    InsertFreshSkuKeepsUnique(products, id, p);
    assert id in products[id := p] && products[id := p][id].sku == p.sku;
  }

  class ProductService {
    var products: map<int, Product>
    var nextId: int

    /** SKUs are unique, ids are the keys and come from the counter. */
    ghost predicate Valid()
      reads this
    {
      && nextId >= 1
      && UniqueSkus(products)
      && forall id :: id in products ==> 1 <= id < nextId && products[id].id == Some(id)
    }

    constructor ()
      ensures Valid() && products == map[] && nextId == 1
    {
      products := map[];
      nextId := 1;
    }

    /** getAllProducts: every stored product, no two with the same SKU. */
    method GetAllProducts() returns (r: set<Product>)
      requires Valid()
      ensures r == set id | id in products :: products[id]
      ensures forall p, q :: p in r && q in r && p.sku == q.sku ==> p == q
    {
      r := set id | id in products :: products[id];
    }

    /** getProductById: the stored product, or empty. */
    method GetProductById(id: int) returns (r: Option<Product>)
      requires Valid()
      ensures r.Some? <==> id in products
      ensures r.Some? ==> r.value == products[id] && r.value.id == Some(id)
    {
      if id in products {
        r := Some(products[id]);
      } else {
        r := None;
      }
    }

    /** getProductBySku: the product whose SKU equals the argument, or null if there is none. */
    method GetProductBySku(sku: string) returns (r: Option<Product>)
      requires Valid()
      ensures r == FindBySku(products, sku)
      ensures r.Some? ==> r.value.sku == sku && r.value.id.Some? && r.value.id.value in products
                          && products[r.value.id.value] == r.value
    {
      if exists id :: id in products && products[id].sku == sku {
        var id :| id in products && products[id].sku == sku;
        r := Some(products[id]);
      } else {
        r := None;
      }
    }

    /**
     * createProduct: a product whose SKU is already stored is rejected and nothing is
     * saved; otherwise it is stored under the next id, earlier records untouched.
     */
    method CreateProduct(product: Product) returns (r: Result<Product, ProductError>)
      requires Valid()
      modifies this
      ensures Valid()
      ensures SkuTaken(old(products), product.sku) ==>
                r == Err(DuplicateSku(product.sku)) && products == old(products) && nextId == old(nextId)
      ensures !SkuTaken(old(products), product.sku) ==>
                && r == Ok(product.(id := Some(old(nextId))))
                && products == old(products)[old(nextId) := r.value]
                && nextId == old(nextId) + 1
    {
      var existing := GetProductBySku(product.sku);
      if existing.Some? {
        return Err(DuplicateSku(product.sku));
      }
      var saved := product.(id := Some(nextId));
      InsertFreshSkuKeepsUnique(products, nextId, saved);
      products := products[nextId := saved];
      nextId := nextId + 1;
      r := Ok(saved);
    }

    /**
     * updateProduct: overwrites name, description, price and quantity of a stored
     * product, keeping its id and SKU; an unknown id throws and nothing is saved.
     */
    method UpdateProduct(id: int, request: Product) returns (r: Result<Product, ProductError>)
      requires Valid()
      modifies this`products
      ensures Valid()
      ensures id !in old(products) ==> r == Err(ProductNotFound(id)) && products == old(products)
      ensures id in old(products) ==>
                && r == Ok(Overwrite(old(products)[id], request))
                && products == old(products)[id := r.value]
    {
      var existing := GetProductById(id);
      if existing.None? {
        return Err(ProductNotFound(id));
      }
      var updated := existing.value.(name := request.name, description := request.description,
                                     price := request.price, quantity := request.quantity);
      OverwriteKeepsUnique(products, id, request);
      products := products[id := updated];
      r := Ok(updated);
    }

    /** deleteProduct: removes exactly that id, or throws for an unknown id and deletes nothing. */
    method DeleteProduct(id: int) returns (r: Outcome<ProductError>)
      requires Valid()
      modifies this`products
      ensures Valid()
      ensures id !in old(products) ==> r == Fail(ProductNotFound(id)) && products == old(products)
      ensures id in old(products) ==> r == Pass && products == old(products) - {id}
    {
      if id !in products {
        return Fail(ProductNotFound(id));
      }
      products := products - {id};
      r := Pass;
    }
  }
}
