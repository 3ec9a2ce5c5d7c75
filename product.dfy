/**
 * Product: the catalog's record and the Bean Validation constraints on its fields.
 * The builder does not check the constraints, so a Product value may break them;
 * `ValidProduct` states them.
 */
module ProductModel {
  import opened Common

  /** A product record; BigDecimal price as `real`, the id null until it is stored. */
  datatype Product = Product(id: Option<int>, name: string, description: string, price: real, quantity: int, sku: string)

  /** @NotBlank: something is left after String.trim, which strips every character up to U+0020. */
  predicate NotBlank(s: string)
  {
    exists i :: 0 <= i < |s| && s[i] > ' '
  }

  /** The field constraints of Product: names, description, price, quantity and SKU. */
  function ValidProduct(p: Product): (valid: bool)
    ensures valid ==> p.price > 0.0 && p.quantity >= 0 && 0 < |p.sku| <= 50 && |p.name| >= 3
  {
    && NotBlank(p.name) && 3 <= |p.name| <= 100
    && NotBlank(p.description) && 10 <= |p.description| <= 500
    && p.price >= 0.01
    && p.quantity >= 0
    && NotBlank(p.sku) && |p.sku| <= 50
  }

  /** The builder accepts what validation rejects: empty name and SKU, negative price and quantity. */
  lemma BuilderAcceptsInvalid()
    ensures var p := Product(None, "", "", -10.0, -5, "");
            && p.id.None? && p.name == "" && p.sku == "" && p.price < 0.0
            && !ValidProduct(p)
  {
  }

  /** A blank string, all spaces, passes a length check but not @NotBlank. */
  lemma BlankSkuInvalid(p: Product)
    requires forall i :: 0 <= i < |p.sku| ==> p.sku[i] == ' '
    ensures !ValidProduct(p)
  {
  }

  /**
   * What updateProduct's setters make of a stored product: name, description, price
   * and quantity from the request, id and SKU as stored.
   */
  function Overwrite(stored: Product, request: Product): Product
  {
    stored.(name := request.name, description := request.description, price := request.price, quantity := request.quantity)
  }

  /** An update never changes the id or the SKU, and applying it again changes nothing more. */
  lemma OverwriteKeepsIdentity(stored: Product, request: Product)
    ensures Overwrite(stored, request).id == stored.id
    ensures Overwrite(stored, request).sku == stored.sku
    ensures Overwrite(Overwrite(stored, request), request) == Overwrite(stored, request)
  {
  }

  /** A valid product updated from a valid request stays valid: the SKU it keeps was valid already. */
  lemma OverwriteKeepsValid(stored: Product, request: Product)
    requires ValidProduct(stored) && ValidProduct(request)
    ensures ValidProduct(Overwrite(stored, request))
  {
  }
}
