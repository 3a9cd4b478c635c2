/** The catalog lookup `get_product_info`: the query key is the label stripped and
    case-folded, and a database error reads exactly like a missing row. */
module Catalog {
  import opened Wrappers
  import opened Labels

  /** The `price` column's value, carried through to the recorder and the cart
      without interpretation. */
  datatype Price = Price(text: string)

  /** One row of the `products` table as `fetchone()` returns it. */
  datatype Product = Product(name: string, price: Price)

  /** What one catalog query can come back with: the first matching row, no
      matching row, or a MySQL `Error` raised while connecting or querying. */
  datatype Reply = Row(product: Product) | NoRow | DbError

  /** The catalog as a session sees it: the reply to the session's `n`-th lookup
      (counted from 0) for a query key. The index lets the store change or fail
      transiently between lookups. */
  type CatalogFn = (nat, string) -> Reply

  /** The two string operations the loop applies to labels, left uninterpreted:
      Python's `str.strip()` and `str.lower()`. `Labels.Strip` is the concrete
      `strip`. */
  datatype Text = Text(strip: string -> string, lower: string -> string)

  /** The value bound to the query's `LOWER(name) = %s` parameter. */
  function LookupKey(text: Text, name: string): string {
    text.lower(text.strip(name))
  }

  /** `get_product_info(name)` as the `n`-th lookup of the session: the matching
      row when the store returns one, and `None` both when it returns no row and
      when it raises an error. */
  function GetProductInfo(catalog: CatalogFn, text: Text, n: nat, name: string): (r: Option<Product>)
    ensures catalog(n, LookupKey(text, name)).Row? ==> r == Some(catalog(n, LookupKey(text, name)).product)
    ensures catalog(n, LookupKey(text, name)) == NoRow ==> r == None
    ensures catalog(n, LookupKey(text, name)) == DbError ==> r == None
  {
    match catalog(n, LookupKey(text, name))
    case Row(p) => Some(p)
    case NoRow => None
    case DbError => None
  }

  /** The same catalog with every error turned into a missing row. */
  function ErrorsAsMisses(catalog: CatalogFn): CatalogFn {
    (n: nat, key: string) => if catalog(n, key) == DbError then NoRow else catalog(n, key)
  }

  /** A caller of `get_product_info` cannot tell a database error from a catalog
      gap: for every lookup the answer is the same with errors turned into misses. */
  lemma ErrorReadAsMiss(catalog: CatalogFn, text: Text, n: nat, name: string)
    ensures GetProductInfo(catalog, text, n, name) == GetProductInfo(ErrorsAsMisses(catalog), text, n, name)
  {
  }

  /** Only the label's stripped, case-folded form reaches the query: with
      Python's `strip()`, a label and its stripped form look up the same row,
      which is why handing the already stripped dedup key to `get_product_info`
      loses nothing. */
  lemma LookupIgnoresSurroundingSpace(catalog: CatalogFn, lower: string -> string, n: nat, name: string)
    ensures GetProductInfo(catalog, Text(Strip, lower), n, Strip(name))
         == GetProductInfo(catalog, Text(Strip, lower), n, name)
  {
    StripIdempotent(name);
  }
}
