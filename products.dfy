/** The storefront's data model: the records the catalog service returns.
    The storefront only reads them, so every entity is an immutable value.
    Dafny names cannot begin with an underscore, so the service's `_id`
    becomes `id` and the category's `__v` revision counter becomes `revision`. */
module Products {

  datatype Option<+T> = None | Some(value: T)

  /** A product category, embedded by value in every product. */
  datatype Category = Category(
    id: string,
    name: string,
    createdAt: string,
    updatedAt: string,
    revision: int
  )

  /** One catalog record. The numeric fields are only ever displayed, so
      they are integers here. */
  datatype Product = Product(
    sold: int,
    id: string,
    name: string,
    description: string,
    category: Category,
    price: int,
    stock: int,
    createdAt: string,
    updatedAt: string
  )
}
