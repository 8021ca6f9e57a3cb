/** The rows of the two tables, `products` and `users`. */
module Schema {
  import opened Values
  import opened Crypto

  /** A `products` row without its key: the table is a map from id to this. */
  datatype Product = Product(name: Json, price: Json)

  /** A `products` row as `SELECT *` returns it. */
  datatype ProductRow = ProductRow(id: int, name: Json, price: Json)

  /** A `users` row. The `password` column holds a digest, never the plaintext. */
  datatype UserRow = UserRow(id: int, username: Json, password: Digest, role: Json,
                             firstName: Json, lastName: Json, city: Json)

  /** A `users` row as `GET /users` projects it: every column but `password`. */
  datatype UserSummary = UserSummary(id: int, username: Json, role: Json,
                                     firstName: Json, lastName: Json, city: Json)

  /** The whole store: products by id, and users in insertion order. */
  datatype Tables = Tables(products: map<int, Product>, users: seq<UserRow>)

  function Summary(u: UserRow): UserSummary {
    UserSummary(u.id, u.username, u.role, u.firstName, u.lastName, u.city)
  }
}
