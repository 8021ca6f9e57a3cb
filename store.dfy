/** The SQLite tables as the handlers use them: the queries they issue, as functions of the
    table contents, and a `Database` object whose mutating statements change it in place. */
module Store {
  import opened Values
  import opened Crypto
  import opened Schema

  /** Some id matches a row: `WHERE id = ?` with NaN bound (a `None` id) matches nothing. */
  predicate HasRow(products: map<int, Product>, id: Option<int>) {
    id.Some? && id.value in products
  }

  /** `SELECT * FROM products WHERE id = ?`. */
  function FindProduct(products: map<int, Product>, id: Option<int>): (r: Option<ProductRow>)
    ensures r.Some? <==> HasRow(products, id)
    ensures r.Some? ==> r.value.id == id.value && Product(r.value.name, r.value.price) == products[id.value]
  {
    if HasRow(products, id) then
      Some(ProductRow(id.value, products[id.value].name, products[id.value].price))
    else None
  }

  /** `SELECT * FROM users WHERE username = ?` under `db.get`: the first matching row in
      insertion order. Usernames are not unique, so later rows with the same name are never found. */
  function FirstByUsername(users: seq<UserRow>, username: Json): (r: Option<UserRow>)
    ensures r.None? ==> forall i :: 0 <= i < |users| ==> users[i].username != username
    ensures r.Some? ==> exists i :: 0 <= i < |users| && users[i] == r.value && users[i].username == username
                                    && forall j :: 0 <= j < i ==> users[j].username != username
  {
    if users == [] then None
    else if users[0].username == username then Some(users[0])
    else
      var r := FirstByUsername(users[1..], username);
      if r.Some? then
        var i :| 0 <= i < |users[1..]| && users[1..][i] == r.value && users[1..][i].username == username
                  && forall j :: 0 <= j < i ==> users[1..][j].username != username;
        assert users[i + 1] == r.value;
        r
      else r
  }

  /** Appending a row never hides the row a lookup found before: it can only answer a lookup
      that found nothing. */
  lemma {:induction false} FirstByUsernameAppend(users: seq<UserRow>, row: UserRow, username: Json)
    ensures FirstByUsername(users + [row], username) ==
              if FirstByUsername(users, username).Some? then FirstByUsername(users, username)
              else if row.username == username then Some(row)
              else None
  {
    if users == [] {
      assert users + [row] == [row];
    } else {
      assert (users + [row])[0] == users[0];
      assert (users + [row])[1..] == users[1..] + [row];
      if users[0].username != username {
        FirstByUsernameAppend(users[1..], row, username);
      }
    }
  }

  /** `k` is the smallest id of the table. */
  predicate IsLeastKey(products: map<int, Product>, k: int) {
    k in products && forall j :: j in products ==> k <= j
  }

  lemma NonEmptyHasKey(products: map<int, Product>)
    ensures |products| > 0 ==> exists k :: k in products
  {
    if forall k :: k !in products {
      assert products.Keys == {};
      assert products == map[];
    }
  }

  lemma {:induction false} LeastKeyExists(products: map<int, Product>)
    requires |products| > 0
    ensures exists k :: IsLeastKey(products, k)
  {
    NonEmptyHasKey(products);
    var x :| x in products;
    var rest := products - {x};
    assert rest.Keys == products.Keys - {x};
    if |rest| == 0 {
      forall j | j in products ensures x <= j {
        assert j !in rest;
      }
      assert IsLeastKey(products, x);
    } else {
      LeastKeyExists(rest);
      var m :| IsLeastKey(rest, m);
      var k := if x < m then x else m;
      forall j | j in products ensures k <= j {
        if j != x { assert j in rest; }
      }
      assert IsLeastKey(products, k);
    }
  }

  /** Each row of `rows` is a row of the table. */
  predicate RowsFrom(products: map<int, Product>, rows: seq<ProductRow>) {
    forall i :: 0 <= i < |rows| ==>
      rows[i].id in products && products[rows[i].id] == Product(rows[i].name, rows[i].price)
  }

  /** Each row of the table is in `rows`. */
  predicate RowsCover(products: map<int, Product>, rows: seq<ProductRow>) {
    forall id :: id in products ==> exists i :: 0 <= i < |rows| && rows[i].id == id
  }

  /** `rows` is in strictly ascending id order. */
  predicate Ascending(rows: seq<ProductRow>) {
    forall i, j :: 0 <= i < j < |rows| ==> rows[i].id < rows[j].id
  }

  /** `rows` lists the table: each row once, in ascending id order. */
  predicate RowsOf(products: map<int, Product>, rows: seq<ProductRow>) {
    |rows| == |products| && RowsFrom(products, rows) && RowsCover(products, rows) && Ascending(rows)
  }

  function LeastRow(products: map<int, Product>, k: int): ProductRow
    requires k in products
  {
    ProductRow(k, products[k].name, products[k].price)
  }

  lemma RowsFromCons(products: map<int, Product>, k: int, tail: seq<ProductRow>)
    requires k in products && RowsFrom(products - {k}, tail)
    ensures RowsFrom(products, [LeastRow(products, k)] + tail)
  {
    var rows := [LeastRow(products, k)] + tail;
    forall i | 0 <= i < |rows|
      ensures rows[i].id in products && products[rows[i].id] == Product(rows[i].name, rows[i].price)
    {
      if i > 0 { assert rows[i] == tail[i - 1]; }
    }
  }

  lemma RowsCoverCons(products: map<int, Product>, k: int, tail: seq<ProductRow>)
    requires k in products && RowsCover(products - {k}, tail)
    ensures RowsCover(products, [LeastRow(products, k)] + tail)
  {
    var rows := [LeastRow(products, k)] + tail;
    forall id | id in products
      ensures exists i :: 0 <= i < |rows| && rows[i].id == id
    {
      if id == k {
        assert rows[0].id == id;
      } else {
        assert id in products - {k};
        var i :| 0 <= i < |tail| && tail[i].id == id;
        assert rows[i + 1].id == id;
      }
    }
  }

  lemma AscendingCons(products: map<int, Product>, k: int, tail: seq<ProductRow>)
    requires IsLeastKey(products, k) && RowsFrom(products - {k}, tail) && Ascending(tail)
    ensures Ascending([LeastRow(products, k)] + tail)
  {
    var rows := [LeastRow(products, k)] + tail;
    forall i, j | 0 <= i < j < |rows| ensures rows[i].id < rows[j].id {
      assert rows[j] == tail[j - 1];
      if i == 0 {
        assert tail[j - 1].id in products - {k};
      } else {
        assert rows[i] == tail[i - 1];
      }
    }
  }

  /** `SELECT * FROM products`: every row once, in ascending id (rowid) order. */
  function ProductRows(products: map<int, Product>): (rows: seq<ProductRow>)
    ensures RowsOf(products, rows)
    decreases |products|
  {
    if |products| == 0 then []
    else
      LeastKeyExists(products);
      var k :| IsLeastKey(products, k);
      var rest := products - {k};
      assert rest.Keys == products.Keys - {k};
      var tail := ProductRows(rest);
      RowsFromCons(products, k, tail);
      RowsCoverCons(products, k, tail);
      AscendingCons(products, k, tail);
      [LeastRow(products, k)] + tail
  }

  /** `SELECT id, username, role, firstName, lastName, city FROM users`, in insertion order. */
  function Summaries(users: seq<UserRow>): (rows: seq<UserSummary>)
    ensures |rows| == |users|
    ensures forall i :: 0 <= i < |users| ==> rows[i] == Summary(users[i])
  {
    seq(|users|, i requires 0 <= i < |users| => Summary(users[i]))
  }

  /** The open database handle. Its two fields are the contents of the two tables; each method is
      one single-statement write, which the engine applies whole. */
  class Database {
    var products: map<int, Product>
    var users: seq<UserRow>

    constructor ()
      ensures products == map[] && users == []
    {
      products := map[];
      users := [];
    }

    function State(): Tables
      reads this
    {
      Tables(products, users)
    }

    /** `INSERT INTO products (name, price)`: `id` is the rowid the engine allocates, never one in use. */
    method InsertProduct(id: int, p: Product)
      requires id !in products
      modifies this
      ensures products == old(products)[id := p]
      ensures users == old(users)
    {
      products := products[id := p];
    }

    /** `UPDATE products SET name = ?, price = ? WHERE id = ?`; `changes` is `this.changes`. */
    method UpdateProduct(id: Option<int>, p: Product) returns (changes: nat)
      modifies this
      ensures changes == if HasRow(old(products), id) then 1 else 0
      ensures products == if changes > 0 then old(products)[id.value := p] else old(products)
      ensures users == old(users)
    {
      if HasRow(products, id) {
        products := products[id.value := p];
        changes := 1;
      } else {
        changes := 0;
      }
    }

    /** `DELETE FROM products WHERE id = ?`; `changes` is `this.changes`. */
    method DeleteProduct(id: Option<int>) returns (changes: nat)
      modifies this
      ensures changes == if HasRow(old(products), id) then 1 else 0
      ensures products == if changes > 0 then old(products) - {id.value} else old(products)
      ensures users == old(users)
    {
      if HasRow(products, id) {
        products := products - {id.value};
        changes := 1;
      } else {
        changes := 0;
      }
    }

    /** `INSERT INTO users (...)`: the new row goes last in insertion order. */
    method InsertUser(row: UserRow)
      modifies this
      ensures users == old(users) + [row]
      ensures products == old(products)
    {
      users := users + [row];
    }
  }
}
