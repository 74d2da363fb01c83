/** The orders database seen through one connection: the committed tables as mutable fields. */
module Database {
  import opened Common
  import opened OrderPolicy
  import opened Ledger

  class Database {
    var users: set<UserId>
    var products: map<ProductId, Product>
    var orders: map<OrderId, Order>
    var processed: map<MessageId, OrderId>

    function Contents(): Db
      reads this
    {
      Db(users, products, orders, processed)
    }

    constructor (users: set<UserId>, products: map<ProductId, Product>)
      ensures Contents() == Db(users, products, map[], map[])
    {
      this.users, this.products := users, products;
      orders, processed := map[], map[];
    }

    /** Other connections commit: from here on the tables are `tables`. */
    method Become(tables: Db)
      modifies this
      ensures Contents() == tables
    {
      users, products, orders, processed := tables.users, tables.products, tables.orders, tables.processed;
    }

    /** SELECT ... WHERE id IN (ids) FOR UPDATE: the rows that exist. */
    method SelectForUpdate(ids: seq<ProductId>) returns (rows: seq<Snapshot>)
      ensures ById(rows) == map p | p in ids && p in products :: products[p]
    {
      rows := [];
      for i := 0 to |ids|
        invariant ById(rows) == map p | p in ids[..i] && p in products :: products[p]
      {
        assert ids[..i + 1] == ids[..i] + [ids[i]];
        if ids[i] in products {
          var row := Snapshot(ids[i], products[ids[i]]);
          assert (rows + [row])[..|rows|] == rows;
          rows := rows + [row];
        }
      }
      assert ids[..|ids|] == ids;
    }
  }
}
