// The shop's tables as the services update them, in place.
module Tables {
  import opened ShopModel

  class Database {
    var catalog: Catalog
    var connected: set<int>
    var mapping: map<(int, int), string>
    var inventory: map<int, Stock>
    var orders: seq<Order>
    var returnRequests: seq<ReturnRequest>
    var payments: seq<Payment>
    var outbox: seq<Event>
    ghost var posts: seq<Post>   // every POST that was sent

    ghost function Snapshot(): World
      reads this
    {
      World(catalog, connected, mapping, inventory, orders, returnRequests, payments, outbox, posts)
    }

    constructor (catalog: Catalog, inventory: map<int, Stock>)
      ensures Snapshot() == World(catalog, {}, map[], inventory, [], [], [], [], [])
    {
      this.catalog, this.inventory := catalog, inventory;
      connected, mapping := {}, map[];
      orders, returnRequests, payments, outbox, posts := [], [], [], [], [];
    }
  }
}
