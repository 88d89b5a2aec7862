/**
  `EnrichedOrderRepository`: the table of enriched orders keyed by `orderId`
  (the inherited `save`, `findById` and `findAll`) and the `findByCriteria`
  query.

  The table is a map from order id to order. Its rows come back in an order
  the store chooses; `Scan` lists them in some such order and every result
  is stated for any listing.

  `findByCriteria` is modelled the way the query reads: a left join of each
  order with its line items, the two optional conditions, the selection of
  the order, and DISTINCT. Its contract says it returns each matching order
  exactly once; `FindByCriteriaIsFilter` proves that it is moreover the plain
  filter "customer matches if given, and some line item matches if given",
  in table order.
 */
module Repository {
  import opened Domain

  /** Every stored order sits under its own id. */
  ghost predicate Keyed(store: map<string, EnrichedOrder>)
  {
    forall id :: id in store ==> store[id].orderId == id
  }

  /** `save`: insert, or replace the order with the same id. */
  function Save(store: map<string, EnrichedOrder>, order: EnrichedOrder): (r: map<string, EnrichedOrder>)
    ensures r.Keys == store.Keys + {order.orderId}
    ensures order.orderId in r && r[order.orderId] == order
    ensures forall id :: id in store && id != order.orderId ==> r[id] == store[id]
    ensures Keyed(store) ==> Keyed(r)
    ensures |r| == if order.orderId in store then |store| else |store| + 1
  {
    store[order.orderId := order]
  }

  /** `findById`. */
  function FindById(store: map<string, EnrichedOrder>, orderId: string): (r: Option<EnrichedOrder>)
    ensures r.Some? <==> orderId in store
    ensures r.Some? ==> r.value == store[orderId]
    ensures Keyed(store) && r.Some? ==> r.value.orderId == orderId
  {
    if orderId in store then Some(store[orderId]) else None
  }

  ghost predicate NoDuplicates<T>(s: seq<T>)
  {
    forall i, j :: 0 <= i < j < |s| ==> s[i] != s[j]
  }

  /** `table` lists every stored order exactly once, in some order. */
  ghost predicate IsListing(store: map<string, EnrichedOrder>, table: seq<EnrichedOrder>)
  {
    && (forall i :: 0 <= i < |table| ==> table[i].orderId in store && store[table[i].orderId] == table[i])
    && (forall i, j :: 0 <= i < j < |table| ==> table[i].orderId != table[j].orderId)
    && (forall id :: id in store ==> exists i :: 0 <= i < |table| && table[i].orderId == id)
  }

  /** The rows of the table in the order the store hands them out (`findAll`). */
  method Scan(store: map<string, EnrichedOrder>) returns (table: seq<EnrichedOrder>)
    requires Keyed(store)
    ensures IsListing(store, table)
    ensures NoDuplicates(table)
  {
    table := [];
    var remaining := store.Keys;
    while remaining != {}
      invariant remaining <= store.Keys
      invariant forall i :: 0 <= i < |table| ==>
        table[i].orderId in store && store[table[i].orderId] == table[i] && table[i].orderId !in remaining
      invariant forall i, j :: 0 <= i < j < |table| ==> table[i].orderId != table[j].orderId
      invariant forall id :: id in store && id !in remaining ==>
        exists i :: 0 <= i < |table| && table[i].orderId == id
      decreases remaining
    {
      var id :| id in remaining;
      ghost var before := table;
      table := table + [store[id]];
      assert forall i :: 0 <= i < |before| ==> table[i] == before[i];
      assert table[|before|].orderId == id;
      remaining := remaining - {id};
    }
  }

  // ---------------------------------------------------------------------------
  // findByCriteria: the reference filter

  /** The WHERE clause read per order: both optional conditions, a missing one imposing nothing. */
  predicate Matches(order: EnrichedOrder, customerId: Option<string>, productId: Option<string>)
  {
    && (customerId.None? || order.customer.customerId == customerId.value)
    && (productId.None? || exists i :: 0 <= i < |order.products| && order.products[i].productId == productId.value)
  }

  /** The matching orders of `table`, in table order. */
  function Filter(table: seq<EnrichedOrder>, customerId: Option<string>, productId: Option<string>)
    : (r: seq<EnrichedOrder>)
    ensures forall o :: o in r <==> o in table && Matches(o, customerId, productId)
    ensures NoDuplicates(table) ==> NoDuplicates(r)
    ensures (forall o :: o in table ==> !Matches(o, customerId, productId)) ==> r == []
  {
    if table == [] then []
    else
      var rest := Filter(table[1..], customerId, productId);
      assert forall o :: o in table <==> o == table[0] || o in table[1..];
      if Matches(table[0], customerId, productId) then [table[0]] + rest else rest
  }

  // ---------------------------------------------------------------------------
  // findByCriteria: the query as written

  /** One row of `EnrichedOrder o left join o.products p`; `product` is NULL for an order without items. */
  datatype Row = Row(order: EnrichedOrder, product: Option<ProductInfo>)

  function ProductRows(order: EnrichedOrder, products: seq<ProductInfo>): seq<Row>
  {
    if products == [] then [] else [Row(order, Some(products[0]))] + ProductRows(order, products[1..])
  }

  /** The left join for one order: a row per line item, or a single row with NULL when it has none. */
  function JoinRows(order: EnrichedOrder): seq<Row>
  {
    if order.products == [] then [Row(order, None)] else ProductRows(order, order.products)
  }

  function Join(table: seq<EnrichedOrder>): seq<Row>
  {
    if table == [] then [] else JoinRows(table[0]) + Join(table[1..])
  }

  /**
    `(:customerId is null or o.customer.customerId = :customerId) and
     (:productId is null or p.productId = :productId)`; a comparison with a
    NULL item is not true, so a NULL row passes only when no product is asked for.
   */
  predicate Where(row: Row, customerId: Option<string>, productId: Option<string>)
  {
    && (customerId.None? || row.order.customer.customerId == customerId.value)
    && (productId.None? || (row.product.Some? && row.product.value.productId == productId.value))
  }

  /** `select o ... where ...`, before DISTINCT. */
  function Selected(rows: seq<Row>, customerId: Option<string>, productId: Option<string>): seq<EnrichedOrder>
  {
    if rows == [] then []
    else (if Where(rows[0], customerId, productId) then [rows[0].order] else [])
         + Selected(rows[1..], customerId, productId)
  }

  /** DISTINCT: keep the first occurrence of each order not already in `seen`. */
  function DistinctAfter(orders: seq<EnrichedOrder>, seen: set<EnrichedOrder>): seq<EnrichedOrder>
  {
    if orders == [] then []
    else if orders[0] in seen then DistinctAfter(orders[1..], seen)
    else [orders[0]] + DistinctAfter(orders[1..], seen + {orders[0]})
  }

  /** `findByCriteria(customerId, productId)` evaluated over the table's rows `table`. */
  function FindByCriteria(table: seq<EnrichedOrder>, customerId: Option<string>, productId: Option<string>)
    : (r: seq<EnrichedOrder>)
    ensures forall o :: o in r <==> o in table && Matches(o, customerId, productId)
    ensures NoDuplicates(r)
  {
    SelectedJoinMembers(table, customerId, productId);
    DistinctAfterMembers(Selected(Join(table), customerId, productId), {});
    DistinctAfter(Selected(Join(table), customerId, productId), {})
  }

  // ---------------------------------------------------------------------------
  // Properties

  lemma {:induction false} SelectedAppend(a: seq<Row>, b: seq<Row>, customerId: Option<string>, productId: Option<string>)
    ensures Selected(a + b, customerId, productId) == Selected(a, customerId, productId) + Selected(b, customerId, productId)
  {
    if a == [] {
      assert a + b == b;
    } else {
      var ab := a + b;
      assert ab[0] == a[0];
      assert ab[1..] == a[1..] + b;
      var head := if Where(a[0], customerId, productId) then [a[0].order] else [];
      SelectedAppend(a[1..], b, customerId, productId);
      calc {
        Selected(ab, customerId, productId);
        head + Selected(a[1..] + b, customerId, productId);
        head + (Selected(a[1..], customerId, productId) + Selected(b, customerId, productId));
        (head + Selected(a[1..], customerId, productId)) + Selected(b, customerId, productId);
      }
    }
  }

  /** The rows a list of line items contributes all select `order`; some survive iff an item matches. */
  lemma {:induction false} SelectedProductRows(order: EnrichedOrder, products: seq<ProductInfo>,
                                               customerId: Option<string>, productId: Option<string>)
    ensures var s := Selected(ProductRows(order, products), customerId, productId);
      && (forall o :: o in s ==> o == order)
      && (|s| > 0 <==>
            && (customerId.None? || order.customer.customerId == customerId.value)
            && products != []
            && (productId.None? || exists i :: 0 <= i < |products| && products[i].productId == productId.value))
  {
    if products != [] {
      SelectedProductRows(order, products[1..], customerId, productId);
      var rows := ProductRows(order, products);
      assert rows[0] == Row(order, Some(products[0]));
      assert rows[1..] == ProductRows(order, products[1..]);
      if productId.Some? {
        var p := productId.value;
        if exists i :: 0 <= i < |products[1..]| && products[1..][i].productId == p {
          var i :| 0 <= i < |products[1..]| && products[1..][i].productId == p;
          assert products[i + 1].productId == p;
        }
        if exists i :: 0 <= i < |products| && products[i].productId == p {
          var i :| 0 <= i < |products| && products[i].productId == p;
          if i > 0 {
            assert products[1..][i - 1].productId == p;
          }
        }
      }
    }
  }

  /** What one order contributes to the selected rows: copies of itself, at least one iff it matches. */
  lemma SelectedJoinRows(order: EnrichedOrder, customerId: Option<string>, productId: Option<string>)
    ensures var s := Selected(JoinRows(order), customerId, productId);
      && (forall o :: o in s ==> o == order)
      && (|s| > 0 <==> Matches(order, customerId, productId))
  {
    if order.products != [] {
      SelectedProductRows(order, order.products, customerId, productId);
    }
  }

  /** The selected rows of the join name exactly the matching orders of the table. */
  lemma {:induction false} SelectedJoinMembers(table: seq<EnrichedOrder>, customerId: Option<string>,
                                               productId: Option<string>)
    ensures forall o :: o in Selected(Join(table), customerId, productId) <==> o in table && Matches(o, customerId, productId)
  {
    if table != [] {
      SelectedAppend(JoinRows(table[0]), Join(table[1..]), customerId, productId);
      SelectedJoinRows(table[0], customerId, productId);
      SelectedJoinMembers(table[1..], customerId, productId);
      var a := Selected(JoinRows(table[0]), customerId, productId);
      if |a| > 0 {
        assert a[0] in a;
      }
      assert forall o :: o in table <==> o == table[0] || o in table[1..];
    }
  }

  /** DISTINCT keeps every order not yet seen, and each only once. */
  lemma {:induction false} DistinctAfterMembers(orders: seq<EnrichedOrder>, seen: set<EnrichedOrder>)
    ensures forall o :: o in DistinctAfter(orders, seen) <==> o in orders && o !in seen
    ensures NoDuplicates(DistinctAfter(orders, seen))
  {
    if orders != [] {
      var head := orders[0];
      assert forall o :: o in orders <==> o == head || o in orders[1..];
      if head in seen {
        DistinctAfterMembers(orders[1..], seen);
      } else {
        DistinctAfterMembers(orders[1..], seen + {head});
        var rest := DistinctAfter(orders[1..], seen + {head});
        var r := [head] + rest;
        forall i, j | 0 <= i < j < |r| ensures r[i] != r[j] {
          if i == 0 {
            assert r[j] == rest[j - 1] && rest[j - 1] in rest;
          } else {
            assert r[i] == rest[i - 1] && r[j] == rest[j - 1];
          }
        }
      }
    }
  }

  /** DISTINCT skips a prefix whose orders were all seen already. */
  lemma {:induction false} DistinctSkipsSeen(a: seq<EnrichedOrder>, b: seq<EnrichedOrder>, seen: set<EnrichedOrder>)
    requires forall o :: o in a ==> o in seen
    ensures DistinctAfter(a + b, seen) == DistinctAfter(b, seen)
  {
    if a == [] {
      assert a + b == b;
    } else {
      assert (a + b)[0] == a[0];
      assert (a + b)[1..] == a[1..] + b;
      DistinctSkipsSeen(a[1..], b, seen);
    }
  }

  lemma {:induction false} QueryIsFilterAfter(table: seq<EnrichedOrder>, seen: set<EnrichedOrder>,
                                              customerId: Option<string>, productId: Option<string>)
    requires NoDuplicates(table)
    requires forall o :: o in table ==> o !in seen
    ensures DistinctAfter(Selected(Join(table), customerId, productId), seen) == Filter(table, customerId, productId)
  {
    if table != [] {
      var order := table[0];
      var a := Selected(JoinRows(order), customerId, productId);
      var b := Selected(Join(table[1..]), customerId, productId);
      SelectedAppend(JoinRows(order), Join(table[1..]), customerId, productId);
      SelectedJoinRows(order, customerId, productId);
      assert forall o :: o in table[1..] ==> o != order by {
        forall o | o in table[1..] ensures o != order {
          var j :| 0 <= j < |table[1..]| && table[1..][j] == o;
          assert table[j + 1] == o;
        }
      }
      assert NoDuplicates(table[1..]) by {
        forall i, j | 0 <= i < j < |table[1..]| ensures table[1..][i] != table[1..][j] {
          assert table[1..][i] == table[i + 1] && table[1..][j] == table[j + 1];
        }
      }
      if |a| > 0 {
        assert a[0] in a;
        assert (a + b)[0] == order;
        assert (a + b)[1..] == a[1..] + b;
        assert forall o :: o in a[1..] ==> o in a;
        DistinctSkipsSeen(a[1..], b, seen + {order});
        QueryIsFilterAfter(table[1..], seen + {order}, customerId, productId);
      } else {
        assert a + b == b;
        QueryIsFilterAfter(table[1..], seen, customerId, productId);
      }
    }
  }

  /** The query as written returns exactly the plain filter of the table. */
  lemma FindByCriteriaIsFilter(table: seq<EnrichedOrder>, customerId: Option<string>, productId: Option<string>)
    requires NoDuplicates(table)
    ensures FindByCriteria(table, customerId, productId) == Filter(table, customerId, productId)
  {
    QueryIsFilterAfter(table, {}, customerId, productId);
  }

  /**
    Over any listing of the store: every returned order is stored, has the
    requested customer if one was given and a line item with the requested
    product if one was given; every stored order meeting both conditions is
    returned; and none is returned twice.
   */
  lemma FindByCriteriaSoundCompleteDistinct(store: map<string, EnrichedOrder>, table: seq<EnrichedOrder>,
                                            customerId: Option<string>, productId: Option<string>)
    requires IsListing(store, table)
    ensures var r := FindByCriteria(table, customerId, productId);
      && (forall o :: o in r ==> o.orderId in store && store[o.orderId] == o)
      && (forall o :: o in r ==> customerId.None? || o.customer.customerId == customerId.value)
      && (forall o :: o in r ==> (productId.None? ||
            exists i :: 0 <= i < |o.products| && o.products[i].productId == productId.value))
      && (forall id :: id in store && Matches(store[id], customerId, productId) ==> store[id] in r)
      && (forall i, j :: 0 <= i < j < |r| ==> r[i].orderId != r[j].orderId)
  {
    assert NoDuplicates(table);
    FindByCriteriaIsFilter(table, customerId, productId);
    var r := Filter(table, customerId, productId);
    forall id | id in store && Matches(store[id], customerId, productId)
      ensures store[id] in r
    {
      var i :| 0 <= i < |table| && table[i].orderId == id;
      assert table[i] == store[id];
    }
    forall i, j | 0 <= i < j < |r| ensures r[i].orderId != r[j].orderId {
      assert r[i] in table && r[j] in table;
      assert r[i] != r[j];
    }
  }

  /**
    Without DISTINCT an order with two line items of the asked product would
    come back twice; with it, once.
   */
  lemma DistinctRemovesRepeats(order: EnrichedOrder, productId: string)
    requires |order.products| == 2
    requires order.products[0].productId == productId && order.products[1].productId == productId
    ensures Selected(Join([order]), None, Some(productId)) == [order, order]
    ensures FindByCriteria([order], None, Some(productId)) == [order]
  {
    var rows := [Row(order, Some(order.products[0])), Row(order, Some(order.products[1]))];
    assert order.products[1..][1..] == [];
    assert ProductRows(order, order.products[1..]) == [rows[1]] + ProductRows(order, []);
    assert JoinRows(order) == rows;
    assert Join([order]) == rows + Join([order][1..]);
    assert Join([order]) == rows;
    assert Selected(rows[1..], None, Some(productId)) == [order] + Selected([], None, Some(productId));
    assert Selected(rows, None, Some(productId)) == [order, order];
    assert [order, order][1..] == [order];
    assert DistinctAfter([order, order], {}) == [order] + DistinctAfter([order], {} + {order});
    assert [order][1..] == [];
    assert DistinctAfter([order], {order}) == DistinctAfter([], {order});
  }

  /**
    Thanks to the left join an order without line items still qualifies when
    no product is asked for, and never when one is.
   */
  lemma OrderWithoutItems(order: EnrichedOrder, customerId: Option<string>, productId: string)
    requires order.products == []
    ensures FindByCriteria([order], customerId, None)
         == if customerId.None? || order.customer.customerId == customerId.value then [order] else []
    ensures FindByCriteria([order], customerId, Some(productId)) == []
  {
    var rows := [Row(order, None)];
    assert Join([order]) == rows + Join([order][1..]);
    assert Join([order]) == rows;
    assert Selected(rows, customerId, Some(productId)) == [] + Selected([], customerId, Some(productId));
    var s := Selected(rows, customerId, None);
    assert s == (if Where(rows[0], customerId, None) then [order] else []) + Selected([], customerId, None);
    if s != [] {
      assert DistinctAfter(s, {}) == [order] + DistinctAfter([], {order});
    }
  }
}
