// The database server: requests served one after another on a tree from bytes to bytes.
//
// The methods work on any tree, also one with rows that do not decode. Whenever the tree
// represents a map of orders, it does so after the request, and both map and answer are the
// ones the Ledger functions give.
module Store {
  import opened Definitions
  import opened OrderCodec
  import opened Ledger

  type Tree = map<bytes, bytes>

  /** The tree holds one row per order, key and value encoded faithfully, and no other row. */
  ghost predicate Represents(f: Format, tree: Tree, m: Orders) {
    && f.Valid()
    && (forall id :: id in m ==> f.EncodeKey(id) in tree && tree[f.EncodeKey(id)] == f.EncodeOrder(m[id]))
    && (forall k :: k in tree ==> f.DecodeKey(k).Some? && f.DecodeKey(k).value in m && f.EncodeKey(f.DecodeKey(k).value) == k)
  }

  lemma Lookup(f: Format, tree: Tree, m: Orders, id: Id)
    requires Represents(f, tree, m)
    ensures f.EncodeKey(id) in tree <==> id in m
    ensures id in m ==> f.DecodeOrder(tree[f.EncodeKey(id)]) == Some(m[id])
  {
    if id in m {
      f.RowRoundTrip(id, m[id]);
    }
    if f.EncodeKey(id) in tree {
      f.KeysInjective(id, f.DecodeKey(f.EncodeKey(id)).value);
    }
  }

  lemma Insert(f: Format, tree: Tree, m: Orders, id: Id, o: OrderInfo)
    requires Represents(f, tree, m)
    ensures Represents(f, tree[f.EncodeKey(id) := f.EncodeOrder(o)], m[id := o])
  {
    f.RowRoundTrip(id, o);
    forall other | other in m && f.EncodeKey(other) == f.EncodeKey(id) ensures other == id {
      f.KeysInjective(other, id);
    }
  }

  /** A tree represents at most one map, so reading back is unambiguous. */
  lemma RepresentsOne(f: Format, tree: Tree, m: Orders, n: Orders)
    requires Represents(f, tree, m) && Represents(f, tree, n)
    ensures m == n
  {
    forall id ensures id in m <==> id in n {
      Lookup(f, tree, m, id);
      Lookup(f, tree, n, id);
    }
    forall id | id in m ensures m[id] == n[id] {
      Lookup(f, tree, m, id);
      Lookup(f, tree, n, id);
    }
  }

  // --- The raw-key lookup of withdrawal results ---

  /** The stored order whose key happens to be the bytes of this id. */
  function Alias(f: Format, m: Orders, id: Id): Option<Id> {
    match f.DecodeKey(id)
    case None => None
    case Some(a) => if a in m && f.EncodeKey(a) == id then Some(a) else None
  }

  /** What recording a withdrawal result does as written: read under the raw id, write under the encoded one. */
  function SettleAsWritten(f: Format, m: Orders, id: Id, target: WithdrawalStatus): (Orders, Result<(), DbError>) {
    match Alias(f, m, id)
    case None => (m, Err(OrderNotFound(id)))
    case Some(a) =>
      match Refusal(m[a], id)
      case Some(e) => (m, Err(e))
      case None => (m[id := m[a].(withdrawalStatus := target)], Ok(()))
  }

  lemma RawLookup(f: Format, tree: Tree, m: Orders, id: Id)
    requires Represents(f, tree, m)
    ensures match Alias(f, m, id)
            case None => id !in tree
            case Some(a) => id in tree && a in m && f.DecodeOrder(tree[id]) == Some(m[a])
  {
    var k: bytes := id;
    if k in tree {
      var a := f.DecodeKey(k).value;
      assert a in m && f.EncodeKey(a) == k;
      Lookup(f, tree, m, a);
    } else if Alias(f, m, id).Some? {
      Lookup(f, tree, m, Alias(f, m, id).value);
    }
  }

  /** In the table's format no order is its own alias: the row read is never that of the order asked for. */
  lemma AliasIsAnother(m: Orders, id: Id)
    ensures Alias(TableFormat(), m, id) != Some(id)
  {
    Scale.KeyIsLonger(id);
    hide Scale.DecText;
  }

  /** Both records refuse with the same error, or are the same record. */
  ghost predicate Interchangeable(a: OrderInfo, b: OrderInfo, id: Id) {
    a == b || (Refusal(a, id).Some? && Refusal(a, id) == Refusal(b, id))
  }

  /**
   * Exactly when the raw-key lookup records what was meant: without an alias only for an order
   * that is not stored; with one only if the two records are interchangeable. So for a stored
   * order whose bytes are nobody's key the call always fails, whatever its status.
   */
  lemma SettleAsMeantIff(f: Format, m: Orders, id: Id, target: WithdrawalStatus)
    requires target != Waiting
    ensures SettleAsWritten(f, m, id, target) == Settle(m, id, target)
       <==> (match Alias(f, m, id)
             case None => id !in m
             case Some(a) => id in m && Interchangeable(m[a], m[id], id))
  {
    match Alias(f, m, id) {
      case None =>
      case Some(a) =>
        if id in m && Refusal(m[a], id).None? && Refusal(m[id], id).None? {
          var wa := m[a].(withdrawalStatus := target);
          var wi := m[id].(withdrawalStatus := target);
          assert m[id := wa][id] == wa && m[id := wi][id] == wi;
          assert wa == wi ==> m[a] == wa.(withdrawalStatus := Waiting) == m[id];
        } else if id in m && Refusal(m[a], id).Some? != Refusal(m[id], id).Some? {
          assert SettleAsWritten(f, m, id, target).1.Ok? != Settle(m, id, target).1.Ok?;
        }
    }
  }

  /** As written, a withdrawal is recorded as completed and a stuck one as failed, on the record the raw id leads to. */
  lemma RecordedAs(f: Format, lifetime: u64, m: Orders, id: Id, r: Request)
    requires r == Withdrawn(id) || r == Stuck(id)
    ensures var m' := ServeAsWritten(f, lifetime, m, r);
            match Alias(f, m, id)
            case None => m' == m
            case Some(a) =>
              if m[a].paymentStatus == Paid && m[a].withdrawalStatus == Waiting
              then OnlyStores(m, m', id, m[a].(withdrawalStatus := if r.Withdrawn? then Completed else Failed))
              else m' == m
    ensures Answers(f, lifetime, m, r, Settled(Ok(()))) <==>
              Alias(f, m, id).Some?
              && m[Alias(f, m, id).value].paymentStatus == Paid && m[Alias(f, m, id).value].withdrawalStatus == Waiting
  {
    hide ValidUtf8;
  }

  /** A paid order "a" and the id whose two bytes are the key of "a". */
  const A: Id := [97]
  const KEY_OF_A: Id := [4, 97]

  lemma KeyOfA()
    ensures TableFormat().EncodeKey(A) == KEY_OF_A
  {
    Scale.KeyIsLonger(A);
    assert Scale.EncCompact(1) == [4];
    assert [4] + A == KEY_OF_A;
  }

  /**
   * A concrete loss: order "a" is paid and waiting, its withdrawal cannot be recorded; and the
   * same request for the id [4, 97] stores a second order under that id, with the account of "a".
   */
  lemma RawKeyLosesAndForges(o: OrderInfo)
    requires o.paymentStatus.Paid? && o.withdrawalStatus.Waiting?
    ensures SettleAsWritten(TableFormat(), map[A := o], A, Completed) == (map[A := o], Err(OrderNotFound(A)))
    ensures SettleAsWritten(TableFormat(), map[A := o], KEY_OF_A, Completed).0
         == map[A := o, KEY_OF_A := o.(withdrawalStatus := Completed)]
  {
    KeyOfA();
    TableFormatValid();
    hide TableFormat, OrderCodec.Order, Scale.Str;
    var f := TableFormat();
    f.RowRoundTrip(A, o);
    var m: Orders := map[A := o];
    assert Alias(f, m, KEY_OF_A) == Some(A);
    assert Alias(f, m, A).None?;
  }

  // --- Requests as the server executes them ---

  datatype Reply =
    | Created(response: Result<OrderCreateResponse, DbError>)
    | Found(order: Result<Option<OrderInfo>, DbError>)
    | Marked(paid: Result<OrderInfo, DbError>)
    | Settled(done: Result<(), DbError>)
    | Listed(orders: seq<(Id, OrderInfo)>)

  function ServeAsWritten(f: Format, lifetime: u64, m: Orders, r: Request): Orders {
    match r
    case Withdrawn(id) => SettleAsWritten(f, m, id, Completed).0
    case Stuck(id) => SettleAsWritten(f, m, id, Failed).0
    case _ => Serve(lifetime, m, r)
  }

  function ServeAllAsWritten(f: Format, lifetime: u64, m: Orders, rs: seq<Request>): Orders {
    if |rs| == 0 then m
    else ServeAsWritten(f, lifetime, ServeAllAsWritten(f, lifetime, m, rs[..|rs| - 1]), rs[|rs| - 1])
  }

  /** The answer the map of orders calls for. */
  ghost predicate Answers(f: Format, lifetime: u64, m: Orders, r: Request, reply: Reply) {
    match r
    case Create(id, query, currency, account, now) =>
      reply == Created(Ok(Ledger.CreateOrder(m, id, query, currency, account, DeathAt(now, lifetime)).1))
    case Read(id) => reply == Found(Ok(if id in m then Some(m[id]) else None))
    case Pay(id) => reply == Marked(Ledger.MarkPaid(m, id).1)
    case Withdrawn(id) => reply == Settled(SettleAsWritten(f, m, id, Completed).1)
    case Stuck(id) => reply == Settled(SettleAsWritten(f, m, id, Failed).1)
    case List => reply.Listed? && ListsPending(m, reply.orders)
    case Stop => false
  }

  /** Every reply so far is the one called for in the state its request met. */
  ghost predicate AllAnswered(f: Format, lifetime: u64, m: Orders, requests: seq<Request>, replies: seq<Reply>) {
    && |replies| <= |requests|
    && forall j :: 0 <= j < |replies| ==>
         Answers(f, lifetime, ServeAllAsWritten(f, lifetime, m, requests[..j]), requests[j], replies[j])
  }

  lemma OneMoreAnswered(f: Format, lifetime: u64, m: Orders, requests: seq<Request>, replies: seq<Reply>, reply: Reply)
    requires AllAnswered(f, lifetime, m, requests, replies) && |replies| < |requests|
    requires Answers(f, lifetime, ServeAllAsWritten(f, lifetime, m, requests[..|replies|]), requests[|replies|], reply)
    ensures AllAnswered(f, lifetime, m, requests, replies + [reply])
    ensures ServeAllAsWritten(f, lifetime, m, requests[..|replies| + 1])
         == ServeAsWritten(f, lifetime, ServeAllAsWritten(f, lifetime, m, requests[..|replies|]), requests[|replies|])
  {
    hide Answers, ServeAsWritten;
    assert requests[..|replies| + 1][..|replies|] == requests[..|replies|];
  }

  /** What holds after these replies, for a map the tree stood for at the start. */
  ghost predicate ServedFrom(f: Format, lifetime: u64, m: Orders, tree: Tree, requests: seq<Request>, replies: seq<Reply>) {
    && |replies| <= |requests|
    && Represents(f, tree, ServeAllAsWritten(f, lifetime, m, requests[..|replies|]))
    && AllAnswered(f, lifetime, m, requests, replies)
  }

  /** One request more. */
  lemma OneMoreServed(f: Format, lifetime: u64, m: Orders, tree: Tree, tree': Tree,
                      requests: seq<Request>, replies: seq<Reply>, reply: Reply)
    requires ServedFrom(f, lifetime, m, tree, requests, replies) && |replies| < |requests|
    requires var m1 := ServeAllAsWritten(f, lifetime, m, requests[..|replies|]);
             && Represents(f, tree', ServeAsWritten(f, lifetime, m1, requests[|replies|]))
             && Answers(f, lifetime, m1, requests[|replies|], reply)
    ensures ServedFrom(f, lifetime, m, tree', requests, replies + [reply])
  {
    hide Represents, Answers, ServeAsWritten, ServeAllAsWritten, AllAnswered;
    OneMoreAnswered(f, lifetime, m, requests, replies, reply);
    assert |replies + [reply]| == |replies| + 1;
  }

  /** The same for every map the tree stood for at the start. */
  ghost predicate Served(f: Format, lifetime: u64, before: Tree, tree: Tree, requests: seq<Request>, replies: seq<Reply>) {
    forall m: Orders :: Represents(f, before, m) ==> ServedFrom(f, lifetime, m, tree, requests, replies)
  }

  lemma AllServedMore(f: Format, lifetime: u64, before: Tree, tree: Tree, tree': Tree,
                      requests: seq<Request>, replies: seq<Reply>, reply: Reply)
    requires Served(f, lifetime, before, tree, requests, replies) && |replies| < |requests|
    requires forall m: Orders :: Represents(f, tree, m) ==>
               && Represents(f, tree', ServeAsWritten(f, lifetime, m, requests[|replies|]))
               && Answers(f, lifetime, m, requests[|replies|], reply)
    ensures Served(f, lifetime, before, tree', requests, replies + [reply])
  {
    hide Represents, Answers, ServeAsWritten, ServeAllAsWritten, AllAnswered, ServedFrom;
    forall m: Orders | Represents(f, before, m) ensures ServedFrom(f, lifetime, m, tree', requests, replies + [reply]) {
      ServedIs(f, lifetime, m, tree, requests, replies);
      OneMoreServed(f, lifetime, m, tree, tree', requests, replies, reply);
    }
  }

  lemma NothingServed(f: Format, lifetime: u64, tree: Tree, requests: seq<Request>)
    ensures Served(f, lifetime, tree, tree, requests, [])
  {
    forall m { NothingAnswered(f, lifetime, m, requests); }
    hide Represents, ServeAllAsWritten, AllAnswered;
  }

  lemma NothingAnswered(f: Format, lifetime: u64, m: Orders, requests: seq<Request>)
    ensures ServeAllAsWritten(f, lifetime, m, requests[..0]) == m && AllAnswered(f, lifetime, m, requests, [])
  {
    hide Answers, ServeAsWritten;
  }

  lemma ServedIs(f: Format, lifetime: u64, m: Orders, tree: Tree, requests: seq<Request>, replies: seq<Reply>)
    requires ServedFrom(f, lifetime, m, tree, requests, replies)
    ensures |replies| <= |requests| && Represents(f, tree, ServeAllAsWritten(f, lifetime, m, requests[..|replies|]))
  {
    hide Represents, ServeAllAsWritten;
  }

  /** Where nothing records a withdrawal result, the code as written serves the requests as meant. */
  lemma {:induction false} WrittenAsMeant(f: Format, lifetime: u64, m: Orders, rs: seq<Request>)
    requires forall i :: 0 <= i < |rs| ==> !rs[i].Withdrawn? && !rs[i].Stuck?
    ensures ServeAllAsWritten(f, lifetime, m, rs) == ServeAll(lifetime, m, rs)
  {
    if |rs| > 0 {
      WrittenAsMeant(f, lifetime, m, rs[..|rs| - 1]);
    }
  }

  // --- The server ---

  class Database {
    var orders: Tree
    const accountLifetime: u64
    const format: Format

    constructor (accountLifetime: u64)
      ensures this.accountLifetime == accountLifetime && format == TableFormat()
      ensures Represents(format, orders, map[])
    {
      this.accountLifetime := accountLifetime;
      format := TableFormat();
      orders := map[];
      new;
      TableFormatValid();
      hide TableFormat;
    }

    /** The row under this key does not decode. */
    ghost predicate Unreadable(k: bytes)
      reads this
    {
      k in orders && format.DecodeOrder(orders[k]).None?
    }

    method CreateOrder(id: Id, query: OrderQuery, currency: CurrencyInfo, account: Text, now: u64)
      returns (r: Result<OrderCreateResponse, DbError>)
      modifies this
      ensures old(Unreadable(format.EncodeKey(id))) ==> r == Err(CodecError) && orders == old(orders)
      ensures forall m: Orders :: old(Represents(format, orders, m)) ==>
                var (m', response) :=
                  Ledger.CreateOrder(m, id, query, currency, account, DeathAt(now, accountLifetime));
                Represents(format, orders, m') && r == Ok(response)
      ensures r.Ok? && r.value.New? ==> RecordsRequest(r.value.info, query, currency, account, now, accountLifetime)
      ensures r.Ok? && r.value.Modified? ==>
                old(format.EncodeKey(id) in orders && format.DecodeOrder(orders[format.EncodeKey(id)]).Some?)
                && Amends(old(format.DecodeOrder(orders[format.EncodeKey(id)]).value), r.value.info, query, currency, now, accountLifetime)
      ensures r.Ok? && !r.value.Collision? ==>
                orders == old(orders)[format.EncodeKey(id) := format.EncodeOrder(r.value.info)]
    {
      var key := format.EncodeKey(id);
      var death := DeathAt(now, accountLifetime);
      ghost var before := orders;
      if key in orders {
        var decoded := format.DecodeOrder(orders[key]);
        if decoded.None? {
          r := Err(CodecError);
        } else {
          var o := decoded.value;
          match o.paymentStatus {
            case Pending =>
              o := o.(death := death);
              o := o.(currency := currency);
              o := o.(amount := query.amount);
              orders := orders[key := format.EncodeOrder(o)];
              r := Ok(Modified(o));
            case Paid =>
              r := Ok(Collision(o));
          }
        }
      } else {
        var o := NewOrder(query, currency, account, death);
        orders := orders[key := format.EncodeOrder(o)];
        r := Ok(New(o));
      }
      forall m: Orders | Represents(format, before, m)
        ensures var (m', response) := Ledger.CreateOrder(m, id, query, currency, account, death);
                Represents(format, orders, m') && r == Ok(response)
      {
        Lookup(format, before, m, id);
        Insert(format, before, m, id, r.value.info);
      }
    }

    method ReadOrder(id: Id) returns (r: Result<Option<OrderInfo>, DbError>)
      ensures Unreadable(format.EncodeKey(id)) ==> r == Err(CodecError)
      ensures forall m: Orders :: Represents(format, orders, m) ==>
                r == Ok(if id in m then Some(m[id]) else None)
    {
      var key := format.EncodeKey(id);
      if key in orders {
        var decoded := format.DecodeOrder(orders[key]);
        r := if decoded.None? then Err(CodecError) else Ok(Some(decoded.value));
      } else {
        r := Ok(None);
      }
      forall m: Orders | Represents(format, orders, m) ensures r == Ok(if id in m then Some(m[id]) else None) {
        Lookup(format, orders, m, id);
      }
    }

    method MarkPaid(id: Id) returns (r: Result<OrderInfo, DbError>)
      modifies this
      ensures old(Unreadable(format.EncodeKey(id))) ==> r == Err(CodecError) && orders == old(orders)
      ensures forall m: Orders :: old(Represents(format, orders, m)) ==>
                Represents(format, orders, Ledger.MarkPaid(m, id).0) && r == Ledger.MarkPaid(m, id).1
    {
      var key := format.EncodeKey(id);
      ghost var before := orders;
      if key in orders {
        var decoded := format.DecodeOrder(orders[key]);
        if decoded.None? {
          r := Err(CodecError);
        } else {
          var o := decoded.value;
          if o.paymentStatus == Pending {
            o := o.(paymentStatus := Paid);
            orders := orders[format.EncodeKey(id) := format.EncodeOrder(o)];
            r := Ok(o);
          } else {
            r := Err(AlreadyPaid(id));
          }
        }
      } else {
        r := Err(OrderNotFound(id));
      }
      forall m: Orders | Represents(format, before, m)
        ensures Represents(format, orders, Ledger.MarkPaid(m, id).0) && r == Ledger.MarkPaid(m, id).1
      {
        Lookup(format, before, m, id);
        if r.Ok? {
          Insert(format, before, m, id, r.value);
        }
      }
    }

    /** mark_withdrawn and mark_stuck: the same body, with Completed and Failed as target. */
    method MarkSettled(id: Id, target: WithdrawalStatus) returns (r: Result<(), DbError>)
      modifies this
      ensures old(Unreadable(id)) ==> r == Err(CodecError) && orders == old(orders)
      ensures forall m: Orders :: old(Represents(format, orders, m)) ==>
                Represents(format, orders, SettleAsWritten(format, m, id, target).0) && r == SettleAsWritten(format, m, id, target).1
    {
      ghost var before := orders;
      ghost var written: Option<OrderInfo> := None;
      if id in orders {
        var decoded := format.DecodeOrder(orders[id]);
        if decoded.None? {
          r := Err(CodecError);
        } else {
          var o := decoded.value;
          if o.paymentStatus == Paid {
            if o.withdrawalStatus == Waiting {
              o := o.(withdrawalStatus := target);
              orders := orders[format.EncodeKey(id) := format.EncodeOrder(o)];
              written := Some(o);
              r := Ok(());
            } else {
              r := Err(WithdrawalWasAttempted(id));
            }
          } else {
            r := Err(NotPaid(id));
          }
        }
      } else {
        r := Err(OrderNotFound(id));
      }
      forall m: Orders | Represents(format, before, m)
        ensures Represents(format, orders, SettleAsWritten(format, m, id, target).0) && r == SettleAsWritten(format, m, id, target).1
      {
        RawLookup(format, before, m, id);
        if written.Some? {
          Insert(format, before, m, id, written.value);
        }
      }
    }

    /** The active-order list, in whatever order the tree yields its rows; rows that do not decode are skipped. */
    method ActiveOrderList() returns (list: seq<(Id, OrderInfo)>)
      ensures forall m: Orders :: Represents(format, orders, m) ==> ListsPending(m, list)
      ensures forall row :: row in list <==> exists k :: k in orders && PendingRow(format, k, orders[k]) == Some(row)
    {
      list := [];
      var rest := orders.Keys;
      ghost var seen: seq<bytes> := [];
      while rest != {}
        invariant rest <= orders.Keys
        invariant ListedFrom(format, orders, seen, list)
        invariant forall i :: 0 <= i < |seen| ==> seen[i] !in rest
        invariant forall k :: k in orders && k !in rest && PendingRow(format, k, orders[k]).Some? ==> k in seen
        decreases rest
      {
        var k :| k in rest;
        rest := rest - {k};
        var row := PendingRow(format, k, orders[k]);
        if row.Some? {
          list := list + [row.value];
          seen := seen + [k];
        }
      }
      forall row | row in list ensures exists k :: k in orders && PendingRow(format, k, orders[k]) == Some(row) {
        var i :| 0 <= i < |list| && list[i] == row;
        assert PendingRow(format, seen[i], orders[seen[i]]) == Some(row);
      }
      forall k | k in orders && PendingRow(format, k, orders[k]).Some? ensures PendingRow(format, k, orders[k]).value in list {
        var i :| 0 <= i < |seen| && seen[i] == k;
        assert list[i] == PendingRow(format, k, orders[k]).value;
      }
      forall m: Orders | Represents(format, orders, m) ensures ListsPending(m, list) {
        ListIsExact(format, orders, m, seen, list);
      }
    }

    method ServeOne(r: Request) returns (reply: Reply)
      requires !r.Stop?
      modifies this
      ensures forall m: Orders :: old(Represents(format, orders, m)) ==>
                Represents(format, orders, ServeAsWritten(format, accountLifetime, m, r)) && Answers(format, accountLifetime, m, r, reply)
    {
      hide Represents, ListsPending, SettleAsWritten, Ledger.CreateOrder, Ledger.MarkPaid;
      match r {
        case Create(id, query, currency, account, now) =>
          var x := CreateOrder(id, query, currency, account, now);
          reply := Created(x);
        case Read(id) =>
          var x := ReadOrder(id);
          reply := Found(x);
        case Pay(id) =>
          var x := MarkPaid(id);
          reply := Marked(x);
        case Withdrawn(id) =>
          var x := MarkSettled(id, Completed);
          reply := Settled(x);
        case Stuck(id) =>
          var x := MarkSettled(id, Failed);
          reply := Settled(x);
        case List =>
          var x := ActiveOrderList();
          reply := Listed(x);
      }
    }

    /** The request loop: it stops at the first Stop and leaves the rest unserved. */
    method ServeRequests(requests: seq<Request>) returns (replies: seq<Reply>)
      modifies this
      ensures |replies| <= |requests|
      ensures forall j :: 0 <= j < |replies| ==> !requests[j].Stop?
      ensures |replies| < |requests| ==> requests[|replies|].Stop?
      ensures forall m: Orders :: old(Represents(format, orders, m)) ==>
                && Represents(format, orders, ServeAllAsWritten(format, accountLifetime, m, requests[..|replies|]))
                && AllAnswered(format, accountLifetime, m, requests, replies)
    {
      hide Represents, Answers, ServeAsWritten, ServeAllAsWritten, AllAnswered;
      replies := [];
      ghost var before := orders;
      NothingServed(format, accountLifetime, orders, requests);
      while |replies| < |requests| && !requests[|replies|].Stop?
        invariant |replies| <= |requests|
        invariant forall j :: 0 <= j < |replies| ==> !requests[j].Stop?
        invariant Served(format, accountLifetime, before, orders, requests, replies)
      {
        hide Served;
        ghost var tree := orders;
        var reply := ServeOne(requests[|replies|]);
        AllServedMore(format, accountLifetime, before, tree, orders, requests, replies, reply);
        replies := replies + [reply];
      }
    }
  }

  /** The row, if key and value decode and the order is pending. */
  function PendingRow(f: Format, k: bytes, v: bytes): Option<(Id, OrderInfo)> {
    match (f.DecodeKey(k), f.DecodeOrder(v))
    case (Some(id), Some(o)) => if o.paymentStatus == Pending then Some((id, o)) else None
    case _ => None
  }

  /** The list holds the pending rows under these distinct keys. */
  ghost predicate ListedFrom(f: Format, tree: Tree, keys: seq<bytes>, list: seq<(Id, OrderInfo)>) {
    && |keys| == |list|
    && (forall i :: 0 <= i < |keys| ==> keys[i] in tree && PendingRow(f, keys[i], tree[keys[i]]) == Some(list[i]))
    && (forall i, j :: 0 <= i < j < |keys| ==> keys[i] != keys[j])
  }

  /** A row of a tree that represents m is an order of m under its own key. */
  lemma RowOf(f: Format, tree: Tree, m: Orders, k: bytes)
    requires Represents(f, tree, m) && k in tree
    ensures match PendingRow(f, k, tree[k])
            case None => true
            case Some(row) => row.0 in m && m[row.0] == row.1 && row.1.paymentStatus.Pending? && f.EncodeKey(row.0) == k
  {
    var id := f.DecodeKey(k).value;
    assert id in m && f.EncodeKey(id) == k;
    Lookup(f, tree, m, id);
  }

  lemma PendingIsRow(f: Format, tree: Tree, m: Orders, id: Id)
    requires Represents(f, tree, m) && id in m && m[id].paymentStatus.Pending?
    ensures f.EncodeKey(id) in tree && PendingRow(f, f.EncodeKey(id), tree[f.EncodeKey(id)]) == Some((id, m[id]))
  {
    Lookup(f, tree, m, id);
    f.RowRoundTrip(id, m[id]);
  }

  lemma ListIsExact(f: Format, tree: Tree, m: Orders, keys: seq<bytes>, list: seq<(Id, OrderInfo)>)
    requires Represents(f, tree, m)
    requires ListedFrom(f, tree, keys, list)
    requires forall k :: k in tree && PendingRow(f, k, tree[k]).Some? ==> k in keys
    ensures ListsPending(m, list)
  {
    forall i | 0 <= i < |list|
      ensures list[i].0 in m && m[list[i].0] == list[i].1 && list[i].1.paymentStatus.Pending?
      ensures keys[i] == f.EncodeKey(list[i].0)
    {
      RowOf(f, tree, m, keys[i]);
    }
    forall id, o | id in m && m[id] == o && o.paymentStatus.Pending? ensures (id, o) in list {
      PendingIsRow(f, tree, m, id);
      var i :| 0 <= i < |keys| && keys[i] == f.EncodeKey(id);
      assert list[i] == (id, o);
    }
  }
}
