/** Order submission, server/api/submit-order.post.ts: validate the form,
    store the order, clear the customer's cart, then tell the customer and
    the shop owner by LINE push, where a failed push is only logged. */
module SubmitOrder {
  import opened Js
  import opened Text
  import opened Transport
  import opened CartStore
  import Commands

  /** One line of the submitted cart, each field as the template literal
      renders it. */
  datatype OrderItem = OrderItem(productTitle: string, color: string, size: string, quantity: string, price: string)

  /** The request body; a field the form did not send is `None`. */
  datatype Body = Body(
    userId: Option<string>,
    lineName: Option<string>,
    customerName: Option<string>,
    phone: Option<string>,
    address: Option<string>,
    paymentMethod: Option<string>,
    accountLast5: Option<string>,
    items: Option<seq<OrderItem>>,
    totalJpy: Option<int>)

  /** A row of the `orders` table. */
  datatype OrderRow = OrderRow(
    id: nat,
    userId: string,
    lineName: string,
    customerName: string,
    phone: string,
    address: string,
    paymentMethod: string,
    accountLast5: Option<string>,
    items: seq<OrderItem>,
    totalJpy: Option<int>,
    status: string)

  /** What the handler answers: an HTTP error status, or `{ok: true, orderId}`. */
  datatype Response = Failure(status: nat) | Accepted(orderId: nat)

  const BankTransfer: string := "bank_transfer"
  const Pending: string := "pending"

  /** Lines 25-32: the required fields are truthy and the item list is not
      empty. */
  predicate Complete(b: Body) {
    Truthy(b.userId) && Truthy(b.customerName) && Truthy(b.phone) && Truthy(b.address) && Truthy(b.paymentMethod)
    && b.items.Some? && |b.items.value| > 0
  }

  /** Lines 49-60: the row to insert, under the id the store gives it. */
  function OrderRowOf(b: Body, id: nat): (r: OrderRow)
    requires Complete(b)
    ensures r.status == Pending && r.id == id && r.userId == b.userId.value
    ensures r.lineName == OptOrElse(b.lineName, "")
    ensures r.accountLast5.Some? <==> Truthy(b.accountLast5)
    ensures r.accountLast5.Some? ==> r.accountLast5 == b.accountLast5
  {
    OrderRow(id, b.userId.value, OptOrElse(b.lineName, ""), b.customerName.value, b.phone.value, b.address.value,
             b.paymentMethod.value, if Truthy(b.accountLast5) then b.accountLast5 else None,
             b.items.value, b.totalJpy, Pending)
  }

  /** The `orders` table: inserts get increasing ids, and the `n`-th write
      attempt fails with `writeError(n)` when that is present. */
  class OrderTable {
    var rows: seq<OrderRow>
    var nextId: nat
    var writes: nat
    const writeError: nat -> Option<string>

    constructor (writeError: nat -> Option<string>)
      ensures this.writeError == writeError && rows == [] && nextId == 0 && writes == 0
    {
      this.writeError := writeError;
      rows := [];
      nextId := 0;
      writes := 0;
    }

    /** `insert(...).select('id').single()`. */
    method Insert(r: OrderRow) returns (id: nat, err: Option<string>)
      modifies this
      ensures writes == old(writes) + 1 && err == writeError(old(writes))
      ensures err.None? ==> id == old(nextId) && rows == old(rows) + [r.(id := id)] && nextId == old(nextId) + 1
      ensures err.Some? ==> rows == old(rows) && nextId == old(nextId)
    {
      err := writeError(writes);
      writes := writes + 1;
      id := nextId;
      if err.None? {
        rows := rows + [r.(id := id)];
        nextId := nextId + 1;
      }
    }
  }

  // ---------------------------------------------------------------
  // The two messages (lines 73-118)
  // ---------------------------------------------------------------

  /** Lines 73-76. */
  function PaymentLabel(paymentMethod: string): string {
    if paymentMethod == BankTransfer then "銀行轉帳" else "綠界付款（+2.23% 手續費）"
  }

  /** Line 81, for the item at index `i`. */
  function ItemLine(i: nat, it: OrderItem): string {
    NatToString(i + 1) + ". " + it.productTitle + "\n   " + it.color + " / " + it.size + " ×" + it.quantity + " " + it.price
  }

  function ItemLineList(items: seq<OrderItem>): (r: seq<string>)
    ensures |r| == |items|
  {
    seq(|items|, i requires 0 <= i < |items| => ItemLine(i, items[i]))
  }

  /** Lines 78-83. */
  function ItemLines(items: seq<OrderItem>): string {
    Join(ItemLineList(items), "\n")
  }

  function CountLine(count: nat, total: string): string {
    "商品 " + NatToString(count) + " 件 | 預估總額 ¥" + total
  }

  /** Lines 86-96; `total` is `totalJpy.toLocaleString()`. */
  function CustomerParts(b: Body, total: string): seq<string>
    requires Complete(b)
  {
    ["✅ 訂單已成功提交！", "", "我們會盡快確認庫存與報價，請留意 LINE 訊息通知。", "", "📋 訂單摘要",
     CountLine(|b.items.value|, total), "付款方式：" + PaymentLabel(b.paymentMethod.value), "",
     "如有任何疑問，請隨時向我們詢問 🙏"]
  }

  function CustomerMessage(b: Body, total: string): string
    requires Complete(b)
  {
    Join(CustomerParts(b, total), "\n")
  }

  const LastFivePrefix: string := "🔢 帳號末五碼："

  /** Lines 107-109: the account line, or the empty string. */
  function LastFiveLine(b: Body): string
    requires Complete(b)
  {
    if b.paymentMethod.value == BankTransfer && Truthy(b.accountLast5) then LastFivePrefix + b.accountLast5.value else ""
  }

  /** Lines 99-116, before the empty lines are dropped. */
  function AdminParts(b: Body, total: string, id: nat): seq<string>
    requires Complete(b)
  {
    ["🔔 新訂單通知！", "━━━━━━━━━━━━━━━━━", "👤 LINE：" + OptOrElse(b.lineName, "未知"),
     "📝 姓名：" + b.customerName.value, "📱 電話：" + b.phone.value, "📍 地址：" + b.address.value,
     "💳 付款：" + PaymentLabel(b.paymentMethod.value), LastFiveLine(b), "", "📦 商品明細：",
     ItemLines(b.items.value), "", "💰 預估總額：¥" + total, "🆔 訂單 ID：" + NatToString(id)]
  }

  /** Lines 99-118: `filter(Boolean)` then `join('\n')`. */
  function AdminMessage(b: Body, total: string, id: nat): string
    requires Complete(b)
  {
    Join(NonEmpty(AdminParts(b, total, id)), "\n")
  }

  /** Lines 121-136: the customer first, then the owner unless the
      customer is the owner; the outcome of the first push does not matter. */
  function Notices(b: Body, total: string, id: nat): (r: seq<Send>)
    requires Complete(b)
    ensures |r| >= 1 && r[0] == Push(b.userId.value, Text(CustomerMessage(b, total)))
    ensures forall i :: 0 <= i < |r| ==> !IsReply(r[i])
    ensures |r| == 2 <==> b.userId.value != Commands.AdminUserId
    ensures |r| == 2 ==> r[1] == Push(Commands.AdminUserId, Text(AdminMessage(b, total, id)))
  {
    [Push(b.userId.value, Text(CustomerMessage(b, total)))]
    + (if b.userId.value != Commands.AdminUserId then [Push(Commands.AdminUserId, Text(AdminMessage(b, total, id)))] else [])
  }

  // ---------------------------------------------------------------
  // The handler
  // ---------------------------------------------------------------

  /** Lines 8-139. `fmt` is `toLocaleString`; a missing `totalJpy` throws
      while the messages are built, after the insert and the cart clear. */
  method Submit(b: Body, orders: OrderTable, carts: CartTable, line: Line, fmt: int -> string) returns (r: Response)
    requires carts.Valid()
    modifies orders, carts, line
    ensures carts.Valid()
    ensures !Complete(b) ==>
      r == Failure(400) && unchanged(orders) && unchanged(carts) && line.log == old(line.log)
    ensures Complete(b) ==> orders.writes == old(orders.writes) + 1
    ensures Complete(b) && orders.writeError(old(orders.writes)).Some? ==>
      r == Failure(500) && orders.rows == old(orders.rows) && unchanged(carts) && line.log == old(line.log)
    ensures Complete(b) && orders.writeError(old(orders.writes)).None? ==>
      orders.rows == old(orders.rows) + [OrderRowOf(b, old(orders.nextId))]
      && carts.writes == old(carts.writes) + 1
      && carts.rows == (if carts.writeError(old(carts.writes)).None? then Deleted(old(carts.rows), b.userId.value) else old(carts.rows))
      && (b.totalJpy.None? ==> r == Failure(500) && line.log == old(line.log))
      && (b.totalJpy.Some? ==>
            r == Accepted(old(orders.nextId))
            && line.log == old(line.log) + Notices(b, fmt(b.totalJpy.value), old(orders.nextId)))
  {
    if !Complete(b) {
      return Failure(400);
    }
    var id, err := orders.Insert(OrderRowOf(b, 0));
    if err.Some? {
      return Failure(500);
    }
    var _ := carts.DeleteUser(b.userId.value);
    if b.totalJpy.None? {
      return Failure(500);
    }
    var total := fmt(b.totalJpy.value);
    var _ := line.Push(b.userId.value, Text(CustomerMessage(b, total)));
    if b.userId.value != Commands.AdminUserId {
      var _ := line.Push(Commands.AdminUserId, Text(AdminMessage(b, total, id)));
    }
    r := Accepted(id);
  }

  // ---------------------------------------------------------------
  // Properties of the messages
  // ---------------------------------------------------------------

  /** The first character of a join is that of its first part. */
  lemma JoinHead(parts: seq<string>, sep: string)
    requires |parts| > 0 && |parts[0]| > 0
    ensures |Join(parts, sep)| > 0 && Join(parts, sep)[0] == parts[0][0]
  {
  }

  /** The account line is in the owner's message exactly for a bank
      transfer with a truthy account number, and then shows that number. */
  lemma LastFiveShown(b: Body, total: string, id: nat, x: string)
    requires Complete(b)
    ensures LastFivePrefix + x in NonEmpty(AdminParts(b, total, id)) <==>
      b.paymentMethod.value == BankTransfer && Truthy(b.accountLast5) && x == b.accountLast5.value
  {
    var parts := AdminParts(b, total, id);
    var line := LastFivePrefix + x;
    assert line[0] == '🔢';
    ItemLinesHead(b.items.value);
    forall i | 0 <= i < |parts| && i != 7
      ensures parts[i] != line
    {
      assert parts[i] == "" || parts[i][0] != '🔢';
    }
    if line in parts {
      var i :| 0 <= i < |parts| && parts[i] == line;
      assert i == 7;
      assert x == b.accountLast5.value by {
        assert line[|LastFivePrefix|..] == x;
        assert LastFiveLine(b)[|LastFivePrefix|..] == b.accountLast5.value;
      }
    }
  }

  /** The item lines start with the number `1`. */
  lemma ItemLinesHead(items: seq<OrderItem>)
    requires |items| > 0
    ensures |ItemLines(items)| > 0 && ItemLines(items)[0] == '1'
  {
    var parts := ItemLineList(items);
    assert parts[0] == ItemLine(0, items[0]);
    assert NatToString(1) == ['1'];
    JoinHead(parts, "\n");
  }

  /** The customer's summary line gives the number of items, which reads
      back as that number. */
  lemma CustomerCount(b: Body, total: string)
    requires Complete(b)
    ensures var line := CustomerParts(b, total)[5];
      StartsWith(line, "商品 ") && ParseDigits(line[|"商品 "|..|"商品 "| + |NatToString(|b.items.value|)|]) == |b.items.value|
  {
    var n := |b.items.value|;
    var line := CustomerParts(b, total)[5];
    assert line[|"商品 "|..|"商品 "| + |NatToString(n)|] == NatToString(n);
    ParseNatToString(n);
  }

  /** The owner's message keeps every non-empty part in order and no empty
      one. */
  lemma AdminLinesNonEmpty(b: Body, total: string, id: nat)
    requires Complete(b)
    ensures var kept := NonEmpty(AdminParts(b, total, id));
      "" !in kept && ("💰 預估總額：¥" + total) in kept && ("🆔 訂單 ID：" + NatToString(id)) in kept
  {
    var parts := AdminParts(b, total, id);
    assert parts[12] == "💰 預估總額：¥" + total && parts[13] == "🆔 訂單 ID：" + NatToString(id);
  }
}
