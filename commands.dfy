/** What both webhook handlers share: the two text commands they answer the
    same way, `查ID` and the customer-service request that starts with `🙋‍♂️`
    (server/api/webhook.post.ts:266-297, server/api/webhook.ts:219-250), the
    apology both send when a product link cannot be shown, and the tests
    that route an event. */
module Commands {
  import opened Js
  import opened Text
  import opened Transport
  import opened CartStore

  /** The shop owner's LINE user id. */
  const AdminUserId: string := "Ud2d92728dfaf5241e62b1cb167e6973a"

  const IdCommand: string := "查ID"
  const ServicePrefix: string := "🙋‍♂️"
  const ServiceAck: string := "收到您的詢問！👩‍💻\n專員正在確認日本庫存與今日匯率，請稍候，我們會盡快以人工回覆您！"
  const UnknownCustomer: string := "未知客戶"
  const Apology: string := "抱歉，讀取網頁發生錯誤 > <"

  /** An absent user id renders as `undefined`. */
  function IdText(userId: Option<string>): string {
    "您的 User ID 是：\n" + (if userId.Some? then userId.value else "undefined")
  }

  /** The display name, or the default when there is no user id or
      `getProfile` fails. */
  function UserName(userId: Option<string>, profile: string -> Option<string>): (r: string)
    ensures !Truthy(userId) ==> r == UnknownCustomer
  {
    if Truthy(userId) && profile(userId.value).Some? then profile(userId.value).value else UnknownCustomer
  }

  function QuoteRequest(name: string, userText: string): string {
    "🔔 新的報價請求！\n------------------\n👤 客人：" + name + "\n\n📝 內容：\n" + userText
  }

  /** The request's sends: the acknowledgement through `sendReplyOrPush`,
      then, only when that returned, the push telling the owner, whose
      failure is swallowed. */
  function ServiceEffect(used: bool, token: Option<string>, userId: Option<string>, userText: string,
                         profile: string -> Option<string>, out: nat -> SendOutcome, n: nat): Effect
  {
    var e := ReplyOrPush(used, token, userId, Text(ServiceAck), out(n), out(n + 1));
    if e.ok then Effect(e.sends + [Push(AdminUserId, Text(QuoteRequest(UserName(userId, profile), userText)))], e.used, true)
    else e
  }

  method CustomerService(ch: Channel, userText: string, profile: string -> Option<string>) returns (ok: bool)
    modifies ch, ch.line
    ensures var e := ServiceEffect(old(ch.replyTokenUsed), ch.replyToken, ch.userId, userText, profile,
                                   ch.line.outcome, |old(ch.line.log)|);
      ch.line.log == old(ch.line.log) + e.sends && ch.replyTokenUsed == e.used && ok == e.ok
  {
    ok := ch.SendReplyOrPush(Text(ServiceAck));
    if !ok {
      return;
    }
    var name := UserName(ch.userId, profile);
    var _ := ch.line.Push(AdminUserId, Text(QuoteRequest(name, userText)));
  }

  /** The owner is told of every acknowledged request, right after the
      acknowledgement and whatever the outcome of that push; when the
      acknowledgement throws, only the acknowledgement was attempted. */
  lemma OwnerToldAfterAck(used: bool, token: Option<string>, userId: Option<string>, userText: string,
                          profile: string -> Option<string>, out: nat -> SendOutcome, n: nat)
    ensures var e := ServiceEffect(used, token, userId, userText, profile, out, n);
      var owner := Push(AdminUserId, Text(QuoteRequest(UserName(userId, profile), userText)));
      (e.ok ==> |e.sends| >= 2 && e.sends[|e.sends| - 1] == owner && e.sends[|e.sends| - 2].message == Text(ServiceAck))
      && (!e.ok ==> forall i :: 0 <= i < |e.sends| ==> e.sends[i].message == Text(ServiceAck))
  {
    var a := ReplyOrPush(used, token, userId, Text(ServiceAck), out(n), out(n + 1));
    AckMessages(used, token, userId, out(n), out(n + 1));
    if a.ok {
      var owner := Push(AdminUserId, Text(QuoteRequest(UserName(userId, profile), userText)));
      var s := a.sends + [owner];
      assert s[|s| - 2] == a.sends[|a.sends| - 1];
    }
  }

  /** Every send of the acknowledgement carries it, and one that returned
      made at least one send. */
  lemma AckMessages(used: bool, token: Option<string>, userId: Option<string>, o1: SendOutcome, o2: SendOutcome)
    ensures var a := ReplyOrPush(used, token, userId, Text(ServiceAck), o1, o2);
      (forall i :: 0 <= i < |a.sends| ==> a.sends[i].message == Text(ServiceAck))
      && (a.ok ==> |a.sends| >= 1)
  {
  }

  /** A buy postback that reaches the store: not redelivered, with a user
      id and `action=buy`. */
  predicate IsBuy(ev: Event) {
    !ev.isRedelivery && ev.kind.PostbackEvent? && Truthy(ev.userId) && Get(ev.kind.data, "action") == Some("buy")
  }

  /** A text message that is neither of the two commands. */
  predicate IsPlainText(ev: Event) {
    !ev.isRedelivery && ev.kind.TextEvent?
    && Trim(ev.kind.text) != IdCommand && !StartsWith(Trim(ev.kind.text), ServicePrefix)
  }

  // ---------------------------------------------------------------
  // One event and the batch, on values
  // ---------------------------------------------------------------

  /** The LINE log and the cart table, as the events leave them. */
  datatype World = World(log: seq<Send>, rows: seq<CartRow>, nextId: nat, writes: nat)

  function WorldOf(line: Line, table: CartTable): World
    reads line, table
  {
    World(line.log, table.rows, table.nextId, table.writes)
  }

  /** An event's first `sendReplyOrPush`: its channel is fresh, and the call
      gets the next two outcomes. */
  function Say(ev: Event, m: Message, out: nat -> SendOutcome, n: nat): Effect {
    ReplyOrPush(false, ev.replyToken, ev.userId, m, out(n), out(n + 1))
  }

  /** The world after a call's sends, and whether the call returned. */
  function Sent(w: World, e: Effect): (World, bool) {
    (w.(log := w.log + e.sends), e.ok)
  }

  /** `Promise.all` over a batch, the events run one after another: the world
      each leaves and whether its promise resolved. */
  function Runs(events: seq<Event>, w: World, step: (Event, World) -> (World, bool)): (r: (World, seq<bool>))
    ensures |r.1| == |events|
    decreases |events|
  {
    if events == [] then (w, [])
    else
      var p := Runs(events[..|events| - 1], w, step);
      var s := step(events[|events| - 1], p.0);
      (s.0, p.1 + [s.1])
  }

  /** Running one more event extends the run by that event's step. */
  lemma RunsSnoc(events: seq<Event>, w: World, step: (Event, World) -> (World, bool), i: nat, s: (World, bool))
    requires i < |events| && s == step(events[i], Runs(events[..i], w, step).0)
    ensures Runs(events[..i + 1], w, step) == (s.0, Runs(events[..i], w, step).1 + [s.1])
  {
    assert events[..i + 1][..i] == events[..i];
  }

  /** Every event of the batch runs, on the world the events before it
      left, and its result is that run's. */
  lemma {:induction false} RunsEach(events: seq<Event>, w: World, step: (Event, World) -> (World, bool), i: nat)
    requires i < |events|
    ensures Runs(events, w, step).1[i] == step(events[i], Runs(events[..i], w, step).0).1
  {
    var k := |events| - 1;
    var init := events[..k];
    if i < k {
      RunsEach(init, w, step, i);
      assert init[..i] == events[..i];
    }
  }
}
