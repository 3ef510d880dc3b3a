/** The per-event delivery closures of both webhook handlers
    (server/api/webhook.post.ts:67-139, server/api/webhook.ts:79-151): the
    LINE client is a class with a log of attempted sends and an oracle giving
    each attempt's outcome; each event owns a channel with its
    `replyTokenUsed` flag. */
module Transport {
  import opened Js
  import opened Text

  // ---------------------------------------------------------------
  // Messages and the invalid-token classifier
  // ---------------------------------------------------------------

  /** What a button does: a postback with its parameters (the encoded query
      string is modelled by its key/value pairs), a message to send, or a
      link. */
  datatype Action = PostbackAction(data: seq<(string, string)>) | MessageAction(text: string) | UriAction(uri: string)

  datatype Button = Button(name: string, caption: string, action: Action)

  /** One carousel card, without its styling: its image, the texts it shows,
      its size buttons and the page its link opens. */
  datatype Card = Card(image: string, title: string, color: string, price: string, notes: seq<string>, buttons: seq<Button>, link: string)

  datatype Message = Text(text: string) | Carousel(altText: string, cards: seq<Card>)

  /** `response.data` of a LINE API error: `message` when it is a string, and
      `details` when it is an array (each detail's `message` when a string). */
  datatype ErrorData = ErrorData(message: Option<string>, details: Option<seq<Option<string>>>)

  /** A thrown error: the `data` of `originalError.response` and of
      `response`, when present. */
  datatype ErrorInfo = ErrorInfo(originalData: Option<ErrorData>, responseData: Option<ErrorData>)

  const InvalidToken: string := "invalid reply token"

  function ErrorDetail(e: ErrorInfo): ErrorData {
    if e.originalData.Some? then e.originalData.value
    else if e.responseData.Some? then e.responseData.value
    else ErrorData(None, None)
  }

  function LowerOrEmpty(m: Option<string>): string {
    if m.Some? then Lower(m.value) else ""
  }

  /** The detail messages, lower-cased and joined with spaces. */
  function NestedMessages(d: ErrorData): string {
    if d.details.None? then ""
    else
      var ds := d.details.value;
      Join(seq(|ds|, i requires 0 <= i < |ds| => LowerOrEmpty(ds[i])), " ")
  }

  /** `isInvalidReplyTokenError`. */
  predicate IsInvalidReplyTokenError(e: ErrorInfo) {
    var d := ErrorDetail(e);
    Contains(LowerOrEmpty(d.message), InvalidToken) || Contains(NestedMessages(d), InvalidToken)
  }

  /** An error without response data is never an invalid-token error. */
  lemma NoDataNotInvalid()
    ensures !IsInvalidReplyTokenError(ErrorInfo(None, None))
  {
    assert !Contains("", InvalidToken);
  }

  /** The top-level message is matched without regard to case. */
  lemma TopLevelMatch(m: string)
    requires Contains(Lower(m), InvalidToken)
    ensures IsInvalidReplyTokenError(ErrorInfo(None, Some(ErrorData(Some(m), None))))
  {
  }

  /** Since the details are joined with spaces, the phrase is found across two
      details although neither holds it. */
  lemma JoinedDetailsMatch()
    ensures IsInvalidReplyTokenError(ErrorInfo(None, Some(ErrorData(None, Some([Some("Invalid reply"), Some("token")])))))
    ensures !Contains(Lower("Invalid reply"), InvalidToken) && !Contains(Lower("token"), InvalidToken)
  {
    var ds: seq<Option<string>> := [Some("Invalid reply"), Some("token")];
    var parts := seq(|ds|, i requires 0 <= i < |ds| => LowerOrEmpty(ds[i]));
    LowerLiteral("Invalid reply", "invalid reply");
    LowerLiteral("token", "token");
    assert parts[0] == "invalid reply" && parts[1] == "token";
    assert Join(parts, " ") == "invalid reply" + " " + Join(parts[1..], " ");
    assert Join(parts, " ") == "invalid reply token";
    assert OccursAt("invalid reply token", InvalidToken, 0);
    ShorterNotContained("invalid reply", InvalidToken);
    ShorterNotContained(Lower("token"), InvalidToken);
  }

  lemma LowerLiteral(s: string, t: string)
    requires |s| == |t| && forall i :: 0 <= i < |s| ==> LowerChar(s[i]) == t[i]
    ensures Lower(s) == t
  {
  }

  lemma ShorterNotContained(s: string, p: string)
    requires |s| < |p|
    ensures !Contains(s, p)
  {
  }

  // ---------------------------------------------------------------
  // Webhook events
  // ---------------------------------------------------------------

  /** A postback's data, decoded by `URLSearchParams` (the percent-encoding
      itself is not modelled), a text message, or any other event. */
  datatype EventKind = PostbackEvent(data: seq<(string, string)>) | TextEvent(text: string) | OtherEvent

  datatype Event = Event(kind: EventKind, userId: Option<string>, replyToken: Option<string>, isRedelivery: bool)

  /** `URLSearchParams.get`: the first value stored under the key. */
  function Get(data: seq<(string, string)>, key: string): Option<string> {
    if data == [] then None
    else if data[0].0 == key then Some(data[0].1)
    else Get(data[1..], key)
  }

  /** A value is found exactly when some pair has the key, and it is stored
      under that key. */
  lemma {:induction false} GetFound(data: seq<(string, string)>, key: string)
    ensures Get(data, key).Some? <==> exists i :: 0 <= i < |data| && data[i].0 == key
    ensures Get(data, key).Some? ==> (key, Get(data, key).value) in data
  {
    if data != [] && data[0].0 != key {
      GetFound(data[1..], key);
      if exists i :: 0 <= i < |data| && data[i].0 == key {
        var i :| 0 <= i < |data| && data[i].0 == key;
        assert data[1..][i - 1].0 == key;
      }
    }
  }

  /** The first pair with a key wins over any later pair with that key. */
  lemma {:induction false} GetIndex(data: seq<(string, string)>, i: nat)
    requires i < |data| && forall j :: 0 <= j < i ==> data[j].0 != data[i].0
    ensures Get(data, data[i].0) == Some(data[i].1)
  {
    if i > 0 {
      GetIndex(data[1..], i - 1);
    }
  }

  /** A key found in the first part is read from there. */
  lemma {:induction false} GetAppend(a: seq<(string, string)>, b: seq<(string, string)>, key: string)
    requires Get(a, key).Some?
    ensures Get(a + b, key) == Get(a, key)
  {
    if a[0].0 != key {
      assert (a + b)[1..] == a[1..] + b;
      GetAppend(a[1..], b, key);
    }
  }

  // ---------------------------------------------------------------
  // The LINE client
  // ---------------------------------------------------------------

  datatype Send = Reply(token: string, message: Message) | Push(to: string, message: Message)

  datatype SendOutcome = Delivered | Failed(error: ErrorInfo)

  predicate IsReply(s: Send) {
    s.Reply?
  }

  /** `client.replyMessage` and `client.pushMessage`: each attempt is logged,
      and the `k`-th attempt gets `outcome(k)`. */
  class Line {
    var log: seq<Send>
    const outcome: nat -> SendOutcome

    constructor (outcome: nat -> SendOutcome)
      ensures this.outcome == outcome && log == []
    {
      this.outcome := outcome;
      log := [];
    }

    method Reply(token: string, message: Message) returns (r: SendOutcome)
      modifies this
      ensures log == old(log) + [Send.Reply(token, message)]
      ensures r == outcome(|old(log)|)
    {
      r := outcome(|log|);
      log := log + [Send.Reply(token, message)];
    }

    method Push(to: string, message: Message) returns (r: SendOutcome)
      modifies this
      ensures log == old(log) + [Send.Push(to, message)]
      ensures r == outcome(|old(log)|)
    {
      r := outcome(|log|);
      log := log + [Send.Push(to, message)];
    }
  }

  // ---------------------------------------------------------------
  // What one send call does
  // ---------------------------------------------------------------

  /** The sends attempted, the flag afterwards, and whether the call returned
      normally (false: it threw). */
  datatype Effect = Effect(sends: seq<Send>, used: bool, ok: bool)

  /** `sendPushOnly`: without a user id it throws before sending. */
  function PushOnly(used: bool, userId: Option<string>, m: Message, o: SendOutcome): (e: Effect)
    ensures e.used == used
    ensures forall i :: 0 <= i < |e.sends| ==> !IsReply(e.sends[i])
    ensures e.ok ==> Truthy(userId) && e.sends == [Push(userId.value, m)]
  {
    if !Truthy(userId) then Effect([], used, false)
    else Effect([Push(userId.value, m)], used, o.Delivered?)
  }

  predicate CanReply(used: bool, token: Option<string>) {
    !used && Truthy(token)
  }

  /** `sendReplyOrPush`, given the outcomes `o1` and `o2` of the next two
      attempts. */
  function ReplyOrPush(used: bool, token: Option<string>, userId: Option<string>, m: Message, o1: SendOutcome, o2: SendOutcome): Effect {
    if CanReply(used, token) then
      match o1
      case Delivered => Effect([Reply(token.value, m)], true, true)
      case Failed(err) =>
        if IsInvalidReplyTokenError(err) then
          var p := PushOnly(true, userId, m, o2);
          Effect([Reply(token.value, m)] + p.sends, true, p.ok)
        else Effect([Reply(token.value, m)], used, false)
    else PushOnly(used, userId, m, o1)
  }

  /** `sendReplyOnlyIfPossible`. */
  function ReplyOnlyIfPossible(used: bool, token: Option<string>, m: Message, o1: SendOutcome): Effect {
    if !CanReply(used, token) then Effect([], used, true)
    else
      match o1
      case Delivered => Effect([Reply(token.value, m)], true, true)
      case Failed(err) =>
        if IsInvalidReplyTokenError(err) then Effect([Reply(token.value, m)], true, true)
        else Effect([Reply(token.value, m)], used, false)
  }

  function Replies(ss: seq<Send>): nat {
    if ss == [] then 0 else Replies(ss[..|ss| - 1]) + (if IsReply(ss[|ss| - 1]) then 1 else 0)
  }

  lemma {:induction false} RepliesAppend(a: seq<Send>, b: seq<Send>)
    ensures Replies(a + b) == Replies(a) + Replies(b)
    decreases |b|
  {
    if b == [] {
      assert a + b == a;
    } else {
      assert (a + b)[..|a + b| - 1] == a + b[..|b| - 1];
      RepliesAppend(a, b[..|b| - 1]);
    }
  }

  lemma NoReplies(ss: seq<Send>)
    requires forall i :: 0 <= i < |ss| ==> !IsReply(ss[i])
    ensures Replies(ss) == 0
  {
    if ss != [] {
      NoReplies(ss[..|ss| - 1]);
    }
  }

  /** The reply channel is used only when a token exists and the flag is
      unset, and then once; a call that replied leaves the flag set, except
      after an error that is not an invalid-token error. */
  lemma ReplyOrPushReplies(used: bool, token: Option<string>, userId: Option<string>, m: Message, o1: SendOutcome, o2: SendOutcome)
    ensures var e := ReplyOrPush(used, token, userId, m, o1, o2);
      Replies(e.sends) <= 1
      && (Replies(e.sends) == 1 <==> CanReply(used, token))
      && (CanReply(used, token) && e.used != true ==> o1.Failed? && !IsInvalidReplyTokenError(o1.error) && !e.ok)
  {
    var e := ReplyOrPush(used, token, userId, m, o1, o2);
    if CanReply(used, token) {
      assert Replies([Reply(token.value, m)]) == 1 by {
        assert [Reply(token.value, m)][..0] == [];
      }
      var p := PushOnly(true, userId, m, o2);
      NoReplies(p.sends);
      RepliesAppend([Reply(token.value, m)], p.sends);
    } else {
      NoReplies(e.sends);
    }
  }

  /** A successful reply sets the flag and pushes nothing. */
  lemma ReplySuccess(used: bool, token: Option<string>, userId: Option<string>, m: Message, o2: SendOutcome)
    requires CanReply(used, token)
    ensures ReplyOrPush(used, token, userId, m, Delivered, o2) == Effect([Reply(token.value, m)], true, true)
  {
  }

  /** An invalid-token failure sets the flag and pushes the same message
      once. */
  lemma InvalidTokenFallsBack(used: bool, token: Option<string>, userId: Option<string>, m: Message, err: ErrorInfo, o2: SendOutcome)
    requires CanReply(used, token) && IsInvalidReplyTokenError(err) && Truthy(userId)
    ensures ReplyOrPush(used, token, userId, m, Failed(err), o2)
      == Effect([Reply(token.value, m), Push(userId.value, m)], true, o2.Delivered?)
  {
  }

  /** Any other reply failure is rethrown: no push, and the flag stays
      unset. */
  lemma OtherErrorRethrown(used: bool, token: Option<string>, userId: Option<string>, m: Message, err: ErrorInfo, o2: SendOutcome)
    requires CanReply(used, token) && !IsInvalidReplyTokenError(err)
    ensures ReplyOrPush(used, token, userId, m, Failed(err), o2) == Effect([Reply(token.value, m)], false, false)
  {
  }

  /** Once the flag is set, a call only pushes. */
  lemma FlagSetOnlyPushes(token: Option<string>, userId: Option<string>, m: Message, o1: SendOutcome, o2: SendOutcome)
    ensures ReplyOrPush(true, token, userId, m, o1, o2) == PushOnly(true, userId, m, o1)
  {
  }

  /** `sendReplyOnlyIfPossible` never pushes, and throws only on a reply
      error that is not an invalid-token error. */
  lemma ReplyOnlyNeverPushes(used: bool, token: Option<string>, m: Message, o1: SendOutcome)
    ensures var e := ReplyOnlyIfPossible(used, token, m, o1);
      (forall i :: 0 <= i < |e.sends| ==> IsReply(e.sends[i]))
      && (!e.ok <==> CanReply(used, token) && o1.Failed? && !IsInvalidReplyTokenError(o1.error))
  {
  }

  /** As written, a reply that fails with another error leaves the flag
      unset, so a second `sendReplyOrPush` in the same event (the apology
      after a failed carousel) tries the same token again. */
  lemma SecondReplyAttempt(token: string, userId: Option<string>, m1: Message, m2: Message, err: ErrorInfo, o: SendOutcome)
    requires token != "" && !IsInvalidReplyTokenError(err)
    ensures var e1 := ReplyOrPush(false, Some(token), userId, m1, Failed(err), o);
      var e2 := ReplyOrPush(e1.used, Some(token), userId, m2, o, o);
      !e1.ok && e1.sends == [Reply(token, m1)] && e2.sends[0] == Reply(token, m2)
  {
  }

  // ---------------------------------------------------------------
  // The per-event channel
  // ---------------------------------------------------------------

  /** One event's closures: its user, its reply token and its
      `replyTokenUsed` flag, which starts unset. */
  class Channel {
    const line: Line
    const userId: Option<string>
    const replyToken: Option<string>
    var replyTokenUsed: bool

    constructor (line: Line, userId: Option<string>, replyToken: Option<string>)
      ensures this.line == line && this.userId == userId && this.replyToken == replyToken
      ensures !replyTokenUsed
    {
      this.line := line;
      this.userId := userId;
      this.replyToken := replyToken;
      replyTokenUsed := false;
    }

    method SendPushOnly(m: Message) returns (ok: bool)
      modifies line
      ensures var e := PushOnly(replyTokenUsed, userId, m, line.outcome(|old(line.log)|));
        line.log == old(line.log) + e.sends && ok == e.ok
    {
      if !Truthy(userId) {
        return false;
      }
      var r := line.Push(userId.value, m);
      ok := r.Delivered?;
    }

    method SendReplyOrPush(m: Message) returns (ok: bool)
      modifies this, line
      ensures var n := |old(line.log)|;
        var e := ReplyOrPush(old(replyTokenUsed), replyToken, userId, m, line.outcome(n), line.outcome(n + 1));
        line.log == old(line.log) + e.sends && replyTokenUsed == e.used && ok == e.ok
    {
      if !replyTokenUsed && Truthy(replyToken) {
        var r := line.Reply(replyToken.value, m);
        if r.Delivered? {
          replyTokenUsed := true;
          return true;
        }
        if !IsInvalidReplyTokenError(r.error) {
          return false;
        }
        replyTokenUsed := true;
      }
      ok := SendPushOnly(m);
    }

    method SendReplyOnlyIfPossible(m: Message) returns (ok: bool)
      modifies this, line
      ensures var e := ReplyOnlyIfPossible(old(replyTokenUsed), replyToken, m, line.outcome(|old(line.log)|));
        line.log == old(line.log) + e.sends && replyTokenUsed == e.used && ok == e.ok
    {
      if !(!replyTokenUsed && Truthy(replyToken)) {
        return true;
      }
      var r := line.Reply(replyToken.value, m);
      if r.Delivered? || IsInvalidReplyTokenError(r.error) {
        replyTokenUsed := true;
        return true;
      }
      return false;
    }
  }
}
