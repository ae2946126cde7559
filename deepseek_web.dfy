/// The DeepSeek web-chat backend of AI renaming: recognising an expired
/// token, the one-shot expiry notification, reading the server-sent-event
/// stream of a reply into its text and message id, and the two generate
/// entry points that keep a conversation going across calls.
module DeepseekWeb {
  import opened Common
  import opened Json
  import AiRename
  import Notification

  /// Business codes the API answers with when the token is not usable.
  const TOKEN_EXPIRED_CODES: set<int> := {40100, 40101, 40102, 40103}

  const HTTP_OK: nat := 200
  const HTTP_UNAUTHORIZED: nat := 401

  /// How many bytes of an unreadable reply an error message quotes.
  const PREVIEW_BYTES: nat := 200

  const TOKEN_EXPIRED_MESSAGE: string :=
    "DeepSeek Web Token 已过期或无效，请重新获取 Token。\n获取方法：\n" +
    "1. 浏览器打开 https://chat.deepseek.com 并登录\n" +
    "2. 按 F12 打开开发者工具 → Network 标签\n" +
    "3. 刷新页面，找到任意请求的 Authorization 头\n" +
    "4. 复制 Bearer 后面的值到系统设置"

  const UNKNOWN_ERROR: string := "未知错误"
  const EMPTY_NAME_MESSAGE: string := "DeepSeek 生成的文件名为空"

  /// A conversation: its id and the message the next one answers.
  datatype DeepSeekSession = DeepSeekSession(sessionId: string, parentMessageId: Option<string>)

  // ---------------------------------------------------------------------
  // Token errors
  // ---------------------------------------------------------------------

  /// A lower-cased message that talks about authentication.
  predicate MentionsAuth(lower: string)
  {
    Contains(lower, "token") || Contains(lower, "unauthorized") || Contains(lower, "expire")
    || Contains(lower, "invalid") || Contains(lower, "authentication")
  }

  /// `is_token_error`: an HTTP 401, one of the expiry codes, or a message
  /// that mentions authentication in any letter case.
  function IsTokenError(status: nat, code: Option<int>, msg: Option<string>): (r: bool)
    ensures status == HTTP_UNAUTHORIZED ==> r
    ensures code.Some? && code.value in TOKEN_EXPIRED_CODES ==> r
    ensures msg.Some? && MentionsAuth(ToLower(msg.value)) ==> r
    ensures r ==> status == HTTP_UNAUTHORIZED || (code.Some? && code.value in TOKEN_EXPIRED_CODES)
                  || (msg.Some? && MentionsAuth(ToLower(msg.value)))
  {
    if status == HTTP_UNAUTHORIZED then true
    else if code.Some? && code.value in TOKEN_EXPIRED_CODES then true
    else if msg.Some? then MentionsAuth(ToLower(msg.value))
    else false
  }

  lemma ToLowerIdempotent(s: string)
    ensures ToLower(ToLower(s)) == ToLower(s)
  {
    assert forall i :: 0 <= i < |s| ==> ToLowerChar(ToLowerChar(s[i])) == ToLowerChar(s[i]);
  }

  /// The message test ignores letter case: lower-casing the message first
  /// never changes the verdict.
  lemma TokenErrorIgnoresCase(status: nat, code: Option<int>, msg: string)
    ensures IsTokenError(status, code, Some(msg)) == IsTokenError(status, code, Some(ToLower(msg)))
  {
    ToLowerIdempotent(msg);
  }

  /// The proof-of-work rejection `{"code":40301,"msg":"Invalid PoW response"}`
  /// is classified as an expired token, because its message contains
  /// "invalid".
  lemma PowRejectionCountsAsTokenError()
    ensures 40301 !in TOKEN_EXPIRED_CODES
    ensures IsTokenError(HTTP_OK, Some(40301), Some("Invalid PoW response"))
  {
    var lower := ToLower("Invalid PoW response");
    assert lower[..7] == "invalid";
    assert StartsWith(lower, "invalid");
  }

  /// `code as i32`: the low 32 bits, read as a signed number.
  function WrapI32(x: int): (r: int)
    ensures I32_MIN <= r <= I32_MAX
    ensures (r - x) % 0x1_0000_0000 == 0
    ensures I32_MIN <= x <= I32_MAX ==> r == x
  {
    (x - I32_MIN) % 0x1_0000_0000 + I32_MIN
  }

  /// The process-wide "already notified" flag behind `token_expired_error`.
  class TokenNotifier {
    var notified: bool

    constructor ()
      ensures !notified
    {
      notified := false;
    }

    /// `token_expired_error`: the expiry message, and whether this call is
    /// the one that sends the notification (the first since the last reset).
    method TokenExpiredError() returns (message: string, notify: bool)
      modifies this
      ensures notified
      ensures notify == !old(notified)
      ensures message == TOKEN_EXPIRED_MESSAGE
    {
      notify := !notified;
      notified := true;
      message := TOKEN_EXPIRED_MESSAGE;
    }

    /// `reset_token_expired_flag`: the next expiry notifies again.
    method ResetTokenExpiredFlag()
      modifies this
      ensures !notified
    {
      notified := false;
    }
  }

  /// However many expiries follow one another, only the first notifies.
  method NotifyOnce(notifier: TokenNotifier, times: nat) returns (sent: nat)
    requires !notifier.notified
    modifies notifier
    ensures times > 0 ==> sent == 1
    ensures times == 0 ==> sent == 0
  {
    sent := 0;
    var k := 0;
    while k < times
      invariant 0 <= k <= times
      invariant notifier.notified <==> k > 0
      invariant sent == if k > 0 then 1 else 0
    {
      var _, notify := notifier.TokenExpiredError();
      if notify {
        sent := sent + 1;
      }
      k := k + 1;
    }
  }

  // ---------------------------------------------------------------------
  // A JSON error instead of a stream
  // ---------------------------------------------------------------------

  datatype ApiError = ApiError(code: int, msg: string)

  /// A body that starts with `{`, has no `data:` in it, parses, and carries
  /// a non-zero integer `code` is an API error; its `msg` defaults to
  /// "unknown error".
  function JsonError(body: string, parse: string -> Option<Json>): (r: Option<ApiError>)
    ensures r.Some? ==> StartsWith(body, "{") && !Contains(body, "data:")
    ensures r.Some? ==> r.value.code != 0 && I64_MIN <= r.value.code <= I64_MAX
    ensures r.Some? ==> parse(body).Some? && AsI64(Get(parse(body).value, "code")) == Some(r.value.code)
  {
    if StartsWith(body, "{") && !Contains(body, "data:") then
      match parse(body)
      case None => None
      case Some(json) =>
        match AsI64(Get(json, "code"))
        case None => None
        case Some(code) =>
          if code == 0 then None
          else Some(ApiError(code, AsStr(Get(json, "msg")).UnwrapOr(UNKNOWN_ERROR)))
    else None
  }

  function ApiErrorMessage(e: ApiError): string
  {
    "API 错误: code=" + IntToString(e.code) + ", msg=" + e.msg
  }

  /// A body that has a `data:` anywhere is always read as a stream.
  lemma StreamIsNeverJsonError(body: string, parse: string -> Option<Json>)
    requires Contains(body, "data:")
    ensures JsonError(body, parse).None?
  {
  }

  // ---------------------------------------------------------------------
  // The stream
  // ---------------------------------------------------------------------

  /// The event a line carries: a `data:` line whose trimmed payload is not
  /// empty and parses as JSON.
  function LineData(line: string, parse: string -> Option<Json>): (r: Option<Json>)
    ensures r.Some? ==> StartsWith(line, "data:") && Trim(line[5..]) != ""
    ensures r.Some? ==> r == parse(Trim(line[5..]))
  {
    if StartsWith(line, "data:") then
      var payload := Trim(line[5..]);
      if payload == "" then None else parse(payload)
    else None
  }

  /// A message id: an `i64` in decimal, or a string as it is.
  function IdText(id: Option<Json>): (r: Option<string>)
    ensures id.Some? && id.value.JString? ==> r == Some(id.value.s)
    ensures id.Some? && id.value.JInt? && I64_MIN <= id.value.i <= I64_MAX ==> r == Some(IntToString(id.value.i))
    ensures r.Some? ==> id.Some? && (id.value.JString? || id.value.JInt?)
  {
    match AsI64(id)
    case Some(n) => Some(IntToString(n))
    case None => AsStr(id)
  }

  /// The message id after one event: `response_message_id`, then
  /// `v.response.message_id`, each replacing what was known when present.
  function EventMessageId(data: Json, previous: Option<string>): (r: Option<string>)
    ensures IdText(GetIn(GetIn(Get(data, "v"), "response"), "message_id")).Some? ==>
              r == IdText(GetIn(GetIn(Get(data, "v"), "response"), "message_id"))
    ensures IdText(GetIn(GetIn(Get(data, "v"), "response"), "message_id")).None? ==>
              r == if IdText(Get(data, "response_message_id")).Some? then IdText(Get(data, "response_message_id")) else previous
  {
    var ready := IdText(Get(data, "response_message_id"));
    var fromReady := if ready.Some? then ready else previous;
    var inResponse := IdText(GetIn(GetIn(Get(data, "v"), "response"), "message_id"));
    if inResponse.Some? then inResponse else fromReady
  }

  /// Format 1: `p = "response"`, `o = "BATCH"`.
  predicate IsBatch(data: Json)
  {
    AsStr(Get(data, "p")) == Some("response") && AsStr(Get(data, "o")) == Some("BATCH")
  }

  /// Format 2: a `p` naming a fragment's content, appended to.
  predicate IsFragmentAppend(data: Json)
  {
    var p := AsStr(Get(data, "p"));
    p.Some? && Contains(p.value, "fragments") && Contains(p.value, "content")
    && AsStr(Get(data, "o")) == Some("APPEND")
  }

  /// Format 3: `p = "response/content"`.
  predicate IsResponseContent(data: Json)
  {
    AsStr(Get(data, "p")) == Some("response/content")
  }

  /// Format 4: no string `p` at all.
  predicate IsBare(data: Json)
  {
    AsStr(Get(data, "p")).None?
  }

  /// The `content` of one fragment, when it is a string.
  function ContentOf(fragment: Json): string
  {
    AsStr(Get(fragment, "content")).UnwrapOr("")
  }

  /// What `text` gives for each element, in order.
  function Collect<T>(xs: seq<T>, text: T -> string): string
  {
    if |xs| == 0 then ""
    else Collect(xs[..|xs| - 1], text) + text(xs[|xs| - 1])
  }

  /// What one item of a batch adds: its fragments when it is the
  /// `fragments` item.
  function ItemText(item: Json): string
  {
    if AsStr(Get(item, "p")) == Some("fragments") then
      match AsArray(Get(item, "v"))
      case Some(fragments) => Collect(fragments, ContentOf)
      case None => ""
    else ""
  }

  /// The text one event adds to the reply, by the first of the four
  /// formats it matches; other events add nothing.
  function EventText(data: Json): (r: string)
  {
    var v := Get(data, "v");
    if IsBatch(data) then
      match AsArray(v)
      case Some(items) => Collect(items, ItemText)
      case None => ""
    else if IsFragmentAppend(data) then AsStr(v).UnwrapOr("")
    else if IsResponseContent(data) then
      var op := AsStr(Get(data, "o")).UnwrapOr("");
      if op == "APPEND" || op == "" then AsStr(v).UnwrapOr("") else ""
    else if IsBare(data) then AsStr(v).UnwrapOr("")
    else ""
  }

  /// What one line adds to the reply.
  function LineText(line: string, parse: string -> Option<Json>): string
  {
    var data := LineData(line, parse);
    if data.Some? then EventText(data.value) else ""
  }



  /// `LineText` for one parser.
  function PerLine(parse: string -> Option<Json>): string -> string
  {
    line => LineText(line, parse)
  }

  /// The reply's text: what the events of the lines add, in order.
  function SseText(lines: seq<string>, parse: string -> Option<Json>): string
  {
    Collect(lines, PerLine(parse))
  }

  /// The reply's message id: the last one any event names.
  function SseMessageId(lines: seq<string>, parse: string -> Option<Json>): Option<string>
  {
    if |lines| == 0 then None
    else
      var data := LineData(lines[|lines| - 1], parse);
      var before := SseMessageId(lines[..|lines| - 1], parse);
      if data.Some? then EventMessageId(data.value, before) else before
  }

  lemma ContainsLength(s: string, sub: string)
    requires Contains(s, sub)
    ensures |sub| <= |s|
    decreases |s|
  {
    if !StartsWith(s, sub) {
      ContainsLength(s[1..], sub);
    }
  }

  lemma {:induction false} ContainsHead(s: string, sub: string)
    requires Contains(s, sub) && |sub| > 0
    ensures sub[0] in s
    decreases |s|
  {
    if StartsWith(s, sub) {
      assert s[0] == sub[0];
    } else {
      ContainsHead(s[1..], sub);
      assert s[1..] <= s[1..];
    }
  }

  /// The four formats never overlap, so the order in which they are tried
  /// does not decide what an event adds.
  lemma FormatsExclusive(data: Json)
    ensures !(IsBatch(data) && IsFragmentAppend(data))
    ensures !(IsBatch(data) && IsResponseContent(data))
    ensures !(IsFragmentAppend(data) && IsResponseContent(data))
    ensures !(IsBare(data) && (IsBatch(data) || IsFragmentAppend(data) || IsResponseContent(data)))
  {
    NoFragmentsIn("response");
    NoFragmentsIn("response/content");
  }

  /// Neither path of formats 1 and 3 names a fragment.
  lemma NoFragmentsIn(p: string)
    requires p == "response" || p == "response/content"
    ensures !Contains(p, "fragments")
  {
    if Contains(p, "fragments") {
      ContainsHead(p, "fragments");
    }
  }

  lemma {:induction false} CollectConcat<T>(a: seq<T>, b: seq<T>, text: T -> string)
    ensures Collect(a + b, text) == Collect(a, text) + Collect(b, text)
    decreases |b|
  {
    if |b| == 0 {
      assert a + b == a;
    } else {
      var front := b[..|b| - 1];
      assert (a + b)[..|a + b| - 1] == a + front;
      assert (a + b)[|a + b| - 1] == b[|b| - 1];
      CollectConcat(a, front, text);
    }
  }

  /// The stream can be cut anywhere between lines: the text of the whole
  /// is the text of the first part followed by that of the rest, and a line
  /// that is not a `data:` line adds nothing.
  lemma StreamSplits(a: seq<string>, line: string, b: seq<string>, parse: string -> Option<Json>)
    requires !StartsWith(line, "data:")
    ensures SseText(a + [line] + b, parse) == SseText(a, parse) + SseText(b, parse)
  {
    CollectConcat(a + [line], b, PerLine(parse));
    assert (a + [line])[..|a + [line]| - 1] == a;
    assert LineText(line, parse) == "";
  }

  lemma {:induction false} MessageIdConcat(a: seq<string>, b: seq<string>, parse: string -> Option<Json>)
    ensures SseMessageId(a + b, parse) ==
              if SseMessageId(b, parse).Some? then SseMessageId(b, parse) else SseMessageId(a, parse)
    decreases |b|
  {
    if |b| == 0 {
      assert a + b == a;
    } else {
      var front := b[..|b| - 1];
      assert (a + b)[..|a + b| - 1] == a + front;
      assert (a + b)[|a + b| - 1] == b[|b| - 1];
      MessageIdConcat(a, front, parse);
      var data := LineData(b[|b| - 1], parse);
      if data.Some? {
        EventMessageIdKeeps(data.value, SseMessageId(a + front, parse));
        EventMessageIdKeeps(data.value, SseMessageId(front, parse));
      }
    }
  }

  /// An event either names an id of its own, which wins, or passes the
  /// previous one on.
  lemma EventMessageIdKeeps(data: Json, previous: Option<string>)
    ensures EventMessageId(data, previous) == EventMessageId(data, None) || EventMessageId(data, None).None?
    ensures EventMessageId(data, None).Some? ==> EventMessageId(data, previous) == EventMessageId(data, None)
    ensures EventMessageId(data, None).None? ==> EventMessageId(data, previous) == previous
  {
  }

  // ---------------------------------------------------------------------
  // The preview quoted when nothing was read
  // ---------------------------------------------------------------------

  /// Byte offset `b` falls between two characters of `s` (or at its end).
  predicate BoundaryAt(s: string, b: nat)
    decreases |s|
  {
    b == 0 || (|s| > 0 && Utf8Width(s[0]) <= b && BoundaryAt(s[1..], b - Utf8Width(s[0])))
  }

  /// The outcome of `&body[..body.len().min(200)]`.
  datatype Sliced = Previewed(text: string) | Panicked

  function PreviewLength(body: string): (n: nat)
    ensures n <= PREVIEW_BYTES && n <= ByteLen(body)
    ensures n == PREVIEW_BYTES || n == ByteLen(body)
  {
    if ByteLen(body) < PREVIEW_BYTES then ByteLen(body) else PREVIEW_BYTES
  }

  /// The preview as written: a byte slice, which panics when byte 200 falls
  /// inside a character and is otherwise the first 200 bytes (or all).
  function PreviewAsWritten(body: string): (r: Sliced)
    ensures r.Panicked? <==> !BoundaryAt(body, PreviewLength(body))
    ensures r.Previewed? ==> StartsWith(body, r.text) && ByteLen(r.text) <= PreviewLength(body)
  {
    var n := PreviewLength(body);
    if BoundaryAt(body, n) then Previewed(Notification.TakeBytes(body, n)) else Panicked
  }

  /// `n` copies of one Chinese character, three bytes each.
  function Hanzi(n: nat): (s: string)
    ensures |s| == n
  {
    seq(n, i => '中')
  }

  lemma {:induction false} HanziBytes(k: nat)
    ensures ByteLen(Hanzi(k)) == 3 * k
  {
    if k > 0 {
      assert Hanzi(k)[1..] == Hanzi(k - 1);
      HanziBytes(k - 1);
    }
  }

  /// Within `k` Chinese characters, an offset `r` bytes (1 or 2) into
  /// the character after the `m`-th is no boundary.
  lemma {:induction false} HanziNoBoundary(k: nat, m: nat, r: nat)
    requires m < k && 1 <= r <= 2
    ensures !BoundaryAt(Hanzi(k), 3 * m + r)
  {
    var s := Hanzi(k);
    assert s[0] == '中' && Utf8Width(s[0]) == 3;
    if m > 0 {
      assert s[1..] == Hanzi(k - 1);
      HanziNoBoundary(k - 1, m - 1, r);
    }
  }

  /// A reply of one letter and 67 or more Chinese characters (over 200
  /// bytes) has no `data:` line, so nothing is read from it, and byte 200
  /// falls inside its 67th Chinese character: quoting it panics.
  lemma PreviewAsWrittenPanics(k: nat, parse: string -> Option<Json>)
    requires k >= 67
    ensures var body := "a" + Hanzi(k);
            SseText(Lines(body), parse) == "" && PreviewAsWritten(body).Panicked?
  {
    LetterThenHanzi(k, 66);
    NoTextWithoutData(k, parse);
  }

  /// After one letter, Chinese characters start at bytes 1, 4, 7, ...: the
  /// offset two bytes into the character after the `m`-th is no boundary.
  lemma LetterThenHanzi(k: nat, m: nat)
    requires m < k
    ensures ByteLen("a" + Hanzi(k)) == 1 + 3 * k
    ensures !BoundaryAt("a" + Hanzi(k), 3 * m + 2)
  {
    var body := "a" + Hanzi(k);
    assert body[1..] == Hanzi(k);
    HanziBytes(k);
    HanziNoBoundary(k, m, 1);
  }

  lemma NoTextWithoutData(k: nat, parse: string -> Option<Json>)
    ensures SseText(Lines("a" + Hanzi(k)), parse) == ""
  {
    var body := "a" + Hanzi(k);
    assert forall i :: 1 <= i < |body| ==> body[i] == '中';
    assert '\n' !in body;
    SingleLine(body);
    assert body[0] == 'a';
    assert !StartsWith(body, "data:");
    assert LineText(body, parse) == "";
    var lines: seq<string> := [body];
    assert lines[..0] == [];
    assert Collect(lines, PerLine(parse)) == Collect(lines[..0], PerLine(parse)) + PerLine(parse)(body);
  }

  /// A reply without a line break is one line.
  lemma SingleLine(s: string)
    requires '\n' !in s
    ensures Lines(s) == [s]
  {
  }

  /// The preview as intended: the longest whole-character prefix of at most
  /// 200 bytes.
  function Preview(body: string): (r: string)
    ensures StartsWith(body, r) && ByteLen(r) <= PREVIEW_BYTES
  {
    Notification.TakeBytes(body, PREVIEW_BYTES)
  }

  lemma {:induction false} TakeAll(s: string, budget: nat)
    requires ByteLen(s) <= budget
    ensures Notification.TakeBytes(s, budget) == s
    decreases |s|
  {
    if |s| > 0 {
      assert ByteLen(s) == Utf8Width(s[0]) + ByteLen(s[1..]);
      TakeAll(s[1..], budget - Utf8Width(s[0]));
    }
  }

  /// Wherever the slice as written does not panic, the intended preview is
  /// the same text; a reply under 200 bytes is quoted whole.
  lemma PreviewAgrees(body: string)
    ensures PreviewAsWritten(body).Previewed? ==> PreviewAsWritten(body).text == Preview(body)
    ensures ByteLen(body) <= PREVIEW_BYTES ==> Preview(body) == body
  {
    if ByteLen(body) < PREVIEW_BYTES {
      TakeAll(body, ByteLen(body));
    }
    if ByteLen(body) <= PREVIEW_BYTES {
      TakeAll(body, PREVIEW_BYTES);
    }
  }

  function EmptyReplyMessage(body: string): string
  {
    "DeepSeek 响应为空，原始响应: " + Preview(body) + "..."
  }

  // ---------------------------------------------------------------------
  // parse_sse_response
  // ---------------------------------------------------------------------

  /// Adds the contents of a fragment list, fragment by fragment.
  method AppendFragments(full: string, fragments: seq<Json>) returns (r: string)
    ensures r == full + Collect(fragments, ContentOf)
  {
    r := full;
    for j := 0 to |fragments|
      invariant r == full + Collect(fragments[..j], ContentOf)
    {
      assert fragments[..j + 1][..j] == fragments[..j];
      var content := AsStr(Get(fragments[j], "content"));
      if content.Some? {
        r := r + content.value;
      }
    }
    assert fragments[..|fragments|] == fragments;
  }

  /// Adds the text of a batch event, item by item.
  method AppendBatch(full: string, items: seq<Json>) returns (r: string)
    ensures r == full + Collect(items, ItemText)
  {
    r := full;
    for k := 0 to |items|
      invariant r == full + Collect(items[..k], ItemText)
    {
      assert items[..k + 1][..k] == items[..k];
      var before := r;
      if AsStr(Get(items[k], "p")) == Some("fragments") {
        var fragments := AsArray(Get(items[k], "v"));
        if fragments.Some? {
          r := AppendFragments(r, fragments.value);
        }
      }
      assert r == before + ItemText(items[k]);
    }
    assert items[..|items|] == items;
  }

  /// Adds the text of one event; only a batch needs more than one step.
  method AppendEvent(full: string, data: Json) returns (r: string)
    ensures r == full + EventText(data)
  {
    var items := AsArray(Get(data, "v"));
    if IsBatch(data) && items.Some? {
      r := AppendBatch(full, items.value);
    } else {
      r := full + EventText(data);
    }
  }

  /// The loop over the body's lines: each `data:` event adds its text and
  /// may name the message id.
  method ReadStream(lines: seq<string>, parse: string -> Option<Json>) returns (full: string, messageId: Option<string>)
    ensures full == SseText(lines, parse)
    ensures messageId == SseMessageId(lines, parse)
  {
    full := "";
    messageId := None;
    for i := 0 to |lines|
      invariant full == SseText(lines[..i], parse)
      invariant messageId == SseMessageId(lines[..i], parse)
    {
      assert lines[..i + 1][..i] == lines[..i];
      var data := LineData(lines[i], parse);
      if data.Some? {
        messageId := EventMessageId(data.value, messageId);
        full := AppendEvent(full, data.value);
      }
    }
    assert lines[..|lines|] == lines;
  }

  /// `parse_sse_response`: a JSON error body is an error (the expiry
  /// message when it is a token error, sending the notification once);
  /// otherwise the reply is the text of the stream's events and the last
  /// message id, and a stream with no text is an error quoting the body.
  method ParseSseResponse(notifier: TokenNotifier, body: string, parse: string -> Option<Json>)
      returns (r: Result<(string, Option<string>)>, notify: bool)
    modifies notifier
    ensures JsonError(body, parse).Some? ==> r.Err?
    ensures var e := JsonError(body, parse);
            e.Some? && IsTokenError(HTTP_OK, Some(WrapI32(e.value.code)), Some(e.value.msg)) ==>
              r == Err(TOKEN_EXPIRED_MESSAGE) && notifier.notified && notify == !old(notifier.notified)
    ensures var e := JsonError(body, parse);
            e.Some? && !IsTokenError(HTTP_OK, Some(WrapI32(e.value.code)), Some(e.value.msg)) ==>
              r == Err(ApiErrorMessage(e.value)) && notifier.notified == old(notifier.notified) && !notify
    ensures JsonError(body, parse).None? ==>
              notifier.notified == old(notifier.notified) && !notify &&
              r == if SseText(Lines(body), parse) == "" then Err(EmptyReplyMessage(body))
                   else Ok((SseText(Lines(body), parse), SseMessageId(Lines(body), parse)))
  {
    var e := JsonError(body, parse);
    if e.Some? {
      if IsTokenError(HTTP_OK, Some(WrapI32(e.value.code)), Some(e.value.msg)) {
        var message;
        message, notify := notifier.TokenExpiredError();
        return Err(message), notify;
      }
      return Err(ApiErrorMessage(e.value)), false;
    }
    notify := false;
    var full, messageId := ReadStream(Lines(body), parse);
    if full == "" {
      return Err(EmptyReplyMessage(body)), false;
    }
    return Ok((full, messageId)), false;
  }

  // ---------------------------------------------------------------------
  // Generating
  // ---------------------------------------------------------------------

  /// Where the next message goes: the given conversation and the message it
  /// answers, or a new conversation (`created`, the outcome of
  /// `create_session`) answering nothing.
  function SendTarget(session: Option<DeepSeekSession>, created: Result<string>): (r: Result<(string, Option<string>)>)
    ensures session.Some? ==> r == Ok((session.value.sessionId, session.value.parentMessageId))
    ensures session.None? && created.Ok? ==> r == Ok((created.value, None))
    ensures session.None? && created.Err? ==> r == Err(created.error)
  {
    match session
    case Some(s) => Ok((s.sessionId, s.parentMessageId))
    case None =>
      match created
      case Ok(id) => Ok((id, None))
      case Err(msg) => Err(msg)
  }

  /// `deepseek_web_generate_raw`: `clientError` is the failure to build the
  /// HTTP client, `created` the new conversation when none is given, `sent`
  /// the parsed reply to the message sent to `SendTarget`. The reply's
  /// message id becomes the conversation's parent.
  function GenerateRaw(clientError: Option<string>, session: Option<DeepSeekSession>, created: Result<string>,
                       sent: Result<(string, Option<string>)>): (r: Result<(string, DeepSeekSession)>)
    ensures r.Ok? <==> clientError.None? && SendTarget(session, created).Ok? && sent.Ok?
    ensures r.Ok? ==> r.value.0 == sent.value.0
    ensures r.Ok? ==> r.value.1 == DeepSeekSession(SendTarget(session, created).value.0, sent.value.1)
    ensures clientError.Some? ==> r == Err(clientError.value)
  {
    if clientError.Some? then Err(clientError.value)
    else
      match SendTarget(session, created)
      case Err(msg) => Err(msg)
      case Ok(target) =>
        match sent
        case Err(msg) => Err(msg)
        case Ok(reply) => Ok((reply.0, DeepSeekSession(target.0, reply.1)))
  }

  /// Handing back the returned conversation continues it: the next message
  /// goes to the same conversation and answers the reply just received.
  lemma ConversationContinues(clientError: Option<string>, session: Option<DeepSeekSession>, created: Result<string>,
                              sent: Result<(string, Option<string>)>, nextCreated: Result<string>)
    requires GenerateRaw(clientError, session, created, sent).Ok?
    ensures var next := GenerateRaw(clientError, session, created, sent).value.1;
            SendTarget(Some(next), nextCreated) == Ok((SendTarget(session, created).value.0, sent.value.1))
    ensures session.Some? ==> GenerateRaw(clientError, session, created, sent).value.1.sessionId == session.value.sessionId
    ensures forall prompt: string, streamId: string ::
              var next := GenerateRaw(clientError, session, created, sent).value.1;
              var target := SendTarget(Some(next), nextCreated).value;
              ChatPayload(target.0, target.1, prompt, streamId)["parent_message_id"] == ParentIdSent(sent.value.1)
  {
  }

  /// The parent id as the chat request sends it, `parse::<u64>().ok()`:
  /// a message id that is not a `u64` numeral goes out as null.
  function ParentIdSent(parent: Option<string>): (r: Json)
    ensures r.JNull? || r.JInt?
    ensures r.JInt? <==> parent.Some? && ParseU64(parent.value).Some?
    ensures r.JInt? ==> 0 <= r.i < U64_LIMIT
  {
    if parent.Some? then
      match ParseU64(parent.value)
      case Some(n) => JInt(n)
      case None => JNull
    else JNull
  }

  /// The body of the chat request of `send_message`; the stream id, made
  /// from the clock and a random id, is a parameter.
  function ChatPayload(sessionId: string, parent: Option<string>, prompt: string, streamId: string)
    : (r: map<string, Json>)
    ensures r.Keys == {"chat_session_id", "parent_message_id", "prompt", "ref_file_ids",
                       "thinking_enabled", "search_enabled", "client_stream_id"}
    ensures r["chat_session_id"] == JString(sessionId) && r["prompt"] == JString(prompt)
    ensures r["parent_message_id"] == ParentIdSent(parent)
    ensures r["thinking_enabled"] == JBool(false) && r["search_enabled"] == JBool(false)
  {
    map["chat_session_id" := JString(sessionId), "parent_message_id" := ParentIdSent(parent),
        "prompt" := JString(prompt), "ref_file_ids" := JArray([]), "thinking_enabled" := JBool(false),
        "search_enabled" := JBool(false), "client_stream_id" := JString(streamId)]
  }

  /// A numeric message id, as the stream reports it, is sent back as that
  /// number.
  lemma NumericParentIdSent(n: nat)
    requires n < U64_LIMIT
    ensures ParentIdSent(Some(NatToString(n))) == JInt(n)
  {
    NatToStringParses(n);
  }

  /// `deepseek_web_generate`: the raw reply cleaned into a file name as AI
  /// renaming cleans one (at most 180 characters); an empty name is an
  /// error, and then the updated conversation is not handed back.
  function Generate(clientError: Option<string>, session: Option<DeepSeekSession>, created: Result<string>,
                    sent: Result<(string, Option<string>)>, filenamify: string -> string): (r: Result<(string, DeepSeekSession)>)
    ensures var raw := GenerateRaw(clientError, session, created, sent);
            r.Ok? <==> raw.Ok? && AiRename.CleanName(raw.value.0, filenamify).Some?
    ensures var raw := GenerateRaw(clientError, session, created, sent);
            r.Ok? ==> r.value.1 == raw.value.1 && r.value.0 == AiRename.CleanName(raw.value.0, filenamify).value
    ensures r.Ok? ==> 0 < |r.value.0| <= AiRename.MAX_NAME_CHARS
    ensures var raw := GenerateRaw(clientError, session, created, sent);
            raw.Ok? && AiRename.CleanName(raw.value.0, filenamify).None? ==> r == Err(EMPTY_NAME_MESSAGE)
  {
    match GenerateRaw(clientError, session, created, sent)
    case Err(msg) => Err(msg)
    case Ok(raw) =>
      match AiRename.CleanName(raw.0, filenamify)
      case None => Err(EMPTY_NAME_MESSAGE)
      case Some(name) => Ok((name, raw.1))
  }
}
