/**
 * The text that a model request is scanned as: labelled fields with their lengths
 * in bytes. It can be read back, so different requests never share a text.
 */
module ScanText {
  import opened Wrappers
  import opened DecimalNumerals
  import opened JsonValues
  import opened StableJson
  import opened FloatingPoint

  // ----- Fields

  datatype Field = Field(tag: string, value: string)

  /** The length of a string in bytes, of which only this is used: a longer string has more. */
  ghost predicate Grows(bytes: string -> nat) {
    forall s, t :: t != "" ==> bytes(s) < bytes(s + t)
  }

  /** UTF-8 is such a length. */
  function Utf8Length(s: string): nat {
    if s == "" then 0
    else
      var c := s[|s| - 1] as int;
      Utf8Length(s[..|s| - 1]) + (if c < 0x80 then 1 else if c < 0x800 then 2 else if c < 0x10000 then 3 else 4)
  }

  lemma {:induction false} Utf8LengthOfJoined(s: string, t: string)
    ensures Utf8Length(s + t) >= Utf8Length(s) + |t|
  {
    if t == "" {
      assert s + t == s;
    } else {
      var n := |t| - 1;
      assert (s + t)[..|s + t| - 1] == s + t[..n];
      Utf8LengthOfJoined(s, t[..n]);
    }
  }

  lemma Utf8Grows()
    ensures Grows(Utf8Length)
  {
    forall s, t | t != ""
      ensures Utf8Length(s) < Utf8Length(s + t)
    {
      Utf8LengthOfJoined(s, t);
    }
  }

  function ScanField(bytes: string -> nat, f: Field): string {
    f.tag + ":" + Decimal(bytes(f.value)) + "\n" + f.value
  }

  function Encode(bytes: string -> nat, fields: seq<Field>): string {
    if fields == [] then ""
    else if |fields| == 1 then ScanField(bytes, fields[0])
    else ScanField(bytes, fields[0]) + "\n" + Encode(bytes, fields[1..])
  }

  /** Where a character first is, or the length of the text. */
  function Find(s: string, c: char): (r: nat)
    ensures r <= |s| && (forall i | 0 <= i < r :: s[i] != c) && (r < |s| ==> s[r] == c)
  {
    if s == "" || s[0] == c then 0 else 1 + Find(s[1..], c)
  }

  /** The length, from k on, of the prefix that has n bytes. */
  function PrefixOfBytes(bytes: string -> nat, s: string, n: nat, k: nat): (r: Option<nat>)
    requires k <= |s|
    ensures r.Some? ==> r.value <= |s|
    decreases |s| - k
  {
    if bytes(s[..k]) == n then Some(k)
    else if k == |s| then None else PrefixOfBytes(bytes, s, n, k + 1)
  }

  function Decode(bytes: string -> nat, text: string): Option<seq<Field>>
    decreases |text|
  {
    var colon := Find(text, ':');
    if colon == |text| then None
    else
      var afterLabel := text[colon + 1..];
      var line := Find(afterLabel, '\n');
      if line == |afterLabel| || !Digits(afterLabel[..line]) then None
      else
        var body := afterLabel[line + 1..];
        var length := PrefixOfBytes(bytes, body, Value(afterLabel[..line]), 0);
        if length.None? then None
        else
          var field, rest := Field(text[..colon], body[..length.value]), body[length.value..];
          if rest == "" then Some([field])
          else
            var others := Decode(bytes, rest[1..]);
            if others.None? then None else Some([field] + others.value)
  }

  lemma {:induction false} FindBehind(before: string, c: char, behind: string)
    requires c !in before
    ensures Find(before + [c] + behind, c) == |before|
  {
    if before != "" {
      FindBehind(before[1..], c, behind);
      assert (before + [c] + behind)[1..] == before[1..] + [c] + behind;
    }
  }

  lemma {:induction false} PrefixIsFound(bytes: string -> nat, value: string, rest: string, k: nat)
    requires Grows(bytes) && k <= |value|
    ensures PrefixOfBytes(bytes, value + rest, bytes(value), k) == Some(|value|)
    decreases |value| - k
  {
    var s := value + rest;
    assert s[..k] == value[..k] && value == value[..k] + value[k..];
    if k < |value| {
      assert bytes(value[..k]) < bytes(value[..k] + value[k..]);
      PrefixIsFound(bytes, value, rest, k + 1);
    }
  }

  lemma DigitsHaveNoNewline(s: string)
    requires Digits(s)
    ensures '\n' !in s
  {
    assert forall i | 0 <= i < |s| :: Digit(s[i]) && s[i] != '\n';
  }

  /** The number of a field ends its first line, and tells where its value ends. */
  lemma DecodeBody(bytes: string -> nat, f: Field, rest: string)
    requires Grows(bytes)
    ensures var number := Decimal(bytes(f.value));
      var afterLabel := number + ['\n'] + (f.value + rest);
      && Find(afterLabel, '\n') == |number| && afterLabel[..|number|] == number
      && afterLabel[|number| + 1..] == f.value + rest
      && PrefixOfBytes(bytes, f.value + rest, Value(number), 0) == Some(|f.value|)
  {
    hide Grows, Decimal, Find, PrefixOfBytes;
    var number := Decimal(bytes(f.value));
    DigitsHaveNoNewline(number);
    FindBehind(number, '\n', f.value + rest);
    ValueOfDecimal(bytes(f.value));
    PrefixIsFound(bytes, f.value, rest, 0);
  }

  /** The first field can be read off, with what follows it. */
  lemma DecodeField(bytes: string -> nat, f: Field, rest: string)
    requires Grows(bytes) && ':' !in f.tag
    ensures var text := ScanField(bytes, f) + rest;
      Decode(bytes, text) ==
        if rest == "" then Some([f])
        else if Decode(bytes, rest[1..]).None? then None
        else Some([f] + Decode(bytes, rest[1..]).value)
  {
    hide Grows, Decimal, Find, PrefixOfBytes, Value;
    var number := Decimal(bytes(f.value));
    var body := f.value + rest;
    var afterLabel := number + ['\n'] + body;
    var text := ScanField(bytes, f) + rest;
    assert text == f.tag + [':'] + afterLabel;
    FindBehind(f.tag, ':', afterLabel);
    assert text[|f.tag| + 1..] == afterLabel && text[..|f.tag|] == f.tag;
    DecodeBody(bytes, f, rest);
    assert body[..|f.value|] == f.value && body[|f.value|..] == rest;
  }

  /** Fields can be read back from their text. */
  lemma {:induction false} DecodeEncode(bytes: string -> nat, fields: seq<Field>)
    requires Grows(bytes) && fields != [] && forall f <- fields :: ':' !in f.tag
    ensures Decode(bytes, Encode(bytes, fields)) == Some(fields)
    decreases |fields|
  {
    hide Decode, ScanField;
    var rest := if |fields| == 1 then "" else "\n" + Encode(bytes, fields[1..]);
    DecodeField(bytes, fields[0], rest);
    if |fields| == 1 {
      assert ScanField(bytes, fields[0]) + "" == Encode(bytes, fields);
      assert fields == [fields[0]];
    } else {
      assert ScanField(bytes, fields[0]) + rest == Encode(bytes, fields);
      DecodeEncode(bytes, fields[1..]);
      assert rest[1..] == Encode(bytes, fields[1..]);
      assert fields == [fields[0]] + fields[1..];
    }
  }

  // ----- Requests

  /** Message roles are taken as text. An empty tool call id counts as an absent one. */
  datatype ToolCall = ToolCall(id: string, name: string, input: Json)
  datatype Message = Message(role: string, content: string, toolCallId: Option<string>, toolCalls: Option<seq<ToolCall>>)
  datatype Tool = Tool(id: string, description: string, inputSchema: Json)
  datatype Request = Request(modelId: string, messages: seq<Message>, tools: seq<Tool>)

  /** What the text says of a request: JSON values as their text, and nothing as the empty text or list. */
  datatype CallText = CallText(id: string, name: string, input: string)
  datatype MessageText = MessageText(role: string, content: string, toolCallId: string, calls: seq<CallText>)
  datatype ToolText = ToolText(id: string, description: string, schema: string)
  datatype RequestText = RequestText(modelId: string, messages: seq<MessageText>, tools: seq<ToolText>)

  function CallFields(prefix: string, calls: seq<CallText>, i: nat): seq<Field>
    requires i <= |calls|
    decreases |calls| - i
  {
    if i == |calls| then []
    else
      var at := prefix + ".toolCall." + Decimal(i);
      [Field(at + ".id", calls[i].id), Field(at + ".name", calls[i].name), Field(at + ".input", calls[i].input)]
      + CallFields(prefix, calls, i + 1)
  }

  function MessageFields(m: MessageText, i: nat): seq<Field> {
    var prefix := "message." + Decimal(i);
    [Field(prefix + ".role", m.role), Field(prefix + ".content", m.content)]
    + (if m.toolCallId != "" then [Field(prefix + ".toolCallId", m.toolCallId)] else [])
    + CallFields(prefix, m.calls, 0)
  }

  function MessagesFields(ms: seq<MessageText>, i: nat): seq<Field>
    requires i <= |ms|
    decreases |ms| - i
  {
    if i == |ms| then [] else MessageFields(ms[i], i) + MessagesFields(ms, i + 1)
  }

  function ToolsFields(ts: seq<ToolText>, i: nat): seq<Field>
    requires i <= |ts|
    decreases |ts| - i
  {
    if i == |ts| then []
    else
      var prefix := "tool." + Decimal(i);
      [Field(prefix + ".id", ts[i].id), Field(prefix + ".description", ts[i].description),
       Field(prefix + ".inputSchema", ts[i].schema)]
      + ToolsFields(ts, i + 1)
  }

  function RequestFields(r: RequestText): seq<Field> {
    [Field("model.id", r.modelId)] + MessagesFields(r.messages, 0) + ToolsFields(r.tools, 0)
  }

  // ----- Reading a request back

  datatype Kind =
    | ModelId | Role | Content | ToolCallId | CallId | CallName | CallInput | ToolId | Description | InputSchema

  datatype Item = Item(kind: Kind, value: string)

  /** The kind of a field, from the first two and the last two letters of its tag. */
  function KindBy(first: char, second: char, nextToLast: char, last: char): Kind {
    if second == 'o' && first == 'm' then ModelId
    else if first == 't' then (if last == 'd' then ToolId else if last == 'n' then Description else InputSchema)
    else if last == 'e' then (if nextToLast == 'l' then Role else CallName)
    else if last == 't' then (if nextToLast == 'n' then Content else CallInput)
    else if nextToLast == 'I' then ToolCallId else CallId
  }

  function KindOf(tag: string): Kind {
    if |tag| < 2 then ModelId else KindBy(tag[0], tag[1], tag[|tag| - 2], tag[|tag| - 1])
  }

  function ItemsOf(fields: seq<Field>): seq<Item> {
    seq(|fields|, i requires 0 <= i < |fields| => Item(KindOf(fields[i].tag), fields[i].value))
  }

  predicate Starts(items: seq<Item>, kind: Kind) {
    items != [] && items[0].kind == kind
  }

  function TakeCalls(items: seq<Item>): (r: (seq<CallText>, seq<Item>))
    ensures |r.1| <= |items|
    decreases |items|
  {
    if |items| < 3 || !Starts(items, CallId) then ([], items)
    else
      var (calls, rest) := TakeCalls(items[3..]);
      ([CallText(items[0].value, items[1].value, items[2].value)] + calls, rest)
  }

  function TakeMessages(items: seq<Item>): (seq<MessageText>, seq<Item>)
    decreases |items|
  {
    if |items| < 2 || !Starts(items, Role) then ([], items)
    else
      var id := if Starts(items[2..], ToolCallId) then items[2].value else "";
      var (calls, rest) := TakeCalls(if id == "" then items[2..] else items[3..]);
      var (messages, others) := TakeMessages(rest);
      ([MessageText(items[0].value, items[1].value, id, calls)] + messages, others)
  }

  function TakeTools(items: seq<Item>): seq<ToolText>
    decreases |items|
  {
    if |items| < 3 then []
    else [ToolText(items[0].value, items[1].value, items[2].value)] + TakeTools(items[3..])
  }

  /** The request that a text came from. */
  function ReadRequest(bytes: string -> nat, text: string): Option<RequestText> {
    var fields := Decode(bytes, text);
    if fields.None? || fields.value == [] then None
    else
      var items := ItemsOf(fields.value);
      var (messages, rest) := TakeMessages(items[1..]);
      Some(RequestText(items[0].value, messages, TakeTools(rest)))
  }

  lemma KindOfTag(start: string, middle: string, end: string)
    requires |start| >= 2 && |end| >= 2
    ensures KindOf(start + middle + end) == KindBy(start[0], start[1], end[|end| - 2], end[|end| - 1])
  {
    var tag := start + middle + end;
    assert tag[0] == start[0] && tag[1] == start[1];
    assert tag[|tag| - 2] == end[|end| - 2] && tag[|tag| - 1] == end[|end| - 1];
  }

  lemma ItemsConcat(a: seq<Field>, b: seq<Field>)
    ensures ItemsOf(a + b) == ItemsOf(a) + ItemsOf(b)
  {
  }

  lemma {:induction false} ReadCalls(prefix: string, calls: seq<CallText>, i: nat, rest: seq<Item>)
    requires i <= |calls| && |prefix| >= 2 && prefix[0] == 'm' && prefix[1] == 'e' && !Starts(rest, CallId)
    ensures TakeCalls(ItemsOf(CallFields(prefix, calls, i)) + rest) == (calls[i..], rest)
    decreases |calls| - i
  {
    hide KindOf, Decimal;
    if i < |calls| {
      var at := prefix + ".toolCall." + Decimal(i);
      var fields := [Field(at + ".id", calls[i].id), Field(at + ".name", calls[i].name), Field(at + ".input", calls[i].input)];
      CallKinds(prefix, i);
      var items := ItemsOf(fields);
      assert items == [Item(CallId, calls[i].id), Item(CallName, calls[i].name), Item(CallInput, calls[i].input)];
      ItemsConcat(fields, CallFields(prefix, calls, i + 1));
      var others := ItemsOf(CallFields(prefix, calls, i + 1)) + rest;
      assert ItemsOf(CallFields(prefix, calls, i)) + rest == items + others;
      assert (items + others)[3..] == others;
      ReadCalls(prefix, calls, i + 1, rest);
      assert calls[i..] == [calls[i]] + calls[i + 1..];
    } else {
      assert ItemsOf(CallFields(prefix, calls, i)) + rest == rest && calls[i..] == [];
    }
  }

  lemma CallKinds(prefix: string, i: nat)
    requires |prefix| >= 2 && prefix[0] == 'm' && prefix[1] == 'e'
    ensures var at := prefix + ".toolCall." + Decimal(i);
      KindOf(at + ".id") == CallId && KindOf(at + ".name") == CallName && KindOf(at + ".input") == CallInput
  {
    hide Decimal, KindOf;
    var middle := ".toolCall." + Decimal(i);
    assert prefix + ".toolCall." + Decimal(i) == prefix + middle;
    KindOfTag(prefix, middle, ".id");
    KindOfTag(prefix, middle, ".name");
    KindOfTag(prefix, middle, ".input");
  }

  lemma MessageKinds(i: nat)
    ensures var prefix := "message." + Decimal(i);
      && |prefix| >= 2 && prefix[0] == 'm' && prefix[1] == 'e'
      && KindOf(prefix + ".role") == Role && KindOf(prefix + ".content") == Content
      && KindOf(prefix + ".toolCallId") == ToolCallId
  {
    hide Decimal, KindOf;
    KindOfTag("message.", Decimal(i), ".role");
    KindOfTag("message.", Decimal(i), ".content");
    KindOfTag("message.", Decimal(i), ".toolCallId");
    assert ("message." + Decimal(i))[0] == "message."[0] && ("message." + Decimal(i))[1] == "message."[1];
  }

  lemma ToolKinds(i: nat)
    ensures var prefix := "tool." + Decimal(i);
      && KindOf(prefix + ".id") == ToolId && KindOf(prefix + ".description") == Description
      && KindOf(prefix + ".inputSchema") == InputSchema
  {
    hide Decimal, KindOf;
    KindOfTag("tool.", Decimal(i), ".id");
    KindOfTag("tool.", Decimal(i), ".description");
    KindOfTag("tool.", Decimal(i), ".inputSchema");
  }

  /** The items of one message, without their tags. */
  function HeadItems(m: MessageText): seq<Item> {
    [Item(Role, m.role), Item(Content, m.content)]
    + if m.toolCallId != "" then [Item(ToolCallId, m.toolCallId)] else []
  }

  lemma MessageItems(m: MessageText, i: nat)
    ensures ItemsOf(MessageFields(m, i)) == HeadItems(m) + ItemsOf(CallFields("message." + Decimal(i), m.calls, 0))
  {
    hide KindOf, Decimal, CallFields;
    MessageKinds(i);
    var prefix := "message." + Decimal(i);
    var head := [Field(prefix + ".role", m.role), Field(prefix + ".content", m.content)]
      + (if m.toolCallId != "" then [Field(prefix + ".toolCallId", m.toolCallId)] else []);
    assert ItemsOf(head) == HeadItems(m);
    ItemsConcat(head, CallFields(prefix, m.calls, 0));
  }

  /** A message is read off, up to what cannot belong to it. */
  lemma ReadMessage(m: MessageText, i: nat, rest: seq<Item>)
    requires !Starts(rest, CallId) && !Starts(rest, ToolCallId)
    ensures var items := ItemsOf(MessageFields(m, i)) + rest;
      TakeMessages(items) == ([m] + TakeMessages(rest).0, TakeMessages(rest).1)
  {
    hide KindOf, Decimal, CallFields, ItemsOf, TakeCalls;
    MessageKinds(i);
    MessageItems(m, i);
    var calls := ItemsOf(CallFields("message." + Decimal(i), m.calls, 0)) + rest;
    ReadCalls("message." + Decimal(i), m.calls, 0, rest);
    CallsStart("message." + Decimal(i), m.calls, rest);
    var items := ItemsOf(MessageFields(m, i)) + rest;
    assert items == HeadItems(m) + calls;
    var head := |HeadItems(m)|;
    assert items[head..] == calls;
    assert m.calls[0..] == m.calls;
    if m.toolCallId != "" {
      assert items[2] == Item(ToolCallId, m.toolCallId) && items[2..][0] == items[2];
    }
  }

  lemma CallsStart(prefix: string, calls: seq<CallText>, rest: seq<Item>)
    requires |prefix| >= 2 && prefix[0] == 'm' && prefix[1] == 'e' && !Starts(rest, ToolCallId)
    ensures !Starts(ItemsOf(CallFields(prefix, calls, 0)) + rest, ToolCallId)
  {
    hide KindOf, Decimal;
    if calls != [] {
      CallKinds(prefix, 0);
    } else {
      assert ItemsOf(CallFields(prefix, calls, 0)) + rest == rest;
    }
  }

  lemma {:induction false} ReadMessages(ms: seq<MessageText>, i: nat, rest: seq<Item>)
    requires i <= |ms| && !Starts(rest, Role) && !Starts(rest, CallId) && !Starts(rest, ToolCallId)
    ensures TakeMessages(ItemsOf(MessagesFields(ms, i)) + rest) == (ms[i..], rest)
    ensures !Starts(ItemsOf(MessagesFields(ms, i)) + rest, CallId)
    ensures !Starts(ItemsOf(MessagesFields(ms, i)) + rest, ToolCallId)
    decreases |ms| - i
  {
    hide KindOf, Decimal, MessageFields, TakeMessages;
    if i < |ms| {
      ReadMessages(ms, i + 1, rest);
      var others := ItemsOf(MessagesFields(ms, i + 1)) + rest;
      ReadMessage(ms[i], i, others);
      ItemsConcat(MessageFields(ms[i], i), MessagesFields(ms, i + 1));
      assert ItemsOf(MessagesFields(ms, i)) + rest == ItemsOf(MessageFields(ms[i], i)) + others;
      assert ms[i..] == [ms[i]] + ms[i + 1..];
      MessageItems(ms[i], i);
    } else {
      assert ItemsOf(MessagesFields(ms, i)) + rest == rest && ms[i..] == [];
      NoMessage(rest);
    }
  }

  lemma NoMessage(rest: seq<Item>)
    requires !Starts(rest, Role)
    ensures TakeMessages(rest) == ([], rest)
  {
  }

  lemma {:induction false} ReadTools(ts: seq<ToolText>, i: nat)
    requires i <= |ts|
    ensures var items := ItemsOf(ToolsFields(ts, i));
      && TakeTools(items) == ts[i..]
      && !Starts(items, Role) && !Starts(items, CallId) && !Starts(items, ToolCallId)
    decreases |ts| - i
  {
    hide KindOf, Decimal;
    if i < |ts| {
      ToolKinds(i);
      var prefix := "tool." + Decimal(i);
      var fields := [Field(prefix + ".id", ts[i].id), Field(prefix + ".description", ts[i].description),
                     Field(prefix + ".inputSchema", ts[i].schema)];
      ItemsConcat(fields, ToolsFields(ts, i + 1));
      ReadTools(ts, i + 1);
      var items := ItemsOf(ToolsFields(ts, i));
      assert ItemsOf(fields) == [Item(ToolId, ts[i].id), Item(Description, ts[i].description), Item(InputSchema, ts[i].schema)];
      assert items[3..] == ItemsOf(ToolsFields(ts, i + 1));
      assert ts[i..] == [ts[i]] + ts[i + 1..];
    }
  }

  // ----- The round trip

  predicate NoColon(s: string) { ':' !in s }

  predicate Labelled(fields: seq<Field>) {
    forall i | 0 <= i < |fields| :: NoColon(fields[i].tag)
  }

  lemma Joined(s: string, t: string)
    requires NoColon(s) && NoColon(t)
    ensures NoColon(s + t)
  {
  }

  lemma Numbered(s: string, i: nat)
    requires NoColon(s)
    ensures NoColon(s + Decimal(i))
  {
    var digits := Decimal(i);
    assert forall k | 0 <= k < |digits| :: Digit(digits[k]) && digits[k] != ':';
  }

  lemma TagsHaveNoColon()
    ensures NoColon("message.") && NoColon("tool.") && NoColon(".toolCall.") && NoColon("model.id")
    ensures NoColon(".id") && NoColon(".name") && NoColon(".input")
    ensures NoColon(".role") && NoColon(".content") && NoColon(".toolCallId")
    ensures NoColon(".description") && NoColon(".inputSchema")
  {
  }

  lemma {:induction false} CallsAreLabelled(prefix: string, calls: seq<CallText>, i: nat)
    requires i <= |calls| && NoColon(prefix)
    ensures Labelled(CallFields(prefix, calls, i))
    decreases |calls| - i
  {
    hide NoColon, Decimal;
    if i < |calls| {
      TagsHaveNoColon();
      Joined(prefix, ".toolCall.");
      Numbered(prefix + ".toolCall.", i);
      var at := prefix + ".toolCall." + Decimal(i);
      Joined(at, ".id");
      Joined(at, ".name");
      Joined(at, ".input");
      CallsAreLabelled(prefix, calls, i + 1);
    }
  }

  lemma {:induction false} MessagesAreLabelled(ms: seq<MessageText>, i: nat)
    requires i <= |ms|
    ensures Labelled(MessagesFields(ms, i))
    decreases |ms| - i
  {
    hide NoColon, Decimal, CallFields;
    if i < |ms| {
      TagsHaveNoColon();
      Numbered("message.", i);
      var prefix := "message." + Decimal(i);
      Joined(prefix, ".role");
      Joined(prefix, ".content");
      Joined(prefix, ".toolCallId");
      CallsAreLabelled(prefix, ms[i].calls, 0);
      MessagesAreLabelled(ms, i + 1);
    }
  }

  lemma {:induction false} ToolsAreLabelled(ts: seq<ToolText>, i: nat)
    requires i <= |ts|
    ensures Labelled(ToolsFields(ts, i))
    decreases |ts| - i
  {
    hide NoColon, Decimal;
    if i < |ts| {
      TagsHaveNoColon();
      Numbered("tool.", i);
      var prefix := "tool." + Decimal(i);
      Joined(prefix, ".id");
      Joined(prefix, ".description");
      Joined(prefix, ".inputSchema");
      ToolsAreLabelled(ts, i + 1);
    }
  }

  /** Whatever a request's text says can be read back from it. */
  lemma ReadBack(bytes: string -> nat, r: RequestText)
    requires Grows(bytes)
    ensures ReadRequest(bytes, Encode(bytes, RequestFields(r))) == Some(r)
  {
    hide Decode, Encode, KindOf, TakeMessages, TakeTools, MessagesFields, ToolsFields, Grows;
    TagsHaveNoColon();
    MessagesAreLabelled(r.messages, 0);
    ToolsAreLabelled(r.tools, 0);
    var fields := RequestFields(r);
    DecodeEncode(bytes, fields);
    var model, messages, tools := [Field("model.id", r.modelId)], MessagesFields(r.messages, 0), ToolsFields(r.tools, 0);
    assert fields == model + (messages + tools);
    ItemsConcat(model, messages + tools);
    ItemsConcat(messages, tools);
    var items := ItemsOf(fields);
    assert items[1..] == ItemsOf(messages) + ItemsOf(tools);
    ReadTools(r.tools, 0);
    ReadMessages(r.messages, 0, ItemsOf(tools));
    assert r.messages[0..] == r.messages && r.tools[0..] == r.tools;
  }

  /** Two requests have one text only if it says the same of both. */
  lemma TextsExactly(bytes: string -> nat, r: RequestText, s: RequestText)
    requires Grows(bytes)
    ensures Encode(bytes, RequestFields(r)) == Encode(bytes, RequestFields(s)) <==> r == s
  {
    hide RequestFields, Encode, ReadRequest;
    ReadBack(bytes, r);
    ReadBack(bytes, s);
  }

  // ----- Building the text

  predicate CallsAreJson(calls: seq<ToolCall>) {
    forall i | 0 <= i < |calls| :: Stable(calls[i].input).Some?
  }

  predicate IsJson(r: Request) {
    && (forall i | 0 <= i < |r.messages| :: CallsAreJson(CallsOf(r.messages[i])))
    && forall i | 0 <= i < |r.tools| :: Stable(r.tools[i].inputSchema).Some?
  }

  function CallsOf(m: Message): seq<ToolCall> {
    if m.toolCalls.Some? then m.toolCalls.value else []
  }

  function CallTexts(stringify: Json -> string, calls: seq<ToolCall>): seq<CallText>
    requires CallsAreJson(calls)
  {
    seq(|calls|, i requires 0 <= i < |calls| =>
      CallText(calls[i].id, calls[i].name, stringify(Stable(calls[i].input).value)))
  }

  function TextOfMessage(stringify: Json -> string, m: Message): MessageText
    requires CallsAreJson(CallsOf(m))
  {
    MessageText(m.role, m.content, if m.toolCallId.Some? then m.toolCallId.value else "", CallTexts(stringify, CallsOf(m)))
  }

  function TextOfTool(stringify: Json -> string, t: Tool): ToolText
    requires Stable(t.inputSchema).Some?
  {
    ToolText(t.id, t.description, stringify(Stable(t.inputSchema).value))
  }

  function TextOfTools(stringify: Json -> string, tools: seq<Tool>): seq<ToolText>
    requires forall i | 0 <= i < |tools| :: Stable(tools[i].inputSchema).Some?
  {
    seq(|tools|, i requires 0 <= i < |tools| => TextOfTool(stringify, tools[i]))
  }

  function TextOf(stringify: Json -> string, r: Request): RequestText
    requires IsJson(r)
  {
    RequestText(
      r.modelId,
      seq(|r.messages|, i requires 0 <= i < |r.messages| => TextOfMessage(stringify, r.messages[i])),
      TextOfTools(stringify, r.tools))
  }

  lemma {:induction false} CallFieldsGrow(prefix: string, calls: seq<CallText>, call: CallText, i: nat)
    requires i <= |calls|
    ensures CallFields(prefix, calls + [call], i) == CallFields(prefix, calls, i) + CallFields(prefix, calls + [call], |calls|)
    decreases |calls| - i
  {
    hide Decimal;
    if i < |calls| {
      CallFieldsGrow(prefix, calls, call, i + 1);
    }
  }

  lemma {:induction false} MessagesFieldsGrow(ms: seq<MessageText>, m: MessageText, i: nat)
    requires i <= |ms|
    ensures MessagesFields(ms + [m], i) == MessagesFields(ms, i) + MessageFields(m, |ms|)
    decreases |ms| - i
  {
    hide MessageFields;
    if i < |ms| {
      MessagesFieldsGrow(ms, m, i + 1);
    } else {
      assert MessagesFields(ms + [m], |ms| + 1) == [];
    }
  }

  lemma {:induction false} ToolsFieldsGrow(ts: seq<ToolText>, t: ToolText, i: nat)
    requires i <= |ts|
    ensures ToolsFields(ts + [t], i) == ToolsFields(ts, i) + ToolsFields(ts + [t], |ts|)
    decreases |ts| - i
  {
    hide Decimal;
    if i < |ts| {
      ToolsFieldsGrow(ts, t, i + 1);
    }
  }

  /** The fields of one message; absent when the input of one of its tool calls is not JSON. */
  method MessageScanFields(stringify: Json -> string, m: Message, index: nat) returns (r: Option<seq<Field>>)
    ensures r.Some? <==> CallsAreJson(CallsOf(m))
    ensures r.Some? ==> r.value == MessageFields(TextOfMessage(stringify, m), index)
  {
    hide Stable, Decimal;
    var prefix := "message." + Decimal(index);
    var fields := [Field(prefix + ".role", m.role), Field(prefix + ".content", m.content)];
    if m.toolCallId.Some? && m.toolCallId.value != "" {
      fields := fields + [Field(prefix + ".toolCallId", m.toolCallId.value)];
    }
    var calls := CallsOf(m);
    ghost var head, texts := fields, [];
    for i := 0 to |calls|
      invariant CallsAreJson(calls[..i]) && texts == CallTexts(stringify, calls[..i])
      invariant fields == head + CallFields(prefix, texts, 0)
    {
      var input := StableJsonValue(calls[i].input);
      if input.None? {
        return None;
      }
      var at := prefix + ".toolCall." + Decimal(i);
      ghost var text := CallText(calls[i].id, calls[i].name, stringify(input.value));
      CallFieldsGrow(prefix, texts, text, 0);
      assert CallFields(prefix, texts + [text], i + 1) == [];
      assert calls[..i + 1] == calls[..i] + [calls[i]];
      texts := texts + [text];
      fields := fields + [Field(at + ".id", calls[i].id), Field(at + ".name", calls[i].name),
                          Field(at + ".input", stringify(input.value))];
    }
    assert calls[..|calls|] == calls;
    return Some(fields);
  }

  method ToolsScanFields(stringify: Json -> string, tools: seq<Tool>) returns (r: Option<seq<Field>>)
    ensures r.Some? <==> forall i | 0 <= i < |tools| :: Stable(tools[i].inputSchema).Some?
    ensures r.Some? ==> r.value == ToolsFields(TextOfTools(stringify, tools), 0)
  {
    hide Stable, Decimal;
    var fields := [];
    ghost var texts := [];
    for i := 0 to |tools|
      invariant |texts| == i
      invariant forall k | 0 <= k < i :: Stable(tools[k].inputSchema).Some? && texts[k] == TextOfTool(stringify, tools[k])
      invariant fields == ToolsFields(texts, 0)
    {
      var schema := StableJsonValue(tools[i].inputSchema);
      if schema.None? {
        return None;
      }
      var prefix := "tool." + Decimal(i);
      ghost var text := ToolText(tools[i].id, tools[i].description, stringify(schema.value));
      ToolsFieldsGrow(texts, text, 0);
      assert ToolsFields(texts + [text], i + 1) == [];
      texts := texts + [text];
      fields := fields + [Field(prefix + ".id", tools[i].id), Field(prefix + ".description", tools[i].description),
                          Field(prefix + ".inputSchema", stringify(schema.value))];
    }
    assert texts == TextOfTools(stringify, tools);
    return Some(fields);
  }

  /** Absent when some value in the request is not JSON. */
  method ModelInputScanText(bytes: string -> nat, stringify: Json -> string, r: Request) returns (text: Option<string>)
    ensures text.Some? <==> IsJson(r)
    ensures text.Some? ==> text.value == Encode(bytes, RequestFields(TextOf(stringify, r)))
  {
    hide Encode, Stable, MessageFields, ToolsFields, CallTexts, CallsOf;
    var fields := [Field("model.id", r.modelId)];
    ghost var texts := [];
    for i := 0 to |r.messages|
      invariant |texts| == i
      invariant forall k | 0 <= k < i ::
        CallsAreJson(CallsOf(r.messages[k])) && texts[k] == TextOfMessage(stringify, r.messages[k])
      invariant fields == [Field("model.id", r.modelId)] + MessagesFields(texts, 0)
    {
      var added := MessageScanFields(stringify, r.messages[i], i);
      if added.None? {
        return None;
      }
      ghost var message := TextOfMessage(stringify, r.messages[i]);
      MessagesFieldsGrow(texts, message, 0);
      texts := texts + [message];
      fields := fields + added.value;
    }
    var added := ToolsScanFields(stringify, r.tools);
    if added.None? {
      return None;
    }
    assert texts == TextOf(stringify, r).messages;
    return Some(Encode(bytes, fields + added.value));
  }

  // ----- What the text identifies

  ghost predicate Doubles(v: Json) {
    match v
    case Number(x, _) => IsDouble(x)
    case Array(items) => forall i | 0 <= i < |items| :: Doubles(items[i])
    case Object(members) => forall i | 0 <= i < |members| :: Doubles(members[i].value)
    case _ => true
  }

  /** A value as the program can hold it. */
  ghost predicate Held(v: Json) {
    WellFormed(v) && Doubles(v)
  }

  /** What is ever written as JSON text: a stable form. */
  ghost predicate Written(v: Json) {
    Held(v) && Stable(v) == Some(v)
  }

  /** The text of such a value determines it, up to the sign of zero, which JSON text leaves out. */
  ghost predicate Faithful(stringify: Json -> string) {
    forall v, w | Written(v) && Written(w) :: stringify(v) == stringify(w) <==> Unsigned(v) == Unsigned(w)
  }

  lemma {:induction false} StableIsHeld(v: Json)
    requires Held(v) && Stable(v).Some?
    ensures Doubles(Stable(v).value)
    decreases v
  {
    hide IsDouble;
    match v {
      case Array(items) =>
        forall i | 0 <= i < |items|
          ensures Doubles(Stable(items[i]).value)
        {
          StableIsHeld(items[i]);
        }
      case Object(members) =>
        hide Stable;
        var ms := StableObject(v);
        forall i | 0 <= i < |ms|
          ensures Doubles(ms[i].value)
        {
          StableIsHeld(MemberAt(v, ms[i].key));
        }
      case _ =>
    }
  }

  lemma StableIsWritten(v: Json)
    requires Held(v) && Stable(v).Some?
    ensures Written(Stable(v).value)
  {
    hide Stable, Doubles;
    StableIsHeld(v);
    StableKeepsContent(v);
    StableExists(v);
    StableIsIdempotent(v);
  }

  predicate SameValue(v: Json, w: Json)
    requires Stable(v).Some? && Stable(w).Some?
  {
    Unsigned(Stable(v).value) == Unsigned(Stable(w).value)
  }

  predicate SameMessage(m: Message, n: Message)
    requires CallsAreJson(CallsOf(m)) && CallsAreJson(CallsOf(n))
  {
    var a, b := CallsOf(m), CallsOf(n);
    && m.role == n.role && m.content == n.content && |a| == |b|
    && (if m.toolCallId.Some? then m.toolCallId.value else "") == (if n.toolCallId.Some? then n.toolCallId.value else "")
    && forall i | 0 <= i < |a| :: a[i].id == b[i].id && a[i].name == b[i].name && SameValue(a[i].input, b[i].input)
  }

  predicate SameTool(t: Tool, u: Tool)
    requires Stable(t.inputSchema).Some? && Stable(u.inputSchema).Some?
  {
    t.id == u.id && t.description == u.description && SameValue(t.inputSchema, u.inputSchema)
  }

  predicate SameRequest(r: Request, s: Request)
    requires IsJson(r) && IsJson(s)
  {
    && r.modelId == s.modelId && |r.messages| == |s.messages| && |r.tools| == |s.tools|
    && (forall i | 0 <= i < |r.messages| :: SameMessage(r.messages[i], s.messages[i]))
    && (forall i | 0 <= i < |r.tools| :: SameTool(r.tools[i], s.tools[i]))
  }

  ghost predicate HeldMessage(m: Message) {
    forall i | 0 <= i < |CallsOf(m)| :: Held(CallsOf(m)[i].input)
  }

  ghost predicate HeldRequest(r: Request) {
    && (forall i | 0 <= i < |r.messages| :: HeldMessage(r.messages[i]))
    && forall i | 0 <= i < |r.tools| :: Held(r.tools[i].inputSchema)
  }

  lemma SameText(stringify: Json -> string, v: Json, w: Json)
    requires Faithful(stringify) && Held(v) && Held(w) && Stable(v).Some? && Stable(w).Some?
    ensures stringify(Stable(v).value) == stringify(Stable(w).value) <==> SameValue(v, w)
  {
    hide Stable, Unsigned, Held, Written;
    StableIsWritten(v);
    StableIsWritten(w);
  }

  lemma SameMessageText(stringify: Json -> string, m: Message, n: Message)
    requires Faithful(stringify) && CallsAreJson(CallsOf(m)) && CallsAreJson(CallsOf(n)) && HeldMessage(m) && HeldMessage(n)
    ensures TextOfMessage(stringify, m) == TextOfMessage(stringify, n) <==> SameMessage(m, n)
  {
    hide Stable, SameValue, Faithful, Held;
    var a, b := CallsOf(m), CallsOf(n);
    var x, y := CallTexts(stringify, a), CallTexts(stringify, b);
    forall i | 0 <= i < |a| && i < |b|
      ensures x[i] == y[i] <==> a[i].id == b[i].id && a[i].name == b[i].name && SameValue(a[i].input, b[i].input)
    {
      SameText(stringify, a[i].input, b[i].input);
    }
    if x == y {
      forall i | 0 <= i < |a|
        ensures a[i].id == b[i].id && a[i].name == b[i].name && SameValue(a[i].input, b[i].input)
      {
        assert x[i] == y[i];
      }
    }
  }

  /** Requests share a text exactly when they are the same up to key order, absent members and empty tool calls. */
  lemma TextIdentifiesRequest(bytes: string -> nat, stringify: Json -> string, r: Request, s: Request)
    requires Grows(bytes) && Faithful(stringify) && IsJson(r) && IsJson(s) && HeldRequest(r) && HeldRequest(s)
    ensures Encode(bytes, RequestFields(TextOf(stringify, r))) == Encode(bytes, RequestFields(TextOf(stringify, s)))
      <==> SameRequest(r, s)
  {
    hide Encode, RequestFields, Grows, Stable, SameValue, SameMessage, TextOfMessage, Faithful, Held, HeldMessage;
    var x, y := TextOf(stringify, r), TextOf(stringify, s);
    TextsExactly(bytes, x, y);
    if |r.messages| == |s.messages| && |r.tools| == |s.tools| {
      forall i | 0 <= i < |r.messages|
        ensures x.messages[i] == y.messages[i] <==> SameMessage(r.messages[i], s.messages[i])
      {
        SameMessageText(stringify, r.messages[i], s.messages[i]);
      }
      forall i | 0 <= i < |r.tools|
        ensures x.tools[i] == y.tools[i] <==> SameTool(r.tools[i], s.tools[i])
      {
        assert x.tools[i] == TextOfTool(stringify, r.tools[i]) && y.tools[i] == TextOfTool(stringify, s.tools[i]);
        SameText(stringify, r.tools[i].inputSchema, s.tools[i].inputSchema);
      }
    }
  }

  // ----- Values with one text

  lemma {:induction false} UnsignedSerializable(v: Json)
    ensures Serializable(Unsigned(v)) == Serializable(v) && WithoutProto(Unsigned(v)) == WithoutProto(v)
  {
    match v {
      case Array(items) =>
        forall i | 0 <= i < |items|
          ensures Serializable(Unsigned(v).items[i]) == Serializable(items[i])
          ensures WithoutProto(Unsigned(v).items[i]) == WithoutProto(items[i])
        {
          UnsignedSerializable(items[i]);
        }
      case Object(members) =>
        forall i | 0 <= i < |members|
          ensures var u := Unsigned(v).members[i];
            && u.key == members[i].key && u.value.Undefined? == members[i].value.Undefined?
            && Serializable(u.value) == Serializable(members[i].value) && WithoutProto(u.value) == WithoutProto(members[i].value)
        {
          UnsignedSerializable(members[i].value);
        }
      case _ =>
    }
  }

  /** Dropping the signs before or after taking the stable form is the same. */
  lemma {:induction false} StableOfUnsigned(v: Json)
    requires WellFormed(v) && Serializable(v)
    ensures WellFormed(Unsigned(v)) && Serializable(Unsigned(v))
    ensures Stable(v).Some? && Stable(Unsigned(v)) == Some(Unsigned(Stable(v).value))
    decreases v
  {
    UnsignedIsGood(v);
    UnsignedSerializable(v);
    StableExists(v);
    StableExists(Unsigned(v));
    match v {
      case Array(items) =>
        forall i | 0 <= i < |items|
          ensures Stable(items[i]).Some? && Stable(Unsigned(items[i])) == Some(Unsigned(Stable(items[i]).value))
        {
          StableOfUnsigned(items[i]);
        }
        assert Stable(Unsigned(v)).value.items == Unsigned(Stable(v).value).items;
      case Object(members) =>
        var u := Unsigned(v);
        var keys := Sort(KeySeq(members));
        assert KeySeq(u.members) == KeySeq(members);
        UnsignedKeys(v);
        StableMembersOfUnsigned(v, keys);
      case _ =>
    }
  }

  function UnsignedMembers(ms: seq<Member>): seq<Member> {
    seq(|ms|, i requires 0 <= i < |ms| => Member(ms[i].key, Unsigned(ms[i].value)))
  }

  lemma {:induction false} StableMembersOfUnsigned(v: Json, keys: seq<string>)
    requires v.Object? && WellFormed(v) && Serializable(v) && WellFormed(Unsigned(v))
    requires forall k <- keys :: k in Keys(v.members)
    ensures forall k <- keys :: k in Keys(Unsigned(v).members)
    ensures StableMembers(v, keys).Some?
    ensures StableMembers(Unsigned(v), keys) == Some(UnsignedMembers(StableMembers(v, keys).value))
    decreases v, 0, |keys|
  {
    hide WellFormed, Serializable, Stable, Sort;
    UnsignedKeys(v);
    if keys == [] {
      assert UnsignedMembers([]) == [];
    } else {
      var n := |keys| - 1;
      StableMembersOfUnsigned(v, keys[..n]);
      var value, u := MemberAt(v, keys[n]), MemberAt(Unsigned(v), keys[n]);
      assert u == Unsigned(value);
      if value != Undefined {
        MemberIsGood(v, keys[n]);
        StableOfUnsigned(value);
        var before, entry := StableMembers(v, keys[..n]).value, Stable(value).value;
        assert UnsignedMembers(before + [Member(keys[n], entry)]) == UnsignedMembers(before) + [Member(keys[n], Unsigned(entry))];
      }
    }
  }

  lemma MemberIsGood(v: Json, k: string)
    requires v.Object? && WellFormed(v) && Serializable(v) && k in Keys(v.members)
    ensures WellFormed(MemberAt(v, k)) && (MemberAt(v, k) != Undefined ==> Serializable(MemberAt(v, k)))
  {
  }

  /** For which values having one text is equality of JSON values. */
  lemma SameValueExactly(v: Json)
    requires WellFormed(v) && Serializable(v)
    ensures (forall w | WellFormed(w) && Serializable(w) && WithoutProto(w) && Stable(v).Some? && Stable(w).Some? ::
               SameValue(v, w) <==> EqualJson(v, w))
      <==> WithoutProto(v)
  {
    hide Stable, StableJson.Content, Normal, WithoutProto, Serializable, Unsigned, WellFormed;
    StableOfUnsigned(v);
    UnsignedSerializable(v);
    StableIsEqualityExactly(Unsigned(v));
    if WithoutProto(v) {
      forall w | WellFormed(w) && Serializable(w) && WithoutProto(w) && Stable(w).Some?
        ensures SameValue(v, w) <==> EqualJson(v, w)
      {
        StableOfUnsigned(w);
        UnsignedSerializable(w);
      }
    } else {
      StableOfUnsigned(v);
      var s := Stable(v).value;
      StableIsSerializable(v);
      StableIsIdempotent(v);
      StableKeepsContent(v);
      StableOfUnsigned(s);
      UnsignedSerializable(s);
      var u := Unsigned(v);
      StableIsIdempotent(u);
      StableKeepsContent(u);
      ContentIsNormal(u);
      ContentIsNormal(Unsigned(s));
    }
  }
}
