/** The request-side rewrite: thinking options are removed from the root, and system
    messages are folded into the top-level `system` text. */
module Request {
  import opened Text

  datatype Json =
    | Null
    | Bool(value: bool)
    | Number(text: string)
    | Str(str: string)
    | Arr(items: seq<Json>)
    | Obj(fields: map<string, Json>)

  const THINKING_KEYS := ["thinking"]

  function Get(v: Json, key: string): Option<Json> {
    if v.Obj? && key in v.fields then Some(v.fields[key]) else None
  }

  function Join(parts: seq<string>, separator: string): string {
    if parts == [] then "" else if |parts| == 1 then parts[0] else parts[0] + separator + Join(parts[1..], separator)
  }

  function TextField(block: Json): seq<string> {
    var text := Get(block, "text");
    if text.Some? && text.value.Str? then [text.value.str] else []
  }

  /** The text of a message's content, in either of its forms. */
  function BlockText(content: Json): string {
    match content
    case Str(s) => s
    case Arr(blocks) => Join(FlatMap(TextField, blocks), "\n")
    case _ => ""
  }

  predicate IsSystem(message: Json) { Get(message, "role") == Some(Str("system")) }

  function Content(message: Json): Json {
    var content := Get(message, "content");
    if content.Some? then content.value else Null
  }

  /** The text a message contributes to `system`. */
  function SystemText(message: Json): seq<string> {
    if IsSystem(message) && BlockText(Content(message)) != "" then [BlockText(Content(message))] else []
  }

  function Others(message: Json): seq<Json> { if IsSystem(message) then [] else [message] }

  function Existing(body: Json): seq<string> {
    var system := Get(body, "system");
    if system.Some? && BlockText(system.value) != "" then [BlockText(system.value)] else []
  }

  // ----- the rewrite -----

  function Without(fields: map<string, Json>, keys: seq<string>): map<string, Json> {
    map k | k in fields && k !in keys :: fields[k]
  }

  function Stripped(body: Json, keys: seq<string>): Json {
    if body.Obj? then Obj(Without(body.fields, keys)) else body
  }

  function Messages(body: Json): Option<seq<Json>> {
    var messages := Get(body, "messages");
    if messages.Some? && messages.value.Arr? then Some(messages.value.items) else None
  }

  function Folded(body: Json): seq<string> {
    if Messages(body).Some? then FlatMap(SystemText, Messages(body).value) else []
  }

  function Merged(body: Json): Json {
    if Folded(body) == [] then body
    else
      Obj(body.fields["system" := Str(Join(Existing(body) + Folded(body), "\n\n"))]
                     ["messages" := Arr(FlatMap(Others, Messages(body).value))])
  }

  function Transformed(body: Json, merge: bool): Json {
    var stripped := Stripped(body, THINKING_KEYS);
    if merge then Merged(stripped) else stripped
  }

  method FoldMessages(messages: seq<Json>) returns (folded: seq<string>, kept: seq<Json>)
    ensures folded == FlatMap(SystemText, messages) && kept == FlatMap(Others, messages)
  {
    folded, kept := [], [];
    for n := 0 to |messages|
      invariant folded == FlatMap(SystemText, messages[..n]) && kept == FlatMap(Others, messages[..n])
    {
      var m := messages[n];
      assert messages[..n + 1] == messages[..n] + [m];
      FlatMapAppend(SystemText, messages[..n], [m]);
      FlatMapAppend(Others, messages[..n], [m]);
      FlatMapOne(SystemText, m);
      FlatMapOne(Others, m);
      if IsSystem(m) {
        var text := BlockText(Content(m));
        if text != "" {
          folded := folded + [text];
        }
      } else {
        kept := kept + [m];
      }
    }
    assert messages[..|messages|] == messages;
  }

  class Body {
    var value: Json

    constructor (v: Json)
      ensures value == v
    {
      value := v;
    }

    method StripThinkingKeysRoot(keys: seq<string>)
      modifies this
      ensures value == Stripped(old(value), keys)
    {
      if value.Obj? {
        var fields := value.fields;
        for n := 0 to |keys|
          invariant fields == Without(value.fields, keys[..n])
        {
          assert keys[..n + 1] == keys[..n] + [keys[n]];
          fields := fields - {keys[n]};
        }
        assert keys[..|keys|] == keys;
        value := Obj(fields);
      }
    }

    method MergeSystemMessages()
      modifies this
      ensures value == Merged(old(value))
    {
      if Messages(value).None? {
        return;
      }
      var folded, kept := FoldMessages(Messages(value).value);
      if folded == [] {
        return;
      }
      var parts: seq<string> := [];
      var system := Get(value, "system");
      if system.Some? {
        var text := BlockText(system.value);
        if text != "" {
          parts := parts + [text];
        }
      }
      parts := parts + folded;
      value := Obj(value.fields["system" := Str(Join(parts, "\n\n"))]);
      value := Obj(value.fields["messages" := Arr(kept)]);
    }

    method TransformRequest(merge: bool)
      modifies this
      ensures value == Transformed(old(value), merge)
    {
      StripThinkingKeysRoot(THINKING_KEYS);
      if merge {
        MergeSystemMessages();
      }
    }
  }

  // ----- what the rewrite promises -----

  lemma {:induction false} OthersAreNoSystem(messages: seq<Json>)
    ensures forall m <- FlatMap(Others, messages) :: !IsSystem(m)
    ensures forall m <- messages :: !IsSystem(m) ==> m in FlatMap(Others, messages)
  {
    if messages != [] {
      OthersAreNoSystem(messages[1..]);
      assert messages == [messages[0]] + messages[1..];
    }
  }

  lemma {:induction false} NoSystemStays(messages: seq<Json>)
    requires forall m <- messages :: !IsSystem(m)
    ensures FlatMap(SystemText, messages) == [] && FlatMap(Others, messages) == messages
  {
    if messages != [] {
      NoSystemStays(messages[1..]);
      assert messages == [messages[0]] + messages[1..];
    }
  }

  lemma OthersStay(messages: seq<Json>)
    ensures FlatMap(SystemText, FlatMap(Others, messages)) == []
    ensures FlatMap(Others, FlatMap(Others, messages)) == FlatMap(Others, messages)
  {
    OthersAreNoSystem(messages);
    NoSystemStays(FlatMap(Others, messages));
  }

  lemma StripTwice(body: Json, keys: seq<string>)
    ensures Stripped(Stripped(body, keys), keys) == Stripped(body, keys)
  {
  }

  lemma MergeTwice(body: Json)
    ensures Merged(Merged(body)) == Merged(body)
  {
    if Folded(body) != [] {
      OthersStay(Messages(body).value);
      assert Messages(Merged(body)) == Some(FlatMap(Others, Messages(body).value));
    }
  }

  lemma MergeKeepsStripped(body: Json)
    ensures Stripped(Merged(Stripped(body, THINKING_KEYS)), THINKING_KEYS) == Merged(Stripped(body, THINKING_KEYS))
  {
    var merged := Merged(Stripped(body, THINKING_KEYS));
    if merged.Obj? {
      assert "thinking" !in merged.fields by {
        assert "thinking"[0] == 't' && "system"[0] == 's' && "messages"[0] == 'm';
      }
      assert forall k <- THINKING_KEYS :: k == "thinking";
      assert Without(merged.fields, THINKING_KEYS) == merged.fields;
    }
  }

  /** Transforming a request again changes nothing. */
  lemma TransformTwice(body: Json, merge: bool)
    ensures Transformed(Transformed(body, merge), merge) == Transformed(body, merge)
  {
    StripTwice(body, THINKING_KEYS);
    if merge {
      MergeKeepsStripped(body);
      MergeTwice(Stripped(body, THINKING_KEYS));
    }
  }

  /** Every other root field is left exactly as it was, values and all, and only an
      object's root is touched. */
  lemma OtherFieldsKept(body: Json, merge: bool, key: string)
    requires key !in THINKING_KEYS && key != "system" && key != "messages"
    ensures Get(Transformed(body, merge), key) == Get(body, key)
    ensures !body.Obj? ==> Transformed(body, merge) == body
  {
  }

  /** The messages that are no system messages, in their order, whatever happens. */
  lemma ConversationKept(body: Json, merge: bool)
    ensures Messages(body).Some? <==> Messages(Transformed(body, merge)).Some?
    ensures Messages(body).Some? ==>
              FlatMap(Others, Messages(Transformed(body, merge)).value) == FlatMap(Others, Messages(body).value)
  {
    var stripped := Stripped(body, THINKING_KEYS);
    MessagesKept(body);
    if Messages(body).Some? {
      OthersStay(Messages(body).value);
    }
  }

  lemma MessagesKept(body: Json)
    ensures Messages(Stripped(body, THINKING_KEYS)) == Messages(body)
    ensures Get(Stripped(body, THINKING_KEYS), "system") == Get(body, "system")
  {
    assert "thinking"[0] == 't' && "system"[0] == 's' && "messages"[0] == 'm';
    assert forall k <- THINKING_KEYS :: k == "thinking";
  }

  /** A system message with text sends every such text, after the existing one and in
      order, into `system`, and leaves no system message behind. */
  lemma SystemGathered(body: Json)
    requires Folded(body) != []
    ensures var r := Transformed(body, true);
            Get(r, "system") == Some(Str(Join(Existing(body) + Folded(body), "\n\n"))) &&
            Messages(r).Some? && forall m <- Messages(r).value :: !IsSystem(m)
  {
    MessagesKept(body);
    OthersAreNoSystem(Messages(body).value);
    assert "system"[0] == 's' && "messages"[0] == 'm';
  }

  /** A system message is left behind exactly when there was one and none has any text. */
  lemma LeftBehind(body: Json)
    requires Messages(body).Some?
    ensures (exists m <- Messages(Transformed(body, true)).value :: IsSystem(m)) <==>
            (exists m <- Messages(body).value :: IsSystem(m)) && forall m <- Messages(body).value :: SystemText(m) == []
  {
    MessagesKept(body);
    TextlessFold(Messages(body).value);
    if Folded(body) != [] {
      SystemGathered(body);
    }
  }

  lemma {:induction false} TextlessFold(messages: seq<Json>)
    ensures FlatMap(SystemText, messages) == [] <==> forall m <- messages :: SystemText(m) == []
  {
    if messages != [] {
      TextlessFold(messages[1..]);
      assert messages == [messages[0]] + messages[1..];
    }
  }

  // ----- the same, told of the JSON itself -----

  /** No thinking options are left at the root. */
  lemma ThinkingLeaves(body: Json, merge: bool)
    ensures Get(Transformed(body, merge), "thinking").None?
  {
    assert "thinking"[0] == 't' && "system"[0] == 's' && "messages"[0] == 'm';
    assert THINKING_KEYS[0] == "thinking";
  }

  /** A message of the given role and content, whatever else it holds. */
  ghost predicate Speaks(m: Json, role: string, content: Json) {
    m.Obj? && "role" in m.fields && m.fields["role"] == Str(role) &&
    "content" in m.fields && m.fields["content"] == content
  }

  /** The parts stand in the text in their order, a separator between each two. */
  lemma {:induction false} JoinAppend(a: seq<string>, b: seq<string>, separator: string)
    requires a != [] && b != []
    ensures Join(a + b, separator) == Join(a, separator) + separator + Join(b, separator)
  {
    if |a| == 1 {
      assert (a + b)[0] == a[0] && (a + b)[1..] == b;
    } else {
      assert (a + b)[0] == a[0] && (a + b)[1..] == a[1..] + b;
      JoinAppend(a[1..], b, separator);
      Assoc(a[0], separator, Join(a[1..], separator));
      calc {
        Join(a + b, separator);
        a[0] + separator + (Join(a[1..], separator) + separator + Join(b, separator));
        (a[0] + separator + Join(a[1..], separator)) + separator + Join(b, separator);
      }
    }
  }

  lemma JoinOne(part: string, separator: string)
    ensures Join([part], separator) == part && Join([], separator) == ""
  {
  }

  /** A content's text is the string itself, or the texts of its blocks, a line each. */
  lemma {:induction false} ContentReads(text: string, blocks: seq<Json>, texts: seq<string>)
    requires |texts| == |blocks|
    requires forall i :: 0 <= i < |blocks| ==>
               blocks[i].Obj? && "text" in blocks[i].fields && blocks[i].fields["text"] == Str(texts[i])
    ensures BlockText(Str(text)) == text && FlatMap(TextField, blocks) == texts
    ensures BlockText(Arr(blocks)) == Join(texts, "\n")
  {
    if blocks != [] {
      ContentReads(text, blocks[1..], texts[1..]);
      assert texts == [texts[0]] + texts[1..];
    }
  }

  /** A message is folded for its role and kept for any other, and only text is folded. */
  lemma RolesDecide(m: Json, role: string, content: Json)
    requires Speaks(m, role, content)
    ensures IsSystem(m) <==> role == "system"
    ensures Others(m) == if role == "system" then [] else [m]
    ensures SystemText(m) == if role == "system" && BlockText(content) != "" then [BlockText(content)] else []
  {
  }

  lemma FoldThree(first: Json, user: Json, second: Json, one: string, two: string)
    requires SystemText(first) == [one] && SystemText(user) == [] && SystemText(second) == [two]
    requires Others(first) == [] && Others(user) == [user] && Others(second) == []
    ensures FlatMap(SystemText, [first, user, second]) == [one, two]
    ensures FlatMap(Others, [first, user, second]) == [user]
  {
    assert [first, user, second] == [first] + ([user] + [second]);
    FlatMapCons(SystemText, first, [user] + [second]);
    FlatMapCons(SystemText, user, [second]);
    FlatMapOne(SystemText, second);
    FlatMapCons(Others, first, [user] + [second]);
    FlatMapCons(Others, user, [second]);
    FlatMapOne(Others, second);
  }

  lemma JoinThree(a: string, b: string, c: string, separator: string)
    ensures Join([a] + [b, c], separator) == a + separator + b + separator + c
  {
    JoinAppend([a], [b, c], separator);
    assert [b, c] == [b] + [c];
    JoinAppend([b], [c], separator);
    Assoc(a + separator, b + separator, c);
    Assoc(a + separator, b, separator);
  }

  /** Two system messages among others, after an existing system text. */
  lemma FoldExample(first: Json, second: Json, user: Json, said: Json, base: string, one: string, two: string)
    requires base != "" && one != "" && two != ""
    requires Speaks(first, "system", Str(one)) && Speaks(user, "user", said)
    requires Speaks(second, "system", Arr([Obj(map["text" := Str(two)])]))
    ensures var body := Obj(map["thinking" := Bool(true), "system" := Str(base),
                                "messages" := Arr([first, user, second])]);
      var r := Transformed(body, true);
      Get(r, "system") == Some(Str(base + "\n\n" + one + "\n\n" + two)) &&
      Get(r, "messages") == Some(Arr([user])) && Get(r, "thinking").None?
  {
    var body := Obj(map["thinking" := Bool(true), "system" := Str(base), "messages" := Arr([first, user, second])]);
    var block := Obj(map["text" := Str(two)]);
    hide Join, Transformed, IsSystem, Speaks;
    ContentReads(two, [block], [two]);
    JoinOne(two, "\n");
    ContentReads(one, [], []);
    ContentReads(base, [], []);
    RolesDecide(first, "system", Str(one));
    RolesDecide(user, "user", said);
    RolesDecide(second, "system", Arr([block]));
    FoldThree(first, user, second, one, two);
    ThinkingLeaves(body, true);
    BodyFields(body, base, [first, user, second]);
    SystemGathered(body);
    MessagesGathered(body);
    JoinThree(base, one, two, "\n\n");
  }

  lemma BodyFields(body: Json, base: string, messages: seq<Json>)
    requires body == Obj(map["thinking" := Bool(true), "system" := Str(base), "messages" := Arr(messages)])
    ensures Get(body, "system") == Some(Str(base)) && Messages(body) == Some(messages)
  {
    assert "thinking"[0] == 't' && "system"[0] == 's' && "messages"[0] == 'm';
  }

  /** With text to fold, exactly the other messages are left. */
  lemma MessagesGathered(body: Json)
    requires Folded(body) != []
    ensures Get(Transformed(body, true), "messages") == Some(Arr(FlatMap(Others, Messages(body).value)))
  {
    MessagesKept(body);
  }
}
