/** `extract_last_message_text` (BriefMe.py): pull the reply text out of the
    briefing API's response, or fall back to a fixed message. */
module Extraction {
  import opened Wrappers
  import opened Json
  import opened PyOps

  /** The literal returned whenever the response does not have the expected shape. */
  const Fallback: Json := JString("No response text available.")

  /** The body of the `try` block, evaluated step by step as Python does it:
      `Ok(Some(t))` is the `return` of the text, `Ok(None)` falls through one of
      the `if`s, and `Raise` is an exception thrown by `in` or by a subscription.
      `and` short-circuits, so later operands are evaluated only when the earlier
      ones were truthy. */
  function TryBlock(response: Json): (r: PyResult<Option<Json>>)
    ensures !(Truthy(response) && response.JArray? && |response.items| > 0) ==> r == Ok(None)
    ensures r.Ok? && r.value.Some? ==> response.JArray? && |response.items| > 0 && response.items[0].JObject?
    ensures r.Raise? ==> r.exc != IndexError
  {
    if !(Truthy(response) && response.JArray? && |response.items| > 0) then Ok(None)
    else
      match GetIndex(response, 0)
      case Raise(e) => Raise(e)
      case Ok(first) =>
        var hasOutput :- Contains(first, "output");
        if !hasOutput then Ok(None)
        else
          var output :- GetItem(first, "output");
          var hasMessage :- Contains(output, "message");
          if !hasMessage then Ok(None)
          else
            var message :- GetItem(output, "message");
            var hasContent :- Contains(message, "content");
            if !hasContent then Ok(None)
            else
              var content :- GetItem(message, "content");
              if !(content.JArray? && |content.items| > 0) then Ok(None)
              else
                match GetIndex(content, 0)
                case Raise(e) => Raise(e)
                case Ok(item) =>
                  var text :- GetItem(item, "text");
                  Ok(Some(text))
  }

  /** `extract_last_message_text`: the text the `try` block returns, and the
      fallback both when the block falls through and when it raises (the
      `except Exception` clause catches every exception). The result is a JSON
      value: the `text` entry is returned as it is, whatever its kind. */
  function ExtractLastMessageText(response: Json): (r: Json)
    ensures r != Fallback ==> response.JArray? && |response.items| > 0
  {
    match TryBlock(response)
    case Ok(Some(text)) => text
    case Ok(None) => Fallback
    case Raise(_) => Fallback
  }

  // An independent description of the expected response shape, as a JSON path.

  /** One step of a path: an object key, or a position in an array. */
  datatype PathStep = Key(name: string) | Index(i: nat)

  /** The value a path leads to, when every step along it exists: keys only in
      objects, indices only in arrays. */
  function Follow(v: Json, path: seq<PathStep>): Option<Json>
  {
    if path == [] then Some(v)
    else
      match path[0]
      case Key(name) =>
        if v.JObject? && name in v.fields then Follow(v.fields[name], path[1..]) else None
      case Index(i) =>
        if v.JArray? && i < |v.items| then Follow(v.items[i], path[1..]) else None
  }

  /** `response[0]["output"]["message"]["content"][0]["text"]`. */
  const TextPath: seq<PathStep> := [Index(0), Key("output"), Key("message"), Key("content"), Index(0), Key("text")]

  /** The whole path in one step per call, so that the proofs below can unfold it. */
  lemma FollowTextPath(v: Json)
    ensures Follow(v, TextPath) ==
      if v.JArray? && |v.items| > 0 && v.items[0].JObject? && "output" in v.items[0].fields then
        var output := v.items[0].fields["output"];
        if output.JObject? && "message" in output.fields then
          var message := output.fields["message"];
          if message.JObject? && "content" in message.fields then
            var content := message.fields["content"];
            if content.JArray? && |content.items| > 0 && content.items[0].JObject? && "text" in content.items[0].fields then
              Some(content.items[0].fields["text"])
            else None
          else None
        else None
      else None
  {
    var p := TextPath;
    assert p[1..] == [Key("output"), Key("message"), Key("content"), Index(0), Key("text")];
    assert p[2..] == [Key("message"), Key("content"), Index(0), Key("text")];
    assert p[3..] == [Key("content"), Index(0), Key("text")];
    assert p[4..] == [Index(0), Key("text")];
    assert p[5..] == [Key("text")];
    assert p[6..] == [];
    if v.JArray? && |v.items| > 0 {
      var first := v.items[0];
      assert Follow(v, p) == Follow(first, p[1..]);
      if first.JObject? && "output" in first.fields {
        var output := first.fields["output"];
        assert Follow(first, p[1..]) == Follow(output, p[2..]);
        if output.JObject? && "message" in output.fields {
          var message := output.fields["message"];
          assert Follow(output, p[2..]) == Follow(message, p[3..]);
          if message.JObject? && "content" in message.fields {
            var content := message.fields["content"];
            assert Follow(message, p[3..]) == Follow(content, p[4..]);
            if content.JArray? && |content.items| > 0 {
              var item := content.items[0];
              assert Follow(content, p[4..]) == Follow(item, p[5..]);
              if item.JObject? && "text" in item.fields {
                assert Follow(item, p[5..]) == Follow(item.fields["text"], p[6..]);
              }
            }
          }
        }
      }
    }
  }

  /** The main property: the result is the value at the end of the path when the
      whole path exists, and the fallback otherwise. Missing keys, non-objects
      and non-lists along the way (each of which Python reports by a falling-through
      `if` or by an exception) all end in the fallback; nothing escapes. */
  lemma ExtractFollowsTextPath(response: Json)
    ensures ExtractLastMessageText(response) == Follow(response, TextPath).GetOr(Fallback)
  {
    FollowTextPath(response);
  }

  /** A `None`/falsy response, a response that is not a list, and an empty list
      all give the fallback. */
  lemma ExtractNotAListGivesFallback(response: Json)
    requires !Truthy(response) || !response.JArray? || response.items == []
    ensures ExtractLastMessageText(response) == Fallback
  {
  }

  /** A response of the expected shape yields its text unchanged. */
  lemma ExtractWellShaped(first: map<string, Json>, output: map<string, Json>, message: map<string, Json>,
                          item: map<string, Json>, text: Json, moreContent: seq<Json>, moreResponses: seq<Json>)
    requires "output" in first && first["output"] == JObject(output)
    requires "message" in output && output["message"] == JObject(message)
    requires "content" in message && message["content"] == JArray([JObject(item)] + moreContent)
    requires "text" in item && item["text"] == text
    ensures ExtractLastMessageText(JArray([JObject(first)] + moreResponses)) == text
  {
  }

  /** Only `response[0]` matters: the later responses never change the result. */
  lemma ExtractIgnoresLaterResponses(first: Json, rest1: seq<Json>, rest2: seq<Json>)
    ensures ExtractLastMessageText(JArray([first] + rest1)) == ExtractLastMessageText(JArray([first] + rest2))
  {
  }

  /** A response whose first element carries `content` under `output.message`,
      with any other keys beside each of them and any later responses. */
  function Reply(first: map<string, Json>, output: map<string, Json>, message: map<string, Json>,
                 content: seq<Json>, responses: seq<Json>): Json
  {
    JArray([JObject(first["output" := JObject(output["message" := JObject(message["content" := JArray(content)])])])] + responses)
  }

  /** Only `content[0]` matters: the later content items never change the result. */
  lemma ExtractIgnoresLaterContent(first: map<string, Json>, output: map<string, Json>, message: map<string, Json>,
                                   item: Json, rest1: seq<Json>, rest2: seq<Json>, responses: seq<Json>)
    ensures ExtractLastMessageText(Reply(first, output, message, [item] + rest1, responses))
         == ExtractLastMessageText(Reply(first, output, message, [item] + rest2, responses))
  {
    var r1 := Reply(first, output, message, [item] + rest1, responses);
    var r2 := Reply(first, output, message, [item] + rest2, responses);
    ExtractFollowsTextPath(r1);
    ExtractFollowsTextPath(r2);
    FollowTextPath(r1);
    FollowTextPath(r2);
  }

  /** The shapes that must give the fallback: `None`, `[]`, `[{}]`,
      `[{"output": {}}]`, and a string where an object is expected. */
  lemma ExtractFallbackExamples()
    ensures ExtractLastMessageText(JNull) == Fallback
    ensures ExtractLastMessageText(JArray([])) == Fallback
    ensures ExtractLastMessageText(JArray([JObject(map[])])) == Fallback
    ensures ExtractLastMessageText(JArray([JObject(map["output" := JObject(map[])])])) == Fallback
    ensures ExtractLastMessageText(JArray([JString("output")])) == Fallback
  {
  }

  /** A content item without `text` gives the fallback, and the one with
      `"text": "Hi"` gives `"Hi"`. */
  lemma ExtractContentExamples()
    ensures ExtractLastMessageText(JArray([JObject(map["output" := JObject(map["message" :=
              JObject(map["content" := JArray([JObject(map["type" := JString("text")])])])])])])) == Fallback
    ensures ExtractLastMessageText(JArray([JObject(map["output" := JObject(map["message" :=
              JObject(map["content" := JArray([JObject(map["text" := JString("Hi")])])])])])])) == JString("Hi")
  {
    var noText := JArray([JObject(map["output" := JObject(map["message" :=
                JObject(map["content" := JArray([JObject(map["type" := JString("text")])])])])])]);
    ExtractFollowsTextPath(noText);
    FollowTextPath(noText);
    var hi := JArray([JObject(map["output" := JObject(map["message" :=
                JObject(map["content" := JArray([JObject(map["text" := JString("Hi")])])])])])]);
    ExtractFollowsTextPath(hi);
    FollowTextPath(hi);
  }
}
