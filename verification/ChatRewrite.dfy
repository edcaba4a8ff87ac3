/** The rewriting of a chat request on its way upstream: enhancement fields out, template and history in,
    usage reporting and the upstream's own model name (http/aigateway_ext.go, http/aigateway.go). Bodies are
    value trees; their text form is not modelled. */
module ChatRewrite {
  import opened Text

  datatype Json = Null | Bool(b: bool) | Num(n: real) | Str(s: string) | Arr(items: seq<Json>) | Obj(fields: map<string, Json>)

  type Fields = map<string, Json>

  datatype Error = MissingModel | UnknownTemplate

  /** The fields only the gateway understands. */
  const ENHANCEMENTS := {"session_id", "prompt_template_id", "prompt_vars", "moderate", "moderate_output", "cache_bypass"}

  datatype Enhancements = Enhancements(
    sessionID: string, templateID: string, vars: map<string, string>, moderate: bool, moderateOutput: bool, cacheBypass: bool)

  /** A message of the stored conversation. */
  datatype Message = Message(role: string, content: string)

  /** Templates, template rendering, stored conversations, and how a value prints. */
  datatype Library = Library(
    template: string -> Option<string>, render: (string, map<string, string>) -> string,
    recall: (string, nat) -> Option<seq<Message>>, show: Json -> string)

  const HISTORY_LIMIT := 20

  function StringAt(m: Fields, key: string): string {
    if key in m && m[key].Str? then m[key].s else ""
  }

  function BoolAt(m: Fields, key: string): bool {
    key in m && m[key].Bool? && m[key].b
  }

  function Messages(m: Fields): seq<Json> {
    if "messages" in m && m["messages"].Arr? then m["messages"].items else []
  }

  function VarsOf(m: Fields, show: Json -> string): map<string, string> {
    if "prompt_vars" in m && m["prompt_vars"].Obj? then
      map k | k in m["prompt_vars"].fields :: show(m["prompt_vars"].fields[k])
    else map[]
  }

  /** `extractChatEnhancements` on a parsed body. */
  method ExtractChatEnhancements(body: Fields, show: Json -> string) returns (clean: Fields, enh: Enhancements,
                                 model: string, stream: bool)
    ensures clean == body - ENHANCEMENTS
    ensures model == StringAt(body, "model") && stream == BoolAt(body, "stream")
    ensures enh == Enhancements(StringAt(body, "session_id"), StringAt(body, "prompt_template_id"), VarsOf(body, show),
                                BoolAt(body, "moderate"), BoolAt(body, "moderate_output"), BoolAt(body, "cache_bypass"))
  {
    var m := body;
    model, stream := StringAt(m, "model"), BoolAt(m, "stream");
    enh := Enhancements(StringAt(m, "session_id"), StringAt(m, "prompt_template_id"), map[], false, false, false);
    if "prompt_vars" in m && m["prompt_vars"].Obj? {
      var v := m["prompt_vars"].fields;
      enh := enh.(vars := map k | k in v :: show(v[k]));
    }
    enh := enh.(moderate := BoolAt(m, "moderate"), moderateOutput := BoolAt(m, "moderate_output"), cacheBypass := BoolAt(m, "cache_bypass"));
    m := m - {"session_id"};
    m := m - {"prompt_template_id"};
    m := m - {"prompt_vars"};
    m := m - {"moderate"};
    m := m - {"moderate_output"};
    m := m - {"cache_bypass"};
    clean := m;
  }

  // ---- template -------------------------------------------------------------------------------------------

  predicate HasRole(message: Json, role: string) {
    message.Obj? && "role" in message.fields && message.fields["role"] == Str(role)
  }

  /** The leading system message with the rendered template appended to its text. */
  function Extended(message: Json, rendered: string): Json
    requires message.Obj?
  {
    Obj(message.fields["content" := Str(StringAt(message.fields, "content") + "\n\n" + rendered)])
  }

  function SystemMessage(rendered: string): Json {
    Obj(map["role" := Str("system"), "content" := Str(rendered)])
  }

  function Templated(messages: seq<Json>, rendered: string): seq<Json> {
    if messages != [] && HasRole(messages[0], "system") then [Extended(messages[0], rendered)] + messages[1..]
    else [SystemMessage(rendered)] + messages
  }

  /** `applyPromptTemplate`. */
  method ApplyPromptTemplate(body: Fields, templateID: string, vars: map<string, string>,
                             lib: Library) returns (r: Result<Fields, Error>)
    ensures r == if templateID == "" then Ok(body)
                 else if lib.template(templateID).None? then Err(UnknownTemplate)
                 else Ok(body["messages" := Arr(Templated(Messages(body), lib.render(lib.template(templateID).value, vars)))])
  {
    if templateID == "" { return Ok(body); }
    var tpl := lib.template(templateID);
    if tpl.None? { return Err(UnknownTemplate); }
    var rendered := lib.render(tpl.value, vars);
    var m := body;
    var messages := Messages(m);
    if |messages| > 0 {
      var first := messages[0];
      if first.Obj? && StringAt(first.fields, "role") == "system" {
        var existing := StringAt(first.fields, "content");
        first := Obj(first.fields["content" := Str(existing + "\n\n" + rendered)]);
        messages := messages[0 := first];
        m := m["messages" := Arr(messages)];
        assert messages == Templated(Messages(body), rendered);
        return Ok(m);
      }
    }
    m := m["messages" := Arr([SystemMessage(rendered)] + messages)];
    return Ok(m);
  }

  // ---- history --------------------------------------------------------------------------------------------

  function FromMessage(message: Message): Json {
    Obj(map["role" := Str(message.role), "content" := Str(message.content)])
  }

  function FromMessages(messages: seq<Message>): (r: seq<Json>)
    ensures |r| == |messages| && forall i :: 0 <= i < |r| ==> r[i] == FromMessage(messages[i])
  {
    seq(|messages|, i requires 0 <= i < |messages| => FromMessage(messages[i]))
  }

  /** What the session recalls; a failing or empty recall counts as nothing. */
  function Recalled(lib: Library, sessionID: string): seq<Message> {
    if sessionID == "" || lib.recall(sessionID, HISTORY_LIMIT).None? then [] else lib.recall(sessionID, HISTORY_LIMIT).value
  }

  /** `applyConversationHistory`. */
  method ApplyConversationHistory(body: Fields, sessionID: string, lib: Library) returns (m: Fields)
    ensures m == if Recalled(lib, sessionID) == [] then body
                 else body["messages" := Arr(FromMessages(Recalled(lib, sessionID)) + Messages(body))]
  {
    if sessionID == "" { return body; }
    var recalled := lib.recall(sessionID, HISTORY_LIMIT);
    if recalled.None? || |recalled.value| == 0 { return body; }
    var msgs := recalled.value;
    m := body;
    var history: seq<Json> := [];
    for i := 0 to |msgs|
      invariant history == FromMessages(msgs[..i])
    {
      assert msgs[..i + 1] == msgs[..i] + [msgs[i]];
      history := history + [FromMessage(msgs[i])];
    }
    assert msgs[..|msgs|] == msgs;
    m := m["messages" := Arr(history + Messages(body))];
  }

  // ---- stream options and model -----------------------------------------------------------------------------

  predicate Same(a: Fields, b: Fields, k: string) {
    (k in a <==> k in b) && (k in a ==> b[k] == a[k])
  }

  function StreamOptions(m: Fields): Fields {
    if "stream_options" in m && m["stream_options"].Obj? then m["stream_options"].fields else map[]
  }

  /** The stream options ask for usage, and every other option is the client's. */
  ghost predicate AsksForUsage(before: Fields, after: Fields) {
    && "stream_options" in after && after["stream_options"].Obj?
    && var options := after["stream_options"].fields;
       && "include_usage" in options && options["include_usage"] == Bool(true)
       && forall k :: k != "include_usage" ==> Same(StreamOptions(before), options, k)
  }

  /** `injectStreamOptions`. */
  method InjectStreamOptions(body: Fields) returns (m: Fields)
    ensures AsksForUsage(body, m)
    ensures forall k :: k != "stream_options" ==> Same(body, m, k)
  {
    m := body;
    if "stream_options" in m && m["stream_options"].Obj? {
      var existing := m["stream_options"].fields;
      existing := existing["include_usage" := Bool(true)];
      m := m["stream_options" := Obj(existing)];
    } else {
      m := m["stream_options" := Obj(map["include_usage" := Bool(true)])];
    }
  }

  function WithModel(m: Fields, upstreamModel: string): Fields {
    if Trim(upstreamModel) == "" then m else m["model" := Str(Trim(upstreamModel))]
  }

  // ---- the pipeline -----------------------------------------------------------------------------------------

  /** The messages sent upstream. */
  function SentMessages(body: Fields, lib: Library): seq<Json> {
    var templateID, recalled := StringAt(body, "prompt_template_id"), Recalled(lib, StringAt(body, "session_id"));
    FromMessages(recalled) +
    if templateID != "" && lib.template(templateID).Some?
    then Templated(Messages(body), lib.render(lib.template(templateID).value, VarsOf(body, lib.show)))
    else Messages(body)
  }

  /** Whether a template or a history touches the messages at all. */
  predicate TouchesMessages(body: Fields, lib: Library) {
    StringAt(body, "prompt_template_id") != "" || Recalled(lib, StringAt(body, "session_id")) != []
  }

  predicate Rejected(body: Fields, lib: Library) {
    var templateID := StringAt(body, "prompt_template_id");
    StringAt(body, "model") == "" || (templateID != "" && lib.template(templateID).None?)
  }

  /** The body once template and history are in. */
  function WithMessages(body: Fields, lib: Library): Fields {
    var clean := body - ENHANCEMENTS;
    if TouchesMessages(body, lib) then clean["messages" := Arr(SentMessages(body, lib))] else clean
  }

  /** Template first, then history before it. */
  method RewriteMessages(body: Fields, clean: Fields, enh: Enhancements, lib: Library) returns (r: Result<Fields, Error>)
    requires clean == body - ENHANCEMENTS && enh.vars == VarsOf(body, lib.show)
    requires enh.sessionID == StringAt(body, "session_id") && enh.templateID == StringAt(body, "prompt_template_id")
    ensures r == if enh.templateID != "" && lib.template(enh.templateID).None? then Err(UnknownTemplate) else Ok(WithMessages(body, lib))
  {
    hide VarsOf, Templated, FromMessages;
    var m := clean;
    assert Messages(m) == Messages(body);
    if enh.templateID != "" {
      r := ApplyPromptTemplate(m, enh.templateID, enh.vars, lib);
      if r.Err? { return; }
      m := r.value;
    }
    NoHistory();
    assert FromMessages(Recalled(lib, enh.sessionID)) + Messages(m) == SentMessages(body, lib);
    assert FromMessages([]) + Messages(m) == Messages(m);
    if enh.sessionID != "" {
      m := ApplyConversationHistory(m, enh.sessionID, lib);
    }
    assert m == WithMessages(body, lib);
    return Ok(m);
  }

  lemma NoHistory()
    ensures FromMessages([]) == []
  {
  }

  /** The whole rewriting of a chat request, in the order the gateway runs it. Apart from the named keys the
      request goes out as it came in. */
  method RewriteChat(body: Fields, upstreamModel: string, lib: Library) returns (r: Result<Fields, Error>)
    ensures r.Err? <==> Rejected(body, lib)
    ensures r.Ok? ==> Sent(body, upstreamModel, lib, r.value)
  {
    hide WithMessages, AsksForUsage, WithModel, Sent, Same;
    var clean, enh, model, stream := ExtractChatEnhancements(body, lib.show);
    if model == "" { return Err(MissingModel); }
    r := RewriteMessages(body, clean, enh, lib);
    if r.Err? { return; }
    clean := r.value;
    if stream { clean := InjectStreamOptions(clean); }
    UsageSends(body, lib, clean);
    ModelSends(body, upstreamModel, lib, clean);
    return Ok(WithModel(clean, upstreamModel));
  }

  /** The first two stages; the model is still the client's. */
  lemma UsageSends(body: Fields, lib: Library, m: Fields)
    requires if BoolAt(body, "stream")
             then AsksForUsage(WithMessages(body, lib), m) && forall k :: k != "stream_options" ==> Same(WithMessages(body, lib), m, k)
             else m == WithMessages(body, lib)
    ensures Sent(body, "", lib, m)
  {
    hide SentMessages, TouchesMessages, BoolAt;
    var w := WithMessages(body, lib);
    assert StreamOptions(w) == StreamOptions(body);
    forall k ensures k != "stream_options" ==> (k in m <==> k in w) && (k in w ==> m[k] == w[k]) { assert k != "stream_options" && m != w ==> Same(w, m, k); }
    hide StreamOptions, WithMessages;
  }

  lemma ModelSends(body: Fields, upstreamModel: string, lib: Library, m: Fields)
    requires Sent(body, "", lib, m)
    ensures Sent(body, upstreamModel, lib, WithModel(m, upstreamModel))
  {
    assert Trim("") == "";
    var out := WithModel(m, upstreamModel);
    forall k ensures k != "model" ==> (k in m <==> k in out) && (k in m ==> out[k] == m[k]) { }
    forall k | k !in ENHANCEMENTS + {"messages", "stream_options", "model"} ensures Same(body, out, k) { assert Same(body, m, k); }
    hide SentMessages, TouchesMessages, BoolAt, Trim, StreamOptions;
  }

  /** How the body sent relates to the body received, key by key. */
  ghost predicate Sent(body: Fields, upstreamModel: string, lib: Library, out: Fields) {
    && (forall k :: k in out ==> k !in ENHANCEMENTS)
    && (forall k :: k !in ENHANCEMENTS + {"messages", "stream_options", "model"} ==> Same(body, out, k))
    && (if TouchesMessages(body, lib) then "messages" in out && out["messages"] == Arr(SentMessages(body, lib)) else Same(body, out, "messages"))
    && (if BoolAt(body, "stream") then AsksForUsage(body, out) else Same(body, out, "stream_options"))
    && (if Trim(upstreamModel) != "" then "model" in out && out["model"] == Str(Trim(upstreamModel)) else Same(body, out, "model"))
  }

  // ---- what becomes of the client's messages ------------------------------------------------------------------

  /** The same message up to text appended to a textual or missing content. */
  ghost predicate Appended(before: Json, after: Json) {
    && before.Obj? && after.Obj? && "content" in after.fields && after.fields["content"].Str?
    && ("content" in before.fields ==> before.fields["content"].Str? && before.fields["content"].s <= after.fields["content"].s)
    && forall k :: k != "content" ==> Same(before.fields, after.fields, k)
  }

  /** The message as sent still says what the client's said. */
  ghost predicate Survives(before: Json, after: Json) {
    after == before || (HasRole(before, "system") && Appended(before, after))
  }

  predicate TemplateApplies(body: Fields, lib: Library) {
    var templateID := StringAt(body, "prompt_template_id"); templateID != "" && lib.template(templateID).Some?
  }

  /** A template can be appended to the message: it has no content or a textual one. */
  predicate Extensible(message: Json) {
    message.Obj? && ("content" in message.fields ==> message.fields["content"].Str?)
  }

  /** The client's messages end the list sent, in order, after the recalled history and at most one system
      message; all but the first are unchanged, and the first survives exactly when no template applies, or
      it is no system message, or its content is missing or a string. */
  lemma ClientMessagesAreSuffix(body: Fields, lib: Library)
    ensures var client, sent, recalled := Messages(body), SentMessages(body, lib), FromMessages(Recalled(lib, StringAt(body, "session_id")));
            && recalled <= sent && |recalled| + |client| <= |sent| <= |recalled| + |client| + 1
            && var tail := sent[|sent| - |client|..];
               && (|client| > 0 ==>
                     && tail[1..] == client[1..]
                     && (Survives(client[0], tail[0]) <==>
                         !TemplateApplies(body, lib) || !HasRole(client[0], "system") || Extensible(client[0])))
               && (|sent| == |recalled| + |client| + 1 ==> tail == client && HasRole(sent[|recalled|], "system"))
  {
    var client, sent, recalled := Messages(body), SentMessages(body, lib), FromMessages(Recalled(lib, StringAt(body, "session_id")));
    var tail := sent[|sent| - |client|..];
    if TemplateApplies(body, lib) && client != [] && HasRole(client[0], "system") {
      var rendered := lib.render(lib.template(StringAt(body, "prompt_template_id")).value, VarsOf(body, lib.show));
      assert tail == [Extended(client[0], rendered)] + client[1..];
      ExtendedSurvives(client[0], rendered);
    } else {
      assert tail == client;
    }
  }

  lemma ExtendedSurvives(message: Json, rendered: string)
    requires HasRole(message, "system")
    ensures Survives(message, Extended(message, rendered)) <==> Extensible(message)
  {
    var existing := StringAt(message.fields, "content");
    assert existing + "\n\n" + rendered == existing + ("\n\n" + rendered);
    assert Extended(message, rendered).fields["content"].Str?;
  }

  /** A system message whose content is a list of parts, as the chat protocol allows: appending a template
      to it erases what the client said. */
  lemma SystemPartsAreLost(lib: Library)
    requires lib.template("brief").Some?
    ensures var system := Obj(map["role" := Str("system"), "content" := Arr([Obj(map["type" := Str("text"), "text" := Str("be brief")])])]);
            var body := map["model" := Str("m"), "prompt_template_id" := Str("brief"), "messages" := Arr([system])];
            && !Rejected(body, lib)
            && SentMessages(body, lib) ==
               [Obj(map["role" := Str("system"), "content" := Str("\n\n" + lib.render(lib.template("brief").value, map[]))])]
  {
    var system := Obj(map["role" := Str("system"), "content" := Arr([Obj(map["type" := Str("text"), "text" := Str("be brief")])])]);
    var body := map["model" := Str("m"), "prompt_template_id" := Str("brief"), "messages" := Arr([system])];
    assert VarsOf(body, lib.show) == map[] && FromMessages(Recalled(lib, "")) == [];
    var rendered := lib.render(lib.template("brief").value, map[]);
    assert "" + "\n\n" + rendered == "\n\n" + rendered;
    assert Extended(system, rendered) == Obj(map["role" := Str("system"), "content" := Str("\n\n" + rendered)]);
  }

  // ---- the last user message ----------------------------------------------------------------------------------

  /** The struct decoder accepts the element: null, or an object whose role, if any, is a string or null. */
  predicate Decodable(message: Json) {
    message.Null? || (message.Obj? && ("role" in message.fields ==> message.fields["role"].Str? || message.fields["role"].Null?))
  }

  predicate AllDecodable(messages: seq<Json>) {
    forall i :: 0 <= i < |messages| ==> Decodable(messages[i])
  }

  function ContentOf(message: Json): Json {
    if message.Obj? && "content" in message.fields then message.fields["content"] else Null
  }

  /** The content of the last message with the user role. */
  function LastUser(messages: seq<Json>): Option<Json> {
    if messages == [] then None
    else if HasRole(messages[|messages| - 1], "user") then Some(ContentOf(messages[|messages| - 1]))
    else LastUser(messages[..|messages| - 1])
  }

  /** `extractLastUserMessage`: decode, then scan from the end; undecodable messages have no text. */
  method ExtractLastUserMessage(messages: seq<Json>, show: Json -> string) returns (text: string)
    ensures text == if AllDecodable(messages) && LastUser(messages).Some? then show(LastUser(messages).value) else ""
  {
    if !AllDecodable(messages) { return ""; }
    var i := |messages| - 1;
    assert messages[..i + 1] == messages;
    while i >= 0
      invariant -1 <= i < |messages|
      invariant LastUser(messages) == LastUser(messages[..i + 1])
    {
      assert messages[..i + 1][..i] == messages[..i];
      if HasRole(messages[i], "user") { return show(ContentOf(messages[i])); }
      i := i - 1;
    }
    return "";
  }

  lemma {:induction false} LastUserAppend(a: seq<Json>, b: seq<Json>)
    ensures LastUser(a + b) == if LastUser(b).Some? then LastUser(b) else LastUser(a)
  {
    if b == [] {
      assert a + b == a;
    } else {
      LastUserAppend(a, b[..|b| - 1]);
      assert (a + b)[..|a + b| - 1] == a + b[..|b| - 1];
    }
  }

  lemma DecodableAppend(a: seq<Json>, b: seq<Json>)
    ensures AllDecodable(a + b) <==> AllDecodable(a) && AllDecodable(b)
  {
    if AllDecodable(a + b) {
      forall i | 0 <= i < |a| ensures Decodable(a[i]) { assert Decodable((a + b)[i]); }
      forall i | 0 <= i < |b| ensures Decodable(b[i]) { assert Decodable((a + b)[|a| + i]); }
    }
  }

  lemma OneMessage(message: Json)
    ensures LastUser([message]) == if HasRole(message, "user") then Some(ContentOf(message)) else None
  {
    assert [message][..0] == [];
  }

  lemma TemplateKeepsLastUser(messages: seq<Json>, rendered: string)
    ensures LastUser(Templated(messages, rendered)) == LastUser(messages)
    ensures AllDecodable(Templated(messages, rendered)) <==> AllDecodable(messages)
  {
    hide LastUser, AllDecodable;
    if messages != [] && HasRole(messages[0], "system") {
      var first := Extended(messages[0], rendered);
      assert messages == [messages[0]] + messages[1..];
      LastUserAppend([first], messages[1..]);
      LastUserAppend([messages[0]], messages[1..]);
      OneMessage(first);
      OneMessage(messages[0]);
      DecodableAppend([first], messages[1..]);
      DecodableAppend([messages[0]], messages[1..]);
      OneDecodable(first);
      OneDecodable(messages[0]);
    } else {
      LastUserAppend([SystemMessage(rendered)], messages);
      OneMessage(SystemMessage(rendered));
      DecodableAppend([SystemMessage(rendered)], messages);
      OneDecodable(SystemMessage(rendered));
    }
  }

  lemma OneDecodable(message: Json)
    ensures AllDecodable([message]) <==> Decodable(message)
  {
    assert [message][0] == message;
  }

  /** The last user message sent is the client's, if the client sent one, and else the history's; and the
      list sent can be decoded exactly when the client's can. */
  lemma LastUserIsTheClients(body: Fields, lib: Library)
    ensures AllDecodable(SentMessages(body, lib)) <==> AllDecodable(Messages(body))
    ensures LastUser(SentMessages(body, lib)) ==
            if LastUser(Messages(body)).Some? then LastUser(Messages(body))
            else LastUser(FromMessages(Recalled(lib, StringAt(body, "session_id"))))
  {
    var recalled := FromMessages(Recalled(lib, StringAt(body, "session_id")));
    var templateID := StringAt(body, "prompt_template_id");
    var rest := Messages(body);
    if templateID != "" && lib.template(templateID).Some? {
      var rendered := lib.render(lib.template(templateID).value, VarsOf(body, lib.show));
      TemplateKeepsLastUser(rest, rendered);
      rest := Templated(rest, rendered);
    }
    assert SentMessages(body, lib) == recalled + rest;
    LastUserAppend(recalled, rest);
    DecodableAppend(recalled, rest);
    assert AllDecodable(recalled);
  }
}
