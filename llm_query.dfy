/**
 * The two language-model clients: fence stripping of a reply, the
 * single-shot Ollama client, and the Gemini client whose model cursor
 * advances on every failed call and persists between calls.
 */
module LlmQuery {
  import opened Wrappers
  import opened Text
  import opened JsonValues
  import opened Sequences

  // ---------------------------------------------------------------------
  // Fence stripping
  // ---------------------------------------------------------------------

  const Fence: string := "```"
  const JsonFence: string := "```json"

  /** Three backticks start at position `i`. */
  predicate FenceAt(s: string, i: int) {
    0 <= i && i + 3 <= |s| && s[i] == '`' && s[i + 1] == '`' && s[i + 2] == '`'
  }

  /** No three consecutive backticks anywhere. */
  predicate FenceFree(s: string) {
    forall i :: 0 <= i < |s| ==> !FenceAt(s, i)
  }

  /**
   * What both clients do to a reply before parsing it: remove every
   * "```json", then every "```", then strip surrounding whitespace.
   * The result holds no fence at all and no edge whitespace.
   */
  function StripFences(reply: string): (r: string)
    ensures FenceFree(r) && Trimmed(r)
  {
    var u := ReplaceAll(ReplaceAll(reply, JsonFence, ""), Fence, "");
    RemovingFencesLeavesNone(ReplaceAll(reply, JsonFence, ""));
    StripKeepsFenceFree(u);
    Strip(u)
  }

  lemma StripKeepsFenceFree(u: string)
    requires FenceFree(u)
    ensures FenceFree(Strip(u))
  {
    var l := StripLeft(u);
    FenceFreeInfix(u, |u| - |l|, |u|);
    assert u[|u| - |l|..|u|] == l;
    FenceFreeInfix(l, 0, |StripRight(l)|);
    assert l[0..|StripRight(l)|] == StripRight(l);
  }

  /** An occurrence of a pattern that starts with a fence is a fence. */
  lemma OccursFence(s: string, pat: string, i: int)
    requires OccursAt(s, pat, i) && |pat| >= 3 && pat[..3] == Fence
    ensures FenceAt(s, i)
  {
    assert s[i..i + |pat|][0] == s[i] && s[i..i + |pat|][1] == s[i + 1] && s[i..i + |pat|][2] == s[i + 2];
    assert pat[0] == '`' && pat[1] == '`' && pat[2] == '`';
  }

  lemma FenceFreeInfix(s: string, i: int, j: int)
    requires 0 <= i <= j <= |s| && FenceFree(s)
    ensures FenceFree(s[i..j])
  {
    forall k | 0 <= k < j - i
      ensures !FenceAt(s[i..j], k)
    {
      assert FenceAt(s[i..j], k) ==> FenceAt(s, i + k);
    }
  }

  /** Removing fences from a string that does not start with a backtick gives one that does not either. */
  lemma RemovingKeepsNoLeadingTick(s: string)
    requires s == [] || s[0] != '`'
    ensures var r := ReplaceAll(s, Fence, ""); r == [] || r[0] != '`'
  {
  }

  /** Removing fences from a string that does not start with two backticks gives one that does not either. */
  lemma RemovingKeepsNoLeadingPair(s: string)
    requires !(|s| >= 2 && s[0] == '`' && s[1] == '`')
    ensures var r := ReplaceAll(s, Fence, ""); !(|r| >= 2 && r[0] == '`' && r[1] == '`')
  {
    if |s| >= 3 && s[0] == '`' {
      assert s[..3] != Fence;
      RemovingKeepsNoLeadingTick(s[1..]);
    }
  }

  /**
   * A single left-to-right pass of `replace("```", "")` leaves no fence behind:
   * a fence can never be glued together from the pieces around a removed one.
   */
  lemma {:induction false} RemovingFencesLeavesNone(s: string)
    ensures FenceFree(ReplaceAll(s, Fence, ""))
    decreases |s|
  {
    var r := ReplaceAll(s, Fence, "");
    if |s| < 3 {
    } else if s[..3] == Fence {
      assert r == ReplaceAll(s[3..], Fence, "");
      RemovingFencesLeavesNone(s[3..]);
    } else {
      var t := ReplaceAll(s[1..], Fence, "");
      RemovingFencesLeavesNone(s[1..]);
      assert r == [s[0]] + t;
      if s[0] == '`' {
        assert !(|s[1..]| >= 2 && s[1..][0] == '`' && s[1..][1] == '`');
        RemovingKeepsNoLeadingPair(s[1..]);
      }
      forall k | 0 <= k < |r|
        ensures !FenceAt(r, k)
      {
        if k > 0 {
          assert FenceAt(r, k) ==> FenceAt(t, k - 1);
        }
      }
    }
  }

  /** A reply that is already fence-free and trimmed passes through unchanged. */
  lemma StripFencesFixpoint(s: string)
    requires FenceFree(s) && Trimmed(s)
    ensures StripFences(s) == s
  {
    forall i | 0 <= i <= |s| - |JsonFence|
      ensures !OccursAt(s, JsonFence, i)
    {
      if OccursAt(s, JsonFence, i) { OccursFence(s, JsonFence, i); }
    }
    ReplaceAbsent(s, JsonFence, "");
    forall i | 0 <= i <= |s| - |Fence|
      ensures !OccursAt(s, Fence, i)
    {
      if OccursAt(s, Fence, i) { OccursFence(s, Fence, i); }
    }
    ReplaceAbsent(s, Fence, "");
    StripTrimmed(s);
  }

  /** No fence starts inside a fence-free text that does not end with a backtick, even with a fence after it. */
  lemma NoFenceBefore(t: string)
    requires FenceFree(t) && (t == [] || t[|t| - 1] != '`')
    ensures forall j :: 0 <= j < |t| ==> !FenceAt(t + Fence, j)
  {
    forall j | 0 <= j < |t|
      ensures !FenceAt(t + Fence, j)
    {
      if j + 3 <= |t| {
        assert FenceAt(t + Fence, j) ==> FenceAt(t, j);
      } else {
        assert (t + Fence)[|t| - 1] == t[|t| - 1];
      }
    }
  }

  /**
   * The payload of a fenced reply is kept: removing the opening "```json"
   * and the closing "```" around a fence-free text that does not end with a
   * backtick leaves that text, stripped.
   */
  lemma StripFencesPayload(t: string)
    requires FenceFree(t) && (t == [] || t[|t| - 1] != '`')
    ensures StripFences(JsonFence + t + Fence) == Strip(t)
  {
    NoFenceBefore(t);
    DropOpeningFence(t);
    DropClosingFence(t);
  }

  /** The first pass removes the opening "```json" and only that. */
  lemma DropOpeningFence(t: string)
    requires forall j :: 0 <= j < |t| ==> !FenceAt(t + Fence, j)
    ensures ReplaceAll(JsonFence + t + Fence, JsonFence, "") == t + Fence
  {
    var u := t + Fence;
    forall j | 0 <= j <= |u| - |JsonFence|
      ensures !OccursAt(u, JsonFence, j)
    {
      if OccursAt(u, JsonFence, j) { OccursFence(u, JsonFence, j); }
    }
    ReplaceLeading(JsonFence, t, Fence, "");
  }

  /** The second pass removes the closing "```" and leaves the text before it. */
  lemma DropClosingFence(t: string)
    requires forall j :: 0 <= j < |t| ==> !FenceAt(t + Fence, j)
    ensures ReplaceAll(t + Fence, Fence, "") == t
  {
    forall j | 0 <= j < |t|
      ensures !OccursAt(t + Fence, Fence, j)
    {
      if OccursAt(t + Fence, Fence, j) { OccursFence(t + Fence, Fence, j); }
    }
    ReplaceTrailing(t, Fence, "");
  }

  /** A fenced JSON reply as the model writes it: the object between the fences is what gets parsed. */
  lemma StripFencesExample()
    ensures StripFences(JsonFence + "\n{}\n" + Fence) == "{}"
  {
    ExamplePayload();
    StripFencesPayload("\n{}\n");
  }

  /** The payload of the example holds no fence and strips to the bare object. */
  lemma ExamplePayload()
    ensures FenceFree("\n{}\n") && Strip("\n{}\n") == "{}"
  {
    var t := "\n{}\n";
    forall i | 0 <= i < |t| ensures !FenceAt(t, i) { }
    ExampleStrip();
  }

  /** Stripping removes the line breaks around the example object. */
  lemma ExampleStrip()
    ensures Strip("\n{}\n") == "{}"
  {
    var t := "\n{}\n";
    assert StripLeft(t) == "{}\n" by {
      assert IsSpace(t[0]) && t[1..] == "{}\n";
      assert !IsSpace('{');
    }
    assert StripRight("{}\n") == "{}" by {
      assert "{}\n"[..2] == "{}";
      assert !IsSpace('}');
    }
  }

  /** Stripping twice is stripping once. */
  lemma StripFencesIdempotent(s: string)
    ensures StripFences(StripFences(s)) == StripFences(s)
  {
    StripFencesFixpoint(StripFences(s));
  }

  /** `json.loads` on the stripped reply, with JSONDecodeError as an error. */
  function Decode(parse: string -> Option<Json>, text: string): (r: Result<Json, Error>)
    ensures r.Ok? <==> parse(text).Some?
    ensures r.Ok? ==> r.value == parse(text).value
    ensures r.Err? ==> r.error == DecodeFailed
  {
    match parse(text)
    case Some(j) => Ok(j)
    case None => Err(DecodeFailed)
  }

  /** `if system_prompt:` — a system prompt is sent when it is present and non-empty. */
  predicate SystemGiven(system: Option<string>)
    ensures SystemGiven(system) <==> system.Some? && Truthy(JStr(system.value))
  {
    system.Some? && system.value != ""
  }

  // ---------------------------------------------------------------------
  // Ollama: one chat call, no failover
  // ---------------------------------------------------------------------

  datatype Message = Message(role: string, content: string)

  /** What the chat backend does with one request: raise, or answer with message content. */
  datatype ChatReply = ChatRaised | ChatContent(content: string)

  datatype Ollama = Ollama(model: string) {

    /** The message list: a system message first when a system prompt is given, then the user message. */
    function Messages(user: string, system: Option<string>): (msgs: seq<Message>)
      ensures |msgs| == if SystemGiven(system) then 2 else 1
      ensures msgs[|msgs| - 1] == Message("user", user)
      ensures SystemGiven(system) ==> msgs[0] == Message("system", system.value)
    {
      (if SystemGiven(system) then [Message("system", system.value)] else []) + [Message("user", user)]
    }

    /**
     * `Ollama.query_json`: one chat call with this client's model; a raise
     * propagates, a reply is fence-stripped and parsed, and a parse failure
     * propagates as well.
     */
    function QueryJson(chat: (string, seq<Message>) -> ChatReply, parse: string -> Option<Json>,
                       user: string, system: Option<string>): (r: Result<Json, Error>)
      ensures chat(model, Messages(user, system)).ChatRaised? ==> r == Err(ChatFailed)
      ensures r.Ok? <==> chat(model, Messages(user, system)).ChatContent? &&
                         parse(StripFences(chat(model, Messages(user, system)).content)).Some?
      ensures r.Ok? ==> exists text :: chat(model, Messages(user, system)) == ChatContent(text) &&
                                       parse(StripFences(text)) == Some(r.value)
      ensures r == Err(DecodeFailed) <==>
              chat(model, Messages(user, system)).ChatContent? &&
              parse(StripFences(chat(model, Messages(user, system)).content)).None?
    {
      match chat(model, Messages(user, system))
      case ChatRaised => Err(ChatFailed)
      case ChatContent(text) => Decode(parse, StripFences(text))
    }
  }

  /**
   * The Ollama client has no retry: two chat backends that answer this one
   * request alike give the same result, whatever they would do otherwise.
   */
  lemma OllamaSingleCall(o: Ollama, chat1: (string, seq<Message>) -> ChatReply,
                         chat2: (string, seq<Message>) -> ChatReply, parse: string -> Option<Json>,
                         user: string, system: Option<string>)
    requires chat1(o.model, o.Messages(user, system)) == chat2(o.model, o.Messages(user, system))
    ensures o.QueryJson(chat1, parse, user, system) == o.QueryJson(chat2, parse, user, system)
  {
  }


  // ---------------------------------------------------------------------
  // Gemini: model cursor, at most three attempts per call
  // ---------------------------------------------------------------------

  /** The models the Gemini client is configured with, in failover order. */
  const GeminiModels: seq<string> :=
    ["gemini-2.5-flash-preview-04-17", "gemini-2.0-flash", "gemini-1.5-flash", "gemma3"]

  /** `len(self.models)`. */
  const ModelCount: nat := 4

  /** The cursor arithmetic uses `ModelCount` for the length of the model list. */
  lemma ModelCountIsLength()
    ensures |GeminiModels| == ModelCount
  {
  }

  /**
   * One `generate_content` call: the model, as its position in
   * `GeminiModels`; the contents; and the system instruction when one is sent.
   */
  datatype Request = Request(model: nat, contents: string, systemInstruction: Option<string>)

  /** What the Gemini backend does with one request: raise, or answer with reply text. */
  datatype GenReply = GenRaised | GenText(text: string)

  /** The request the client sends with the cursor at `cursor`: the prompt is the user prompt plus a newline. */
  function MakeRequest(cursor: nat, user: string, system: Option<string>): (r: Request)
    requires cursor < ModelCount
    ensures r.model == cursor
    ensures |r.contents| == |user| + 1 && r.contents[..|user|] == user && r.contents[|user|] == '\n'
    ensures r.systemInstruction.Some? <==> SystemGiven(system)
    ensures r.systemInstruction.Some? ==> r.systemInstruction.value == system.value
  {
    Request(cursor, user + "\n", if SystemGiven(system) then Some(system.value) else None)
  }

  /** `(model_idx + 1) % len(self.models)`. */
  function Advance(cursor: nat): (next: nat)
    requires cursor < ModelCount
    ensures next < ModelCount
  {
    (cursor + 1) % ModelCount
  }

  /** The cursor `i` places on from `cursor`, wrapping around the model list. */
  function Rotated(cursor: nat, i: nat): (c: nat)
    ensures c < ModelCount
  {
    (cursor + i) % ModelCount
  }

  /** Advancing once and then moving `i - 1` places is moving `i` places. */
  lemma RotateStep(cursor: nat, i: nat)
    requires cursor < ModelCount && 1 <= i <= ModelCount
    ensures Rotated(Advance(cursor), i - 1) == Rotated(cursor, i)
  {
    if cursor + 1 < 4 {
      assert Advance(cursor) == cursor + 1;
    } else {
      assert Advance(cursor) == 0;
    }
  }

  /** A call's first request goes to the model under the cursor. */
  lemma RotatedZero(cursor: nat)
    requires cursor < ModelCount
    ensures Rotated(cursor, 0) == cursor
  {
  }

  /**
   * The attempts one call makes, separated from what is done with the reply:
   * the reply text that ended the call (None when it gave up), the cursor
   * afterwards, and the requests sent, in order.
   */
  datatype Attempts = Attempts(reply: Option<string>, cursor: nat, sent: seq<Request>)

  /**
   * The retries of `Gemini.query_json` entered with cursor `cursor` and
   * attempt index `k`. `backend(k, request)` is what the backend does with the
   * attempt of index `k`. A failure advances the cursor, then gives up at
   * attempt index 2 or tries again with the next index.
   */
  function Failover(cursor: nat, k: nat, user: string, system: Option<string>,
                    backend: (nat, Request) -> GenReply): (a: Attempts)
    requires cursor < ModelCount && k <= 2
    ensures a.cursor < ModelCount
    ensures 1 <= |a.sent| <= 3 - k
    decreases 2 - k
  {
    var req := MakeRequest(cursor, user, system);
    match backend(k, req)
    case GenRaised =>
      if k == 2 then Attempts(None, Advance(cursor), [req])
      else
        var rest := Failover(Advance(cursor), k + 1, user, system, backend);
        Attempts(rest.reply, rest.cursor, [req] + rest.sent)
    case GenText(text) => Attempts(Some(text), cursor, [req])
  }

  /** One step of `Failover`: a failed attempt below index 2 is followed by the rest of the call from the next model. */
  lemma FailoverAfterFailure(cursor: nat, k: nat, user: string, system: Option<string>,
                             backend: (nat, Request) -> GenReply)
    requires cursor < ModelCount && k < 2
    requires backend(k, MakeRequest(cursor, user, system)).GenRaised?
    ensures var rest := Failover(Advance(cursor), k + 1, user, system, backend);
            Failover(cursor, k, user, system, backend) ==
            Attempts(rest.reply, rest.cursor, [MakeRequest(cursor, user, system)] + rest.sent)
  {
  }

  /** One step of `Failover`: a reply, or a failure at index 2, ends the call after one request. */
  lemma FailoverLastStep(cursor: nat, k: nat, user: string, system: Option<string>,
                         backend: (nat, Request) -> GenReply)
    requires cursor < ModelCount && k <= 2
    requires k == 2 || backend(k, MakeRequest(cursor, user, system)).GenText?
    ensures var req := MakeRequest(cursor, user, system);
            Failover(cursor, k, user, system, backend) ==
            match backend(k, req)
            case GenText(text) => Attempts(Some(text), cursor, [req])
            case GenRaised => Attempts(None, Advance(cursor), [req])
  {
  }

  /**
   * What `query_json` returns after its attempts: the re-raised failure when
   * it gave up, else the fence-stripped reply parsed, where a parse failure
   * is raised rather than retried.
   */
  function JsonOutcome(a: Attempts, parse: string -> Option<Json>): (r: Result<Json, Error>)
    ensures r == Err(AllModelsFailed) <==> a.reply.None?
  {
    match a.reply
    case None => Err(AllModelsFailed)
    case Some(text) => DecodeReply(parse, text)
  }

  /**
   * A reply is parsed only after its fences are stripped, and a reply that
   * does not parse is a decode failure: it is never retried.
   */
  lemma JsonOutcomeDecodes(a: Attempts, parse: string -> Option<Json>)
    requires a.reply.Some?
    ensures JsonOutcome(a, parse).Ok? <==> parse(StripFences(a.reply.value)).Some?
    ensures JsonOutcome(a, parse).Ok? ==> parse(StripFences(a.reply.value)) == Some(JsonOutcome(a, parse).value)
    ensures JsonOutcome(a, parse).Err? ==> JsonOutcome(a, parse) == Err(DecodeFailed)
  {
    var t := StripFences(a.reply.value);
    assert JsonOutcome(a, parse) == Decode(parse, t);
  }

  /** The attempt `i` places after attempt index `k` fails, when the cursor stood at `cursor` for attempt `k`. */
  predicate FailsAt(backend: (nat, Request) -> GenReply, user: string, system: Option<string>, cursor: nat, k: nat, i: nat)
    requires cursor < ModelCount
  {
    backend(k + i, MakeRequest(Rotated(cursor, i), user, system)).GenRaised?
  }

  /**
   * The i-th request of a call goes to the model at cursor position
   * `cursor + i` (mod the number of models), with the same contents and
   * system instruction every time.
   */
  lemma {:induction false} FailoverRotates(cursor: nat, k: nat, user: string, system: Option<string>,
                                             backend: (nat, Request) -> GenReply)
    requires cursor < ModelCount && k <= 2
    ensures var a := Failover(cursor, k, user, system, backend);
            forall i :: 0 <= i < |a.sent| ==> a.sent[i] == MakeRequest(Rotated(cursor, i), user, system)
    decreases 2 - k
  {
    var a := Failover(cursor, k, user, system, backend);
    if backend(k, MakeRequest(cursor, user, system)).GenRaised? && k < 2 {
      FailoverRotates(Advance(cursor), k + 1, user, system, backend);
      var rest := Failover(Advance(cursor), k + 1, user, system, backend);
      forall i | 1 <= i < |a.sent|
        ensures a.sent[i] == MakeRequest(Rotated(cursor, i), user, system)
      {
        assert a.sent[i] == rest.sent[i - 1];
        RotateStep(cursor, i);
      }
      RotatedZero(cursor);
    } else {
      RotatedZero(cursor);
    }
  }

  /**
   * How the attempts end. Every failure advances the cursor before the bound
   * is checked, so a call that gives up has sent one request per remaining
   * attempt, each of which failed, and leaves the cursor that many places on.
   * A call that got a reply stops there and leaves the cursor on the model
   * that replied; the requests before it all failed.
   */
  lemma {:induction false} FailoverEnds(cursor: nat, k: nat, user: string, system: Option<string>,
                                          backend: (nat, Request) -> GenReply)
    requires cursor < ModelCount && k <= 2
    ensures Ended(backend, cursor, k, Failover(cursor, k, user, system, backend))
    decreases 2 - k
  {
    var a := Failover(cursor, k, user, system, backend);
    var req := MakeRequest(cursor, user, system);
    if backend(k, req).GenRaised? && k < 2 {
      FailoverEnds(Advance(cursor), k + 1, user, system, backend);
      EndedAfterFailure(cursor, k, user, system, backend);
    } else {
      RotatedZero(cursor);
      if backend(k, req).GenRaised? {
        assert a == Attempts(None, Advance(cursor), [req]);
        assert Advance(cursor) == Rotated(cursor, 1);
      } else {
        assert a == Attempts(Some(backend(k, req).text), cursor, [req]);
      }
    }
  }

  /**
   * The conclusion of `FailoverEnds` about the attempts `a` made from cursor
   * `cursor` and attempt index `k`: every request before the last failed;
   * a call that gave up made all its attempts, the last failed too, and the
   * cursor moved on once per attempt; a call that got a reply got it from
   * its last request and left the cursor on the model that replied.
   */
  ghost predicate Ended(backend: (nat, Request) -> GenReply, cursor: nat, k: nat, a: Attempts)
    requires cursor < ModelCount && 1 <= |a.sent|
  {
    var last := |a.sent| - 1;
    && (forall i :: 0 <= i < last ==> backend(k + i, a.sent[i]).GenRaised?)
    && (a.reply.None? ==>
          |a.sent| == 3 - k && a.cursor == Rotated(cursor, 3 - k) &&
          backend(k + last, a.sent[last]).GenRaised?)
    && (a.reply.Some? ==>
          a.cursor == Rotated(cursor, last) &&
          backend(k + last, a.sent[last]) == GenText(a.reply.value))
  }

  /** The inductive step of `FailoverEnds`: a failed first attempt shifts the rest of the call by one place. */
  lemma EndedAfterFailure(cursor: nat, k: nat, user: string, system: Option<string>,
                          backend: (nat, Request) -> GenReply)
    requires cursor < ModelCount && k < 2
    requires backend(k, MakeRequest(cursor, user, system)).GenRaised?
    requires Ended(backend, Advance(cursor), k + 1, Failover(Advance(cursor), k + 1, user, system, backend))
    ensures Ended(backend, cursor, k, Failover(cursor, k, user, system, backend))
  {
    var a := Failover(cursor, k, user, system, backend);
    var req := MakeRequest(cursor, user, system);
    var rest := Failover(Advance(cursor), k + 1, user, system, backend);
    assert a == Attempts(rest.reply, rest.cursor, [req] + rest.sent);
    forall i | 1 <= i < |a.sent|
      ensures a.sent[i] == rest.sent[i - 1] && k + i == (k + 1) + (i - 1)
    {
    }
    RotateStep(cursor, |rest.sent|);
    RotateStep(cursor, 3 - k);
  }

  /** A call gives up exactly when every remaining attempt fails; then no further request is sent. */
  lemma FailoverGivesUpIff(cursor: nat, k: nat, user: string, system: Option<string>,
                           backend: (nat, Request) -> GenReply)
    requires cursor < ModelCount && k <= 2
    ensures var a := Failover(cursor, k, user, system, backend);
            a.reply.None? <==> forall i :: 0 <= i < 3 - k ==> FailsAt(backend, user, system, cursor, k, i)
  {
    var a := Failover(cursor, k, user, system, backend);
    FailoverEnds(cursor, k, user, system, backend);
    FailoverRotates(cursor, k, user, system, backend);
    if a.reply.Some? {
      var last := |a.sent| - 1;
      assert !FailsAt(backend, user, system, cursor, k, last);
    }
  }

  /** The strict decode step of `query_json`: strip the fences, then parse. */
  function DecodeReply(parse: string -> Option<Json>, text: string): (r: Result<Json, Error>)
  {
    Decode(parse, StripFences(text))
  }

  /** What `Gemini.query` returns on success: the raw reply, or the parsed reply once it has fallen back to `query_json`. */
  datatype Answer = Raw(text: string) | Parsed(value: Json)

  /**
   * What `Gemini.query` returns after the same attempts as `query_json`: a
   * reply to its own first attempt is returned raw; a reply obtained after
   * falling back to `query_json` is stripped and parsed.
   */
  function QueryOutcome(a: Attempts, parse: string -> Option<Json>): (r: Result<Answer, Error>)
    ensures r == Err(AllModelsFailed) <==> a.reply.None?
    ensures |a.sent| == 1 && a.reply.Some? ==> r == Ok(Raw(a.reply.value))
    ensures |a.sent| > 1 ==> r == match JsonOutcome(a, parse) case Ok(j) => Ok(Parsed(j)) case Err(e) => Err(e)
  {
    match a.reply
    case None => Err(AllModelsFailed)
    case Some(text) =>
      if |a.sent| == 1 then Ok(Raw(text))
      else
        match JsonOutcome(a, parse)
        case Ok(j) => Ok(Parsed(j))
        case Err(e) => Err(e)
  }

  /** `Gemini.query` after a failed first attempt below index 2: the outcome of the `query_json` fallback, parsed. */
  lemma QueryAfterFailure(cursor: nat, k: nat, user: string, system: Option<string>,
                          backend: (nat, Request) -> GenReply, parse: string -> Option<Json>)
    requires cursor < ModelCount && k < 2
    requires backend(k, MakeRequest(cursor, user, system)).GenRaised?
    ensures var a := Failover(cursor, k, user, system, backend);
            var rest := Failover(Advance(cursor), k + 1, user, system, backend);
            QueryOutcome(a, parse) == (match JsonOutcome(rest, parse) case Ok(v) => Ok(Parsed(v)) case Err(e) => Err(e)) &&
            a.cursor == rest.cursor && a.sent == [MakeRequest(cursor, user, system)] + rest.sent
  {
    FailoverAfterFailure(cursor, k, user, system, backend);
  }

  /** `Gemini.query` when its first attempt answers, or fails at index 2: one request, and the raw reply or the failure. */
  lemma QueryLastStep(cursor: nat, k: nat, user: string, system: Option<string>,
                      backend: (nat, Request) -> GenReply, parse: string -> Option<Json>)
    requires cursor < ModelCount && k <= 2
    requires k == 2 || backend(k, MakeRequest(cursor, user, system)).GenText?
    ensures var req := MakeRequest(cursor, user, system);
            var a := Failover(cursor, k, user, system, backend);
            a.sent == [req] &&
            match backend(k, req)
            case GenText(text) => QueryOutcome(a, parse) == Ok(Raw(text)) && a.cursor == cursor
            case GenRaised => QueryOutcome(a, parse) == Err(AllModelsFailed) && a.cursor == Advance(cursor)
  {
    FailoverLastStep(cursor, k, user, system, backend);
  }

  /**
   * The Gemini client. Its model list is `GeminiModels`, which no code
   * changes; its failover cursor `modelIdx` persists across calls.
   */
  class Gemini {
    var modelIdx: nat

    predicate Valid()
      reads this
    {
      modelIdx < ModelCount
    }

    /** A fresh client starts at the first model. */
    constructor ()
      ensures Valid() && modelIdx == 0
    {
      modelIdx := 0;
    }

    /**
     * `Gemini.query_json(user, system, attempt_idx=attemptIdx)`. `backend`
     * says what the backend does with each attempt and `parse` stands for
     * `json.loads`; `sent` lists the requests made, in order. After a failure
     * below attempt index 2 it advances the cursor and calls itself with the
     * next index, as the source does.
     */
    method QueryJson(user: string, system: Option<string>, attemptIdx: nat,
                     backend: (nat, Request) -> GenReply, parse: string -> Option<Json>)
      returns (r: Result<Json, Error>, sent: seq<Request>)
      requires Valid() && attemptIdx <= 2
      modifies this
      ensures Valid()
      ensures var a := Failover(old(modelIdx), attemptIdx, user, system, backend);
              r == JsonOutcome(a, parse) && modelIdx == a.cursor && sent == a.sent
      decreases 2 - attemptIdx
    {
      ghost var a := Failover(modelIdx, attemptIdx, user, system, backend);
      var req := MakeRequest(modelIdx, user, system);
      var reply := backend(attemptIdx, req);
      if reply.GenText? {
        FailoverLastStep(modelIdx, attemptIdx, user, system, backend);
        r, sent := DecodeReply(parse, reply.text), [req];
      } else if attemptIdx == 2 {
        FailoverLastStep(modelIdx, attemptIdx, user, system, backend);
        modelIdx := Advance(modelIdx);
        r, sent := Err(AllModelsFailed), [req];
      } else {
        FailoverAfterFailure(modelIdx, attemptIdx, user, system, backend);
        ghost var rest := Failover(Advance(modelIdx), attemptIdx + 1, user, system, backend);
        modelIdx := Advance(modelIdx);
        var more;
        r, more := QueryJson(user, system, attemptIdx + 1, backend, parse);
        assert r == JsonOutcome(rest, parse) && modelIdx == rest.cursor && more == rest.sent;
        sent := [req] + more;
        assert r == JsonOutcome(a, parse) && modelIdx == a.cursor && sent == a.sent;
      }
    }

    /**
     * `Gemini.query(user, system, attempt_idx=attemptIdx)`: a reply to the
     * first attempt is returned raw; after a failure the call continues as
     * `query_json` with the next attempt index, so it makes exactly the
     * attempts `query_json` would.
     */
    method Query(user: string, system: Option<string>, attemptIdx: nat,
                 backend: (nat, Request) -> GenReply, parse: string -> Option<Json>)
      returns (r: Result<Answer, Error>, sent: seq<Request>)
      requires Valid() && attemptIdx <= 2
      modifies this
      ensures Valid()
      ensures var a := Failover(old(modelIdx), attemptIdx, user, system, backend);
              r == QueryOutcome(a, parse) && modelIdx == a.cursor && sent == a.sent
    {
      ghost var a := Failover(modelIdx, attemptIdx, user, system, backend);
      var req := MakeRequest(modelIdx, user, system);
      var reply := backend(attemptIdx, req);
      if reply.GenText? {
        QueryLastStep(modelIdx, attemptIdx, user, system, backend, parse);
        r, sent := Ok(Raw(reply.text)), [req];
      } else if attemptIdx == 2 {
        QueryLastStep(modelIdx, attemptIdx, user, system, backend, parse);
        modelIdx := Advance(modelIdx);
        r, sent := Err(AllModelsFailed), [req];
      } else {
        QueryAfterFailure(modelIdx, attemptIdx, user, system, backend, parse);
        ghost var rest := Failover(Advance(modelIdx), attemptIdx + 1, user, system, backend);
        modelIdx := Advance(modelIdx);
        var j, more := QueryJson(user, system, attemptIdx + 1, backend, parse);
        assert j == JsonOutcome(rest, parse) && modelIdx == rest.cursor && more == rest.sent;
        r := match j case Ok(v) => Ok(Parsed(v)) case Err(e) => Err(e);
        sent := [req] + more;
        assert r == QueryOutcome(a, parse) && modelIdx == a.cursor && sent == a.sent;
      }
    }
  }

  /**
   * Three failures in a row on a fresh client: the requests go to models 0,
   * 1 and 2, the third failure is re-raised, there is no fourth request, and
   * the cursor is left at model 3, where the next call starts.
   */
  method FreshClientAllFail(user: string, parse: string -> Option<Json>)
  {
    var g := new Gemini();
    var failing := (k: nat, req: Request) => GenRaised;
    var r, sent := g.QueryJson(user, None, 0, failing, parse);
    FailoverRotates(0, 0, user, None, failing);
    assert r == Err(AllModelsFailed);
    assert |sent| == 3;
    assert sent[0].model == 0 && sent[1].model == 1 && sent[2].model == 2;
    assert g.modelIdx == 3;
    var r2, sent2 := g.QueryJson(user, None, 0, failing, parse);
    FailoverRotates(3, 0, user, None, failing);
    assert sent2[0].model == 3 && sent2[1].model == 0;
    ModelCountIsLength();
    assert GeminiModels[sent2[0].model] == "gemma3";
  }
}
