/**
 * The recursive research scheduler: plan search queries with the language
 * model, search each one, extract learnings and follow-up questions from the
 * results, recurse with a decayed breadth and depth, and merge what the
 * branches found; plus the sources section of the final report.
 *
 * The language model, the search backend and `trim_prompt` are oracles held
 * in a `World`. Each oracle is told which call it is answering (a `Site` in
 * the call tree), so different calls with the same arguments may get
 * different answers.
 */
module DeepResearch {
  import opened Wrappers
  import opened Text
  import opened JsonValues
  import opened Sequences

  // ---------------------------------------------------------------------
  // Call sites and oracles
  // ---------------------------------------------------------------------

  /** A node of the research call tree: the root is [], its i-th query's subtree is [i], and so on. */
  type Path = seq<nat>

  /** A language-model call: planning at a node, learning from the i-th query's results, or the report. */
  datatype Site = PlanAt(node: Path) | LearnAt(node: Path, query: nat) | ReportAt

  /** A search hit as the search backend returns it: a dict of strings (`url`, `title`, `content`, ...). */
  type Doc = map<string, string>

  /**
   * The outside world. `ask(site, prompt, systemPrompt)` is
   * `client.query_json(user_prompt=Render(prompt), system_prompt=...)` at
   * that call (the client is an Ollama or a Gemini client);
   * `search(node, i, query, limit)` is the search of the i-th query of a
   * node; `trim(text, n)` is `trim_prompt(text, n)`; `system` is the system
   * prompt.
   */
  datatype World = World(
    ask: (Site, Prompt, string) -> Result<Json, Error>,
    search: (Path, nat, string, int) -> Result<seq<Doc>, Error>,
    trim: (string, int) -> string,
    system: string)

  // ---------------------------------------------------------------------
  // Python list operations
  // ---------------------------------------------------------------------

  /** `xs[:n]`: the first `n` elements, where a negative `n` drops `-n` elements from the end. */
  function PyPrefix<T>(xs: seq<T>, n: int): (r: seq<T>)
    ensures |r| <= |xs| && r == xs[..|r|]
    ensures n >= 0 ==> |r| == (if n < |xs| then n else |xs|)
    ensures n < 0 ==> |r| == (if -n < |xs| then |xs| + n else 0)
  {
    if n >= 0 then (if n < |xs| then xs[..n] else xs)
    else if -n < |xs| then xs[..|xs| + n] else []
  }

  /** No element occurs twice. */
  predicate NoDup<T(==)>(xs: seq<T>) {
    forall i, j :: 0 <= i < j < |xs| ==> xs[i] != xs[j]
  }

  /**
   * `list(set(xs))`. Python fixes no order; this keeps the first occurrence
   * of each element, one of the orders Python may produce.
   */
  function Dedup(xs: seq<string>): (r: seq<string>)
    ensures NoDup(r)
    ensures forall x :: x in r <==> x in xs
    ensures |r| <= |xs|
  {
    if xs == [] then []
    else
      var rest := Dedup(xs[1..]);
      if xs[0] in rest then rest
      else
        assert forall k :: 0 <= k < |rest| ==> rest[k] != xs[0];
        [xs[0]] + rest
  }

  // ---------------------------------------------------------------------
  // generate_serp_queries_local
  // ---------------------------------------------------------------------

  /** A planned search: the query to run and what it is meant to find out. */
  datatype SerpQuery = SerpQuery(query: string, researchGoal: string)

  const PlanHead := "Given the following facility from the user, generate a list of SERP queries to research the topic with the goal of finding likely suppliers, materials supplied, and transportation method. First identify likely input materials to their products, then search nearby for facilities which manufacture or supply those materials. Return a JSON object with a 'queries' array field containing "
  const PlanTail := " queries (or less if the original prompt is clear). Each query object should have 'query' and 'research_goal' fields. Make sure each query is unique and not similar to each other: <prompt>"
  const LearningsNote := "\n\nHere are some learnings from previous research, use them to generate more specific queries: "

  /**
   * A question to the language model, in the structured form from which
   * `Render` writes its text: a planning request, a learning request over
   * the trimmed contents, or a prompt sent as it is.
   */
  datatype Prompt =
    | PlanRequest(topic: Topic, numQueries: int, learnings: seq<string>)
    | LearnRequest(query: string, contents: seq<string>, numLearnings: int, numFollowUps: int)
    | Verbatim(text: string)

  /** The text of a question. */
  function Render(p: Prompt): string {
    match p
    case PlanRequest(query, numQueries, learnings) => PlanPrompt(TopicText(query), numQueries, learnings)
    case LearnRequest(query, contents, numLearnings, numFollowUps) => LearnPrompt(query, contents, numLearnings, numFollowUps)
    case Verbatim(text) => text
  }

  /**
   * The query a call of `deep_research_local` researches: the user's own
   * query at the top, or the follow-up query a branch builds for the call
   * one level deeper, whose text `NextQuery` writes.
   */
  datatype Topic = Asked(text: string) | FollowUp(goal: string, followUps: seq<string>)

  /** The text of the query a call researches. */
  function TopicText(t: Topic): string {
    match t
    case Asked(text) => text
    case FollowUp(goal, followUps) => NextQuery(goal, followUps)
  }

  /** The planning prompt before any learnings are added. */
  function PlanBase(query: string, numQueries: int): string {
    PlanHead + (IntToString(numQueries) + (PlanTail + (query + "</prompt>")))
  }

  /** The planning prompt opens with its instructions. */
  lemma PlanBaseOpens(query: string, numQueries: int)
    ensures exists rest :: PlanBase(query, numQueries) == PlanHead + rest
  {
    OpensWithFirst(PlanHead, IntToString(numQueries) + (PlanTail + (query + "</prompt>")));
  }

  /** The planning prompt closes with the query in its `<prompt>` tag. */
  lemma PlanBaseCloses(query: string, numQueries: int)
    ensures exists front :: PlanBase(query, numQueries) == front + (query + "</prompt>")
  {
    ClosesWithLastOfFour(PlanHead, IntToString(numQueries), PlanTail, query + "</prompt>");
  }

  /** The planning prompt. */
  function PlanPrompt(query: string, numQueries: int, learnings: seq<string>): (r: string)
    ensures exists rest :: r == PlanBase(query, numQueries) + rest
    ensures learnings == [] ==> r == PlanBase(query, numQueries)
    ensures learnings != [] ==> r != PlanBase(query, numQueries)
  {
    WithLearnings(PlanBase(query, numQueries), LearningsNote, learnings)
  }

  /**
   * A prompt extended with the prior learnings: the note and the learnings,
   * space-separated, are appended only when there are any.
   */
  function WithLearnings(base: string, note: string, learnings: seq<string>): (r: string)
    ensures |base| <= |r| && r[..|base|] == base
    ensures exists rest :: r == base + rest
    ensures learnings == [] ==> r == base
    ensures note != [] && learnings != [] ==> r != base
    ensures learnings != [] ==> r[|base|..] == note + Join(learnings, " ")
  {
    if learnings == [] then
      AppendEmpty(base);
      base
    else
      var r := base + (note + Join(learnings, " "));
      assert r[|base|..] == note + Join(learnings, " ");
      r
  }

  /**
   * `for q in queries`: a list yields its elements; an empty dict or string
   * yields nothing. A non-empty dict or string yields strings, and the first
   * `q["query"]` on a string raises TypeError; anything else is not iterable.
   */
  function QueryItems(queries: Json): (r: Result<seq<Json>, Error>)
    ensures queries.JArr? ==> r == Ok(queries.items)
    ensures r.Ok? ==> queries.JArr? || r == Ok([])
    ensures queries == JObj(map[]) || queries == JStr("") ==> r == Ok([])
    ensures !queries.JArr? && queries != JObj(map[]) && queries != JStr("") ==> r.Err?
  {
    match queries
    case JArr(items) => Ok(items)
    case JObj(m) => if m == map[] then Ok([]) else Err(WrongType(StringIndex))
    case JStr(s) => if s == "" then Ok([]) else Err(WrongType(StringIndex))
    case _ => Err(WrongType(NotIterable))
  }

  /**
   * One element of the comprehension: `q["query"]` is read first and, only
   * when it is truthy, `q["research_goal"]`; the element is kept (Some) when
   * both are truthy. A kept value that is not a string is a WrongType error.
   */
  function SerpItem(q: Json): (r: Result<Option<SerpQuery>, Error>)
    ensures r.Ok? && r.value.Some? ==> r.value.value.query != "" && r.value.value.researchGoal != ""
  {
    match Subscript(q, "query")
    case Err(e) => Err(e)
    case Ok(v) =>
      if !Truthy(v) then Ok(None)
      else
        match Subscript(q, "research_goal")
        case Err(e) => Err(e)
        case Ok(g) =>
          if !Truthy(g) then Ok(None)
          else if v.JStr? && g.JStr? then Ok(Some(SerpQuery(v.s, g.s)))
          else Err(WrongType(NotAString))
  }

  /**
   * How an item is read: `query` must be readable; `research_goal` is read
   * only when `query` is truthy; the item is kept exactly when both are
   * truthy, and then carries both values.
   */
  lemma SerpItemReads(q: Json)
    ensures SerpItem(q).Ok? ==> Subscript(q, "query").Ok?
    ensures SerpItem(q).Ok? && Truthy(Subscript(q, "query").value) ==> Subscript(q, "research_goal").Ok?
    ensures SerpItem(q).Ok? && SerpItem(q).value.Some? <==>
              SerpItem(q).Ok? && Truthy(Subscript(q, "query").value) && Truthy(Subscript(q, "research_goal").value)
    ensures SerpItem(q).Ok? && SerpItem(q).value.Some? ==>
              JStr(SerpItem(q).value.value.query) == q.fields["query"] &&
              JStr(SerpItem(q).value.value.researchGoal) == q.fields["research_goal"]
    ensures q.JObj? && "query" !in q.fields ==> SerpItem(q) == Err(KeyMissing("query"))
    ensures q.JObj? && "query" in q.fields && !Truthy(q.fields["query"]) ==> SerpItem(q) == Ok(None)
  {
  }

  /** The filtering comprehension over the planned items, in order; the first raising item raises. */
  function FilterQueries(items: seq<Json>): (r: Result<seq<SerpQuery>, Error>)
    ensures r.Ok? ==> |r.value| <= |items|
    ensures r.Ok? ==> forall k :: 0 <= k < |r.value| ==> r.value[k].query != "" && r.value[k].researchGoal != ""
  {
    if items == [] then Ok([])
    else
      match SerpItem(items[0])
      case Err(e) => Err(e)
      case Ok(o) =>
        match FilterQueries(items[1..])
        case Err(e) => Err(e)
        case Ok(rest) => Ok(Kept(o) + rest)
  }

  /** The kept part of one item. */
  function Kept(o: Option<SerpQuery>): seq<SerpQuery> {
    if o.Some? then [o.value] else []
  }

  /** Filtering raises exactly when some item raises. */
  lemma {:induction false} FilterQueriesOkIff(items: seq<Json>)
    ensures FilterQueries(items).Ok? <==> forall i :: 0 <= i < |items| ==> SerpItem(items[i]).Ok?
  {
    if items != [] {
      FilterQueriesOkIff(items[1..]);
      assert forall i :: 1 <= i < |items| ==> items[i] == items[1..][i - 1];
    }
  }

  /** Filtering a non-empty list that does not raise: the first item's kept part, then the rest filtered. */
  lemma FilterQueriesHead(a: seq<Json>)
    requires a != [] && FilterQueries(a).Ok?
    ensures SerpItem(a[0]).Ok? && FilterQueries(a[1..]).Ok?
    ensures FilterQueries(a) == Ok(Kept(SerpItem(a[0]).value) + FilterQueries(a[1..]).value)
  {
  }

  /**
   * Filtering works element by element and keeps the order: filtering two
   * lists one after the other is filtering their concatenation.
   */
  lemma {:induction false} FilterQueriesAppend(a: seq<Json>, b: seq<Json>)
    requires FilterQueries(a).Ok? && FilterQueries(b).Ok?
    ensures FilterQueries(a + b) == Ok(FilterQueries(a).value + FilterQueries(b).value)
  {
    if a == [] {
      assert a + b == b;
      AppendEmpty(FilterQueries(b).value);
    } else {
      FilterQueriesHead(a);
      FilterQueriesAppend(a[1..], b);
      AppendTail(a, b);
      AppendAssoc(Kept(SerpItem(a[0]).value), FilterQueries(a[1..]).value, FilterQueries(b).value);
    }
  }

  /** Nothing is invented: every kept query is the reading of some planned item. */
  lemma {:induction false} FilterQueriesSound(items: seq<Json>, k: nat)
    requires FilterQueries(items).Ok? && k < |FilterQueries(items).value|
    ensures exists i :: 0 <= i < |items| && SerpItem(items[i]) == Ok(Some(FilterQueries(items).value[k]))
  {
    FilterQueriesHead(items);
    var head := Kept(SerpItem(items[0]).value);
    if k < |head| {
      assert SerpItem(items[0]) == Ok(Some(FilterQueries(items).value[k]));
    } else {
      FilterQueriesSound(items[1..], k - |head|);
      var i :| 0 <= i < |items[1..]| && SerpItem(items[1..][i]) == Ok(Some(FilterQueries(items[1..]).value[k - |head|]));
      assert items[1..][i] == items[i + 1];
    }
  }

  /** A single item is kept exactly when both its fields are truthy, and dropped otherwise. */
  lemma FilterQueriesOne(q: Json)
    requires SerpItem(q).Ok?
    ensures FilterQueries([q]) == Ok(if SerpItem(q).value.Some? then [SerpItem(q).value.value] else [])
  {
    assert [q][1..] == [];
    var head := Kept(SerpItem(q).value);
    assert head + [] == head;
  }

  /**
   * The planned items of a model reply: `reply["queries"]`, iterated. A
   * raise from the model, a missing key and a value that cannot be iterated
   * all propagate.
   */
  function PlannedItems(reply: Result<Json, Error>): (r: Result<seq<Json>, Error>)
    ensures reply.Err? ==> r == Err(reply.error)
    ensures r.Ok? ==> reply.Ok? && Subscript(reply.value, "queries").Ok?
    ensures reply.Ok? && reply.value.JObj? && "queries" !in reply.value.fields ==> r == Err(KeyMissing("queries"))
    ensures reply.Ok? && Subscript(reply.value, "queries").Ok? ==> r == QueryItems(Subscript(reply.value, "queries").value)
  {
    match reply
    case Err(e) => Err(e)
    case Ok(j) =>
      match Subscript(j, "queries")
      case Err(e) => Err(e)
      case Ok(qs) => QueryItems(qs)
  }

  /**
   * `generate_serp_queries_local(client, query, num_queries, learnings)` at
   * node `node`: the planned items that pass the filter, cut to
   * `num_queries`.
   */
  function GenerateSerpQueries(w: World, node: Path, query: Topic, numQueries: int, learnings: seq<string>)
    : (r: Result<seq<SerpQuery>, Error>)
    ensures var items := PlannedItems(w.ask(PlanAt(node), PlanRequest(query, numQueries, learnings), w.system));
            (r.Ok? <==> items.Ok? && FilterQueries(items.value).Ok?) &&
            (r.Ok? ==> r.value == PyPrefix(FilterQueries(items.value).value, numQueries))
    ensures r.Ok? && numQueries >= 0 ==> |r.value| <= numQueries
    ensures r.Ok? ==> forall k :: 0 <= k < |r.value| ==> r.value[k].query != "" && r.value[k].researchGoal != ""
  {
    match PlannedItems(w.ask(PlanAt(node), PlanRequest(query, numQueries, learnings), w.system))
    case Err(e) => Err(e)
    case Ok(items) =>
      match FilterQueries(items)
      case Err(e) => Err(e)
      case Ok(kept) => Ok(PyPrefix(kept, numQueries))
  }

  // ---------------------------------------------------------------------
  // process_serp_result_local
  // ---------------------------------------------------------------------

  /** What one search taught: the learnings and the follow-up questions. */
  datatype Learned = Learned(learnings: seq<string>, followUps: seq<string>)

  /** `item.get("content")` is truthy. */
  predicate HasContent(d: Doc)
    ensures HasContent(d) <==> "content" in d && Truthy(JStr(d["content"]))
  {
    "content" in d && d["content"] != ""
  }

  /** The contents that enter the prompt: each non-empty content, trimmed to 25000, in order. */
  function Contents(trim: (string, int) -> string, docs: seq<Doc>): (r: seq<string>)
    ensures |r| <= |docs|
  {
    if docs == [] then []
    else (if HasContent(docs[0]) then [trim(docs[0]["content"], 25000)] else []) + Contents(trim, docs[1..])
  }

  /** A document with no content contributes nothing, wherever it stands. */
  lemma {:induction false} ContentsSkip(trim: (string, int) -> string, a: seq<Doc>, d: Doc, b: seq<Doc>)
    requires !HasContent(d)
    ensures Contents(trim, a + [d] + b) == Contents(trim, a + b)
  {
    if a == [] {
      assert a + [d] + b == [d] + b;
      assert ([d] + b)[1..] == b;
      assert a + b == b;
    } else {
      assert (a + [d] + b)[0] == a[0] && (a + [d] + b)[1..] == a[1..] + [d] + b;
      assert (a + b)[0] == a[0] && (a + b)[1..] == a[1..] + b;
      ContentsSkip(trim, a[1..], d, b);
    }
  }

  /** The contents of two lists of results one after the other are those of their concatenation, in order. */
  lemma {:induction false} ContentsAppend(trim: (string, int) -> string, a: seq<Doc>, b: seq<Doc>)
    ensures Contents(trim, a + b) == Contents(trim, a) + Contents(trim, b)
  {
    if a == [] {
      assert a + b == b;
    } else {
      assert (a + b)[0] == a[0] && (a + b)[1..] == a[1..] + b;
      ContentsAppend(trim, a[1..], b);
    }
  }

  /** Nothing is invented: every content in the prompt is the trimmed content of some result that has content. */
  lemma {:induction false} ContentsSound(trim: (string, int) -> string, docs: seq<Doc>, k: nat)
    requires k < |Contents(trim, docs)|
    ensures exists i :: 0 <= i < |docs| && HasContent(docs[i]) && Contents(trim, docs)[k] == trim(docs[i]["content"], 25000)
  {
    var head := if HasContent(docs[0]) then [trim(docs[0]["content"], 25000)] else [];
    assert Contents(trim, docs) == head + Contents(trim, docs[1..]);
    if k < |head| {
      assert Contents(trim, docs)[k] == trim(docs[0]["content"], 25000);
    } else {
      ContentsSound(trim, docs[1..], k - |head|);
      var i :| 0 <= i < |docs[1..]| && HasContent(docs[1..][i]) &&
               Contents(trim, docs[1..])[k - |head|] == trim(docs[1..][i]["content"], 25000);
      assert docs[1..][i] == docs[i + 1];
    }
  }

  /** The content blocks of two lists of contents one after the other are those of their concatenation. */
  lemma {:induction false} ContentsBlockAppend(a: seq<string>, b: seq<string>)
    ensures ContentsBlock(a + b) == ContentsBlock(a) + ContentsBlock(b)
  {
    if a == [] {
      assert a + b == b;
    } else {
      assert (a + b)[0] == a[0] && (a + b)[1..] == a[1..] + b;
      ContentsBlockAppend(a[1..], b);
    }
  }

  /** A single result contributes its trimmed content exactly when it has content. */
  lemma ContentsOne(trim: (string, int) -> string, d: Doc)
    ensures Contents(trim, [d]) == if HasContent(d) then [trim(d["content"], 25000)] else []
  {
    assert [d][1..] == [];
  }

  /** `"".join(f"<content>\n{content}\n</content>" for content in contents)`. */
  function ContentsBlock(contents: seq<string>): (r: string)
    ensures r == "" <==> contents == []
    ensures |r| >= 21 * |contents|
  {
    if contents == [] then "" else "<content>\n" + contents[0] + "\n</content>" + ContentsBlock(contents[1..])
  }

  /** One content in the block: the content between its tags, each on a line of its own. */
  lemma ContentsBlockOne(c: string)
    ensures ContentsBlock([c]) == "<content>\n" + c + "\n</content>"
  {
    assert [c][1..] == [];
  }

  const LearnHead := "Given the following contents from a SERP search for the query <query>"
  const LearnMid := "</query>, generate a list of learnings from the contents. Return a JSON object with 'learnings' and 'followUpQuestions' keys with array of strings as values. Include up to "
  const LearnAnd := " learnings and "
  const LearnTail := " follow-up questions. The learnings should be unique, concise, and information-dense, including entities, metrics, numbers, and dates.\n\n<contents>"

  /** The learning prompt for `query` over the trimmed contents of its search results. */
  function LearnPrompt(query: string, contents: seq<string>, numLearnings: int, numFollowUps: int): string {
    LearnHead + (query + (LearnMid + (LearnCounts(numLearnings, numFollowUps) + (ContentsBlock(contents) + "</contents>"))))
  }

  /** The part of the learning prompt that asks for so many learnings and follow-up questions. */
  function LearnCounts(numLearnings: int, numFollowUps: int): string {
    IntToString(numLearnings) + (LearnAnd + (IntToString(numFollowUps) + LearnTail))
  }

  /** The learning prompt opens with its instructions and the query in its `<query>` tag. */
  lemma LearnPromptOpens(query: string, contents: seq<string>, numLearnings: int, numFollowUps: int)
    ensures exists rest :: LearnPrompt(query, contents, numLearnings, numFollowUps) == LearnHead + (query + (LearnMid + rest))
  {
    OpensWith(LearnHead, query, LearnMid, LearnCounts(numLearnings, numFollowUps) + (ContentsBlock(contents) + "</contents>"));
  }

  /** The learning prompt closes with the block of contents. */
  lemma LearnPromptCloses(query: string, contents: seq<string>, numLearnings: int, numFollowUps: int)
    ensures exists front :: LearnPrompt(query, contents, numLearnings, numFollowUps) == front + (ContentsBlock(contents) + "</contents>")
  {
    ClosesWithLastOfFive(LearnHead, query, LearnMid, LearnCounts(numLearnings, numFollowUps), ContentsBlock(contents) + "</contents>");
  }

  /** The learning request for `query` over the search results `docs`. */
  function LearnQuestion(trim: (string, int) -> string, query: string, docs: seq<Doc>,
                         numLearnings: int, numFollowUps: int): (r: Prompt)
    ensures r.LearnRequest? && r.query == query && r.numLearnings == numLearnings && r.numFollowUps == numFollowUps
    ensures r.contents == Contents(trim, docs)
    ensures |r.contents| <= |docs|
  {
    LearnRequest(query, Contents(trim, docs), numLearnings, numFollowUps)
  }

  /** The learning request does not see the documents that have no content. */
  lemma LearnQuestionSkipsEmpty(trim: (string, int) -> string, query: string, a: seq<Doc>, d: Doc, b: seq<Doc>,
                                numLearnings: int, numFollowUps: int)
    requires !HasContent(d)
    ensures LearnQuestion(trim, query, a + [d] + b, numLearnings, numFollowUps) ==
            LearnQuestion(trim, query, a + b, numLearnings, numFollowUps)
  {
    ContentsSkip(trim, a, d, b);
  }

  /** `response[key][:n]`, read as a list of strings. */
  function StringPrefix(response: Json, key: string, n: int): (r: Result<seq<string>, Error>)
    ensures r.Ok? ==> response.JObj? && key in response.fields && response.fields[key].JArr?
    ensures r.Ok? ==> var items := response.fields[key].items;
                      |r.value| <= |items| && (n >= 0 ==> |r.value| <= n) &&
                      |r.value| == |PyPrefix(items, n)| &&
                      forall i :: 0 <= i < |r.value| ==> items[i] == JStr(r.value[i])
    ensures (response.JObj? && key in response.fields && response.fields[key].JArr? &&
             forall i :: 0 <= i < |PyPrefix(response.fields[key].items, n)| ==>
               PyPrefix(response.fields[key].items, n)[i].JStr?) ==> r.Ok?
    ensures response.JObj? && key !in response.fields ==> r == Err(KeyMissing(key))
  {
    match Subscript(response, key)
    case Err(e) => Err(e)
    case Ok(JArr(items)) => StringItems(PyPrefix(items, n))
    case Ok(_) => Err(WrongType(NotAList))
  }

  /** The characters of a string, each as a string of its own: what iterating a Python `str` yields. */
  function Chars(s: string): (r: seq<string>)
    ensures |r| == |s|
    ensures forall i :: 0 <= i < |s| ==> r[i] == [s[i]]
  {
    seq(|s|, i requires 0 <= i < |s| => [s[i]])
  }

  /**
   * `response[key][:n]` for a value that is only ever joined with spaces
   * afterwards (the follow-up questions). A string slices to a string, and
   * `" ".join` of a string joins its characters, so a string reads as its
   * first `n` characters; anything else reads as `StringPrefix` does.
   */
  function TextPrefix(response: Json, key: string, n: int): (r: Result<seq<string>, Error>)
    ensures response.JObj? && key in response.fields && response.fields[key].JStr? ==>
              r.Ok? && |r.value| == |PyPrefix(response.fields[key].s, n)| &&
              forall i :: 0 <= i < |r.value| ==> r.value[i] == [response.fields[key].s[i]]
    ensures !(response.JObj? && key in response.fields && response.fields[key].JStr?) ==>
              r == StringPrefix(response, key, n)
  {
    match Subscript(response, key)
    case Ok(JStr(s)) => Ok(Chars(PyPrefix(s, n)))
    case _ => StringPrefix(response, key, n)
  }

  /** A reply whose follow-up questions are one string `"Q?"`, cut to one question, gives the one-letter question `"Q"`. */
  lemma TextFollowUps()
    ensures TextPrefix(JObj(map["learnings" := JArr([JStr("L")]), "followUpQuestions" := JStr("Q?")]),
                       "followUpQuestions", 1) == Ok(["Q"])
  {
    var m := map["learnings" := JArr([JStr("L")]), "followUpQuestions" := JStr("Q?")];
    assert m["followUpQuestions"] == JStr("Q?");
    var r := TextPrefix(JObj(m), "followUpQuestions", 1);
    assert |PyPrefix("Q?", 1)| == 1;
    assert r.Ok? && |r.value| == 1 && r.value[0] == ['Q'];
    assert r.value == ["Q"];
  }

  /**
   * `process_serp_result_local(client, query, docs, num_learnings,
   * num_follow_up_questions)` at `site`: `learnings` is read before
   * `followUpQuestions`, and raises propagate.
   */
  function ProcessSerpResult(w: World, site: Site, query: string, docs: seq<Doc>,
                             numLearnings: int, numFollowUps: int): (r: Result<Learned, Error>)
    ensures var reply := w.ask(site, LearnQuestion(w.trim, query, docs, numLearnings, numFollowUps), w.system);
            (r.Ok? <==> reply.Ok? && StringPrefix(reply.value, "learnings", numLearnings).Ok? &&
                        TextPrefix(reply.value, "followUpQuestions", numFollowUps).Ok?) &&
            (r.Ok? ==> StringPrefix(reply.value, "learnings", numLearnings) == Ok(r.value.learnings) &&
                       TextPrefix(reply.value, "followUpQuestions", numFollowUps) == Ok(r.value.followUps))
  {
    match w.ask(site, LearnQuestion(w.trim, query, docs, numLearnings, numFollowUps), w.system)
    case Err(e) => Err(e)
    case Ok(response) =>
      match StringPrefix(response, "learnings", numLearnings)
      case Err(e) => Err(e)
      case Ok(ls) =>
        match TextPrefix(response, "followUpQuestions", numFollowUps)
        case Err(e) => Err(e)
        case Ok(fs) => Ok(Learned(ls, fs))
  }

  // ---------------------------------------------------------------------
  // deep_research_local
  // ---------------------------------------------------------------------

  /** `[item.get("url") for item in result if item.get("url")]`. */
  function NewUrls(docs: seq<Doc>): (r: seq<string>)
    ensures |r| <= |docs|
    ensures forall k :: 0 <= k < |r| ==> r[k] != ""
  {
    if docs == [] then []
    else (if "url" in docs[0] && docs[0]["url"] != "" then [docs[0]["url"]] else []) + NewUrls(docs[1..])
  }

  /** Every non-empty URL of the results is collected. */
  lemma {:induction false} NewUrlsComplete(docs: seq<Doc>, i: nat)
    requires i < |docs| && "url" in docs[i] && docs[i]["url"] != ""
    ensures docs[i]["url"] in NewUrls(docs)
  {
    if i > 0 {
      assert docs[1..][i - 1] == docs[i];
      NewUrlsComplete(docs[1..], i - 1);
    }
  }

  /** Nothing is invented: every collected URL is the `url` of some result. */
  lemma {:induction false} NewUrlsSound(docs: seq<Doc>, k: nat)
    requires k < |NewUrls(docs)|
    ensures exists i :: 0 <= i < |docs| && "url" in docs[i] && docs[i]["url"] == NewUrls(docs)[k]
  {
    var head := if "url" in docs[0] && docs[0]["url"] != "" then [docs[0]["url"]] else [];
    assert NewUrls(docs) == head + NewUrls(docs[1..]);
    if k < |head| {
      assert NewUrls(docs)[k] == docs[0]["url"];
    } else {
      NewUrlsSound(docs[1..], k - |head|);
      var i :| 0 <= i < |docs[1..]| && "url" in docs[1..][i] && docs[1..][i]["url"] == NewUrls(docs[1..])[k - |head|];
      assert docs[1..][i] == docs[i + 1];
    }
  }

  /** A single result contributes its URL exactly when it has a non-empty one. */
  lemma NewUrlsOne(d: Doc)
    ensures NewUrls([d]) == if "url" in d && d["url"] != "" then [d["url"]] else []
  {
    assert [d][1..] == [];
  }

  /** The URLs of two lists of results one after the other are those of their concatenation, in result order. */
  lemma {:induction false} NewUrlsAppend(a: seq<Doc>, b: seq<Doc>)
    ensures NewUrls(a + b) == NewUrls(a) + NewUrls(b)
  {
    if a == [] {
      assert a + b == b;
    } else {
      assert (a + b)[0] == a[0] && (a + b)[1..] == a[1..] + b;
      NewUrlsAppend(a[1..], b);
    }
  }

  /** `max(1, breadth // 2)`. */
  function Decay(breadth: int): (b: int)
    ensures b >= 1
    ensures breadth >= 1 ==> b <= breadth
    ensures breadth >= 2 ==> 2 * b <= breadth
  {
    if breadth / 2 > 1 then breadth / 2 else 1
  }

  /** Decaying halves the breadth rounding down: from 2 on, twice the result falls short of it by at most one. */
  lemma DecayHalves(breadth: int)
    ensures breadth >= 2 ==> breadth <= 2 * Decay(breadth) + 1
  {
  }

  /** The breadths of successive rounds from 4: 4, then 2, then 1, and 1 from there on. */
  lemma DecayFromFour()
    ensures Decay(4) == 2 && Decay(Decay(4)) == 1 && Decay(1) == 1
  {
  }

  /** The line break and indentation around each line of the follow-up query's template. */
  const Indent := "            "
  const Break := "\n" + Indent

  /** The template's text up to the follow-up questions: the research goal, then the directions label. */
  function NextQueryHead(goal: string): string {
    "Previous research goal: " + goal + "\n" + Indent + "Follow-up research directions:"
  }

  /**
   * The query of a deeper round: the branch's research goal and its
   * follow-up questions, filled into the indented template and stripped.
   */
  function NextQuery(goal: string, followUps: seq<string>): (r: string)
    ensures Trimmed(r)
  {
    Strip(Break + (NextQueryHead(goal) + (" " + (Join(followUps, " ") + Break))))
  }

  /**
   * Stripping the template removes only its outer indentation: the query
   * is the goal and the directions label, followed by the joined follow-up
   * questions with the whitespace at their end removed.
   */
  lemma NextQueryText(goal: string, followUps: seq<string>)
    ensures NextQuery(goal, followUps) == NextQueryHead(goal) + StripRight(" " + (Join(followUps, " ") + Break))
  {
    BreakIsSpace();
    NextQueryHeadEdges(goal);
    StripAround(Break, NextQueryHead(goal), " " + (Join(followUps, " ") + Break));
  }

  /** Every deeper query opens with the branch's research goal and the directions label, whatever the questions. */
  lemma NextQueryCarriesGoal(goal: string, followUps: seq<string>)
    ensures exists rest :: NextQuery(goal, followUps) ==
              "Previous research goal: " + goal + "\n" + Indent + "Follow-up research directions:" + rest
  {
    NextQueryText(goal, followUps);
    var rest := StripRight(" " + (Join(followUps, " ") + Break));
    assert NextQuery(goal, followUps) == NextQueryHead(goal) + rest;
  }

  /** The template's line break and indentation are whitespace. */
  lemma BreakIsSpace()
    ensures AllSpace(Break)
  {
    forall i | 0 <= i < |Break| ensures IsSpace(Break[i]) { }
  }

  /** The head starts with the letter P and ends with the label's colon. */
  lemma NextQueryHeadEdges(goal: string)
    ensures NextQueryHead(goal) != [] && !IsSpace(NextQueryHead(goal)[0])
    ensures !IsSpace(NextQueryHead(goal)[|NextQueryHead(goal)| - 1])
  {
    var h := NextQueryHead(goal);
    assert h[0] == 'P' && h[|h| - 1] == ':';
  }

  /** Follow-up questions whose joined text has no outer whitespace are carried over whole, after one space. */
  lemma NextQueryDirections(goal: string, followUps: seq<string>)
    requires Join(followUps, " ") != [] && Trimmed(Join(followUps, " "))
    ensures NextQuery(goal, followUps) == NextQueryHead(goal) + " " + Join(followUps, " ")
  {
    var h, j := NextQueryHead(goal), Join(followUps, " ");
    NextQueryText(goal, followUps);
    BreakIsSpace();
    AppendAssoc(" ", j, Break);
    StripRightPast(" " + j, Break);
    StripRightSpace(Break);
    AppendAssoc(h, " ", j);
  }

  /** The shape of the recursion: the breadth and depth a call was entered with, and the deeper calls its branches made. */
  datatype Trace = Trace(breadth: int, depth: int, children: seq<Trace>)

  /**
   * Deeper calls only happen below depth 2; each is entered with the
   * decayed breadth and one less depth; and a call has no more deeper calls
   * than its breadth.
   */
  ghost predicate WellFormed(t: Trace)
    decreases t
  {
    && (t.depth <= 1 ==> t.children == [])
    && (t.breadth >= 0 ==> |t.children| <= t.breadth)
    && forall k :: 0 <= k < |t.children| ==>
         t.children[k].depth == t.depth - 1 && t.children[k].breadth == Decay(t.breadth) && WellFormed(t.children[k])
  }

  /** The number of nested calls on the longest chain, this one included. */
  function Height(t: Trace): (h: nat)
    decreases t
  {
    1 + MaxHeight(t.children)
  }

  function MaxHeight(ts: seq<Trace>): (h: nat)
    decreases ts
  {
    if ts == [] then 0
    else
      var a := Height(ts[0]);
      var b := MaxHeight(ts[1..]);
      if a < b then b else a
  }

  /** The recursion nests no deeper than the depth it starts with (and at least the call itself). */
  lemma {:induction false} HeightBound(t: Trace)
    requires WellFormed(t)
    ensures Height(t) <= if t.depth < 1 then 1 else t.depth
    decreases t, 1
  {
    MaxHeightBound(t.children, t.depth - 1);
  }

  lemma {:induction false} MaxHeightBound(ts: seq<Trace>, d: int)
    requires forall k :: 0 <= k < |ts| ==> ts[k].depth == d && WellFormed(ts[k])
    ensures ts != [] ==> MaxHeight(ts) <= if d < 1 then 1 else d
    ensures ts == [] ==> MaxHeight(ts) == 0
    decreases ts, 0
  {
    if ts != [] {
      HeightBound(ts[0]);
      assert forall k :: 0 <= k < |ts[1..]| ==> ts[1..][k] == ts[k + 1];
      MaxHeightBound(ts[1..], d);
    }
  }

  /** What one query's branch returned, and the deeper call it made, if any. */
  datatype Branch = Branch(learnings: seq<string>, urls: seq<string>, sub: Option<Trace>)

  /** What one call of `deep_research_local` returns, with the shape of its recursion. */
  datatype Outcome = Outcome(learnings: seq<string>, urls: seq<string>, trace: Trace)

  /** The learnings of all branches, branch after branch. */
  function AllLearnings(bs: seq<Branch>): (r: seq<string>)
    ensures forall x :: x in r <==> exists k :: 0 <= k < |bs| && x in bs[k].learnings
  {
    if bs == [] then []
    else
      var rest := AllLearnings(bs[1..]);
      assert forall k :: 1 <= k < |bs| ==> bs[k] == bs[1..][k - 1];
      bs[0].learnings + rest
  }

  /** The visited URLs of all branches, branch after branch. */
  function AllUrls(bs: seq<Branch>): (r: seq<string>)
    ensures forall x :: x in r <==> exists k :: 0 <= k < |bs| && x in bs[k].urls
  {
    if bs == [] then []
    else
      var rest := AllUrls(bs[1..]);
      assert forall k :: 1 <= k < |bs| ==> bs[k] == bs[1..][k - 1];
      bs[0].urls + rest
  }

  /** The deeper calls the branches made, in branch order. */
  function Subs(bs: seq<Branch>): (r: seq<Trace>)
    ensures |r| <= |bs|
    ensures forall k :: 0 <= k < |r| ==> exists j :: 0 <= j < |bs| && bs[j].sub == Some(r[k])
  {
    if bs == [] then []
    else
      var rest := Subs(bs[1..]);
      assert forall k :: 1 <= k < |bs| ==> bs[k] == bs[1..][k - 1];
      (if bs[0].sub.Some? then [bs[0].sub.value] else []) + rest
  }

  /** A branch that made a deeper call made it as `deep_research_local` promises. */
  ghost predicate BranchShaped(b: Branch, breadth: int, depth: int) {
    b.sub.Some? ==> depth > 1 && b.sub.value.depth == depth - 1 &&
                    b.sub.value.breadth == Decay(breadth) && WellFormed(b.sub.value)
  }

  /** The deeper calls of well-shaped branches, no more than `breadth` of them, make a well-formed call tree. */
  lemma SubsWellFormed(bs: seq<Branch>, breadth: int, depth: int)
    requires breadth >= 0 ==> |bs| <= breadth
    requires forall k :: 0 <= k < |bs| ==> BranchShaped(bs[k], breadth, depth)
    ensures WellFormed(Trace(breadth, depth, Subs(bs)))
  {
    var subs := Subs(bs);
    forall k | 0 <= k < |subs|
      ensures subs[k].depth == depth - 1 && subs[k].breadth == Decay(breadth) && WellFormed(subs[k])
    {
      var j :| 0 <= j < |bs| && bs[j].sub == Some(subs[k]);
      assert BranchShaped(bs[j], breadth, depth);
    }
    if subs != [] {
      var j :| 0 <= j < |bs| && bs[j].sub == Some(subs[0]);
      assert BranchShaped(bs[j], breadth, depth);
      assert depth > 1;
    }
  }

  /**
   * `deep_research_local(query, breadth, depth, learnings, visited_urls)` at
   * node `node`: plan `breadth` queries, run each as a branch, and merge the
   * branches' learnings and URLs without duplicates.
   */
  function Research(w: World, node: Path, query: Topic, breadth: int, depth: int,
                    learnings: seq<string>, urls: seq<string>): (r: Result<Outcome, Error>)
    ensures r.Ok? ==> NoDup(r.value.learnings) && NoDup(r.value.urls)
    ensures r.Ok? ==> WellFormed(r.value.trace) && r.value.trace.breadth == breadth && r.value.trace.depth == depth
    ensures r.Ok? ==>
              var serp := GenerateSerpQueries(w, node, query, breadth, learnings);
              serp.Ok? &&
              var bs := ProcessAll(w, node, serp.value, 0, breadth, depth, learnings, urls);
              bs.Ok? &&
              (forall x :: x in r.value.learnings <==> x in AllLearnings(bs.value)) &&
              (forall x :: x in r.value.urls <==> x in AllUrls(bs.value))
    ensures var serp := GenerateSerpQueries(w, node, query, breadth, learnings);
            serp.Ok? && ProcessAll(w, node, serp.value, 0, breadth, depth, learnings, urls).Ok? ==> r.Ok?
    decreases depth, 2, 0
  {
    match GenerateSerpQueries(w, node, query, breadth, learnings)
    case Err(e) => Err(e)
    case Ok(serp) =>
      match ProcessAll(w, node, serp, 0, breadth, depth, learnings, urls)
      case Err(e) => Err(e)
      case Ok(bs) =>
        assert forall k :: 0 <= k < |bs| ==> BranchShaped(bs[k], breadth, depth) by {
          forall k | 0 <= k < |bs|
            ensures BranchShaped(bs[k], breadth, depth)
          {
            assert ProcessQuery(w, node, 0 + k, serp[0 + k], breadth, depth, learnings, urls) == Ok(bs[k]);
          }
        }
        SubsWellFormed(bs, breadth, depth);
        var t := Trace(breadth, depth, Subs(bs));
        Ok(Outcome(Dedup(AllLearnings(bs)), Dedup(AllUrls(bs)), t))
  }

  /** Indexing a list with one element put in front of it, and the queries from the next position on. */
  lemma ConsShift<T, U>(b: T, rest: seq<T>, serp: seq<U>, i: nat)
    requires i + |rest| < |serp|
    ensures forall k :: 1 <= k < 1 + |rest| ==> ([b] + rest)[k] == rest[k - 1] && serp[i + k] == serp[(i + 1) + (k - 1)]
  {
  }

  /** `[process_query(q) for q in serp_queries]` from the i-th query on, in order; the first raise propagates. */
  function ProcessAll(w: World, node: Path, serp: seq<SerpQuery>, i: nat, breadth: int, depth: int,
                      learnings: seq<string>, urls: seq<string>): (r: Result<seq<Branch>, Error>)
    requires i <= |serp|
    ensures r.Ok? ==> |r.value| == |serp| - i
    ensures r.Ok? ==> forall k :: 0 <= k < |r.value| ==>
              ProcessQuery(w, node, i + k, serp[i + k], breadth, depth, learnings, urls) == Ok(r.value[k])
    ensures (forall j :: i <= j < |serp| ==> ProcessQuery(w, node, j, serp[j], breadth, depth, learnings, urls).Ok?) ==> r.Ok?
    decreases depth, 1, |serp| - i
  {
    if i == |serp| then Ok([])
    else
      match ProcessQuery(w, node, i, serp[i], breadth, depth, learnings, urls)
      case Err(e) => Err(e)
      case Ok(b) =>
        match ProcessAll(w, node, serp, i + 1, breadth, depth, learnings, urls)
        case Err(e) => Err(e)
        case Ok(rest) =>
          ConsShift(b, rest, serp, i);
          Ok([b] + rest)
  }

  /**
   * `process_query(serp_query)` for the i-th query: search it, learn from
   * the results with the decayed breadth as the number of follow-up
   * questions, extend the parent's learnings and URLs, and go one level
   * deeper only while the decayed depth is positive.
   */
  function ProcessQuery(w: World, node: Path, i: nat, q: SerpQuery, breadth: int, depth: int,
                        learnings: seq<string>, urls: seq<string>): (r: Result<Branch, Error>)
    ensures r.Ok? ==> BranchShaped(r.value, breadth, depth)
    ensures r.Ok? ==> (r.value.sub.Some? <==> depth > 1)
    ensures var docs := w.search(node, i, q.query, 5);
            r.Ok? <==>
              docs.Ok? &&
              var learned := ProcessSerpResult(w, LearnAt(node, i), q.query, docs.value, 2, Decay(breadth));
              learned.Ok? &&
              (depth - 1 > 0 ==>
                 Research(w, node + [i], FollowUp(q.researchGoal, learned.value.followUps), Decay(breadth), depth - 1,
                          learnings + learned.value.learnings, urls + NewUrls(docs.value)).Ok?)
    decreases depth, 0, 0
  {
    match w.search(node, i, q.query, 5)
    case Err(e) => Err(e)
    case Ok(docs) =>
      var newBreadth := Decay(breadth);
      var newDepth := depth - 1;
      match ProcessSerpResult(w, LearnAt(node, i), q.query, docs, 2, newBreadth)
      case Err(e) => Err(e)
      case Ok(learned) =>
        var allLearnings := learnings + learned.learnings;
        var allUrls := urls + NewUrls(docs);
        if newDepth > 0 then
          match Research(w, node + [i], FollowUp(q.researchGoal, learned.followUps), newBreadth, newDepth,
                         allLearnings, allUrls)
          case Err(e) => Err(e)
          case Ok(o) => Ok(Branch(o.learnings, o.urls, Some(o.trace)))
        else Ok(Branch(allLearnings, allUrls, None))
  }

  /** A call entered with depth 1 or less makes no deeper call, and its recursion is one level deep. */
  lemma ShallowCallsDoNotRecurse(w: World, node: Path, query: Topic, breadth: int, depth: int,
                                 learnings: seq<string>, urls: seq<string>)
    requires depth <= 1
    requires Research(w, node, query, breadth, depth, learnings, urls).Ok?
    ensures var t := Research(w, node, query, breadth, depth, learnings, urls).value.trace;
            t.children == [] && Height(t) == 1
  {
  }

  /** The recursion below any call nests no deeper than its depth. */
  lemma ResearchNesting(w: World, node: Path, query: Topic, breadth: int, depth: int,
                        learnings: seq<string>, urls: seq<string>)
    requires depth >= 1
    requires Research(w, node, query, breadth, depth, learnings, urls).Ok?
    ensures Height(Research(w, node, query, breadth, depth, learnings, urls).value.trace) <= depth
  {
    HeightBound(Research(w, node, query, breadth, depth, learnings, urls).value.trace);
  }

  /**
   * A branch below depth 2 makes no deeper call: it returns the parent's
   * learnings followed by the ones it extracted from its search results,
   * and the parent's URLs followed by the non-empty URLs of those results.
   */
  lemma TerminalBranch(w: World, node: Path, i: nat, q: SerpQuery, breadth: int, depth: int,
                       learnings: seq<string>, urls: seq<string>)
    requires depth <= 1
    requires ProcessQuery(w, node, i, q, breadth, depth, learnings, urls).Ok?
    ensures var docs := w.search(node, i, q.query, 5);
            docs.Ok? &&
            var learned := ProcessSerpResult(w, LearnAt(node, i), q.query, docs.value, 2, Decay(breadth));
            learned.Ok? &&
            ProcessQuery(w, node, i, q, breadth, depth, learnings, urls).value ==
              Branch(learnings + learned.value.learnings, urls + NewUrls(docs.value), None)
  {
  }

  /** So a branch below depth 2 keeps everything the parent knew, and adds only non-empty URLs. */
  lemma TerminalBranchExtends(w: World, node: Path, i: nat, q: SerpQuery, breadth: int, depth: int,
                              learnings: seq<string>, urls: seq<string>)
    requires depth <= 1
    requires ProcessQuery(w, node, i, q, breadth, depth, learnings, urls).Ok?
    ensures var b := ProcessQuery(w, node, i, q, breadth, depth, learnings, urls).value;
            b.learnings[..|learnings|] == learnings && b.urls[..|urls|] == urls &&
            forall x :: x in b.urls[|urls|..] ==> x != ""
  {
    TerminalBranch(w, node, i, q, breadth, depth, learnings, urls);
    var b := ProcessQuery(w, node, i, q, breadth, depth, learnings, urls).value;
    var docs := w.search(node, i, q.query, 5).value;
    assert b.urls[|urls|..] == NewUrls(docs);
  }

  /**
   * A branch at depth 2 or more goes one level deeper, with the decayed
   * breadth, the follow-up query, and the extended learnings and URLs, and
   * returns what that call returns.
   */
  lemma DeepBranch(w: World, node: Path, i: nat, q: SerpQuery, breadth: int, depth: int,
                   learnings: seq<string>, urls: seq<string>)
    requires depth > 1
    requires ProcessQuery(w, node, i, q, breadth, depth, learnings, urls).Ok?
    ensures var docs := w.search(node, i, q.query, 5);
            docs.Ok? &&
            var learned := ProcessSerpResult(w, LearnAt(node, i), q.query, docs.value, 2, Decay(breadth));
            learned.Ok? &&
            var o := Research(w, node + [i], FollowUp(q.researchGoal, learned.value.followUps), Decay(breadth),
                              depth - 1, learnings + learned.value.learnings, urls + NewUrls(docs.value));
            o.Ok? &&
            ProcessQuery(w, node, i, q, breadth, depth, learnings, urls).value ==
              Branch(o.value.learnings, o.value.urls, Some(o.value.trace))
  {
  }

  // ---------------------------------------------------------------------
  // write_final_report_local: the sources section
  // ---------------------------------------------------------------------

  const SourcesHeader := "\n\n## Sources\n\n"

  /** `[f"- {url}" for url in visited_urls]`. */
  function SourceLines(urls: seq<string>): (r: seq<string>)
    ensures |r| == |urls|
    ensures forall i :: 0 <= i < |urls| ==> r[i] == "- " + urls[i]
  {
    if urls == [] then [] else ["- " + urls[0]] + SourceLines(urls[1..])
  }

  /** The sources section appended to the report: a heading, then one line per visited URL. */
  function SourcesSection(urls: seq<string>): (r: string)
    ensures |SourcesHeader| <= |r| && r[..|SourcesHeader|] == SourcesHeader
    ensures urls == [] ==> r == SourcesHeader
  {
    SourcesHeader + Join(SourceLines(urls), "\n")
  }

  /** A bullet line holds a line break only when its URL does. */
  lemma SourceLinesUnbroken(urls: seq<string>)
    requires forall i :: 0 <= i < |urls| ==> '\n' !in urls[i]
    ensures forall i :: 0 <= i < |urls| ==> '\n' !in SourceLines(urls)[i]
  {
    var bullet := "- ";
    assert '\n' !in bullet by {
      assert |bullet| == 2 && bullet[0] == '-' && bullet[1] == ' ';
    }
    forall i | 0 <= i < |urls|
      ensures '\n' !in SourceLines(urls)[i]
    {
      assert SourceLines(urls)[i] == bullet + urls[i];
    }
  }

  /** Reading the section back line by line gives one `- url` line per URL, in order, when no URL holds a line break. */
  lemma SourcesSectionLines(urls: seq<string>)
    requires urls != []
    requires forall i :: 0 <= i < |urls| ==> '\n' !in urls[i]
    ensures Split(SourcesSection(urls)[|SourcesHeader|..], '\n') == SourceLines(urls)
  {
    var lines := SourceLines(urls);
    SourceLinesUnbroken(urls);
    assert SourcesSection(urls)[|SourcesHeader|..] == Join(lines, "\n");
    SplitJoin(lines, '\n');
  }

  /**
   * `write_final_report_local(client, prompt, learnings, visited_urls)`: the
   * model is asked with `prompt` itself (the report prompt built from the
   * learnings is never sent), and its `reportMarkdown` (default "") is
   * followed by the sources section. A reply that is not a dict, or a
   * report that is not a string, raises.
   */
  function WriteFinalReport(w: World, prompt: string, learnings: seq<string>, urls: seq<string>)
    : (r: Result<string, Error>)
    ensures r.Ok? ==> |SourcesSection(urls)| <= |r.value| &&
                      r.value[|r.value| - |SourcesSection(urls)|..] == SourcesSection(urls)
    ensures var reply := w.ask(ReportAt, Verbatim(prompt), w.system);
            reply.Ok? && reply.value.JObj? && "reportMarkdown" !in reply.value.fields ==> r == Ok(SourcesSection(urls))
    ensures var reply := w.ask(ReportAt, Verbatim(prompt), w.system);
            reply.Ok? && reply.value.JObj? && "reportMarkdown" in reply.value.fields &&
            reply.value.fields["reportMarkdown"].JStr? ==>
              r == Ok(reply.value.fields["reportMarkdown"].s + SourcesSection(urls))
    ensures var reply := w.ask(ReportAt, Verbatim(prompt), w.system);
            reply.Ok? && !(reply.value.JObj? &&
                           ("reportMarkdown" in reply.value.fields ==> reply.value.fields["reportMarkdown"].JStr?)) ==>
              r.Err?
    ensures w.ask(ReportAt, Verbatim(prompt), w.system).Err? ==> r == Err(w.ask(ReportAt, Verbatim(prompt), w.system).error)
  {
    match w.ask(ReportAt, Verbatim(prompt), w.system)
    case Err(e) => Err(e)
    case Ok(JObj(m)) =>
      (match Get(m, "reportMarkdown", JStr(""))
       case JStr(report) =>
         var out := report + SourcesSection(urls);
         assert out[|out| - |SourcesSection(urls)|..] == SourcesSection(urls);
         Ok(out)
       case _ => Err(WrongType(NotAString)))
    case Ok(_) => Err(WrongType(NoGetMethod))
  }

  /** As written, the report does not depend on the learnings at all. */
  lemma ReportIgnoresLearnings(w: World, prompt: string, l1: seq<string>, l2: seq<string>, urls: seq<string>)
    ensures WriteFinalReport(w, prompt, l1, urls) == WriteFinalReport(w, prompt, l2, urls)
  {
  }
}
