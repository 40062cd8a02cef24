/**
 Reassembly of a streamed chat completion (`parseStreamingResponse` in `clients/groq/groq.go`), from decoded lines
 onward. The lines are server-sent events as in section 9.2 of the WHATWG HTML Living Standard.
 */
module Streaming {
  import opened Nodes

  datatype FunctionDelta = FunctionDelta(name: Option<string>, arguments: Option<string>)

  datatype Delta = Delta(index: int, id: Option<string>, kind: Option<string>, function_: Option<FunctionDelta>)

  datatype Choice = Choice(index: int, content: Option<string>, toolCalls: Option<seq<Delta>>, finish: Option<string>)

  datatype Usage = Usage(prompt: int, completion: int, total: int)

  datatype Chunk = Chunk(id: string, object_: string, choices: seq<Choice>, usage: Option<Usage>)

  /** `Skipped` is an empty line, a line that is not data, or data that is no JSON chunk. */
  datatype Line = Skipped | Done | Data(chunk: Chunk)

  datatype ToolCall = ToolCall(id: string, kind: string, name: string, arguments: string)

  datatype Response = Response(
    id: string, object_: string, index: int, content: string, finish: string, usage: Usage, toolCalls: seq<ToolCall>)

  // ---------------------------------------------------------------- what the lines carry

  /** The first choices of the chunks that count: those before the end marker that have a choice. */
  function Heard(lines: seq<Line>): (r: seq<Chunk>)
    ensures forall c <- r :: c.choices != []
  {
    if lines == [] || lines[0].Done? then []
    else if lines[0].Data? && lines[0].chunk.choices != [] then [lines[0].chunk] + Heard(lines[1..])
    else Heard(lines[1..])
  }

  function Concat(parts: seq<string>): string {
    if parts == [] then "" else Concat(parts[..|parts| - 1]) + parts[|parts| - 1]
  }

  lemma ConcatPush(parts: seq<string>, last: string)
    ensures Concat(parts + [last]) == Concat(parts) + last
  {
    assert (parts + [last])[..|parts|] == parts;
  }

  function OrEmpty(s: Option<string>): string {
    if s.Some? then s.value else ""
  }

  /** The content of each chunk in turn. */
  function Contents(chunks: seq<Chunk>): seq<string>
    requires forall c <- chunks :: c.choices != []
  {
    seq(|chunks|, k requires 0 <= k < |chunks| => OrEmpty(chunks[k].choices[0].content))
  }

  function OwnDeltas(c: Choice): seq<Delta> {
    if c.toolCalls.Some? then c.toolCalls.value else []
  }

  /** All tool call deltas in the order of arrival. */
  function Deltas(chunks: seq<Chunk>): seq<Delta>
    requires forall c <- chunks :: c.choices != []
  {
    if chunks == [] then [] else Deltas(chunks[..|chunks| - 1]) + OwnDeltas(chunks[|chunks| - 1].choices[0])
  }

  /** The deltas of one index, in the order of arrival. */
  function For(deltas: seq<Delta>, i: int): seq<Delta> {
    if deltas == [] then []
    else
      var d := deltas[|deltas| - 1];
      For(deltas[..|deltas| - 1], i) + if d.index == i then [d] else []
  }

  /** The last value given, if any. */
  function Last(values: seq<Option<string>>, otherwise: string): string {
    if values == [] then otherwise
    else if values[|values| - 1].Some? then values[|values| - 1].value
    else Last(values[..|values| - 1], otherwise)
  }

  function Name(d: Delta): Option<string> {
    if d.function_.Some? then d.function_.value.name else None
  }

  function Arguments(d: Delta): Option<string> {
    if d.function_.Some? then d.function_.value.arguments else None
  }

  function Each<A, B>(xs: seq<A>, f: A -> B): seq<B> {
    seq(|xs|, k requires 0 <= k < |xs| => f(xs[k]))
  }

  /** The tool call that the deltas of one index spell. */
  function Spelled(own: seq<Delta>): ToolCall {
    ToolCall(Last(Each(own, (d: Delta) => d.id), ""), Last(Each(own, (d: Delta) => d.kind), "function"),
             Last(Each(own, Name), ""), Concat(Each(own, (d: Delta) => OrEmpty(Arguments(d)))))
  }

  // ---------------------------------------------------------------- what the loop does

  function Amend(calls: map<int, ToolCall>, d: Delta): map<int, ToolCall> {
    var call := if d.index in calls then calls[d.index] else ToolCall("", "function", "", "");
    calls[d.index := ToolCall(if d.id.Some? then d.id.value else call.id,
                              if d.kind.Some? then d.kind.value else call.kind,
                              if Name(d).Some? then Name(d).value else call.name,
                              call.arguments + OrEmpty(Arguments(d)))]
  }

  function Accumulate(deltas: seq<Delta>): map<int, ToolCall> {
    if deltas == [] then map[] else Amend(Accumulate(deltas[..|deltas| - 1]), deltas[|deltas| - 1])
  }

  /** The calls whose index is below the bound, by index. */
  function Collect(calls: map<int, ToolCall>, bound: nat): seq<ToolCall> {
    if bound == 0 then []
    else Collect(calls, bound - 1) + if bound - 1 in calls then [calls[bound - 1]] else []
  }

  lemma EachPush<A, B>(xs: seq<A>, x: A, f: A -> B)
    ensures Each(xs + [x], f) == Each(xs, f) + [f(x)]
  {
  }

  /** One more delta of the same index. */
  lemma SpelledMore(own: seq<Delta>, d: Delta)
    ensures var call := Spelled(own);
            Spelled(own + [d]) == ToolCall(if d.id.Some? then d.id.value else call.id,
                                           if d.kind.Some? then d.kind.value else call.kind,
                                           if Name(d).Some? then Name(d).value else call.name,
                                           call.arguments + OrEmpty(Arguments(d)))
  {
    LastMore(own, d, (d: Delta) => d.id, "");
    LastMore(own, d, (d: Delta) => d.kind, "function");
    LastMore(own, d, Name, "");
    EachPush(own, d, (d: Delta) => OrEmpty(Arguments(d)));
    ConcatPush(Each(own, (d: Delta) => OrEmpty(Arguments(d))), OrEmpty(Arguments(d)));
  }

  lemma LastMore(own: seq<Delta>, d: Delta, f: Delta -> Option<string>, otherwise: string)
    ensures Last(Each(own + [d], f), otherwise) == if f(d).Some? then f(d).value else Last(Each(own, f), otherwise)
  {
    EachPush(own, d, f);
    assert (Each(own, f) + [f(d)])[..|own|] == Each(own, f);
  }

  lemma SpelledNothing()
    ensures Spelled([]) == ToolCall("", "function", "", "")
  {
  }

  /** However the deltas of different indices interleave, each call is what its own deltas spell. */
  lemma {:induction false} AccumulatesPerIndex(deltas: seq<Delta>, i: int)
    ensures i in Accumulate(deltas) <==> For(deltas, i) != []
    ensures i in Accumulate(deltas) ==> Accumulate(deltas)[i] == Spelled(For(deltas, i))
  {
    if deltas != [] {
      var before, d := deltas[..|deltas| - 1], deltas[|deltas| - 1];
      AccumulatesPerIndex(before, i);
      SpelledMore(For(before, i), d);
      SpelledNothing();
      assert For(before, i) + [] == For(before, i);
      hide Spelled, For;
    }
  }

  /** Two streams that agree on each index accumulate the same calls. */
  lemma InterleavingIsIrrelevant(deltas: seq<Delta>, others: seq<Delta>)
    requires forall i :: For(deltas, i) == For(others, i)
    ensures Accumulate(deltas) == Accumulate(others)
  {
    forall i
      ensures i in Accumulate(deltas) <==> i in Accumulate(others)
      ensures i in Accumulate(deltas) ==> Accumulate(deltas)[i] == Accumulate(others)[i]
    {
      assert For(deltas, i) == For(others, i);
      AccumulatesPerIndex(deltas, i);
      AccumulatesPerIndex(others, i);
    }
  }

  // ---------------------------------------------------------------- the parser

  function NonEmpty(parts: seq<string>): seq<string> {
    if parts == [] then []
    else NonEmpty(parts[..|parts| - 1]) + if parts[|parts| - 1] != "" then [parts[|parts| - 1]] else []
  }

  function LastUsage(chunks: seq<Chunk>): Usage {
    if chunks == [] then Usage(0, 0, 0)
    else if chunks[|chunks| - 1].usage.Some? then chunks[|chunks| - 1].usage.value
    else LastUsage(chunks[..|chunks| - 1])
  }

  function Finishes(chunks: seq<Chunk>): seq<Option<string>>
    requires forall c <- chunks :: c.choices != []
  {
    seq(|chunks|, k requires 0 <= k < |chunks| => chunks[k].choices[0].finish)
  }

  /** What the parser holds after some chunks; the tool calls are added at the end. */
  function Partial(chunks: seq<Chunk>): Option<Response>
    requires forall c <- chunks :: c.choices != []
  {
    if chunks == [] then None
    else Some(Response(chunks[0].id, chunks[0].object_, chunks[0].choices[0].index, Concat(Contents(chunks)),
                       Last(Finishes(chunks), ""), LastUsage(chunks), []))
  }

  lemma AccumulateMore(deltas: seq<Delta>, d: Delta)
    ensures Accumulate(deltas + [d]) == Amend(Accumulate(deltas), d)
  {
    assert (deltas + [d])[..|deltas|] == deltas;
  }

  method AmendAll(calls: map<int, ToolCall>, deltas: seq<Delta>, ghost before: seq<Delta>)
    returns (r: map<int, ToolCall>)
    requires calls == Accumulate(before)
    ensures r == Accumulate(before + deltas)
  {
    r := calls;
    assert before + deltas[..0] == before;
    for n := 0 to |deltas|
      invariant r == Accumulate(before + deltas[..n])
    {
      assert before + deltas[..n + 1] == before + deltas[..n] + [deltas[n]];
      AccumulateMore(before + deltas[..n], deltas[n]);
      r := Amend(r, deltas[n]);
    }
    assert before + deltas[..|deltas|] == before + deltas;
  }

  method CollectAll(calls: map<int, ToolCall>) returns (toolCalls: seq<ToolCall>)
    ensures toolCalls == Collect(calls, |calls|)
  {
    toolCalls := [];
    for i := 0 to |calls|
      invariant toolCalls == Collect(calls, i)
    {
      if i in calls {
        toolCalls := toolCalls + [calls[i]];
      }
    }
  }

  /** One chunk with a choice, folded into the response under construction. */
  method Fold(response: Option<Response>, chunk: Chunk, ghost before: seq<Chunk>) returns (r: Option<Response>)
    requires (forall c <- before :: c.choices != []) && chunk.choices != [] && response == Partial(before)
    ensures (forall c <- before + [chunk] :: c.choices != []) && r == Partial(before + [chunk])
  {
    var choice := chunk.choices[0];
    assert before == [] ==> Concat(Contents(before)) == "" == Last(Finishes(before), "") && LastUsage(before) == Usage(0, 0, 0);
    var built := if response.Some? then response.value
                 else Response(chunk.id, chunk.object_, choice.index, "", "", Usage(0, 0, 0), []);
    if choice.content.Some? && choice.content.value != "" {
      built := built.(content := built.content + choice.content.value);
    }
    if choice.finish.Some? {
      built := built.(finish := choice.finish.value);
    }
    if chunk.usage.Some? {
      built := built.(usage := chunk.usage.value);
    }
    FoldedMore(before, chunk);
    assert Concat(Contents(before)) + "" == Concat(Contents(before));
    hide Concat, Contents, Finishes, LastUsage, Last;
    r := Some(built);
  }

  lemma FoldedMore(before: seq<Chunk>, chunk: Chunk)
    requires (forall c <- before :: c.choices != []) && chunk.choices != []
    ensures forall c <- before + [chunk] :: c.choices != []
    ensures var all, choice := before + [chunk], chunk.choices[0];
            && all[0] == (if before == [] then chunk else before[0])
            && Concat(Contents(all)) == Concat(Contents(before)) + OrEmpty(choice.content)
            && Last(Finishes(all), "") == (if choice.finish.Some? then choice.finish.value else Last(Finishes(before), ""))
            && LastUsage(all) == if chunk.usage.Some? then chunk.usage.value else LastUsage(before)
  {
    var all, choice := before + [chunk], chunk.choices[0];
    assert all[..|all| - 1] == before;
    assert Contents(all) == Contents(before) + [OrEmpty(choice.content)];
    ConcatPush(Contents(before), OrEmpty(choice.content));
    assert Finishes(all)[..|before|] == Finishes(before);
  }

  /** What the parser's variables hold after some chunks. */
  ghost predicate Built(chunks: seq<Chunk>, calls: map<int, ToolCall>, response: Option<Response>, tokens: seq<string>) {
    && (forall c <- chunks :: c.choices != [])
    && response == Partial(chunks) && tokens == NonEmpty(Contents(chunks)) && calls == Accumulate(Deltas(chunks))
  }

  /** One chunk with a choice: its content, then its tool call deltas, then the response. */
  method Hear(chunk: Chunk, calls: map<int, ToolCall>, response: Option<Response>, tokens: seq<string>, ghost before: seq<Chunk>)
    returns (calls': map<int, ToolCall>, response': Option<Response>, tokens': seq<string>)
    requires chunk.choices != [] && Built(before, calls, response, tokens)
    ensures Built(before + [chunk], calls', response', tokens')
  {
    var choice := chunk.choices[0];
    ChunkAdded(before, chunk);
    tokens', calls' := tokens, calls;
    if choice.content.Some? && choice.content.value != "" {
      tokens' := tokens + [choice.content.value];
    }
    if choice.toolCalls.Some? {
      calls' := AmendAll(calls, choice.toolCalls.value, Deltas(before));
    } else {
      assert Deltas(before) + [] == Deltas(before);
    }
    response' := Fold(response, chunk, before);
  }

  /** The chunks collected so far, and those still to come, make up the stream. */
  ghost predicate Splits(lines: seq<Line>, i: nat, chunks: seq<Chunk>) {
    i <= |lines| && Heard(lines) == chunks + Heard(lines[i..])
  }

  /** The scan, up to the end marker. The tokens are those handed to the callback. */
  method HearAll(lines: seq<Line>) returns (calls: map<int, ToolCall>, response: Option<Response>, tokens: seq<string>)
    ensures Built(Heard(lines), calls, response, tokens)
  {
    calls, response, tokens := map[], None, [];
    ghost var chunks: seq<Chunk> := [];
    var i := 0;
    assert Built([], map[], None, []);
    assert lines[0..] == lines;
    assert Splits(lines, 0, []);
    hide Built, Splits;
    while i < |lines| && !lines[i].Done?
      invariant i <= |lines| && Splits(lines, i, chunks) && Built(chunks, calls, response, tokens)
    {
      SplitsNext(lines, i, chunks);
      if lines[i].Data? && lines[i].chunk.choices != [] {
        calls, response, tokens := Hear(lines[i].chunk, calls, response, tokens, chunks);
        chunks := chunks + [lines[i].chunk];
      }
      i := i + 1;
    }
    SplitsEnd(lines, i, chunks);
  }

  /** `None` is the error for a stream without any usable chunk. */
  method ParseStreamingResponse(lines: seq<Line>) returns (response: Option<Response>, tokens: seq<string>)
    ensures var chunks := Heard(lines);
            && tokens == NonEmpty(Contents(chunks))
            && (chunks == [] ==> response == None)
            && (chunks != [] ==>
                  var calls := Accumulate(Deltas(chunks));
                  response == Some(Partial(chunks).value.(toolCalls := Collect(calls, |calls|))))
    ensures forall m :: Carries(Heard(lines), m) ==>
              && response == Some(Response(m.id, m.object_, m.index, m.content, m.finish, m.usage, m.calls))
              && Concat(tokens) == m.content
  {
    forall m | Carries(Heard(lines), m)
      ensures var chunks := Heard(lines);
              var calls := Accumulate(Deltas(chunks));
              && Partial(chunks).Some?
              && Partial(chunks).value.(toolCalls := Collect(calls, |calls|))
                 == Response(m.id, m.object_, m.index, m.content, m.finish, m.usage, m.calls)
              && Concat(NonEmpty(Contents(chunks))) == m.content
    {
      Reassembled(lines, m);
    }
    PartialIsSome(Heard(lines));
    hide Heard, Partial, Accumulate, Deltas, Contents, NonEmpty, Collect, Carries, Concat;
    var calls;
    calls, response, tokens := HearAll(lines);
    if response.Some? {
      var toolCalls := CollectAll(calls);
      response := Some(response.value.(toolCalls := toolCalls));
    }
  }

  lemma SplitsNext(lines: seq<Line>, i: nat, chunks: seq<Chunk>)
    requires i < |lines| && !lines[i].Done? && Splits(lines, i, chunks)
    ensures Splits(lines, i + 1, if lines[i].Data? && lines[i].chunk.choices != [] then chunks + [lines[i].chunk] else chunks)
  {
    assert lines[i..][1..] == lines[i + 1..];
  }

  lemma SplitsEnd(lines: seq<Line>, i: nat, chunks: seq<Chunk>)
    requires i <= |lines| && (i == |lines| || lines[i].Done?) && Splits(lines, i, chunks)
    ensures chunks == Heard(lines)
  {
    assert Heard(lines[i..]) == [];
  }

  lemma PartialIsSome(chunks: seq<Chunk>)
    requires forall c <- chunks :: c.choices != []
    ensures Partial(chunks).Some? <==> chunks != []
  {
  }

  lemma ChunkAdded(chunks: seq<Chunk>, chunk: Chunk)
    requires (forall c <- chunks :: c.choices != []) && chunk.choices != []
    ensures forall c <- chunks + [chunk] :: c.choices != []
    ensures var part := OrEmpty(chunk.choices[0].content);
            NonEmpty(Contents(chunks + [chunk])) == NonEmpty(Contents(chunks)) + if part != "" then [part] else []
    ensures Deltas(chunks + [chunk]) == Deltas(chunks) + OwnDeltas(chunk.choices[0])
  {
    var all := chunks + [chunk];
    assert all[..|all| - 1] == chunks;
    assert Contents(all) == Contents(chunks) + [OrEmpty(chunk.choices[0].content)];
    assert Contents(all)[..|chunks|] == Contents(chunks);
  }

  // ---------------------------------------------------------------- what the caller gets

  /** The callback's tokens are the content. */
  lemma {:induction false} TokensAreContent(parts: seq<string>)
    ensures Concat(NonEmpty(parts)) == Concat(parts)
  {
    if parts != [] {
      var front, last := parts[..|parts| - 1], parts[|parts| - 1];
      TokensAreContent(front);
      ConcatPush(NonEmpty(front), last);
      assert NonEmpty(front) + [] == NonEmpty(front) && Concat(front) + "" == Concat(front);
    }
  }

  lemma {:induction false} CollectBounds(calls: map<int, ToolCall>, bound: nat)
    ensures |Collect(calls, bound)| <= bound
    ensures |Collect(calls, bound)| == bound <==> forall i :: 0 <= i < bound ==> i in calls
    ensures |Collect(calls, bound)| == bound ==> forall i :: 0 <= i < bound ==> Collect(calls, bound)[i] == calls[i]
  {
    if bound > 0 {
      CollectBounds(calls, bound - 1);
    }
  }

  function UpTo(n: nat): (r: set<int>)
    ensures |r| == n && forall i :: i in r <==> 0 <= i < n
  {
    if n == 0 then {} else UpTo(n - 1) + {n - 1}
  }

  /** The index set of a complete message is an initial segment; the parser drops calls exactly when it is not. */
  lemma CallsDropped(calls: map<int, ToolCall>)
    ensures |Collect(calls, |calls|)| == |calls| <==> calls.Keys == UpTo(|calls|)
  {
    CollectBounds(calls, |calls|);
    if forall i :: 0 <= i < |calls| ==> i in calls {
      assert UpTo(|calls|) <= calls.Keys;
      SameSize(UpTo(|calls|), calls.Keys);
    }
  }

  lemma SameSize<A>(small: set<A>, large: set<A>)
    requires small <= large && |small| == |large|
    ensures small == large
  {
    assert |large - small| == |large| - |small| == 0;
    assert large == small + (large - small);
  }

  /** What the sender has to say. */
  datatype Message = Message(
    id: string, object_: string, index: int, content: string, finish: string, usage: Usage, calls: seq<ToolCall>)

  /** The last value given is this one; or none is given, and this is the default. */
  ghost predicate Says(values: seq<Option<string>>, value: string, otherwise: string) {
    || (exists k :: 0 <= k < |values| && values[k] == Some(value) && forall j :: k < j < |values| ==> values[j] == None)
    || (value == otherwise && forall j :: 0 <= j < |values| ==> values[j] == None)
  }

  /** These deltas are one cutting of the call. */
  ghost predicate Cuts(own: seq<Delta>, call: ToolCall) {
    && own != []
    && Says(Each(own, (d: Delta) => d.id), call.id, "")
    && Says(Each(own, (d: Delta) => d.kind), call.kind, "function")
    && Says(Each(own, Name), call.name, "")
    && Concat(Each(own, (d: Delta) => OrEmpty(Arguments(d)))) == call.arguments
  }

  /** The last chunk that gives a usage gives this one; without any, it is zero. */
  ghost predicate Using(chunks: seq<Chunk>, usage: Usage) {
    (exists k :: 0 <= k < |chunks| && chunks[k].usage == Some(usage) && forall j :: k < j < |chunks| ==> chunks[j].usage == None)
    || (usage == Usage(0, 0, 0) && forall j :: 0 <= j < |chunks| ==> chunks[j].usage == None)
  }

  /**
   The chunks carry the message: the first one names it, content comes in order, each call in order within its index, and
   the last finish reason and usage are the message's.
   */
  ghost predicate Carries(chunks: seq<Chunk>, m: Message)
    requires forall c <- chunks :: c.choices != []
  {
    && chunks != []
    && chunks[0].id == m.id && chunks[0].object_ == m.object_ && chunks[0].choices[0].index == m.index
    && Says(Finishes(chunks), m.finish, "") && Using(chunks, m.usage)
    && Concat(Contents(chunks)) == m.content
    && (forall d <- Deltas(chunks) :: 0 <= d.index < |m.calls|)
    && (forall i :: 0 <= i < |m.calls| ==> Cuts(For(Deltas(chunks), i), m.calls[i]))
  }

  lemma {:induction false} LastSays(values: seq<Option<string>>, value: string, otherwise: string)
    requires Says(values, value, otherwise)
    ensures Last(values, otherwise) == value
  {
    if values != [] {
      var front := values[..|values| - 1];
      if values[|front|].None? {
        assert Says(front, value, otherwise);
        LastSays(front, value, otherwise);
      }
    }
  }

  lemma SpelledCut(own: seq<Delta>, call: ToolCall)
    requires Cuts(own, call)
    ensures Spelled(own) == call
  {
    LastSays(Each(own, (d: Delta) => d.id), call.id, "");
    LastSays(Each(own, (d: Delta) => d.kind), call.kind, "function");
    LastSays(Each(own, Name), call.name, "");
  }

  lemma {:induction false} IndexOfSome(deltas: seq<Delta>, i: int)
    ensures For(deltas, i) != [] ==> exists d <- deltas :: d.index == i
  {
    if deltas != [] {
      var front := deltas[..|deltas| - 1];
      IndexOfSome(front, i);
      assert forall d <- front :: d in deltas;
      assert deltas[|deltas| - 1] in deltas;
    }
  }

  lemma {:induction false} UsageIsLast(chunks: seq<Chunk>, usage: Usage)
    requires Using(chunks, usage)
    ensures LastUsage(chunks) == usage
  {
    if chunks != [] {
      var front := chunks[..|chunks| - 1];
      if chunks[|front|].usage.None? {
        assert Using(front, usage);
        UsageIsLast(front, usage);
      }
    }
  }

  lemma CallsReassembled(chunks: seq<Chunk>, m: Message)
    requires (forall c <- chunks :: c.choices != []) && Carries(chunks, m)
    ensures var calls := Accumulate(Deltas(chunks)); Collect(calls, |calls|) == m.calls
  {
    var deltas := Deltas(chunks);
    var calls := Accumulate(deltas);
    forall i
      ensures i in calls <==> 0 <= i < |m.calls|
      ensures i in calls ==> calls[i] == m.calls[i]
    {
      AccumulatesPerIndex(deltas, i);
      IndexOfSome(deltas, i);
      if 0 <= i < |m.calls| {
        SpelledCut(For(deltas, i), m.calls[i]);
      }
    }
    assert calls.Keys == UpTo(|m.calls|);
    CollectBounds(calls, |m.calls|);
  }

  /**
   Whatever way a message is cut into chunks and its calls are interleaved, with skipped lines anywhere, the parser hands
   the whole message back, and its callback the content.
   */
  lemma Reassembled(lines: seq<Line>, m: Message)
    requires Carries(Heard(lines), m)
    ensures var chunks := Heard(lines);
            var calls := Accumulate(Deltas(chunks));
            && Partial(chunks).Some?
            && Partial(chunks).value.(toolCalls := Collect(calls, |calls|))
               == Response(m.id, m.object_, m.index, m.content, m.finish, m.usage, m.calls)
            && Concat(NonEmpty(Contents(chunks))) == m.content
  {
    CallsReassembled(Heard(lines), m);
    LastSays(Finishes(Heard(lines)), m.finish, "");
    UsageIsLast(Heard(lines), m.usage);
    TokensAreContent(Contents(Heard(lines)));
    hide Heard, Accumulate, Deltas, Contents, Concat, Finishes, LastUsage, Last, Collect, NonEmpty, Says, Using, Cuts;
  }

  // ---------------------------------------------------------------- which lines count

  lemma HeardFirst(line: Line, rest: seq<Line>)
    requires !line.Done?
    ensures Heard([line] + rest) == (if line.Data? && line.chunk.choices != [] then [line.chunk] else []) + Heard(rest)
  {
    assert ([line] + rest)[1..] == rest;
  }

  /** Lines before the end marker add up. */
  lemma {:induction false} HeardJoins(first: seq<Line>, second: seq<Line>)
    requires Done !in first
    ensures Heard(first + second) == Heard(first) + Heard(second)
  {
    if first == [] {
      assert first + second == second;
    } else {
      var line, rest := first[0], first[1..];
      HeardJoins(rest, second);
      HeardFirst(line, rest + second);
      HeardFirst(line, rest);
      hide Heard;
      assert first == [line] + rest;
      Associates([line], rest, second);
      Associates(if line.Data? && line.chunk.choices != [] then [line.chunk] else [], Heard(rest), Heard(second));
    }
  }

  lemma Associates<A>(a: seq<A>, b: seq<A>, c: seq<A>)
    ensures (a + b) + c == a + (b + c)
  {
  }

  /** Lines after the end marker are never read. */
  lemma HeardUntilDone(first: seq<Line>, second: seq<Line>)
    requires Done !in first
    ensures Heard(first + [Done] + second) == Heard(first)
  {
    assert Heard([Done] + second) == [];
    HeardJoins(first, [Done] + second);
    hide Heard;
    assert first + [Done] + second == first + ([Done] + second);
  }

  /** The callback gets the non-empty contents, as often as they came, and nothing empty. */
  lemma {:induction false} TokensAreParts(parts: seq<string>)
    ensures "" !in NonEmpty(parts)
    ensures forall part :: part != "" ==> multiset(NonEmpty(parts))[part] == multiset(parts)[part]
  {
    if parts != [] {
      var front, last := parts[..|parts| - 1], parts[|parts| - 1];
      assert parts == front + [last];
      TokensAreParts(front);
    }
  }
}
