/** `generateYoutubeTriviaQuestions` (src/scripts/generate-youtube-questions.js):
    the transcript's segment texts are joined with spaces, split on runs of
    whitespace, grouped by a `reduce` into chunks of 500 words, and one model
    call is made per chunk, at most ten, skipping the chunks whose call or
    parse fails. The model is an oracle. */
module YoutubeQuestions {
  import opened Js
  import opened JsonData

  /** One caption segment of a transcript; only its text is read. */
  datatype Segment = Segment(text: string)

  const MaxCalls: nat := 10

  /** What one chunk's model call ends in: the call or `JSON.parse` threw, or the parsed value. */
  datatype Reply = Failed | Parsed(value: Json)

  function Min(a: int, b: int): int
  {
    if a <= b then a else b
  }

  /** `transcriptArray.map(item => item.text).join(' ')` */
  function TranscriptText(transcript: seq<Segment>): (r: string)
    ensures transcript == [] ==> r == ""
    ensures |transcript| == 1 ==> r == transcript[0].text
  {
    Join(seq(|transcript|, i requires 0 <= i < |transcript| => transcript[i].text), " ")
  }

  /** `String(item.text)` as `join` renders it: `undefined` and `null` become "". */
  function JoinedText(a: Access): string
    requires !a.TypeError?
  {
    if a.Undefined? || a.value.JNull? then "" else StringOf(a.value)
  }

  /** The message of the TypeError `transcriptArray.map(...)` throws on a non-array. */
  const MapNotAFunction := "transcriptArray.map is not a function"

  /** `transcriptArray.map(item => item.text)` on a stored transcript: the
      segment texts, or the message of the TypeError thrown when the value
      is `null`, is not an array, or has a `null` item. */
  function TranscriptSegments(transcript: Json): (r: Result<seq<Segment>, string>)
    ensures r.Success? <==> transcript.JArr? && forall i :: 0 <= i < |transcript.items| ==> !transcript.items[i].JNull?
    ensures r.Success? ==> |r.value| == |transcript.items| && forall i :: 0 <= i < |r.value| ==>
              r.value[i] == Segment(JoinedText(Member(transcript.items[i], "text")))
    ensures transcript.JNull? ==> r == Failure(NullPropertyMessage("map"))
    ensures !transcript.JArr? && !transcript.JNull? ==> r == Failure(MapNotAFunction)
    ensures transcript.JArr? && r.Failure? ==> r == Failure(NullPropertyMessage("text"))
  {
    if transcript.JNull? then Failure(NullPropertyMessage("map"))
    else if !transcript.JArr? then Failure(MapNotAFunction)
    else if exists i :: 0 <= i < |transcript.items| && transcript.items[i].JNull? then Failure(NullPropertyMessage("text"))
    else Success(seq(|transcript.items|, i requires 0 <= i < |transcript.items| =>
                   Segment(JoinedText(Member(transcript.items[i], "text")))))
  }

  // ---------------------------------------------------------------------------
  // The chunker

  /** The text the `reduce` accumulates for a group of words: each word
      preceded by one space. */
  function Prefixed(words: seq<string>): string
  {
    if words == [] then "" else Prefixed(words[..|words| - 1]) + " " + words[|words| - 1]
  }

  /** Number of chunks for `n` words: a new chunk starts at every index divisible by 500. */
  function ChunkCount(n: nat): nat
  {
    (n + 500 - 1) / 500
  }

  lemma ChunkBounds(n: nat, k: nat)
    requires k < ChunkCount(n)
    ensures k * 500 < n
  {
  }

  /** The words of chunk `k`. */
  function ChunkWords(words: seq<string>, k: nat): seq<string>
    requires k < ChunkCount(|words|)
  {
    ChunkBounds(|words|, k);
    words[k * 500 .. Min(k * 500 + 500, |words|)]
  }

  /** The array the `reduce` returns, as a specification. */
  function ChunkList(words: seq<string>): seq<string>
  {
    seq(ChunkCount(|words|), k requires 0 <= k < ChunkCount(|words|) => Prefixed(ChunkWords(words, k)))
  }

  lemma {:induction false} PrefixedSnoc(words: seq<string>, w: string)
    ensures Prefixed(words + [w]) == Prefixed(words) + " " + w
  {
    assert (words + [w])[..|words + [w]| - 1] == words;
  }

  /** A chunk that is already full is not touched by one more word. */
  lemma ChunkWordsSnocFull(words: seq<string>, w: string, k: nat)
    requires k * 500 + 500 <= |words|
    ensures k < ChunkCount(|words|) && k < ChunkCount(|words| + 1)
    ensures ChunkWords(words + [w], k) == ChunkWords(words, k)
  {
  }

  /** A word at an index divisible by 500 opens a new chunk. */
  lemma ChunkListSnocOpens(words: seq<string>, w: string)
    requires |words| % 500 == 0
    ensures ChunkList(words + [w]) == ChunkList(words) + [" " + w]
  {
    var v := words + [w];
    var q := |words| / 500;
    assert |words| == q * 500;
    assert ChunkCount(|words|) == q && ChunkCount(|v|) == q + 1;
    forall k | 0 <= k < q
      ensures ChunkList(v)[k] == ChunkList(words)[k]
    {
      ChunkWordsSnocFull(words, w, k);
    }
    assert ChunkWords(v, q) == [w];
    assert Prefixed([w]) == Prefixed([]) + " " + w;
    assert ChunkList(v)[q] == " " + w;
  }

  /** Any other word is appended, after a space, to the last chunk. */
  lemma ChunkListSnocExtends(words: seq<string>, w: string)
    requires |words| % 500 != 0
    ensures |ChunkList(words)| >= 1
    ensures ChunkList(words + [w])
            == ChunkList(words)[|ChunkList(words)| - 1 := ChunkList(words)[|ChunkList(words)| - 1] + " " + w]
  {
    var v := words + [w];
    var q := |words| / 500;
    var s := q * 500;
    assert |words| == s + |words| % 500;
    assert ChunkCount(|words|) == q + 1 && ChunkCount(|v|) == q + 1;
    forall k | 0 <= k < q
      ensures ChunkList(v)[k] == ChunkList(words)[k]
    {
      ChunkWordsSnocFull(words, w, k);
    }
    assert ChunkWords(words, q) == words[s..];
    assert ChunkWords(v, q) == words[s..] + [w];
    PrefixedSnoc(words[s..], w);
  }

  /** The `reduce` over the words: it pushes an empty chunk at every index
      divisible by 500 and appends `' ' + word` to the last chunk. */
  method Chunk(words: seq<string>) returns (chunks: seq<string>)
    ensures chunks == ChunkList(words)
  {
    chunks := [];
    var i := 0;
    while i < |words|
      invariant 0 <= i <= |words|
      invariant chunks == ChunkList(words[..i])
    {
      assert words[..i + 1] == words[..i] + [words[i]];
      if i % 500 == 0 {
        ChunkListSnocOpens(words[..i], words[i]);
        chunks := chunks + [""];
      } else {
        ChunkListSnocExtends(words[..i], words[i]);
      }
      chunks := chunks[|chunks| - 1 := chunks[|chunks| - 1] + " " + words[i]];
      i := i + 1;
    }
    assert words[..i] == words;
  }

  /** Every chunk but the last holds exactly 500 words; the last holds 1 to 500. */
  lemma ChunkSizes(words: seq<string>, k: nat)
    requires k < ChunkCount(|words|)
    ensures k < ChunkCount(|words|) - 1 ==> |ChunkWords(words, k)| == 500
    ensures k == ChunkCount(|words|) - 1 ==> 1 <= |ChunkWords(words, k)| <= 500
  {
  }

  /** Word `j` lies in chunk `j / 500`, at position `j % 500`. */
  lemma WordInChunk(words: seq<string>, j: nat)
    requires j < |words|
    ensures j / 500 < ChunkCount(|words|)
    ensures |ChunkWords(words, j / 500)| > j % 500
    ensures ChunkWords(words, j / 500)[j % 500] == words[j]
  {
  }

  /** At least one word gives at least one chunk. */
  lemma ChunkCountPositive(n: nat)
    requires n >= 1
    ensures ChunkCount(n) >= 1
  {
  }

  lemma {:induction false} PrefixedAppend(a: seq<string>, b: seq<string>)
    ensures Prefixed(a + b) == Prefixed(a) + Prefixed(b)
    decreases |b|
  {
    if b == [] {
      assert a + b == a;
    } else {
      var init := b[..|b| - 1];
      var x := b[|b| - 1];
      assert b == init + [x];
      assert a + b == (a + init) + [x];
      calc {
        Prefixed(a + b);
        { PrefixedSnoc(a + init, x); }
        Prefixed(a + init) + " " + x;
        { PrefixedAppend(a, init); }
        Prefixed(a) + Prefixed(init) + " " + x;
        { PrefixedSnoc(init, x); }
        Prefixed(a) + Prefixed(b);
      }
    }
  }

  lemma {:induction false} ConcatAppend(a: seq<string>, b: seq<string>)
    ensures Concat(a + b) == Concat(a) + Concat(b)
  {
    if a == [] {
      assert a + b == b;
    } else {
      assert (a + b)[1..] == a[1..] + b;
      ConcatAppend(a[1..], b);
    }
  }

  lemma ChunkWordsShift(words: seq<string>, k: nat)
    requires |words| > 500 && k < ChunkCount(|words| - 500)
    ensures k + 1 < ChunkCount(|words|)
    ensures ChunkWords(words, k + 1) == ChunkWords(words[500..], k)
  {
    var rest := words[500..];
    ChunkBounds(|rest|, k);
    var s := k * 500;
    var e := Min(s + 500, |rest|);
    assert (k + 1) * 500 == s + 500;
    assert Min(s + 500 + 500, |words|) == e + 500;
    assert words[s + 500 .. e + 500] == rest[s..e];
  }

  /** Beyond the first 500 words the chunks are those of the remaining words. */
  lemma ChunkListTail(words: seq<string>)
    requires |words| > 500
    ensures ChunkList(words) == [Prefixed(words[..500])] + ChunkList(words[500..])
  {
    var rest := words[500..];
    var tail := [Prefixed(words[..500])] + ChunkList(rest);
    assert ChunkCount(|words|) == 1 + ChunkCount(|rest|);
    forall k | 0 <= k < |tail|
      ensures ChunkList(words)[k] == tail[k]
    {
      if k == 0 {
        assert ChunkWords(words, 0) == words[..500];
      } else {
        ChunkWordsShift(words, k - 1);
      }
    }
  }

  /** Each word appears in exactly one chunk, in order, prefixed by one space:
      the chunks concatenated are the prefixed word list. */
  lemma {:induction false} ChunkListConcat(words: seq<string>)
    ensures Concat(ChunkList(words)) == Prefixed(words)
    decreases |words|
  {
    if |words| == 0 {
      assert ChunkList(words) == [];
    } else if |words| <= 500 {
      assert ChunkList(words) == [Prefixed(words)] by {
        assert ChunkWords(words, 0) == words;
      }
      assert Concat([Prefixed(words)]) == Prefixed(words) + Concat([]);
    } else {
      ChunkListTail(words);
      var rest := words[500..];
      ChunkListConcat(rest);
      ConcatAppend([Prefixed(words[..500])], ChunkList(rest));
      assert Concat([Prefixed(words[..500])]) == Prefixed(words[..500]) + Concat([]);
      PrefixedAppend(words[..500], rest);
      assert words == words[..500] + rest;
    }
  }

  /** For a non-empty word list, the prefixed form is `" " + words.join(" ")`. */
  lemma {:induction false} PrefixedIsJoin(words: seq<string>)
    requires words != []
    ensures Prefixed(words) == " " + Join(words, " ")
    decreases |words|
  {
    if |words| == 1 {
      assert Prefixed(words) == Prefixed([]) + " " + words[0];
    } else {
      PrefixedIsJoin(words[1..]);
      PrefixedAppend([words[0]], words[1..]);
      assert words == [words[0]] + words[1..];
      assert Prefixed([words[0]]) == Prefixed([]) + " " + words[0];
    }
  }

  /** The first ten chunks are the chunks of the first 5000 words. */
  lemma ChunkListPrefix(words: seq<string>)
    requires |words| >= 5000
    ensures |ChunkList(words)| >= MaxCalls
    ensures ChunkList(words)[..MaxCalls] == ChunkList(words[..5000])
  {
    var head := words[..5000];
    assert ChunkCount(|head|) == MaxCalls;
    forall k | 0 <= k < MaxCalls
      ensures ChunkList(words)[k] == ChunkList(head)[k]
    {
      assert ChunkWords(words, k) == ChunkWords(head, k);
    }
  }

  // ---------------------------------------------------------------------------
  // The capped generation loop

  /** What `questions = [...questions, ...chunkQuestions]` adds for one reply:
      an array's items, a string's characters, and nothing when the call or
      the parse threw or the parsed value is not iterable (the spread throws
      and the `catch` swallows it). */
  function Contribution(r: Reply): seq<Json>
  {
    match r
    case Failed => []
    case Parsed(JArr(items)) => items
    case Parsed(JStr(s)) => seq(|s|, i requires 0 <= i < |s| => JStr([s[i]]))
    case Parsed(_) => []
  }

  /** The questions gathered from the prompts in order; prompt `i` is sent
      as the `i`-th call. */
  function Collect(prompts: seq<string>, complete: (nat, string) -> Reply): seq<Json>
  {
    if prompts == [] then []
    else Collect(prompts[..|prompts| - 1], complete) + Contribution(complete(|prompts| - 1, prompts[|prompts| - 1]))
  }

  /** When every call fails, nothing is gathered. */
  lemma {:induction false} CollectAllFailed(prompts: seq<string>, complete: (nat, string) -> Reply)
    requires forall i :: 0 <= i < |prompts| ==> complete(i, prompts[i]).Failed?
    ensures Collect(prompts, complete) == []
    decreases |prompts|
  {
    if prompts != [] {
      var init := prompts[..|prompts| - 1];
      assert forall i :: 0 <= i < |init| ==> init[i] == prompts[i];
      CollectAllFailed(init, complete);
    }
  }

  /** A later call never changes what earlier calls contributed. */
  lemma {:induction false} CollectExtends(prompts: seq<string>, n: nat, complete: (nat, string) -> Reply)
    requires n <= |prompts|
    ensures |Collect(prompts[..n], complete)| <= |Collect(prompts, complete)|
    ensures Collect(prompts, complete)[..|Collect(prompts[..n], complete)|] == Collect(prompts[..n], complete)
    decreases |prompts|
  {
    if n < |prompts| {
      var init := prompts[..|prompts| - 1];
      assert prompts[..n] == init[..n];
      CollectExtends(init, n, complete);
    } else {
      assert prompts[..n] == prompts;
    }
  }

  /** The `for…of` loop: one call per chunk in order, each failure skipped,
      and a stop once `counter` reaches 10, whether or not the calls
      succeeded. `complete(i, chunk)` is the outcome of call `i`. */
  method AskPerChunk(chunks: seq<string>, complete: (nat, string) -> Reply)
    returns (questions: seq<Json>, prompts: seq<string>)
    ensures |prompts| == Min(|chunks|, MaxCalls) && prompts == chunks[..|prompts|]
    ensures questions == Collect(prompts, complete)
  {
    questions := [];
    prompts := [];
    var counter := 0;
    while counter < |chunks|
      invariant 0 <= counter <= |chunks| && counter < MaxCalls
      invariant prompts == chunks[..counter]
      invariant questions == Collect(prompts, complete)
    {
      var chunk := chunks[counter];
      var reply := complete(counter, chunk);
      assert (prompts + [chunk])[..|prompts|] == prompts;
      prompts := prompts + [chunk];
      questions := questions + Contribution(reply);
      counter := counter + 1;
      if counter >= MaxCalls {
        break;
      }
    }
  }

  /** The chunks the loop sends to the model: the first ten, or all when fewer. */
  function Prompts(transcript: seq<Segment>): (r: seq<string>)
    ensures 1 <= |r| <= MaxCalls
  {
    var words := SplitWhitespace(TranscriptText(transcript));
    SplitWhitespaceShape(TranscriptText(transcript));
    ChunkCountPositive(|words|);
    var chunks := ChunkList(words);
    chunks[..Min(|chunks|, MaxCalls)]
  }

  /** `generateYoutubeTriviaQuestions`: `prompts` are the chunks sent to the
      model, in call order. At least one call is always made, even for an
      empty transcript, and at most ten. */
  method GenerateYoutubeTriviaQuestions(transcript: seq<Segment>, complete: (nat, string) -> Reply)
    returns (questions: seq<Json>, prompts: seq<string>)
    ensures var chunks := ChunkList(SplitWhitespace(TranscriptText(transcript)));
            |prompts| == Min(|chunks|, MaxCalls) && prompts == chunks[..|prompts|]
    ensures 1 <= |prompts| <= MaxCalls
    ensures prompts == Prompts(transcript)
    ensures questions == Collect(prompts, complete)
  {
    var text := TranscriptText(transcript);
    var words := SplitWhitespace(text);
    SplitWhitespaceShape(text);
    ChunkCountPositive(|words|);
    var chunks := Chunk(words);
    assert |chunks| == ChunkCount(|words|);
    questions, prompts := AskPerChunk(chunks, complete);
  }

  /** A transcript of at least 5000 words is sent only as far as its first
      5000 words; the rest is never prompted. */
  lemma CapCoversFirstWords(words: seq<string>)
    requires |words| >= 5000
    ensures Concat(ChunkList(words)[..Min(|ChunkList(words)|, MaxCalls)]) == Prefixed(words[..5000])
  {
    ChunkListPrefix(words);
    ChunkListConcat(words[..5000]);
  }
}
