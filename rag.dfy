/** `QuestionAnswerChainGenerator`: the context block built from retrieved
    fragments, the choice of prompt template, and the data flow of the chain
    (question -> retriever -> context -> language model -> answer). The
    retriever and the language model are function parameters. */
module Rag {
  import opened Common

  /** A prompt template loaded from a YAML file; its text is opaque here. */
  datatype Prompt = Prompt(file: string)

  /** `QuestionAnswerChainGenerator.prompts`. */
  const Prompts: map<string, Prompt> := map[
    "question" := Prompt("prompts/question.yaml"),
    "rebuttal" := Prompt("prompts/rebuttal.yaml"),
    "protocol" := Prompt("prompts/protocol.yaml")
  ]

  /** The key `__call__` looks up when no prompt is given. */
  const DefaultPromptKey: string := "question_answer"

  const FragmentPrefix: string := "Фрагмент статьи: "
  const Separator: string := "\n\n"

  /** What the chain returns after `.pick(["answer", "documents"])`. */
  datatype ChainOutput = ChainOutput(answer: string, documents: seq<Document>)

  function Fragment(d: Document): string {
    FragmentPrefix + d.pageContent
  }

  /** The list comprehension of `format_snippets`. */
  function Fragments(documents: seq<Document>): (r: seq<string>)
    ensures |r| == |documents|
    ensures forall i :: 0 <= i < |documents| ==> r[i] == Fragment(documents[i])
    decreases |documents|
  {
    if documents == [] then [] else [Fragment(documents[0])] + Fragments(documents[1..])
  }

  /** Python's `sep.join(parts)`. */
  function JoinWith(sep: string, parts: seq<string>): (r: string)
    ensures parts == [] ==> r == ""
    ensures |parts| == 1 ==> r == parts[0]
    ensures |parts| >= 2 ==> StartsWith(r, parts[0] + sep)
    decreases |parts|
  {
    if parts == [] then ""
    else if |parts| == 1 then parts[0]
    else parts[0] + sep + JoinWith(sep, parts[1..])
  }

  /** `format_snippets(documents)`. */
  function FormatSnippets(documents: seq<Document>): (r: string)
    ensures |r| >= |Separator| && r[..|Separator|] == Separator
    ensures documents == [] ==> r == Separator
  {
    Separator + JoinWith(Separator, Fragments(documents))
  }

  /** Sum over the documents of `len("Фрагмент статьи: ") + len(page_content)`. */
  function FragmentsLength(documents: seq<Document>): nat
    decreases |documents|
  {
    if documents == [] then 0 else |FragmentPrefix| + |documents[0].pageContent| + FragmentsLength(documents[1..])
  }

  /** Where the `i`-th fragment starts in the output: after the leading separator,
      the earlier fragments and one separator after each of them. */
  function FragmentOffset(documents: seq<Document>, i: nat): nat
    requires i <= |documents|
  {
    2 * (i + 1) + FragmentsLength(documents[..i])
  }

  /** The output is the separator, the first fragment, and the output for the
      remaining documents (which starts with its own separator). */
  lemma {:induction false} FormatSnippetsUnfold(documents: seq<Document>)
    requires |documents| >= 1
    ensures |documents| == 1 ==> FormatSnippets(documents) == Separator + Fragment(documents[0])
    ensures |documents| >= 2 ==>
      FormatSnippets(documents) == Separator + Fragment(documents[0]) + FormatSnippets(documents[1..])
  {
    var parts := Fragments(documents);
    assert parts[1..] == Fragments(documents[1..]);
    if |documents| >= 2 {
      assert JoinWith(Separator, parts) == parts[0] + Separator + JoinWith(Separator, parts[1..]);
    }
  }

  /** For n >= 1 documents the output has length 2 + the fragment lengths + 2 * (n - 1). */
  lemma {:induction false} FormatSnippetsLength(documents: seq<Document>)
    requires |documents| >= 1
    ensures |FormatSnippets(documents)| == 2 + FragmentsLength(documents) + 2 * (|documents| - 1)
    decreases |documents|
  {
    FormatSnippetsUnfold(documents);
    if |documents| >= 2 {
      FormatSnippetsLength(documents[1..]);
    }
  }

  /** Fragment `i` stands at FragmentOffset(i), right after a separator: one
      fragment per document, in document order. */
  lemma {:induction false} FragmentAt(documents: seq<Document>, i: nat)
    requires i < |documents|
    ensures FragmentOffset(documents, i) + |Fragment(documents[i])| <= |FormatSnippets(documents)|
    ensures FragmentOffset(documents, i) >= 2
    ensures FormatSnippets(documents)[FragmentOffset(documents, i) - 2..FragmentOffset(documents, i)] == Separator
    ensures FormatSnippets(documents)[FragmentOffset(documents, i)..FragmentOffset(documents, i) + |Fragment(documents[i])|]
         == Fragment(documents[i])
    decreases i
  {
    if i == 0 {
      FirstFragmentAt(documents);
    } else {
      var rest := documents[1..];
      FragmentAt(rest, i - 1);
      LaterFragmentAt(documents, i);
    }
  }

  lemma FirstFragmentAt(documents: seq<Document>)
    requires |documents| >= 1
    ensures FragmentOffset(documents, 0) == 2
    ensures 2 + |Fragment(documents[0])| <= |FormatSnippets(documents)|
    ensures FormatSnippets(documents)[0..2] == Separator
    ensures FormatSnippets(documents)[2..2 + |Fragment(documents[0])|] == Fragment(documents[0])
  {
    var f := Fragment(documents[0]);
    assert documents[..0] == [];
    FormatSnippetsUnfold(documents);
    if |documents| >= 2 {
      SliceOfPrefix(Separator + f, FormatSnippets(documents[1..]), 0, 2);
      SliceOfPrefix(Separator + f, FormatSnippets(documents[1..]), 2, 2 + |f|);
    }
  }

  /** One step of FragmentAt: what holds of fragment i - 1 among the remaining
      documents holds of fragment i, shifted by the first block. */
  lemma LaterFragmentAt(documents: seq<Document>, i: nat)
    requires 1 <= i < |documents|
    requires var rest := documents[1..]; var o := FragmentOffset(rest, i - 1);
      && 2 <= o
      && o + |Fragment(rest[i - 1])| <= |FormatSnippets(rest)|
      && FormatSnippets(rest)[o - 2..o] == Separator
      && FormatSnippets(rest)[o..o + |Fragment(rest[i - 1])|] == Fragment(rest[i - 1])
    ensures var o := FragmentOffset(documents, i);
      && o + |Fragment(documents[i])| <= |FormatSnippets(documents)|
      && FormatSnippets(documents)[o - 2..o] == Separator
      && FormatSnippets(documents)[o..o + |Fragment(documents[i])|] == Fragment(documents[i])
  {
    var rest := documents[1..];
    var head := Separator + Fragment(documents[0]);
    var o := FragmentOffset(rest, i - 1);
    var r, t := FormatSnippets(documents), FormatSnippets(rest);
    assert r == head + t by { FormatSnippetsUnfold(documents); }
    assert FragmentOffset(documents, i) == |head| + o by { OffsetShift(documents, i); }
    assert documents[i] == rest[i - 1];
    FragmentAfterHead(head, t, o, Fragment(rest[i - 1]));
  }

  /** A separator and fragment found at offset o of t are found at |head| + o of head + t. */
  lemma FragmentAfterHead(head: string, t: string, o: nat, f: string)
    requires 2 <= o && o + |f| <= |t|
    requires t[o - 2..o] == Separator && t[o..o + |f|] == f
    ensures |head| + o + |f| <= |head + t|
    ensures (head + t)[|head| + o - 2..|head| + o] == Separator
    ensures (head + t)[|head| + o..|head| + o + |f|] == f
  {
    SliceOfSuffix(head, t, o - 2, o);
    SliceOfSuffix(head, t, o, o + |f|);
  }

  /** Fragment i of the documents sits one leading block further than fragment i - 1 of the rest. */
  lemma OffsetShift(documents: seq<Document>, i: nat)
    requires 1 <= i < |documents|
    ensures FragmentOffset(documents, i)
         == |Separator + Fragment(documents[0])| + FragmentOffset(documents[1..], i - 1)
  {
    var prefix := documents[..i];
    assert prefix[0] == documents[0];
    assert prefix[1..] == documents[1..][..i - 1];
    assert FragmentsLength(prefix) == |Fragment(documents[0])| + FragmentsLength(documents[1..][..i - 1]);
  }

  lemma SliceOfPrefix(a: string, b: string, lo: nat, hi: nat)
    requires lo <= hi <= |a|
    ensures (a + b)[lo..hi] == a[lo..hi]
  {
  }

  lemma SliceOfSuffix(a: string, b: string, lo: nat, hi: nat)
    requires lo <= hi <= |b|
    ensures (a + b)[|a| + lo..|a| + hi] == b[lo..hi]
  {
  }

  /** The last fragment ends the output: the fragments and separators account for all of it. */
  lemma LastFragmentEndsOutput(documents: seq<Document>)
    requires |documents| >= 1
    ensures FragmentOffset(documents, |documents| - 1) + |Fragment(documents[|documents| - 1])|
         == |FormatSnippets(documents)|
  {
    FormatSnippetsLength(documents);
    FragmentsLengthSplit(documents);
  }

  lemma {:induction false} FragmentsLengthSplit(documents: seq<Document>)
    requires |documents| >= 1
    ensures FragmentsLength(documents)
         == FragmentsLength(documents[..|documents| - 1]) + |Fragment(documents[|documents| - 1])|
    decreases |documents|
  {
    if |documents| >= 2 {
      FragmentsLengthSplit(documents[1..]);
      assert documents[..|documents| - 1][1..] == documents[1..][..|documents| - 2];
    } else {
      assert documents[..0] == [];
    }
  }

  /** A dictionary subscript: KeyError when the key is missing. */
  function Lookup(prompts: map<string, Prompt>, key: string): (r: Result<Prompt>)
    ensures key in prompts <==> r.Ok?
    ensures r.Ok? ==> r.value == prompts[key]
    ensures r.Err? ==> r.error == KeyError(key)
  {
    if key in prompts then Ok(prompts[key]) else Err(KeyError(key))
  }

  /** The prompt `__call__` uses, as written: the given one, or `prompts["question_answer"]`. */
  function PromptFor(prompt: Option<Prompt>): (r: Result<Prompt>)
    ensures r.Ok? <==> prompt.Some?
    ensures r.Ok? ==> r.value == prompt.value
  {
    match prompt
    case Some(p) => Ok(p)
    case None => Lookup(Prompts, DefaultPromptKey)
  }

  /** Without a prompt the as-written lookup always fails: the default key is not a template name. */
  lemma DefaultPromptFails()
    ensures DefaultPromptKey !in Prompts
    ensures PromptFor(None) == Err(KeyError("question_answer"))
  {
  }

  /** The prompt the comment at the default promises: question answering. */
  function IntendedPromptFor(prompt: Option<Prompt>): (r: Result<Prompt>)
    ensures r.Ok?
    ensures r.value == if prompt.Some? then prompt.value else Prompts["question"]
  {
    match prompt
    case Some(p) => Ok(p)
    case None => Lookup(Prompts, "question")
  }

  /** The corrected default is the question template, and both agree whenever a prompt is given. */
  lemma IntendedDefaultIsQuestion(p: Prompt)
    ensures IntendedPromptFor(None) == Ok(Prompt("prompts/question.yaml"))
    ensures IntendedPromptFor(Some(p)) == PromptFor(Some(p)) == Ok(p)
  {
  }

  /** The chain `__call__` builds, invoked on `question`: the retriever fetches
      the documents, the prompt is filled with the question and the formatted
      context, and the model's text is the answer. An exception anywhere is the result.
      The retriever and the model are remote services, so the same inputs need not
      give the same outcome twice: `call` numbers the invocations of a chain while
      one message is handled, and both services see it. A missing prompt resolves
      to the corrected default, the question template (`IntendedPromptFor`);
      the code as written raises KeyError there (`DefaultPromptFails`). */
  function Call(prompt: Option<Prompt>, retriever: Retriever, question: string, call: nat,
                retrieve: (nat, Retriever, string) -> Result<seq<Document>>,
                generate: (nat, Prompt, string, string) -> Result<string>): (r: Result<ChainOutput>)
    ensures retrieve(call, retriever, question).Err? ==> r == Err(retrieve(call, retriever, question).error)
    ensures r.Ok? ==> r.value.documents == retrieve(call, retriever, question).value
    ensures r.Ok? ==> generate(call, IntendedPromptFor(prompt).value, question, FormatSnippets(r.value.documents))
                      == Ok(r.value.answer)
  {
    var template := IntendedPromptFor(prompt).value;
    var documents :- retrieve(call, retriever, question);
    var answer :- generate(call, template, question, FormatSnippets(documents));
    Ok(ChainOutput(answer, documents))
  }

  /** A successful answer was generated from exactly the retrieved documents,
      formatted as the context, and returns those documents. */
  lemma CallConditionsOnRetrieved(p: Prompt, retriever: Retriever, question: string, call: nat,
                                  retrieve: (nat, Retriever, string) -> Result<seq<Document>>,
                                  generate: (nat, Prompt, string, string) -> Result<string>)
    ensures var r := Call(Some(p), retriever, question, call, retrieve, generate);
      r.Ok? <==> retrieve(call, retriever, question).Ok? &&
                 generate(call, p, question, FormatSnippets(retrieve(call, retriever, question).value)).Ok?
    ensures var r := Call(Some(p), retriever, question, call, retrieve, generate);
      r.Ok? ==> r.value.documents == retrieve(call, retriever, question).value &&
                generate(call, p, question, FormatSnippets(r.value.documents)) == Ok(r.value.answer)
  {
  }
}
