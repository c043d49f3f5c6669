/** Values shared by the bot, the answer chain and the document loader:
    exceptions as results, retrieved documents, vector stores and retrievers,
    file-system paths, and Python's decimal rendering of integers. */
module Common {

  datatype Option<+T> = None | Some(value: T)

  /** The exceptions the modelled code raises or lets through. */
  datatype Exception =
    | NotImplementedError(message: string)
    | KeyError(key: string)
    | ServiceError   // anything raised inside a foreign library or service

  datatype Result<+T> = Ok(value: T) | Err(error: Exception) {
    predicate IsFailure() { Err? }
    function PropagateFailure<U>(): Result<U>
      requires Err?
    {
      Err(error)
    }
    function Extract(): T
      requires Ok?
    {
      value
    }
  }

  /** A text fragment as the loaders and retrievers hand it around (`page_content`). */
  datatype Document = Document(pageContent: string)

  /** An index built from the chunks of one uploaded file. */
  datatype VectorStore = VectorStore(chunks: seq<Document>)

  /** `vector_store.as_retriever(search_kwargs={"k": k})`. */
  datatype Retriever = Retriever(store: VectorStore, k: nat)

  function AsRetriever(store: VectorStore, k: nat): (r: Retriever)
    ensures r.store == store && r.k == k
  {
    Retriever(store, k)
  }

  /** A `pathlib.Path`, as its list of components. */
  datatype Path = Path(parts: seq<string>) {
    /** The `/` operator of `pathlib`: one more component at the end. */
    function Join(name: string): (p: Path)
      ensures |p.parts| == |parts| + 1
      ensures p.parts[..|parts|] == parts && p.parts[|parts|] == name
    {
      Path(parts + [name])
    }
  }

  /** `str.startswith`. */
  predicate StartsWith(s: string, prefix: string) {
    |prefix| <= |s| && s[..|prefix|] == prefix
  }

  /** `str.endswith`. */
  predicate EndsWith(s: string, suffix: string) {
    |suffix| <= |s| && s[|s| - |suffix|..] == suffix
  }

  function DigitChar(d: nat): (c: char)
    requires d < 10
    ensures '0' <= c <= '9'
  {
    "0123456789"[d]
  }

  function DigitValue(c: char): nat {
    if '0' <= c <= '9' then (c as int) - ('0' as int) else 0
  }

  /** The decimal digits of a natural number, most significant first. */
  function NatToStr(n: nat): (s: string)
    decreases n
  {
    if n < 10 then [DigitChar(n)] else NatToStr(n / 10) + [DigitChar(n % 10)]
  }

  /** Python's `str(i)` for an int: a minus sign before the digits of a negative number. */
  function IntToStr(i: int): (s: string)
    ensures |s| > 0
    ensures s[0] == '-' <==> i < 0
  {
    if i < 0 then "-" + NatToStr(-i) else NatToStrStartsWithDigit(i); NatToStr(i)
  }

  /** Reads decimal digits back, least significant last; the inverse of NatToStr. */
  function ParseNat(s: string): nat
    decreases |s|
  {
    if s == [] then 0 else 10 * ParseNat(s[..|s| - 1]) + DigitValue(s[|s| - 1])
  }

  /** Python's `int(s)` restricted to what IntToStr produces. */
  function ParseInt(s: string): int {
    if |s| > 0 && s[0] == '-' then -(ParseNat(s[1..]) as int) else ParseNat(s)
  }

  lemma {:induction false} DigitValueOfDigitChar(d: nat)
    requires d < 10
    ensures DigitValue(DigitChar(d)) == d
  {
  }

  /** A rendering starts with a digit, never with a minus sign. */
  lemma {:induction false} NatToStrStartsWithDigit(n: nat)
    ensures |NatToStr(n)| > 0 && '0' <= NatToStr(n)[0] <= '9'
    decreases n
  {
    if n >= 10 {
      NatToStrStartsWithDigit(n / 10);
      assert NatToStr(n)[0] == NatToStr(n / 10)[0];
    }
  }

  lemma {:induction false} NatRoundTrip(n: nat)
    ensures ParseNat(NatToStr(n)) == n
    decreases n
  {
    var s := NatToStr(n);
    if n < 10 {
      assert s[..|s| - 1] == [];
      DigitValueOfDigitChar(n);
    } else {
      assert s[..|s| - 1] == NatToStr(n / 10);
      NatRoundTrip(n / 10);
      DigitValueOfDigitChar(n % 10);
    }
  }

  /** `str` loses nothing: the number can be read back from its rendering. */
  lemma {:induction false} IntRoundTrip(i: int)
    ensures ParseInt(IntToStr(i)) == i
  {
    var s := IntToStr(i);
    if i < 0 {
      var digits := NatToStr(-i);
      assert s == "-" + digits;
      assert s[0] == '-' && s[1..] == digits;
      NatRoundTrip(-i);
    } else {
      assert s == NatToStr(i);
      NatToStrStartsWithDigit(i);
      NatRoundTrip(i);
    }
  }

  lemma IntToStrInjective(i: int, j: int)
    ensures IntToStr(i) == IntToStr(j) <==> i == j
  {
    IntRoundTrip(i);
    IntRoundTrip(j);
  }
}
