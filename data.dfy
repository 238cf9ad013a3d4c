/**
 * Dataset preparation for fine-tuning KoGPT-2: every line of a corpus is
 * tokenized, looked up in the vocabulary, wrapped with the begin- and
 * end-of-sequence ids, and kept only when its length falls inside a fixed
 * window. The tokenizer and the vocabulary are parameters whose behaviour is
 * left uninterpreted.
 */
module KoGpt2Data {

  /** Shortest encoded line the dataset keeps (inclusive). */
  const MinLength: nat := 100
  /** Longest encoded line the dataset keeps (inclusive). */
  const MaxLength: nat := 1024

  /** Outcome of an indexed read: the item, or Python's IndexError. */
  datatype Result<T> = Ok(value: T) | IndexError

  /** A vocabulary maps a token to its id and designates the boundary tokens. */
  datatype Vocab = Vocab(id: string -> int, bosToken: string, eosToken: string)
  {
    /** The id of the begin-of-sequence token. */
    function Bos(): int { id(bosToken) }

    /** The id of the end-of-sequence token. */
    function Eos(): int { id(eosToken) }
  }

  /** A tokenizer splits a line of text into tokens. */
  type Tokenizer = string -> seq<string>

  // ---------------------------------------------------------------------
  // toString
  // ---------------------------------------------------------------------

  /** The strings of `parts` joined in order, built from the left. */
  function Concat(parts: seq<string>): string
  {
    if parts == [] then "" else Concat(parts[..|parts| - 1]) + parts[|parts| - 1]
  }

  /** The sum of the lengths of the strings in `parts`. */
  function TotalLength(parts: seq<string>): nat
  {
    if parts == [] then 0 else TotalLength(parts[..|parts| - 1]) + |parts[|parts| - 1]|
  }

  /** Concatenates a list of strings; the empty list gives the empty string. */
  method ToString(list: seq<string>) returns (result: string)
    ensures list == [] ==> result == ""
    ensures result == Concat(list)
  {
    if list == [] {
      return "";
    }
    result := "";
    var i := 0;
    while i < |list|
      invariant 0 <= i <= |list|
      invariant result == Concat(list[..i])
    {
      assert list[..i + 1][..i] == list[..i];
      result := result + list[i];
      i := i + 1;
    }
    assert list[..|list|] == list;
  }

  /** The joined string is exactly as long as all the parts together. */
  lemma {:induction false} ConcatLength(parts: seq<string>)
    ensures |Concat(parts)| == TotalLength(parts)
  {
    if parts != [] {
      ConcatLength(parts[..|parts| - 1]);
    }
  }

  /** Joining two lists one after the other is joining their concatenation. */
  lemma {:induction false} ConcatAppend(a: seq<string>, b: seq<string>)
    ensures Concat(a + b) == Concat(a) + Concat(b)
  {
    if b == [] {
      assert a + b == a;
    } else {
      var b' := b[..|b| - 1];
      assert (a + b)[..|a + b| - 1] == a + b';
      ConcatAppend(a, b');
    }
  }

  /** The i-th part sits in the joined string right after the parts before it. */
  lemma ConcatPart(parts: seq<string>, i: nat)
    requires i < |parts|
    ensures TotalLength(parts[..i]) + |parts[i]| == TotalLength(parts[..i + 1]) <= |Concat(parts)|
    ensures Concat(parts)[TotalLength(parts[..i])..TotalLength(parts[..i + 1])] == parts[i]
  {
    var front := parts[..i + 1];
    assert parts == front + parts[i + 1..];
    assert front[..i] == parts[..i];
    ConcatAppend(front, parts[i + 1..]);
    ConcatLength(parts[..i]);
    ConcatLength(front);
    assert Concat(front) == Concat(parts[..i]) + parts[i];
  }

  // ---------------------------------------------------------------------
  // Encoding a line
  // ---------------------------------------------------------------------

  /** The vocabulary lookup of a list of tokens: one id per token, in order. */
  function LookupAll(v: Vocab, tokens: seq<string>): (ids: seq<int>)
    ensures |ids| == |tokens|
    ensures forall k :: 0 <= k < |tokens| ==> ids[k] == v.id(tokens[k])
  {
    if tokens == [] then [] else [v.id(tokens[0])] + LookupAll(v, tokens[1..])
  }

  /** A tokenized line looked up in the vocabulary and wrapped with bos and eos. */
  function Encode(v: Vocab, tokenize: Tokenizer, line: string): seq<int>
  {
    [v.Bos()] + LookupAll(v, tokenize(line)) + [v.Eos()]
  }

  /** Whether an encoded line is long enough and short enough to keep. */
  predicate InWindow(item: seq<int>)
  {
    MinLength <= |item| <= MaxLength
  }

  /** An encoded line starts with bos, ends with eos, and has the looked-up tokens between. */
  lemma EncodeShape(v: Vocab, tokenize: Tokenizer, line: string)
    ensures var item := Encode(v, tokenize, line);
      |item| == |tokenize(line)| + 2 &&
      item[0] == v.Bos() && item[|item| - 1] == v.Eos() &&
      item[1..|item| - 1] == LookupAll(v, tokenize(line))
  {
  }

  // ---------------------------------------------------------------------
  // Filtering the corpus
  // ---------------------------------------------------------------------

  /** The encoded lines that fall in the window, in the order of their lines. */
  function Kept(v: Vocab, tokenize: Tokenizer, lines: seq<string>): seq<seq<int>>
  {
    if lines == [] then []
    else
      var item := Encode(v, tokenize, lines[|lines| - 1]);
      Kept(v, tokenize, lines[..|lines| - 1]) + (if InWindow(item) then [item] else [])
  }

  /** The positions of the lines that `Kept` keeps: valid and strictly increasing. */
  function KeptIndices(v: Vocab, tokenize: Tokenizer, lines: seq<string>): (ks: seq<nat>)
    ensures forall j :: 0 <= j < |ks| ==> ks[j] < |lines|
    ensures forall j, k :: 0 <= j < k < |ks| ==> ks[j] < ks[k]
  {
    if lines == [] then []
    else
      var last := |lines| - 1;
      KeptIndices(v, tokenize, lines[..last])
        + (if InWindow(Encode(v, tokenize, lines[last])) then [last] else [])
  }

  /**
   * The j-th kept item is the encoding of the line at the j-th kept position;
   * since those positions increase, the items keep the relative order of
   * their lines.
   */
  lemma {:induction false} KeptIndicesSound(v: Vocab, tokenize: Tokenizer, lines: seq<string>)
    ensures |Kept(v, tokenize, lines)| == |KeptIndices(v, tokenize, lines)|
    ensures forall j :: 0 <= j < |KeptIndices(v, tokenize, lines)| ==>
      Kept(v, tokenize, lines)[j] == Encode(v, tokenize, lines[KeptIndices(v, tokenize, lines)[j]])
  {
    if lines != [] {
      var front := lines[..|lines| - 1];
      KeptIndicesSound(v, tokenize, front);
      assert forall i :: 0 <= i < |front| ==> front[i] == lines[i];
    }
  }

  /** A line is kept if and only if its encoding falls in the window. */
  lemma {:induction false} KeptExactly(v: Vocab, tokenize: Tokenizer, lines: seq<string>)
    ensures forall i :: 0 <= i < |lines| ==>
      (i in KeptIndices(v, tokenize, lines) <==> InWindow(Encode(v, tokenize, lines[i])))
  {
    if lines != [] {
      var front := lines[..|lines| - 1];
      KeptExactly(v, tokenize, front);
      KeptIndicesSound(v, tokenize, front);
      assert forall i :: 0 <= i < |front| ==> front[i] == lines[i];
    }
  }

  /** Filtering never yields more items than there are lines. */
  lemma {:induction false} KeptAtMostLines(v: Vocab, tokenize: Tokenizer, lines: seq<string>)
    ensures |Kept(v, tokenize, lines)| <= |lines|
  {
    if lines != [] {
      KeptAtMostLines(v, tokenize, lines[..|lines| - 1]);
    }
  }

  /**
   * Filtering two chunks of lines one after the other is filtering them
   * together: a corpus may be split into chunks, each filtered on its own,
   * and the results concatenated without changing the dataset.
   */
  lemma {:induction false} KeptAppend(v: Vocab, tokenize: Tokenizer, a: seq<string>, b: seq<string>)
    ensures Kept(v, tokenize, a + b) == Kept(v, tokenize, a) + Kept(v, tokenize, b)
  {
    if b == [] {
      assert a + b == a;
    } else {
      var b' := b[..|b| - 1];
      assert (a + b)[..|a + b| - 1] == a + b';
      KeptAppend(v, tokenize, a, b');
    }
  }

  /**
   * Every kept item lies in the window, starts with bos, ends with eos and
   * holds the lookup of its line's tokens in between.
   */
  lemma KeptWellFormed(v: Vocab, tokenize: Tokenizer, lines: seq<string>, j: nat)
    requires j < |Kept(v, tokenize, lines)|
    ensures j < |KeptIndices(v, tokenize, lines)|
    ensures var item := Kept(v, tokenize, lines)[j];
      InWindow(item) && item[0] == v.Bos() && item[|item| - 1] == v.Eos() &&
      item[1..|item| - 1] == LookupAll(v, tokenize(lines[KeptIndices(v, tokenize, lines)[j]]))
  {
    KeptIndicesSound(v, tokenize, lines);
    var i := KeptIndices(v, tokenize, lines)[j];
    KeptExactly(v, tokenize, lines);
    EncodeShape(v, tokenize, lines[i]);
  }

  // ---------------------------------------------------------------------
  // The dataset
  // ---------------------------------------------------------------------

  /** The fine-tuning dataset: the encoded lines of a corpus that fit the window. */
  class ReadDataset {
    /** The kept encoded lines, in corpus order. */
    var data: seq<seq<int>>
    const vocab: Vocab
    const tokenizer: Tokenizer
    /** The corpus lines the dataset was built from. */
    ghost const lines: seq<string>

    ghost predicate Valid()
      reads this
    {
      data == Kept(vocab, tokenizer, lines)
    }

    /** Encodes every line and appends those whose length is in the window. */
    constructor (lines: seq<string>, vocab: Vocab, tokenizer: Tokenizer)
      ensures this.lines == lines && this.vocab == vocab && this.tokenizer == tokenizer
      ensures Valid()
    {
      this.vocab := vocab;
      this.tokenizer := tokenizer;
      this.lines := lines;
      data := [];
      new;
      for i := 0 to |lines|
        invariant data == Kept(vocab, tokenizer, lines[..i])
      {
        assert lines[..i + 1][..i] == lines[..i];
        var item := [vocab.Bos()] + LookupAll(vocab, tokenizer(lines[i])) + [vocab.Eos()];
        if |item| > MaxLength {
          continue;
        } else if |item| < MinLength {
          continue;
        }
        data := data + [item];
      }
      assert lines[..|lines|] == lines;
    }

    /** The number of kept lines, never more than the number of corpus lines. */
    method Len() returns (n: nat)
      requires Valid()
      ensures n == |data|
      ensures n == |KeptIndices(vocab, tokenizer, lines)| && n <= |lines|
    {
      KeptIndicesSound(vocab, tokenizer, lines);
      KeptAtMostLines(vocab, tokenizer, lines);
      n := |data|;
    }

    /**
     * The item at `index`, counting from the end when `index` is negative;
     * an index outside the list is an IndexError.
     */
    method GetItem(index: int) returns (r: Result<seq<int>>)
      requires Valid()
      ensures 0 <= index < |data| ==> r == Ok(data[index])
      ensures -|data| <= index < 0 ==> r == Ok(data[|data| + index])
      ensures r == IndexError <==> !(-|data| <= index < |data|)
      ensures r.Ok? ==>
        InWindow(r.value) && r.value[0] == vocab.Bos() && r.value[|r.value| - 1] == vocab.Eos()
    {
      if 0 <= index < |data| {
        r := Ok(data[index]);
        KeptWellFormed(vocab, tokenizer, lines, index);
      } else if -|data| <= index < 0 {
        r := Ok(data[|data| + index]);
        KeptWellFormed(vocab, tokenizer, lines, |data| + index);
      } else {
        r := IndexError;
      }
    }
  }
}
