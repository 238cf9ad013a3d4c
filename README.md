# KoGPT-2 fine-tuning dataset, modelled in Dafny

This project models the dataset preparation of the KoGPT-2 generation
scripts (`generation/KoGPT-2/kogpt2/data.py`): the `toString` helper and the
`Read_Dataset` class.

`Read_Dataset` reads a corpus line by line. Each line is tokenized, and the
tokens are looked up in the vocabulary. The ids are wrapped with the
begin-of-sequence id (`<s>`) and the end-of-sequence id (`</s>`). The wrapped
sequence is appended to the dataset's `data` list only when its length lies
between 100 and 1024, both ends included. `__len__` and `__getitem__` read
that list back.

Everything is in `data.dfy`, module `KoGpt2Data`:

- `Vocab` is a vocabulary: a total function from token to id, plus the bos and
  eos tokens. `Tokenizer` is a function from a line to its tokens. Both are
  parameters whose behaviour is left uninterpreted.
- `ToString` is the `toString` loop. It is specified by `Concat`, which joins
  the strings from the left. `TotalLength` is the sum of the parts' lengths.
- `LookupAll` is the vocabulary lookup of a token list. `Encode` wraps it
  with bos and eos. `InWindow` is the length rule.
- `Kept` is the specification of the filter: the encoded lines in the window,
  in line order. `KeptIndices` gives the positions of the kept lines.
- `ReadDataset` is the class. Its constructor runs the append loop and
  establishes `data == Kept(vocab, tokenizer, lines)`. `Len` and `GetItem`
  are read-only accessors: they have no `modifies` clause, so reading never
  changes `data`.

The length window follows the code: lines of length 100 and of length 1024
are both kept (`> 1024` and `< 100` are the skip conditions).

## Model

| member | source | states |
|---|---|---|
| KoGpt2Data.ToString | generation/KoGPT-2/kogpt2/data.py:31-38 | the result is the list's strings joined in list order; an empty list gives the empty string |
| KoGpt2Data.ConcatLength | generation/KoGPT-2/kogpt2/data.py:34-38 | the joined string's length is the sum of the element lengths |
| KoGpt2Data.ConcatAppend | generation/KoGPT-2/kogpt2/data.py:36-37 | joining `a + b` is joining `a` followed by joining `b`, so the accumulation is order-preserving |
| KoGpt2Data.ConcatPart | generation/KoGPT-2/kogpt2/data.py:36-38 | the i-th element occupies exactly the slice that starts after the lengths of the elements before it |
| KoGpt2Data.LookupAll | generation/KoGPT-2/kogpt2/data.py:57 | the lookup of a token list has one id per token, in order, and keeps the length |
| KoGpt2Data.EncodeShape | generation/KoGPT-2/kogpt2/data.py:56-57 | a wrapped line has the token count + 2 ids, starts with the bos id, ends with the eos id, and holds the looked-up tokens in between |
| KoGpt2Data.KeptIndices | generation/KoGPT-2/kogpt2/data.py:55-64 | the positions of kept lines are valid line positions and strictly increasing |
| KoGpt2Data.KeptIndicesSound | generation/KoGPT-2/kogpt2/data.py:55-64 | the j-th kept item is the wrapped encoding of the line at the j-th kept position, so kept items keep their lines' relative order |
| KoGpt2Data.KeptExactly | generation/KoGPT-2/kogpt2/data.py:59-64 | a line is kept if and only if its wrapped length is in [100, 1024]; nothing else is dropped |
| KoGpt2Data.KeptAtMostLines | generation/KoGPT-2/kogpt2/data.py:55-64 | the dataset never has more items than the corpus has lines |
| KoGpt2Data.KeptAppend | generation/KoGPT-2/kogpt2/data.py:55-64 | filtering a corpus split in two chunks gives the first chunk's items followed by the second's |
| KoGpt2Data.KeptWellFormed | generation/KoGPT-2/kogpt2/data.py:57-64 | every stored item has length in [100, 1024], begins with bos, ends with eos, and holds its line's token ids in between |
| KoGpt2Data.ReadDataset.constructor | generation/KoGPT-2/kogpt2/data.py:44-64 | after the wrap/filter/append loop, `data` is exactly the filtered encodings of the lines, in order |
| KoGpt2Data.ReadDataset.Len | generation/KoGPT-2/kogpt2/data.py:68-69 | the length is the number of kept lines and never exceeds the number of input lines |
| KoGpt2Data.ReadDataset.GetItem | generation/KoGPT-2/kogpt2/data.py:71-73 | index i in [0, len) returns the i-th stored item unchanged; a negative index counts from the end; any other index is an IndexError; a returned item is in the window and bos/eos-wrapped |

## Left out

- `sentencePieceTokenizer` and `koGPT2Vocab` (data.py:9-28): they download a vocabulary file and wrap SentencePiece and gluonnlp, so they are foreign calls and network I/O. The tokenizer and the vocabulary are uninterpreted parameters instead.
- Vocabulary lookup misses: a `Vocab` is a total function, so an unknown token simply has some id. The real vocabulary maps it to `<unk>`; which id that is stays uninterpreted.
- `pd.read_csv` and the `script` column extraction (data.py:50-52): file I/O. The model takes the corpus as a sequence of lines. The `file_path` field is not kept.
- The `print` and `np.shape` diagnostics (data.py:54, 66): output only.
- ReadDataset.GetItem: returns the stored item as a value, while Python's `__getitem__` returns the stored list object itself, by reference. `self.data` is also a public, mutable attribute. The well-formedness that `Valid` and `GetItem` promise (window, bos and eos) therefore holds in Python only while no caller mutates `data` or an item it was handed. The model does not capture that aliasing.
- `__getitem__` with a non-integer index (a slice, or a value that raises `TypeError`): the model takes an integer index only.
- No encode-then-decode round trip: nothing in this code decodes.
- `classification/binary_self_trained.py` and `classification/binary_project/binary_self_trained.py`: training scripts built on torchtext and torch (fields, datasets, vocabulary building, batching, the model, the optimizer, the loss, checkpoints). None of it is this repository's own logic, and the second file is mostly commented-out code.
