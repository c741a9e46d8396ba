/**
 * The pretrained word-vector loader.
 *
 * `load_embeddings` derives a cache path from the embedding file's base name
 * and a caller-chosen fragment.  On a cache hit it returns the stored
 * (table, dimension) pair untouched.  On a miss it reads the dimension off the
 * first line, allocates a |word map| x dimension table, fills it with random
 * values, and then walks every line of the file: the line's word is its first
 * ' '-separated field, its vector the remaining non-blank fields converted to
 * numbers, and when the word is in the word map the row `word_map[word]` is
 * overwritten with that vector.  The finished pair is stored at the cache path
 * and returned.
 *
 * Numbers are the abstract element type `E`; Python's `float(str)` is the
 * parameter `parse` (None for a ValueError), and the random initial values are
 * the parameter `noise`.  The file system is a map from path to lines for
 * the text files and a map from path to stored pair for the cache.
 */
module Embedding {
  import opened Wrappers
  import opened Strings

  /** Why a single line of the file aborts the load. */
  datatype LineFault =
    | BadNumber      // float() raised on one of the line's fields
    | RowOutOfRange  // word_map[word] is not a valid row index of the table
    | ShapeMismatch  // the vector does not fit (or broadcast to) a row

  /** The exceptions `load_embeddings` can raise. */
  datatype LoadError =
    | FileNotFound(path: string)
    | ZeroDimension                       // 3.0 / 0 in the initialisation
    | BadLine(line: nat, fault: LineFault)

  /** A table of `rows` rows, each `dim` wide. */
  type Table<E> = seq<seq<E>>

  /** A stored cache artifact: the table and its dimension. */
  type Entry<E> = (Table<E>, nat)

  /** `t` has `rows` rows of `dim` elements. */
  predicate Shaped<E>(t: Table<E>, rows: nat, dim: nat)
  {
    |t| == rows && forall i :: 0 <= i < |t| ==> |t[i]| == dim
  }

  // ---------------------------------------------------------------------
  // Reading one line
  // ---------------------------------------------------------------------

  /** What `readline()` returns on the file: its first line, or "" when it is empty. */
  function FirstLine(lines: seq<string>): string
  {
    if lines == [] then "" else lines[0]
  }

  /**
   * `len(first_line.split(' ')) - 1`: the dimension is the number of spaces
   * on the first line.
   */
  function EmbedDim(lines: seq<string>): (dim: nat)
    ensures dim == Count(FirstLine(lines), ' ')
  {
    |Split(FirstLine(lines), ' ')| - 1
  }

  /** The filter on a field: non-empty and not whitespace only. */
  predicate Kept(field: string)
  {
    |field| > 0 && !IsSpaceString(field)
  }

  /** The fields that pass the filter, in their original order. */
  function KeepFields(fields: seq<string>): (kept: seq<string>)
    ensures |kept| <= |fields|
    ensures forall f :: f in kept <==> f in fields && Kept(f)
  {
    if fields == [] then []
    else (if Kept(fields[0]) then [fields[0]] else []) + KeepFields(fields[1..])
  }

  /** Filtering keeps the relative order: it distributes over concatenation. */
  lemma {:induction false} KeepFieldsAppend(a: seq<string>, b: seq<string>)
    ensures KeepFields(a + b) == KeepFields(a) + KeepFields(b)
  {
    if a != [] {
      var head := if Kept(a[0]) then [a[0]] else [];
      assert (a + b)[0] == a[0] && (a + b)[1..] == a[1..] + b;
      assert KeepFields(a + b) == head + KeepFields(a[1..] + b);
      KeepFieldsAppend(a[1..], b);
      assert KeepFields(a) == head + KeepFields(a[1..]);
    } else {
      assert a + b == b;
    }
  }

  /** A line split into its word and the fields of its vector. */
  datatype Token = Token(word: string, fields: seq<string>)

  /**
   * The word is everything before the first space (the whole line when there
   * is none); the fields are the later ' '-separated pieces that pass the
   * filter.
   */
  function Tokenise(line: string): (t: Token)
    ensures ' ' !in t.word
    ensures |t.word| <= |line| && line[..|t.word|] == t.word
    ensures |t.word| < |line| ==> line[|t.word|] == ' '
    ensures t.fields == KeepFields(Split(line, ' ')[1..])
    ensures forall i :: 0 <= i < |t.fields| ==> Kept(t.fields[i]) && ' ' !in t.fields[i]
  {
    var parts := Split(line, ' ');
    Token(parts[0], KeepFields(parts[1..]))
  }

  /** `list(map(float, fields))`: every field converted, or None at the first failure. */
  function ParseAll<E>(fields: seq<string>, parse: string -> Option<E>): (r: Option<seq<E>>)
    ensures r.Some? <==> forall i :: 0 <= i < |fields| ==> parse(fields[i]).Some?
    ensures r.Some? ==> |r.value| == |fields|
    ensures r.Some? ==> forall i :: 0 <= i < |fields| ==> r.value[i] == parse(fields[i]).value
  {
    if fields == [] then Some([])
    else match (parse(fields[0]), ParseAll(fields[1..], parse))
      case (Some(x), Some(xs)) => Some([x] + xs)
      case _ => None
  }

  /** The vector a line carries, converted; None when a field does not convert. */
  function LineVector<E>(line: string, parse: string -> Option<E>): (v: Option<seq<E>>)
    ensures var fields := Tokenise(line).fields;
            v.Some? <==> forall i :: 0 <= i < |fields| ==> parse(fields[i]).Some?
    ensures var fields := Tokenise(line).fields;
            v.Some? ==>
              && |v.value| == |fields|
              && forall i :: 0 <= i < |fields| ==> v.value[i] == parse(fields[i]).value
  {
    ParseAll(Tokenise(line).fields, parse)
  }

  // ---------------------------------------------------------------------
  // Writing one row
  // ---------------------------------------------------------------------

  /**
   * Indexing the first axis of a table of `rows` rows: a negative index counts
   * from the end, anything outside [-rows, rows) is an IndexError.
   */
  function RowIndex(index: int, rows: nat): (r: Option<nat>)
    ensures r.Some? <==> -(rows as int) <= index < rows
    ensures r.Some? ==> r.value < rows && r.value == index % rows
  {
    if 0 <= index < rows then Some(index)
    else if -(rows as int) <= index < 0 then Some(index + rows)
    else None
  }

  /**
   * Assigning a vector to a row of width `dim`: a vector of that width is
   * copied, a one-element vector is broadcast over the row, and any other
   * length is a shape error.
   */
  function Broadcast<E>(v: seq<E>, dim: nat): (r: Option<seq<E>>)
    ensures r.Some? <==> |v| == dim || |v| == 1
    ensures r.Some? ==> |r.value| == dim
    ensures |v| == dim ==> r == Some(v)
    ensures |v| == 1 && r.Some? ==> forall j :: 0 <= j < dim ==> r.value[j] == v[0]
  {
    if |v| == dim then Some(v)
    else if |v| == 1 then Some(seq(dim, _ => v[0]))
    else None
  }

  /** The line's word is in the word map and its index selects row `r`. */
  predicate WritesRow(line: string, wordMap: map<string, int>, rows: nat, r: nat)
  {
    var w := Tokenise(line).word;
    w in wordMap && RowIndex(wordMap[w], rows) == Some(r)
  }

  /**
   * A line the loop takes without raising: every field converts, and when its
   * word is in the word map the word's index selects a row of `rows` and the
   * vector fits a row of width `dim`.
   */
  predicate LineFits<E>(line: string, wordMap: map<string, int>, rows: nat, dim: nat,
                        parse: string -> Option<E>)
  {
    var w := Tokenise(line).word;
    && LineVector(line, parse).Some?
    && (w in wordMap ==>
          RowIndex(wordMap[w], rows).Some? && Broadcast(LineVector(line, parse).value, dim).Some?)
  }

  /**
   * One iteration of the loop over the file.  The vector is converted before
   * the vocabulary check, so a bad field aborts even on a line whose word is
   * not in the word map; a line whose word is not in the word map changes
   * nothing; otherwise exactly one row is replaced by the line's vector.
   */
  function ApplyLine<E>(table: Table<E>, line: string, lineNo: nat, wordMap: map<string, int>,
                        dim: nat, parse: string -> Option<E>): (res: Result<Table<E>, LoadError>)
    ensures LineVector(line, parse).None? ==> res == Failure(BadLine(lineNo, BadNumber))
    ensures Tokenise(line).word !in wordMap && LineVector(line, parse).Some? ==> res == Success(table)
    ensures Tokenise(line).word in wordMap && LineVector(line, parse).Some? &&
            RowIndex(wordMap[Tokenise(line).word], |table|).None? ==>
              res == Failure(BadLine(lineNo, RowOutOfRange))
    ensures Tokenise(line).word in wordMap && LineVector(line, parse).Some? &&
            RowIndex(wordMap[Tokenise(line).word], |table|).Some? &&
            Broadcast(LineVector(line, parse).value, dim).None? ==>
              res == Failure(BadLine(lineNo, ShapeMismatch))
    ensures res.Success? <==> LineFits(line, wordMap, |table|, dim, parse)
    ensures res.Failure? ==> res.error.BadLine? && res.error.line == lineNo
    ensures res.Success? ==> |res.value| == |table|
    ensures res.Success? ==> forall q :: 0 <= q < |table| && !WritesRow(line, wordMap, |table|, q) ==>
              res.value[q] == table[q]
    ensures res.Success? ==> forall q :: 0 <= q < |table| && WritesRow(line, wordMap, |table|, q) ==>
              LineVector(line, parse).Some? && Broadcast(LineVector(line, parse).value, dim) == Some(res.value[q])
  {
    var word := Tokenise(line).word;
    match LineVector(line, parse)
    case None => Failure(BadLine(lineNo, BadNumber))
    case Some(vec) =>
      if word !in wordMap then Success(table)
      else match RowIndex(wordMap[word], |table|)
        case None => Failure(BadLine(lineNo, RowOutOfRange))
        case Some(r) =>
          match Broadcast(vec, dim)
          case None => Failure(BadLine(lineNo, ShapeMismatch))
          case Some(row) => Success(table[r := row])
  }

  // ---------------------------------------------------------------------
  // The whole fill, as a function of the lines
  // ---------------------------------------------------------------------

  /** The loop over all lines: each line in turn, stopping at the first error. */
  function Fill<E>(table: Table<E>, lines: seq<string>, wordMap: map<string, int>,
                   dim: nat, parse: string -> Option<E>): (res: Result<Table<E>, LoadError>)
    ensures res.Success? ==> |res.value| == |table|
    ensures res.Success? && Shaped(table, |table|, dim) ==> Shaped(res.value, |table|, dim)
    ensures res.Failure? ==> res.error.BadLine? && res.error.line < |lines|
    decreases |lines|
  {
    if lines == [] then Success(table)
    else
      match Fill(table, lines[..|lines| - 1], wordMap, dim, parse)
      case Failure(e) => Failure(e)
      case Success(t) => ApplyLine(t, lines[|lines| - 1], |lines| - 1, wordMap, dim, parse)
  }

  /** The random initial table, `noise(i, j)` in cell (i, j). */
  function InitialTable<E>(rows: nat, dim: nat, noise: (nat, nat) -> E): (t: Table<E>)
    ensures Shaped(t, rows, dim)
  {
    seq(rows, i requires 0 <= i => seq(dim, j requires 0 <= j => noise(i, j)))
  }

  /**
   * The cache-miss branch of `load_embeddings` on the text file's lines:
   * a zero dimension fails in the initialisation; otherwise the filled table
   * and its dimension.
   */
  function LoadFromText<E>(lines: seq<string>, wordMap: map<string, int>,
                           noise: (nat, nat) -> E, parse: string -> Option<E>)
    : (res: Result<Entry<E>, LoadError>)
    ensures EmbedDim(lines) == 0 ==> res == Failure(ZeroDimension)
    ensures res.Failure? ==> res.error.ZeroDimension? || (res.error.BadLine? && res.error.line < |lines|)
    ensures res.Success? ==>
              && res.value.1 == EmbedDim(lines) > 0
              && Shaped(res.value.0, |wordMap.Keys|, res.value.1)
  {
    var dim := EmbedDim(lines);
    if dim == 0 then Failure(ZeroDimension)
    else
      match Fill(InitialTable(|wordMap.Keys|, dim, noise), lines, wordMap, dim, parse)
      case Failure(e) => Failure(e)
      case Success(t) => Success((t, dim))
  }

  /** The fill of one more line succeeds iff the fill before it does and the line fits. */
  lemma FillStepSucceeds<E>(table: Table<E>, lines: seq<string>, wordMap: map<string, int>,
                            dim: nat, parse: string -> Option<E>)
    requires lines != []
    ensures Fill(table, lines, wordMap, dim, parse).Success? <==>
            && Fill(table, lines[..|lines| - 1], wordMap, dim, parse).Success?
            && LineFits(lines[|lines| - 1], wordMap, |table|, dim, parse)
  {
    var n := |lines| - 1;
    var before := Fill(table, lines[..n], wordMap, dim, parse);
    if before.Success? {
      assert Fill(table, lines, wordMap, dim, parse)
          == ApplyLine(before.value, lines[n], n, wordMap, dim, parse);
    }
  }

  /** `fits` holds of every line, stated from the end as the fill consumes the lines. */
  ghost predicate AllHold(lines: seq<string>, fits: string -> bool)
    decreases |lines|
  {
    lines == [] || (AllHold(lines[..|lines| - 1], fits) && fits(lines[|lines| - 1]))
  }

  /** `AllHold` says that `fits` holds of each line. */
  lemma {:induction false} AllHoldEach(lines: seq<string>, fits: string -> bool)
    ensures AllHold(lines, fits) <==> forall k :: 0 <= k < |lines| ==> fits(lines[k])
    decreases |lines|
  {
    if lines != [] {
      var n := |lines| - 1;
      var prefix := lines[..n];
      AllHoldEach(prefix, fits);
      assert forall k :: 0 <= k < n ==> prefix[k] == lines[k];
    }
  }

  /** The fill succeeds exactly when every line fits, one induction step per line. */
  lemma {:induction false} FillSucceedsStepwise<E>(table: Table<E>, lines: seq<string>,
                                                  wordMap: map<string, int>, dim: nat,
                                                  parse: string -> Option<E>)
    ensures Fill(table, lines, wordMap, dim, parse).Success? <==>
            AllHold(lines, l => LineFits(l, wordMap, |table|, dim, parse))
    decreases |lines|
  {
    if lines != [] {
      FillSucceedsStepwise(table, lines[..|lines| - 1], wordMap, dim, parse);
      FillStepSucceeds(table, lines, wordMap, dim, parse);
    }
  }

  /**
   * The fill succeeds exactly when every line fits: its fields convert and,
   * for a word of the word map, its index and its vector fit the table.
   */
  lemma FillSucceeds<E>(table: Table<E>, lines: seq<string>, wordMap: map<string, int>,
                        dim: nat, parse: string -> Option<E>)
    ensures Fill(table, lines, wordMap, dim, parse).Success? <==>
            forall k :: 0 <= k < |lines| ==> LineFits(lines[k], wordMap, |table|, dim, parse)
  {
    FillSucceedsStepwise(table, lines, wordMap, dim, parse);
    AllHoldEach(lines, l => LineFits(l, wordMap, |table|, dim, parse));
  }

  /**
   * A load from text succeeds exactly when the first line has a space and
   * every line fits the |word map| x dimension table.
   */
  lemma LoadSucceeds<E>(lines: seq<string>, wordMap: map<string, int>,
                        noise: (nat, nat) -> E, parse: string -> Option<E>)
    ensures LoadFromText(lines, wordMap, noise, parse).Success? <==>
            && EmbedDim(lines) > 0
            && forall k :: 0 <= k < |lines| ==>
                 LineFits(lines[k], wordMap, |wordMap.Keys|, EmbedDim(lines), parse)
  {
    var dim := EmbedDim(lines);
    if dim > 0 {
      FillSucceeds(InitialTable(|wordMap.Keys|, dim, noise), lines, wordMap, dim, parse);
    }
  }

  /** The last line that writes row `r`, or -1 when no line does. */
  function LastWriter(lines: seq<string>, wordMap: map<string, int>, rows: nat, r: nat): (k: int)
    ensures -1 <= k < |lines|
    ensures k >= 0 ==> WritesRow(lines[k], wordMap, rows, r)
    ensures forall j :: k < j < |lines| ==> !WritesRow(lines[j], wordMap, rows, r)
    decreases |lines|
  {
    if lines == [] then -1
    else if WritesRow(lines[|lines| - 1], wordMap, rows, r) then |lines| - 1
    else LastWriter(lines[..|lines| - 1], wordMap, rows, r)
  }

  /** Once a prefix of the lines fails, the whole fill fails with the same error. */
  lemma {:induction false} FillFailurePersists<E>(table: Table<E>, lines: seq<string>, m: nat,
                                                  wordMap: map<string, int>, dim: nat,
                                                  parse: string -> Option<E>)
    requires m <= |lines|
    requires Fill(table, lines[..m], wordMap, dim, parse).Failure?
    ensures Fill(table, lines, wordMap, dim, parse) == Fill(table, lines[..m], wordMap, dim, parse)
    decreases |lines| - m
  {
    if m < |lines| {
      var prefix := lines[..|lines| - 1];
      assert prefix[..m] == lines[..m];
      FillFailurePersists(table, prefix, m, wordMap, dim, parse);
    } else {
      assert lines[..m] == lines;
    }
  }

  /**
   * Every row of a successful fill is either untouched (no line writes it) or
   * holds the vector of the LAST line that writes it, broadcast to the row.
   */
  lemma {:induction false} FillRow<E>(table: Table<E>, lines: seq<string>, wordMap: map<string, int>,
                                      dim: nat, parse: string -> Option<E>, r: nat)
    requires r < |table|
    requires Fill(table, lines, wordMap, dim, parse).Success?
    ensures var t := Fill(table, lines, wordMap, dim, parse).value;
            var k := LastWriter(lines, wordMap, |table|, r);
            if k < 0 then t[r] == table[r]
            else LineVector(lines[k], parse).Some? &&
                 Broadcast(LineVector(lines[k], parse).value, dim) == Some(t[r])
    decreases |lines|
  {
    if lines != [] {
      var n := |lines|;
      var prefix := lines[..n - 1];
      FillRow(table, prefix, wordMap, dim, parse, r);
      if !WritesRow(lines[n - 1], wordMap, |table|, r) {
        assert LastWriter(lines, wordMap, |table|, r) == LastWriter(prefix, wordMap, |table|, r);
        var k := LastWriter(prefix, wordMap, |table|, r);
        if k >= 0 {
          assert lines[k] == prefix[k];
        }
      }
    }
  }

  /** The fill of the lines up to and including an unconvertible line fails. */
  lemma FillFailsAtBadNumber<E>(table: Table<E>, lines: seq<string>,
                                wordMap: map<string, int>, dim: nat,
                                parse: string -> Option<E>, k: nat)
    requires k < |lines| && LineVector(lines[k], parse).None?
    ensures Fill(table, lines[..k + 1], wordMap, dim, parse).Failure?
  {
    var upTo := lines[..k + 1];
    assert upTo[..k] == lines[..k] && upTo[k] == lines[k];
    var before := Fill(table, lines[..k], wordMap, dim, parse);
    if before.Success? {
      assert Fill(table, upTo, wordMap, dim, parse) == ApplyLine(before.value, lines[k], k, wordMap, dim, parse);
    }
  }

  /**
   * A line whose fields do not all convert aborts the fill, at that line or
   * before, whether or not its word is in the word map.
   */
  lemma FillFailsOnBadNumber<E>(table: Table<E>, lines: seq<string>,
                                wordMap: map<string, int>, dim: nat,
                                parse: string -> Option<E>, k: nat)
    requires k < |lines| && LineVector(lines[k], parse).None?
    ensures Fill(table, lines, wordMap, dim, parse).Failure?
    ensures Fill(table, lines, wordMap, dim, parse).error.line <= k
  {
    FillFailsAtBadNumber(table, lines, wordMap, dim, parse, k);
    FillFailurePersists(table, lines, k + 1, wordMap, dim, parse);
  }

  /**
   * What a successful load returns: one row per key of the word map, each as
   * wide as the first line has spaces; a row no line writes keeps its initial
   * random values, any other row holds the vector of the last line that
   * writes it.
   */
  lemma LoadedTable<E>(lines: seq<string>, wordMap: map<string, int>,
                       noise: (nat, nat) -> E, parse: string -> Option<E>, r: nat)
    requires LoadFromText(lines, wordMap, noise, parse).Success?
    requires r < |wordMap.Keys|
    ensures var (t, dim) := LoadFromText(lines, wordMap, noise, parse).value;
            && dim == Count(FirstLine(lines), ' ') && dim > 0
            && Shaped(t, |wordMap.Keys|, dim)
            && var k := LastWriter(lines, wordMap, |wordMap.Keys|, r);
               if k < 0 then t[r] == InitialTable(|wordMap.Keys|, dim, noise)[r]
               else LineVector(lines[k], parse).Some? &&
                    Broadcast(LineVector(lines[k], parse).value, dim) == Some(t[r])
  {
    var dim := EmbedDim(lines);
    FillRow(InitialTable(|wordMap.Keys|, dim, noise), lines, wordMap, dim, parse, r);
  }

  // ---------------------------------------------------------------------
  // The table as an array, filled in place
  // ---------------------------------------------------------------------

  /** The contents of a two-dimensional array, row by row. */
  function Contents<E>(a: array2<E>): (t: Table<E>)
    reads a
    ensures Shaped(t, a.Length0, a.Length1)
    ensures forall i, j :: 0 <= i < a.Length0 && 0 <= j < a.Length1 ==> t[i][j] == a[i, j]
  {
    seq(a.Length0, i requires 0 <= i < a.Length0 reads a =>
      seq(a.Length1, j requires 0 <= j < a.Length1 reads a => a[i, j]))
  }

  /** `init_embeddings`: fill every cell of the table with its random value. */
  method InitEmbeddings<E>(table: array2<E>, noise: (nat, nat) -> E)
    modifies table
    ensures Contents(table) == InitialTable(table.Length0, table.Length1, noise)
  {
    for i := 0 to table.Length0
      invariant forall a, b :: 0 <= a < i && 0 <= b < table.Length1 ==> table[a, b] == noise(a, b)
    {
      for j := 0 to table.Length1
        invariant forall a, b :: 0 <= a < i && 0 <= b < table.Length1 ==> table[a, b] == noise(a, b)
        invariant forall b :: 0 <= b < j ==> table[i, b] == noise(i, b)
      {
        table[i, j] := noise(i, j);
      }
    }
    var t, init := Contents(table), InitialTable(table.Length0, table.Length1, noise);
    forall i | 0 <= i < table.Length0
      ensures t[i] == init[i]
    {
    }
  }

  /** `embeddings[r] = row`: row `r` is replaced, every other row is left alone. */
  method WriteRow<E>(table: array2<E>, r: nat, row: seq<E>)
    requires r < table.Length0 && |row| == table.Length1
    modifies table
    ensures Contents(table) == old(Contents(table))[r := row]
  {
    ghost var before := Contents(table);
    for j := 0 to table.Length1
      invariant forall a, b :: 0 <= a < table.Length0 && a != r && 0 <= b < table.Length1 ==>
                  table[a, b] == before[a][b]
      invariant forall b :: 0 <= b < j ==> table[r, b] == row[b]
    {
      table[r, j] := row[j];
    }
    var t, expected := Contents(table), before[r := row];
    forall i | 0 <= i < table.Length0
      ensures t[i] == expected[i]
    {
    }
  }

  /** After a successful fill of the first k lines, line k is applied to its result. */
  lemma FillNext<E>(table: Table<E>, lines: seq<string>, k: nat, t: Table<E>,
                    wordMap: map<string, int>, dim: nat, parse: string -> Option<E>)
    requires k < |lines|
    requires Fill(table, lines[..k], wordMap, dim, parse) == Success(t)
    ensures Fill(table, lines[..k + 1], wordMap, dim, parse) == ApplyLine(t, lines[k], k, wordMap, dim, parse)
  {
    assert lines[..k + 1][..k] == lines[..k];
  }

  /**
   * The loop over the file: overwrite rows of the table in place, line by
   * line, stopping at the first line that raises.
   */
  method FillRows<E>(table: array2<E>, lines: seq<string>, wordMap: map<string, int>,
                     parse: string -> Option<E>)
    returns (r: Result<Table<E>, LoadError>)
    modifies table
    ensures r == Fill(old(Contents(table)), lines, wordMap, table.Length1, parse)
    ensures r.Success? ==> r.value == Contents(table)
  {
    ghost var init := Contents(table);
    var dim := table.Length1;
    var k := 0;
    while k < |lines|
      invariant 0 <= k <= |lines|
      invariant Fill(init, lines[..k], wordMap, dim, parse) == Success(Contents(table))
    {
      ghost var current := Contents(table);
      FillNext(init, lines, k, current, wordMap, dim, parse);
      var token := Tokenise(lines[k]);
      var embedding := ParseAll(token.fields, parse);
      if embedding.None? {
        FillFailurePersists(init, lines, k + 1, wordMap, dim, parse);
        return Failure(BadLine(k, BadNumber));
      }
      if token.word in wordMap {
        var index := RowIndex(wordMap[token.word], table.Length0);
        if index.None? {
          FillFailurePersists(init, lines, k + 1, wordMap, dim, parse);
          return Failure(BadLine(k, RowOutOfRange));
        }
        var row := Broadcast(embedding.value, dim);
        if row.None? {
          FillFailurePersists(init, lines, k + 1, wordMap, dim, parse);
          return Failure(BadLine(k, ShapeMismatch));
        }
        WriteRow(table, index.value, row.value);
      }
      k := k + 1;
    }
    assert lines[..k] == lines;
    r := Success(Contents(table));
  }

  /**
   * The cache-miss branch of `load_embeddings`: allocate and initialise the
   * table, then fill it from the lines.
   */
  method BuildTable<E(0)>(lines: seq<string>, wordMap: map<string, int>,
                          noise: (nat, nat) -> E, parse: string -> Option<E>)
    returns (r: Result<Entry<E>, LoadError>)
    ensures r == LoadFromText(lines, wordMap, noise, parse)
  {
    var firstLine := if |lines| == 0 then "" else lines[0];
    var dim := |Split(firstLine, ' ')| - 1;
    var table := new E[|wordMap.Keys|, dim];
    if dim == 0 {
      return Failure(ZeroDimension);
    }
    InitEmbeddings(table, noise);
    var filled := FillRows(table, lines, wordMap, parse);
    match filled
    case Failure(e) => r := Failure(e);
    case Success(t) => r := Success((t, dim));
  }

  // ---------------------------------------------------------------------
  // The cache
  // ---------------------------------------------------------------------

  /** `output_folder / (basename(emb_file) + '_' + output_basename + '.pth.tar')`. */
  function CachePath(embFile: string, outputFolder: string, outputBasename: string): (path: string)
    ensures var name := Basename(embFile) + "_" + outputBasename + ".pth.tar";
            outputFolder == [] || outputFolder[|outputFolder| - 1] == '/' ==> path == outputFolder + name
    ensures var name := Basename(embFile) + "_" + outputBasename + ".pth.tar";
            outputFolder != [] && outputFolder[|outputFolder| - 1] != '/' ==> path == outputFolder + "/" + name
  {
    PathJoin(outputFolder, Basename(embFile) + "_" + outputBasename + ".pth.tar")
  }

  /** The base name of `dir/name` is `name` when `name` has no separator. */
  lemma {:induction false} BasenameOfJoined(dir: string, name: string)
    requires '/' !in name
    ensures Basename(dir + "/" + name) == name
    decreases |name|
  {
    var p := dir + "/" + name;
    if name == [] {
      assert p[|p| - 1] == '/';
    } else {
      var shorter := name[..|name| - 1];
      assert p[..|p| - 1] == dir + "/" + shorter;
      BasenameOfJoined(dir, shorter);
      assert AfterLastSlash(p) == AfterLastSlash(dir + "/" + shorter);
    }
  }

  /**
   * The cache key ignores the embedding file's directory (and the word map):
   * two embedding files with the same base name share one cache artifact.
   */
  lemma CacheKeyIgnoresDirectory(dir1: string, dir2: string, name: string,
                                 outputFolder: string, outputBasename: string)
    requires '/' !in name
    ensures CachePath(dir1 + "/" + name, outputFolder, outputBasename)
         == CachePath(dir2 + "/" + name, outputFolder, outputBasename)
  {
    BasenameOfJoined(dir1, name);
    BasenameOfJoined(dir2, name);
  }

  /**
   * The on-disk cache of loaded tables, keyed by path.  `load_embeddings` is
   * a method of it because the cache is the only state it changes.
   */
  class EmbeddingCache<E(0)> {
    var stored: map<string, Entry<E>>

    constructor (initial: map<string, Entry<E>>)
      ensures stored == initial
    {
      stored := initial;
    }

    /**
     * `load_embeddings(emb_file, word_map, output_folder, output_basename)`,
     * with the text files given as `textFiles`.  A hit returns the stored pair
     * without reading the text file or looking at the word map; a miss loads
     * from the text and stores the result only when the load succeeds.
     */
    method LoadEmbeddings(embFile: string, wordMap: map<string, int>, outputFolder: string,
                          outputBasename: string, textFiles: map<string, seq<string>>,
                          noise: (nat, nat) -> E, parse: string -> Option<E>)
      returns (r: Result<Entry<E>, LoadError>)
      modifies this
      ensures var path := CachePath(embFile, outputFolder, outputBasename);
              if path in old(stored) then
                r == Success(old(stored)[path]) && stored == old(stored)
              else if embFile !in textFiles then
                r == Failure(FileNotFound(embFile)) && stored == old(stored)
              else
                && r == LoadFromText(textFiles[embFile], wordMap, noise, parse)
                && stored == (if r.Success? then old(stored)[path := r.value] else old(stored))
    {
      var cachePath := CachePath(embFile, outputFolder, outputBasename);
      if cachePath !in stored {
        if embFile !in textFiles {
          return Failure(FileNotFound(embFile));
        }
        r := BuildTable(textFiles[embFile], wordMap, noise, parse);
        if r.Success? {
          stored := stored[cachePath := r.value];
        }
      } else {
        r := Success(stored[cachePath]);
      }
    }
  }

  /**
   * A successful load followed by a second call with the same file name and
   * output arguments returns the identical pair, whatever the word map, the
   * text files and the random values of the second call.
   */
  method ReloadHitsCache<E(0)>(cache: EmbeddingCache<E>, embFile: string, outputFolder: string,
                               outputBasename: string,
                               wordMap1: map<string, int>, textFiles1: map<string, seq<string>>,
                               noise1: (nat, nat) -> E,
                               wordMap2: map<string, int>, textFiles2: map<string, seq<string>>,
                               noise2: (nat, nat) -> E,
                               parse: string -> Option<E>)
    returns (r1: Result<Entry<E>, LoadError>, r2: Result<Entry<E>, LoadError>)
    modifies cache
    ensures r1.Success? ==> r2 == r1
  {
    r1 := cache.LoadEmbeddings(embFile, wordMap1, outputFolder, outputBasename, textFiles1, noise1, parse);
    r2 := cache.LoadEmbeddings(embFile, wordMap2, outputFolder, outputBasename, textFiles2, noise2, parse);
  }
}
