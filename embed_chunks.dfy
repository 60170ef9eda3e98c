/** The chunked embedding script: which files of the tree it selects by its
    include and exclude patterns, and how it cuts a file's words into chunks
    under a token limit. The tree walk is a sequence of entries in walk
    order, `fnmatch` and the token counter are parameters, and `text.split()`
    is taken as the word list. */
module EmbedChunks {
  import opened Text
  import opened RecordList

  const ChunkTokenLimit := 800

  /** One entry of the tree walk: its path relative to the root and whether
      it is a regular file. */
  datatype Entry = Entry(rel: string, isFile: bool)

  /** `matches(path, patterns)`: some pattern matches. */
  function Matches(path: string, patterns: seq<string>, fnmatch: (string, string) -> bool): (r: bool)
    ensures r <==> exists i :: 0 <= i < |patterns| && fnmatch(path, patterns[i])
    decreases |patterns|
  {
    if patterns == [] then false
    else if fnmatch(path, patterns[0]) then true
    else
      var r := Matches(path, patterns[1..], fnmatch);
      assert r ==> exists i :: 0 <= i < |patterns| && fnmatch(path, patterns[i]) by {
        if r {
          var i :| 0 <= i < |patterns| - 1 && fnmatch(path, patterns[1..][i]);
          assert patterns[i + 1] == patterns[1..][i];
        }
      }
      assert (exists i :: 0 <= i < |patterns| && fnmatch(path, patterns[i])) ==> r by {
        if exists i :: 0 <= i < |patterns| && fnmatch(path, patterns[i]) {
          var i :| 0 <= i < |patterns| && fnmatch(path, patterns[i]);
          assert i > 0 && patterns[1..][i - 1] == patterns[i];
        }
      }
      r
  }

  /** `filters.get(key, [])` of the filter file. */
  function ListOr(filters: map<string, seq<string>>, key: string): seq<string> {
    if key in filters then filters[key] else []
  }

  /** The rule of `get_valid_files`: included when the include list is empty
      or matches, and not excluded. */
  predicate Selected(rel: string, filters: map<string, seq<string>>, fnmatch: (string, string) -> bool) {
    var included := ListOr(filters, "include");
    var excluded := ListOr(filters, "exclude");
    (included == [] || Matches(rel, included, fnmatch)) && !Matches(rel, excluded, fnmatch)
  }

  /** A path that an exclude pattern matches is never selected, whatever the
      include list says. */
  lemma ExclusionWins(rel: string, filters: map<string, seq<string>>, fnmatch: (string, string) -> bool, i: nat)
    requires "exclude" in filters && i < |filters["exclude"]| && fnmatch(rel, filters["exclude"][i])
    ensures !Selected(rel, filters, fnmatch)
  {
  }

  /** `get_valid_files()`: the files of the walk the rule selects, in walk
      order. */
  method GetValidFiles(walk: seq<Entry>, filters: map<string, seq<string>>, fnmatch: (string, string) -> bool)
      returns (files: seq<Entry>)
    ensures files == Filter(walk, (e: Entry) => e.isFile && Selected(e.rel, filters, fnmatch))
    ensures forall e :: e in files <==> e in walk && e.isFile && Selected(e.rel, filters, fnmatch)
    ensures IsSubsequence(files, walk)
  {
    var keep := (e: Entry) => e.isFile && Selected(e.rel, filters, fnmatch);
    files := [];
    for k := 0 to |walk|
      invariant files == Filter(walk[..k], keep)
    {
      FilterSnoc(walk[..k], walk[k], keep);
      assert walk[..k + 1] == walk[..k] + [walk[k]];
      if !walk[k].isFile {
        continue;
      }
      if Selected(walk[k].rel, filters, fnmatch) {
        files := files + [walk[k]];
      }
    }
    assert walk[..|walk|] == walk;
    FilterIsSubsequence(walk, keep);
  }

  /** The words of a list of pieces, in order. */
  function Flatten(pieces: seq<seq<string>>): seq<string>
    decreases |pieces|
  {
    if pieces == [] then [] else pieces[0] + Flatten(pieces[1..])
  }

  lemma {:induction false} FlattenSnoc(pieces: seq<seq<string>>, p: seq<string>)
    ensures Flatten(pieces + [p]) == Flatten(pieces) + p
    decreases |pieces|
  {
    if pieces == [] {
      assert [p][1..] == [];
    } else {
      assert (pieces + [p])[1..] == pieces[1..] + [p];
      FlattenSnoc(pieces[1..], p);
    }
  }

  /** Every piece of two or more words fits the limit. */
  predicate PiecesFit(pieces: seq<seq<string>>, limit: int, countTokens: string -> int) {
    forall j :: 0 <= j < |pieces| && |pieces[j]| >= 2 ==> countTokens(Join(pieces[j])) <= limit
  }

  /** Every piece but the last ends early only because the next piece's
      first word would overflow it. */
  predicate PiecesOverflow(pieces: seq<seq<string>>, limit: int, countTokens: string -> int) {
    forall j :: 0 < j < |pieces| ==> |pieces[j]| > 0 && countTokens(Join(pieces[j - 1] + [pieces[j][0]])) > limit
  }

  /** Only the first piece can be empty. */
  predicate LaterNonEmpty(pieces: seq<seq<string>>) {
    forall j :: 0 < j < |pieces| ==> pieces[j] != []
  }

  /** The properties the chunker guarantees of its word pieces. */
  predicate WellChunked(words: seq<string>, pieces: seq<seq<string>>, limit: int, countTokens: string -> int) {
    && Flatten(pieces) == words
    && PiecesFit(pieces, limit, countTokens)
    && PiecesOverflow(pieces, limit, countTokens)
    && LaterNonEmpty(pieces)
    // the first piece is empty exactly when the first word alone overflows
    && ((|pieces| > 0 && pieces[0] == []) <==> (|words| > 0 && countTokens(words[0]) > limit))
    // no words, no pieces; otherwise the last piece has words
    && (pieces == [] <==> words == [])
    && (|pieces| > 0 ==> pieces[|pieces| - 1] != [])
  }

  /** The state of the loop after the first `i` words: the pieces emitted so
      far and the current `chunk`. */
  predicate Chunking(words: seq<string>, i: nat, pieces: seq<seq<string>>, chunk: seq<string>,
                     limit: int, countTokens: string -> int) {
    && i <= |words|
    && Flatten(pieces) + chunk == words[..i]
    && (i == 0 ==> chunk == [] && pieces == [])
    && (i > 0 ==> chunk != [])
    && (|chunk| >= 2 ==> countTokens(Join(chunk)) <= limit)
    && PiecesFit(pieces, limit, countTokens)
    && PiecesOverflow(pieces, limit, countTokens)
    && (|pieces| > 0 ==> countTokens(Join(pieces[|pieces| - 1] + [chunk[0]])) > limit)
    && LaterNonEmpty(pieces)
    && ((|pieces| > 0 && pieces[0] == []) <==> (i > 0 && countTokens(words[0]) > limit))
  }

  /** Adding a piece `p` that fits (or has fewer than two words). */
  lemma FitSnoc(pieces: seq<seq<string>>, p: seq<string>, limit: int, countTokens: string -> int)
    requires PiecesFit(pieces, limit, countTokens)
    requires |p| >= 2 ==> countTokens(Join(p)) <= limit
    ensures PiecesFit(pieces + [p], limit, countTokens)
  {
    var all := pieces + [p];
    forall j | 0 <= j < |all| && |all[j]| >= 2 ensures countTokens(Join(all[j])) <= limit {
      if j < |pieces| { assert all[j] == pieces[j]; }
    }
  }

  /** Adding a non-empty piece `p` whose first word overflows the last one. */
  lemma OverflowSnoc(pieces: seq<seq<string>>, p: seq<string>, limit: int, countTokens: string -> int)
    requires PiecesOverflow(pieces, limit, countTokens) && LaterNonEmpty(pieces) && p != []
    requires |pieces| > 0 ==> countTokens(Join(pieces[|pieces| - 1] + [p[0]])) > limit
    ensures PiecesOverflow(pieces + [p], limit, countTokens) && LaterNonEmpty(pieces + [p])
  {
    var all := pieces + [p];
    forall j | 0 < j < |all|
      ensures |all[j]| > 0 && countTokens(Join(all[j - 1] + [all[j][0]])) > limit
    {
      if j == |all| - 1 {
        assert all[j - 1] == pieces[|pieces| - 1];
      } else {
        assert all[j - 1] == pieces[j - 1] && all[j] == pieces[j];
      }
    }
    forall j | 0 < j < |all| ensures all[j] != [] {
      if j < |pieces| { assert all[j] == pieces[j]; }
    }
  }

  /** The next word fits: it joins the chunk. */
  lemma Grow(words: seq<string>, i: nat, pieces: seq<seq<string>>, chunk: seq<string>,
             limit: int, countTokens: string -> int)
    requires Chunking(words, i, pieces, chunk, limit, countTokens) && i < |words|
    requires countTokens(Join(chunk + [words[i]])) <= limit
    ensures Chunking(words, i + 1, pieces, chunk + [words[i]], limit, countTokens)
  {
    assert words[..i + 1] == words[..i] + [words[i]];
    if i == 0 {
      assert Join([words[0]]) == words[0];
    } else {
      assert (chunk + [words[i]])[0] == chunk[0];
    }
  }

  /** The next word overflows: the chunk so far is emitted and the word
      starts the next one. */
  lemma Emit(words: seq<string>, i: nat, pieces: seq<seq<string>>, chunk: seq<string>,
             limit: int, countTokens: string -> int)
    requires Chunking(words, i, pieces, chunk, limit, countTokens) && i < |words|
    requires countTokens(Join(chunk + [words[i]])) > limit
    ensures Chunking(words, i + 1, pieces + [chunk], [words[i]], limit, countTokens)
  {
    EmitFlatten(words, i, pieces, chunk);
    FitSnoc(pieces, chunk, limit, countTokens);
    if i == 0 {
      assert Join([words[0]]) == words[0];
      assert PiecesOverflow(pieces + [chunk], limit, countTokens) && LaterNonEmpty(pieces + [chunk]);
    } else {
      OverflowSnoc(pieces, chunk, limit, countTokens);
      assert (pieces + [chunk])[0] == if pieces == [] then chunk else pieces[0];
    }
    assert (pieces + [chunk])[|pieces|] == chunk;
  }

  /** Emitting the chunk keeps the words read so far in order. */
  lemma EmitFlatten(words: seq<string>, i: nat, pieces: seq<seq<string>>, chunk: seq<string>)
    requires i < |words| && Flatten(pieces) + chunk == words[..i]
    ensures Flatten(pieces + [chunk]) + [words[i]] == words[..i + 1]
  {
    assert words[..i + 1] == words[..i] + [words[i]];
    FlattenSnoc(pieces, chunk);
  }

  /** After the last word the remaining chunk, if any, is the last piece. */
  lemma Finish(words: seq<string>, pieces: seq<seq<string>>, chunk: seq<string>,
               limit: int, countTokens: string -> int)
    requires Chunking(words, |words|, pieces, chunk, limit, countTokens)
    ensures WellChunked(words, if chunk != [] then pieces + [chunk] else pieces, limit, countTokens)
  {
    assert words[..|words|] == words;
    if chunk != [] {
      FlattenSnoc(pieces, chunk);
      FitSnoc(pieces, chunk, limit, countTokens);
      OverflowSnoc(pieces, chunk, limit, countTokens);
      assert (pieces + [chunk])[0] == if pieces == [] then chunk else pieces[0];
      assert (pieces + [chunk])[|pieces|] == chunk;
    }
  }

  lemma EmitChunk(chunks: seq<string>, pieces: seq<seq<string>>, p: seq<string>)
    requires |chunks| == |pieces| && forall j :: 0 <= j < |pieces| ==> chunks[j] == Join(pieces[j])
    ensures var c, ps := chunks + [Join(p)], pieces + [p];
            |c| == |ps| && forall j :: 0 <= j < |ps| ==> c[j] == Join(ps[j])
  {
  }

  /** `chunk_text(text, limit)` on the word list `words`. Returns the chunks
      and the word pieces they join. */
  method ChunkText(words: seq<string>, limit: int, countTokens: string -> int)
      returns (chunks: seq<string>, pieces: seq<seq<string>>)
    ensures |chunks| == |pieces| && forall j :: 0 <= j < |pieces| ==> chunks[j] == Join(pieces[j])
    ensures WellChunked(words, pieces, limit, countTokens)
  {
    chunks, pieces := [], [];
    var chunk: seq<string> := [];
    for i := 0 to |words|
      invariant |chunks| == |pieces| && forall j :: 0 <= j < |pieces| ==> chunks[j] == Join(pieces[j])
      invariant Chunking(words, i, pieces, chunk, limit, countTokens)
    {
      var grown := chunk + [words[i]];
      if countTokens(Join(grown)) > limit {
        Emit(words, i, pieces, chunk, limit, countTokens);
        var piece := grown[..|grown| - 1];
        assert piece == chunk;
        EmitChunk(chunks, pieces, piece);
        chunks := chunks + [Join(piece)];
        pieces := pieces + [piece];
        chunk := [words[i]];
      } else {
        Grow(words, i, pieces, chunk, limit, countTokens);
        chunk := grown;
      }
    }
    Finish(words, pieces, chunk, limit, countTokens);
    if chunk != [] {
      EmitChunk(chunks, pieces, chunk);
      chunks := chunks + [Join(chunk)];
      pieces := pieces + [chunk];
    }
  }
}
