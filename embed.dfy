/** The whole-file embedding script's file selection. Unlike the chunked
    script it reads `filters["exclude"]` directly and treats a present
    `include` key as a restriction even when its list is empty. */
module Embed {
  import opened Wrappers
  import opened RecordList
  import EmbedChunks

  type Entry = EmbedChunks.Entry

  /** What reading the missing `exclude` key raises. */
  const MissingExclude := "KeyError: 'exclude'"

  /** The rule of `get_files`, given the exclude list: not excluded, and
      matching the include list when the key is present. */
  predicate Kept(rel: string, filters: map<string, seq<string>>, excluded: seq<string>,
                 fnmatch: (string, string) -> bool) {
    && !EmbedChunks.Matches(rel, excluded, fnmatch)
    && ("include" in filters ==> EmbedChunks.Matches(rel, filters["include"], fnmatch))
  }

  predicate HasFile(walk: seq<Entry>) {
    exists k :: 0 <= k < |walk| && walk[k].isFile
  }

  /** `get_files()`: the files of the walk the rule keeps, in walk order. The
      exclude list is looked up at the first file, so a filter file without
      `exclude` fails only when the walk meets a file. */
  method GetFiles(walk: seq<Entry>, filters: map<string, seq<string>>, fnmatch: (string, string) -> bool)
      returns (r: Result<seq<Entry>>)
    ensures r.Failure? <==> "exclude" !in filters && HasFile(walk)
    ensures r.Failure? ==> r.error == MissingExclude
    ensures "exclude" in filters ==>
              r == Success(Filter(walk, (e: Entry) => e.isFile && Kept(e.rel, filters, filters["exclude"], fnmatch)))
    ensures "exclude" !in filters && !HasFile(walk) ==> r == Success([])
  {
    if "exclude" !in filters {
      for k := 0 to |walk|
        invariant forall m :: 0 <= m < k ==> !walk[m].isFile
      {
        if walk[k].isFile {
          return Failure(MissingExclude);
        }
      }
      return Success([]);
    }
    var keep := (e: Entry) => e.isFile && Kept(e.rel, filters, filters["exclude"], fnmatch);
    var files := [];
    for k := 0 to |walk|
      invariant files == Filter(walk[..k], keep)
    {
      FilterSnoc(walk[..k], walk[k], keep);
      assert walk[..k + 1] == walk[..k] + [walk[k]];
      if walk[k].isFile {
        if EmbedChunks.Matches(walk[k].rel, filters["exclude"], fnmatch) {
          continue;
        }
        if "include" in filters && !EmbedChunks.Matches(walk[k].rel, filters["include"], fnmatch) {
          continue;
        }
        files := files + [walk[k]];
      }
    }
    assert walk[..|walk|] == walk;
    return Success(files);
  }

  /** The rule of `get_files` beside the chunked script's rule. They agree
      except on an `include` list that is present but empty: here it keeps
      nothing, there it restricts nothing. */
  lemma RulesCompared(rel: string, filters: map<string, seq<string>>, fnmatch: (string, string) -> bool)
    requires "exclude" in filters
    ensures "include" in filters && filters["include"] == [] ==>
              !Kept(rel, filters, filters["exclude"], fnmatch) &&
              (EmbedChunks.Selected(rel, filters, fnmatch) <==> !EmbedChunks.Matches(rel, filters["exclude"], fnmatch))
    ensures !("include" in filters && filters["include"] == []) ==>
              (Kept(rel, filters, filters["exclude"], fnmatch) <==> EmbedChunks.Selected(rel, filters, fnmatch))
  {
  }

  /** Exclusion takes precedence over inclusion. */
  lemma ExclusionFirst(rel: string, filters: map<string, seq<string>>, fnmatch: (string, string) -> bool, i: nat)
    requires "exclude" in filters && i < |filters["exclude"]| && fnmatch(rel, filters["exclude"][i])
    ensures !Kept(rel, filters, filters["exclude"], fnmatch)
  {
  }

  /** With an empty `include` list no file at all is selected. */
  lemma EmptyIncludeSelectsNothing(walk: seq<Entry>, filters: map<string, seq<string>>,
                                   fnmatch: (string, string) -> bool)
    requires "exclude" in filters && "include" in filters && filters["include"] == []
    ensures Filter(walk, (e: Entry) => e.isFile && Kept(e.rel, filters, filters["exclude"], fnmatch)) == []
  {
    var keep := (e: Entry) => e.isFile && Kept(e.rel, filters, filters["exclude"], fnmatch);
    var r := Filter(walk, keep);
    if r != [] {
      assert r[0] in r;
    }
  }
}
