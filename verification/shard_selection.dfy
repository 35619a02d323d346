/** Choosing a few parquet shards per programming language out of a dataset's file list. */
module ShardSelection {
  import opened Wrappers
  import opened Text
  import opened Stripping
  import opened Sorting
  import opened Seqs

  const EXCLUDED_FRAGMENTS := [
    "jupyter-scripts-dedup-filtered",
    "jupyter-structured-clean-dedup",
    "github-issues-filtered-structured",
    "git-commits-cleaned"]

  function LowerChar(c: char): char {
    if 'A' <= c <= 'Z' then (c as int + 32) as char else c
  }

  function Lower(s: string): string {
    seq(|s|, i requires 0 <= i < |s| => LowerChar(s[i]))
  }

  predicate IsSpace(c: char) {
    c == ' ' || '\t' <= c <= '\r' || 0x1c <= c as int <= 0x1f
  }

  function NormalizeLanguage(value: string): string {
    Lower(Strip(value, IsSpace))
  }

  function UpToSlash(s: string): string {
    if s == [] || s[0] == '/' then [] else [s[0]] + UpToSlash(s[1..])
  }

  /** The lower-cased first directory of a path. */
  function TopLevelDir(path: string): string {
    Lower(UpToSlash(Strip(path, c => c == '/')))
  }

  predicate EndsWith(s: string, suffix: string) {
    |suffix| <= |s| && s[|s| - |suffix|..] == suffix
  }

  predicate Contains(s: string, fragment: string) {
    fragment <= s || (s != [] && Contains(s[1..], fragment))
  }

  /** The languages asked for, normalised; none at all means every language. */
  function LanguageFilter(languages: seq<string>): set<string> {
    set i | 0 <= i < |languages| && Strip(languages[i], IsSpace) != [] :: NormalizeLanguage(languages[i])
  }

  predicate Eligible(path: string, filter: set<string>) {
    && EndsWith(path, ".parquet")
    && (forall i :: 0 <= i < |EXCLUDED_FRAGMENTS| ==> !Contains(path, EXCLUDED_FRAGMENTS[i]))
    && (filter == {} || TopLevelDir(path) in filter)
  }

  /** The eligible paths of one language, in order. */
  function Of(paths: seq<string>, filter: set<string>, language: string): seq<string> {
    if paths == [] then []
    else
      var front, last := paths[..|paths| - 1], paths[|paths| - 1];
      if Eligible(last, filter) && TopLevelDir(last) == language then Of(front, filter, language) + [last]
      else Of(front, filter, language)
  }

  /** The eligible paths that have fewer than k of their language before them. */
  function Pick(paths: seq<string>, filter: set<string>, k: nat): seq<string> {
    if paths == [] then []
    else
      var front, last := paths[..|paths| - 1], paths[|paths| - 1];
      if Eligible(last, filter) && |Of(front, filter, TopLevelDir(last))| < k then Pick(front, filter, k) + [last]
      else Pick(front, filter, k)
  }

  /** The selection: picked from the paths in sorted order. */
  function Selection(paths: seq<string>, filter: set<string>, k: nat): seq<string> {
    Pick(Sort(paths, Leq), filter, k)
  }

  function Get(counts: map<string, nat>, language: string): nat {
    if language in counts then counts[language] else 0
  }

  /** counts has, for each language, how many of its paths were selected so far. */
  ghost predicate Counted(paths: seq<string>, filter: set<string>, k: nat, counts: map<string, nat>) {
    forall language :: Get(counts, language) == Least(k, |Of(paths, filter, language)|)
  }

  lemma OfSnoc(paths: seq<string>, path: string, filter: set<string>, language: string)
    ensures Of(paths + [path], filter, language) ==
      if Eligible(path, filter) && TopLevelDir(path) == language then Of(paths, filter, language) + [path]
      else Of(paths, filter, language)
  {
    assert (paths + [path])[..|paths|] == paths;
  }

  lemma PickSnoc(paths: seq<string>, path: string, filter: set<string>, k: nat)
    ensures Pick(paths + [path], filter, k) ==
      if Eligible(path, filter) && |Of(paths, filter, TopLevelDir(path))| < k then Pick(paths, filter, k) + [path]
      else Pick(paths, filter, k)
  {
    assert (paths + [path])[..|paths|] == paths;
  }

  lemma CountedSnoc(paths: seq<string>, path: string, filter: set<string>, k: nat, counts: map<string, nat>)
    requires Counted(paths, filter, k, counts)
    ensures var language := TopLevelDir(path);
      && (!Eligible(path, filter) || Get(counts, language) >= k ==> Counted(paths + [path], filter, k, counts))
      && (Eligible(path, filter) && Get(counts, language) < k ==>
            Counted(paths + [path], filter, k, counts[language := Get(counts, language) + 1]))
      && (Get(counts, language) < k <==> |Of(paths, filter, language)| < k)
  {
    var language := TopLevelDir(path);
    assert Get(counts, language) == Least(k, |Of(paths, filter, language)|);
    forall l { OfSnoc(paths, path, filter, l); }
  }

  method Excluded(path: string) returns (r: bool)
    ensures r <==> exists i :: 0 <= i < |EXCLUDED_FRAGMENTS| && Contains(path, EXCLUDED_FRAGMENTS[i])
  {
    for i := 0 to |EXCLUDED_FRAGMENTS|
      invariant forall k :: 0 <= k < i ==> !Contains(path, EXCLUDED_FRAGMENTS[k])
    {
      if Contains(path, EXCLUDED_FRAGMENTS[i]) {
        return true;
      }
    }
    r := false;
  }

  /** The loop over the sorted paths. */
  method PickShards(sorted: seq<string>, filter: set<string>, k: nat) returns (selected: seq<string>)
    ensures selected == Pick(sorted, filter, k)
  {
    selected := [];
    var counts: map<string, nat> := map[];
    for i := 0 to |sorted|
      invariant selected == Pick(sorted[..i], filter, k)
      invariant Counted(sorted[..i], filter, k, counts)
    {
      var path := sorted[i];
      assert sorted[..i + 1] == sorted[..i] + [path];
      PickSnoc(sorted[..i], path, filter, k);
      CountedSnoc(sorted[..i], path, filter, k, counts);
      if !EndsWith(path, ".parquet") {
        continue;
      }
      var excluded := Excluded(path);
      if excluded {
        continue;
      }
      var language := TopLevelDir(path);
      if filter != {} && language !in filter {
        continue;
      }
      if Get(counts, language) >= k {
        continue;
      }
      selected := selected + [path];
      counts := counts[language := Get(counts, language) + 1];
    }
    assert sorted[..|sorted|] == sorted;
  }

  method SelectStarcoderParquetFiles(paths: seq<string>, languages: seq<string>, maxFilesPerLanguage: int)
    returns (r: Result<seq<string>, Error>)
    ensures r.Ok? <==>
      maxFilesPerLanguage > 0 && exists path :: path in paths && Eligible(path, LanguageFilter(languages))
    ensures r.Err? ==> r.error == ValueError
    ensures r.Ok? ==> r.value == Selection(paths, LanguageFilter(languages), maxFilesPerLanguage)
  {
    if maxFilesPerLanguage <= 0 {
      return Err(ValueError);
    }
    var filter := LanguageFilter(languages);
    var sorted := Sort(paths, Leq);
    var selected := PickShards(sorted, filter, maxFilesPerLanguage);
    SomethingPicked(sorted, filter, maxFilesPerLanguage);
    SameMembers(sorted, paths);
    if selected == [] {
      return Err(ValueError);
    }
    r := Ok(selected);
  }

  lemma {:induction false} SomethingPicked(paths: seq<string>, filter: set<string>, k: nat)
    requires k > 0
    ensures Pick(paths, filter, k) != [] <==> exists path :: path in paths && Eligible(path, filter)
  {
    if paths != [] {
      var front, last := paths[..|paths| - 1], paths[|paths| - 1];
      assert paths == front + [last];
      SomethingPicked(front, filter, k);
      if Eligible(last, filter) && Of(front, filter, TopLevelDir(last)) != [] {
        OfIsEligible(front, filter, TopLevelDir(last));
      }
    }
  }

  lemma {:induction false} OfIsEligible(paths: seq<string>, filter: set<string>, language: string)
    ensures Of(paths, filter, language) != [] <==>
      exists path :: path in paths && Eligible(path, filter) && TopLevelDir(path) == language
  {
    if paths != [] {
      OfIsEligible(paths[..|paths| - 1], filter, language);
      assert paths == paths[..|paths| - 1] + [paths[|paths| - 1]];
    }
  }

  // ---------------------------------------------------------------- when a path is eligible

  /** The same letters, each in either case. */
  ghost predicate SameButForCase(a: string, b: string) {
    |a| == |b| && forall i :: 0 <= i < |a| ==>
      || a[i] == b[i]
      || ('A' <= a[i] <= 'Z' && b[i] as int == a[i] as int + 32)
      || ('A' <= b[i] <= 'Z' && a[i] as int == b[i] as int + 32)
  }

  lemma LowerIff(a: string, b: string)
    ensures Lower(a) == Lower(b) <==> SameButForCase(a, b)
  {
    if Lower(a) == Lower(b) {
      assert |Lower(a)| == |a| && |Lower(b)| == |b|;
      forall i | 0 <= i < |a| ensures LowerChar(a[i]) == LowerChar(b[i]) {
        assert Lower(a)[i] == LowerChar(a[i]) && Lower(b)[i] == LowerChar(b[i]);
      }
    }
    if SameButForCase(a, b) {
      assert Lower(a) == Lower(b);
    }
  }

  /** A request, blanks around it, for the language of this name in any letter case. */
  ghost predicate Asks(request: string, language: string) {
    exists lead, word, tail ::
      word != "" && Around(request, IsSpace, lead, word, tail) && SameButForCase(word, language)
  }

  lemma AsksIff(request: string, language: string)
    ensures Asks(request, language) <==>
      Strip(request, IsSpace) != [] && NormalizeLanguage(request) == Lower(language)
  {
    LowerIff(Strip(request, IsSpace), language);
    if Asks(request, language) {
      var lead, word, tail :|
        word != "" && Around(request, IsSpace, lead, word, tail) && SameButForCase(word, language);
      StripIs(request, IsSpace, lead, word, tail);
    } else if Strip(request, IsSpace) != [] {
      var lead, tail := StripSplits(request, IsSpace);
      assert Around(request, IsSpace, lead, Strip(request, IsSpace), tail);
    }
  }

  lemma BlankIff(request: string)
    ensures All(request, IsSpace) <==> Strip(request, IsSpace) == []
  {
    if All(request, IsSpace) {
      StripIs(request, IsSpace, request, "", "");
    } else {
      var lead, tail := StripSplits(request, IsSpace);
      assert Strip(request, IsSpace) == [] ==> request == lead + tail;
    }
  }

  lemma {:induction false} ContainsIff(s: string, fragment: string)
    ensures Contains(s, fragment) <==> exists a, b :: s == a + fragment + b
  {
    if fragment <= s {
      assert s == [] + fragment + s[|fragment|..];
    } else if s != [] {
      ContainsIff(s[1..], fragment);
      if Contains(s[1..], fragment) {
        var a, b :| s[1..] == a + fragment + b;
        assert s == ([s[0]] + a) + fragment + b;
      }
      if a, b :| s == a + fragment + b {
        assert a == [] ==> s == fragment + b;
        assert s[1..] == a[1..] + fragment + b;
      }
    } else {
      assert forall a, b :: |a + fragment + b| >= |fragment|;
    }
  }

  lemma {:induction false} UpToSlashOf(dir: string, rest: string)
    requires All(dir, c => c != '/') && (rest == "" || rest[0] == '/')
    ensures UpToSlash(dir + rest) == dir
  {
    if dir == "" {
      assert dir + rest == rest;
    } else {
      assert (dir + rest)[0] == dir[0] && (dir + rest)[1..] == dir[1..] + rest;
      UpToSlashOf(dir[1..], rest);
    }
  }

  /** The first directory of dir/file, in small letters. */
  lemma TopLevelOf(dir: string, file: string)
    requires dir != "" && All(dir, c => c != '/')
    ensures TopLevelDir(dir + "/" + file) == Lower(dir)
  {
    var path, slash := dir + "/" + file, (c: char) => c == '/';
    assert path[0] == dir[0] && path[|dir| - 1] == dir[|dir| - 1];
    StripLeftIs(path, slash, "", path);
    StripRightStops(path, slash, |dir| - 1);
    var kept := StripRight(path, slash);
    assert kept == dir + kept[|dir|..];
    UpToSlashOf(dir, kept[|dir|..]);
  }

  /** A path dir/file is eligible exactly when it ends in .parquet, none of the excluded fragments is in it,
      and its first directory is one of the languages asked for, in any letter case, or none is asked for. */
  lemma EligibleIff(dir: string, file: string, languages: seq<string>)
    requires dir != "" && All(dir, c => c != '/')
    ensures var path := dir + "/" + file;
      Eligible(path, LanguageFilter(languages)) <==>
        && (exists stem :: path == stem + ".parquet")
        && !(exists a, b :: path == a + "jupyter-scripts-dedup-filtered" + b)
        && !(exists a, b :: path == a + "jupyter-structured-clean-dedup" + b)
        && !(exists a, b :: path == a + "github-issues-filtered-structured" + b)
        && !(exists a, b :: path == a + "git-commits-cleaned" + b)
        && ((forall k :: 0 <= k < |languages| ==> All(languages[k], IsSpace))
            || exists k :: 0 <= k < |languages| && Asks(languages[k], dir))
  {
    var path := dir + "/" + file;
    EndsIff(path, ".parquet");
    ContainsIff(path, "jupyter-scripts-dedup-filtered");
    ContainsIff(path, "jupyter-structured-clean-dedup");
    ContainsIff(path, "github-issues-filtered-structured");
    ContainsIff(path, "git-commits-cleaned");
    ExclusionsAre(path);
    TopLevelOf(dir, file);
    FilterIff(dir, languages);
  }

  lemma EndsIff(path: string, suffix: string)
    ensures EndsWith(path, suffix) <==> exists stem :: path == stem + suffix
  {
    if EndsWith(path, suffix) { assert path == path[..|path| - |suffix|] + suffix; }
  }

  lemma ExclusionsAre(path: string)
    ensures (forall i :: 0 <= i < |EXCLUDED_FRAGMENTS| ==> !Contains(path, EXCLUDED_FRAGMENTS[i])) <==>
      && !Contains(path, "jupyter-scripts-dedup-filtered") && !Contains(path, "jupyter-structured-clean-dedup")
      && !Contains(path, "github-issues-filtered-structured") && !Contains(path, "git-commits-cleaned")
  {
    assert EXCLUDED_FRAGMENTS[0] == "jupyter-scripts-dedup-filtered";
    assert EXCLUDED_FRAGMENTS[1] == "jupyter-structured-clean-dedup";
    assert EXCLUDED_FRAGMENTS[2] == "github-issues-filtered-structured";
    assert EXCLUDED_FRAGMENTS[3] == "git-commits-cleaned";
  }

  lemma FilterIff(dir: string, languages: seq<string>)
    ensures LanguageFilter(languages) == {} <==> forall k :: 0 <= k < |languages| ==> All(languages[k], IsSpace)
    ensures Lower(dir) in LanguageFilter(languages) <==> exists k :: 0 <= k < |languages| && Asks(languages[k], dir)
  {
    forall k | 0 <= k < |languages|
      ensures All(languages[k], IsSpace) <==> Strip(languages[k], IsSpace) == []
      ensures Asks(languages[k], dir) <==>
        Strip(languages[k], IsSpace) != [] && NormalizeLanguage(languages[k]) == Lower(dir)
      ensures Strip(languages[k], IsSpace) != [] ==> NormalizeLanguage(languages[k]) in LanguageFilter(languages)
    {
      BlankIff(languages[k]);
      AsksIff(languages[k], dir);
    }
    assert LanguageFilter(languages) != {} ==> exists l :: l in LanguageFilter(languages);
  }

  // ---------------------------------------------------------------- what is selected

  /** Of each language, the first of its eligible paths, as many as there are up to k. */
  lemma {:induction false} PickedPerLanguage(paths: seq<string>, filter: set<string>, k: nat, language: string)
    ensures var available := Of(paths, filter, language);
      Of(Pick(paths, filter, k), filter, language) == available[..Least(k, |available|)]
  {
    if paths != [] {
      var front, last := paths[..|paths| - 1], paths[|paths| - 1];
      PickedPerLanguage(front, filter, k, language);
      OfSnoc(Pick(front, filter, k), last, filter, language);
    }
  }

  lemma {:induction false} PickedFrom(paths: seq<string>, filter: set<string>, k: nat)
    requires Ordered(paths, Leq)
    ensures Ordered(Pick(paths, filter, k), Leq)
    ensures forall path :: path in Pick(paths, filter, k) ==> path in paths && Eligible(path, filter)
  {
    if paths != [] {
      var front, last := paths[..|paths| - 1], paths[|paths| - 1];
      assert paths == front + [last];
      assert Ordered(front, Leq);
      PickedFrom(front, filter, k);
      var before := Pick(front, filter, k);
      forall i | 0 <= i < |before| ensures Leq(before[i], last) {
        assert before[i] in before && before[i] in front;
        var j :| 0 <= j < |front| && front[j] == before[i];
        assert Leq(paths[j], paths[|paths| - 1]);
      }
    }
  }

  /** The selection is sorted, all of it eligible, and of each language it has the first min(k, available)
      eligible paths in sorted order. */
  lemma SelectionMeans(paths: seq<string>, filter: set<string>, k: nat)
    ensures var sorted, selected := Sort(paths, Leq), Selection(paths, filter, k);
      && Ordered(sorted, Leq) && multiset(sorted) == multiset(paths)
      && Ordered(selected, Leq)
      && (forall path :: path in selected ==> path in paths && Eligible(path, filter))
      && forall language ::
           Of(selected, filter, language) ==
           Of(sorted, filter, language)[..Least(k, |Of(sorted, filter, language)|)]
  {
    var sorted := Sort(paths, Leq);
    LeqIsTotalOrder();
    SortOrdered(paths, Leq);
    SameMembers(sorted, paths);
    PickedFrom(sorted, filter, k);
    forall language { PickedPerLanguage(sorted, filter, k, language); }
  }

  /** The order in which paths are listed does not matter. */
  lemma OrderDoesNotMatter(paths: seq<string>, others: seq<string>, filter: set<string>, k: nat)
    requires multiset(paths) == multiset(others)
    ensures Selection(paths, filter, k) == Selection(others, filter, k)
  {
    LeqIsTotalOrder();
    SortOrdered(paths, Leq);
    SortOrdered(others, Leq);
    OrderedUnique(Sort(paths, Leq), Sort(others, Leq), Leq);
  }

  lemma {:induction false} PickAll(paths: seq<string>, filter: set<string>, k: nat)
    requires forall path :: path in paths ==> Eligible(path, filter)
    requires forall language :: |Of(paths, filter, language)| <= k
    ensures Pick(paths, filter, k) == paths
  {
    if paths != [] {
      var front, last := paths[..|paths| - 1], paths[|paths| - 1];
      assert paths == front + [last] && last in paths;
      forall language
        ensures |Of(front, filter, language)| <= k
        ensures |Of(front, filter, language)| <= |Of(paths, filter, language)|
      {
        OfSnoc(front, last, filter, language);
      }
      OfSnoc(front, last, filter, TopLevelDir(last));
      PickAll(front, filter, k);
    }
  }

  /** Selecting from a selection changes nothing. */
  lemma SelectionIsIdempotent(paths: seq<string>, filter: set<string>, k: nat)
    ensures Selection(Selection(paths, filter, k), filter, k) == Selection(paths, filter, k)
  {
    var selected := Selection(paths, filter, k);
    SelectionMeans(paths, filter, k);
    LeqIsTotalOrder();
    SortOrdered(selected, Leq);
    OrderedUnique(Sort(selected, Leq), selected, Leq);
    forall language ensures |Of(selected, filter, language)| <= k {
      PickedPerLanguage(Sort(paths, Leq), filter, k, language);
    }
    PickAll(selected, filter, k);
  }

  /** A selection is determined by its order and what it has of each language. */
  lemma SelectionIsUnique(a: seq<string>, b: seq<string>, filter: set<string>)
    requires Ordered(a, Leq) && Ordered(b, Leq)
    requires forall path :: path in a || path in b ==> Eligible(path, filter)
    requires forall language :: Of(a, filter, language) == Of(b, filter, language)
    ensures a == b
  {
    forall path ensures multiset(a)[path] == multiset(b)[path] {
      OfCounts(a, filter, path);
      OfCounts(b, filter, path);
    }
    assert multiset(a) == multiset(b);
    LeqIsTotalOrder();
    OrderedUnique(a, b, Leq);
  }

  lemma {:induction false} OfCounts(paths: seq<string>, filter: set<string>, path: string)
    ensures multiset(Of(paths, filter, TopLevelDir(path)))[path]
         == if Eligible(path, filter) then multiset(paths)[path] else 0
  {
    if paths != [] {
      var front, last := paths[..|paths| - 1], paths[|paths| - 1];
      assert paths == front + [last];
      OfCounts(front, filter, path);
    }
  }
}
