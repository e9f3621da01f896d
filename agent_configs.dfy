// Loading the agent configurations of an experiment run: the JSON files of
// a directory, read in name order, each annotated with its file name and
// kept or skipped by its `execute` flag. The directory listing and the
// decoding of each file are inputs.

module AgentConfigs {
  import opened Values
  import opened Sorting

  /**
   * One `*.json` file of the directory: its name and what `json.load` made
   * of it (`None` when the file is not valid JSON or cannot be read).
   */
  datatype DirFile = DirFile(name: string, content: Option<Value>)

  predicate NameLe(a: DirFile, b: DirFile)
  {
    StrLe(a.name, b.name)
  }

  lemma NameLeIsPreorder()
    ensures TotalPreorder(NameLe)
  {
    forall a: DirFile, b: DirFile ensures NameLe(a, b) || NameLe(b, a) {
      StrLeTotal(a.name, b.name);
    }
    forall a: DirFile, b: DirFile, c: DirFile | NameLe(a, b) && NameLe(b, c) ensures NameLe(a, c) {
      StrLeTrans(a.name, b.name, c.name);
    }
  }

  /**
   * A file whose content can be annotated: a JSON object. Any other content
   * (invalid JSON, or a list or scalar, on which the item assignment raises)
   * ends in one of the two `except` branches and the file is skipped.
   */
  predicate Decoded(f: DirFile)
  {
    f.content.Some? && f.content.value.Obj?
  }

  /** The loaded dict with `_source_file` set to the file's name. */
  function Annotated(f: DirFile): (c: map<string, Value>)
    requires Decoded(f)
    ensures "_source_file" in c && c["_source_file"] == Str(f.name)
    ensures forall k :: k in c && k != "_source_file" ==> k in f.content.value.fields && c[k] == f.content.value.fields[k]
  {
    f.content.value.fields["_source_file" := Str(f.name)]
  }

  /** `agent_config.get("execute", False)` is truthy. */
  predicate Executable(c: map<string, Value>)
  {
    "execute" in c && Truthy(c["execute"])
  }

  /** The keep condition as the loader writes it: executable and `only_executable`. */
  predicate Selected(c: map<string, Value>, onlyExecutable: bool)
  {
    Executable(c) && onlyExecutable
  }

  /** What one file contributes: its annotated dict when it decodes and `keep` accepts it. */
  function LoadedOne(f: DirFile, keep: map<string, Value> -> bool): seq<map<string, Value>>
  {
    if Decoded(f) && keep(Annotated(f)) then [Annotated(f)] else []
  }

  /** The decoded files of `files`, annotated, that `keep` accepts, in order. */
  function Loaded(files: seq<DirFile>, keep: map<string, Value> -> bool): seq<map<string, Value>>
  {
    if files == [] then []
    else
      var n := |files| - 1;
      Loaded(files[..n], keep) + LoadedOne(files[n], keep)
  }

  /**
   * `load_agent_configurations`: a missing directory gives the empty list;
   * otherwise the files are taken in sorted name order and each decoded,
   * annotated dict is appended when it is selected.
   */
  method LoadAgentConfigurations(dirExists: bool, listing: seq<DirFile>, onlyExecutable: bool)
    returns (configs: seq<map<string, Value>>)
    ensures !dirExists ==> configs == []
    ensures dirExists ==> configs == Loaded(SortBy(listing, NameLe), c => Selected(c, onlyExecutable))
  {
    if !dirExists {
      return [];
    }
    var keep := c => Selected(c, onlyExecutable);
    var jsonFiles := SortBy(listing, NameLe);
    configs := [];
    for i := 0 to |jsonFiles|
      invariant configs == Loaded(jsonFiles[..i], keep)
    {
      var file := jsonFiles[i];
      assert jsonFiles[..i + 1][..i] == jsonFiles[..i];
      if file.content.Some? && file.content.value.Obj? {
        var agentConfig := file.content.value.fields["_source_file" := Str(file.name)];
        if Executable(agentConfig) && onlyExecutable {
          configs := configs + [agentConfig];
        }
      }
    }
    assert jsonFiles[..|jsonFiles|] == jsonFiles;
  }

  // -----------------------------------------------------------------------
  // Properties of the loop

  /** Every loaded config comes from one decoded file, carries its name and was accepted. */
  lemma {:induction false} LoadedProvenance(files: seq<DirFile>, keep: map<string, Value> -> bool, c: map<string, Value>)
    requires c in Loaded(files, keep)
    ensures keep(c)
    ensures exists k :: 0 <= k < |files| && Decoded(files[k]) && c == Annotated(files[k])
  {
    var n := |files| - 1;
    if c in Loaded(files[..n], keep) {
      LoadedProvenance(files[..n], keep, c);
      var k :| 0 <= k < n && Decoded(files[..n][k]) && c == Annotated(files[..n][k]);
      assert files[..n][k] == files[k];
    } else {
      assert c == Annotated(files[n]);
    }
  }

  /** Loading two listings one after the other loads their concatenation. */
  lemma {:induction false} LoadedAppend(a: seq<DirFile>, b: seq<DirFile>, keep: map<string, Value> -> bool)
    ensures Loaded(a + b, keep) == Loaded(a, keep) + Loaded(b, keep)
    decreases |b|
  {
    if b == [] {
      assert a + b == a;
    } else {
      var n := |b| - 1;
      LoadedAppend(a, b[..n], keep);
      var ab := a + b;
      assert ab[..|ab| - 1] == a + b[..n];
      assert ab[|ab| - 1] == b[n];
      LoadedSnoc(ab, keep);
      LoadedSnoc(b, keep);
      ConfigsAssoc(Loaded(a, keep), Loaded(b[..n], keep), LoadedOne(b[n], keep));
    }
  }

  lemma LoadedSnoc(files: seq<DirFile>, keep: map<string, Value> -> bool)
    requires files != []
    ensures Loaded(files, keep) == Loaded(files[..|files| - 1], keep) + LoadedOne(files[|files| - 1], keep)
  {
  }

  lemma ConfigsAssoc(x: seq<map<string, Value>>, y: seq<map<string, Value>>, z: seq<map<string, Value>>)
    ensures x + y + z == x + (y + z)
  {
  }

  /** A file that does not decode to an object is skipped, and the files after it are still loaded. */
  lemma UndecodableSkipped(before: seq<DirFile>, bad: DirFile, after: seq<DirFile>, keep: map<string, Value> -> bool)
    requires !Decoded(bad)
    ensures Loaded(before + [bad] + after, keep) == Loaded(before, keep) + Loaded(after, keep)
  {
    var withBad := before + [bad];
    assert withBad[..|withBad| - 1] == before;
    assert withBad[|withBad| - 1] == bad;
    assert Loaded(withBad, keep) == Loaded(before, keep);
    LoadedAppend(withBad, after, keep);
  }

  /** Every config carries a string `_source_file`, and these names ascend along the list. */
  predicate InNameOrder(r: seq<map<string, Value>>)
  {
    && (forall i :: 0 <= i < |r| ==> "_source_file" in r[i] && r[i]["_source_file"].Str?)
    && (forall i, j :: 0 <= i < j < |r| ==> StrLe(r[i]["_source_file"].s, r[j]["_source_file"].s))
  }

  /** Files taken in name order stay in name order: the `_source_file` names of the result ascend. */
  lemma {:induction false} LoadedInNameOrder(files: seq<DirFile>, keep: map<string, Value> -> bool)
    requires SortedBy(files, NameLe)
    ensures InNameOrder(Loaded(files, keep))
  {
    var r: seq<map<string, Value>> := Loaded(files, keep);
    forall i | 0 <= i < |r|
      ensures "_source_file" in r[i] && r[i]["_source_file"].Str?
    {
      LoadedProvenance(files, keep, r[i]);
    }
    if files != [] {
      var n := |files| - 1;
      var before := Loaded(files[..n], keep);
      assert SortedBy(files[..n], NameLe);
      LoadedInNameOrder(files[..n], keep);
      assert InNameOrder(before);
      forall i, j | 0 <= i < j < |r|
        ensures StrLe(r[i]["_source_file"].s, r[j]["_source_file"].s)
      {
        if j < |before| {
          assert r[i] == before[i] && r[j] == before[j];
          assert StrLe(before[i]["_source_file"].s, before[j]["_source_file"].s);
        } else {
          assert r == before + LoadedOne(files[n], keep);
          assert r[i] == before[i] && r[j] == Annotated(files[n]);
          LoadedProvenance(files[..n], keep, before[i]);
          var k :| 0 <= k < n && Decoded(files[..n][k]) && before[i] == Annotated(files[..n][k]);
          assert files[..n][k] == files[k];
          assert NameLe(files[k], files[n]);
          assert r[i]["_source_file"].s == files[k].name;
          assert r[j]["_source_file"].s == files[n].name;
          assert StrLe(files[k].name, files[n].name);
        }
      }
    }
  }

  /** Every config the loader returns is executable, so `only_executable` was set. */
  lemma {:induction false} OnlyExecutableReturned(listing: seq<DirFile>, onlyExecutable: bool, c: map<string, Value>)
    requires c in Loaded(SortBy(listing, NameLe), c => Selected(c, onlyExecutable))
    ensures onlyExecutable && Executable(c)
    ensures "_source_file" in c
  {
    LoadedProvenance(SortBy(listing, NameLe), c => Selected(c, onlyExecutable), c);
  }

  /** The loader's result is sorted by file name. */
  lemma ResultInNameOrder(listing: seq<DirFile>, onlyExecutable: bool)
    ensures InNameOrder(Loaded(SortBy(listing, NameLe), c => Selected(c, onlyExecutable)))
  {
    NameLeIsPreorder();
    SortBySorted(listing, NameLe);
    LoadedInNameOrder(SortBy(listing, NameLe), c => Selected(c, onlyExecutable));
  }

  /** With `only_executable=False` the loader as written returns nothing at all. */
  lemma {:induction false} NothingWithoutOnlyExecutable(files: seq<DirFile>)
    ensures Loaded(files, c => Selected(c, false)) == []
  {
    if files != [] {
      NothingWithoutOnlyExecutable(files[..|files| - 1]);
    }
  }

  // -----------------------------------------------------------------------
  // The selection the loader documents

  /** The documented keep condition: every config without `only_executable`, the executable ones with it. */
  predicate SelectedAsDocumented(c: map<string, Value>, onlyExecutable: bool)
  {
    !onlyExecutable || Executable(c)
  }

  /** Two keep conditions that agree on every config load the same list. */
  lemma {:induction false} LoadedCongruent(files: seq<DirFile>, keep1: map<string, Value> -> bool, keep2: map<string, Value> -> bool)
    requires forall c :: keep1(c) == keep2(c)
    ensures Loaded(files, keep1) == Loaded(files, keep2)
  {
    if files != [] {
      LoadedCongruent(files[..|files| - 1], keep1, keep2);
    }
  }

  /** A decoded file of the listing is loaded whenever `keep` accepts its annotated dict. */
  lemma {:induction false} LoadedComplete(files: seq<DirFile>, keep: map<string, Value> -> bool, k: nat)
    requires k < |files| && Decoded(files[k]) && keep(Annotated(files[k]))
    ensures Annotated(files[k]) in Loaded(files, keep)
  {
    var n := |files| - 1;
    if k < n {
      assert files[..n][k] == files[k];
      LoadedComplete(files[..n], keep, k);
    }
  }

  /**
   * The loader as documented: without `only_executable` every file that
   * decodes to an object is returned, annotated; with it, exactly what the
   * loader as written returns.
   */
  function LoadAsDocumented(dirExists: bool, listing: seq<DirFile>, onlyExecutable: bool): (r: seq<map<string, Value>>)
    ensures !dirExists ==> r == []
    ensures dirExists && !onlyExecutable ==> r == Loaded(SortBy(listing, NameLe), c => true)
    ensures dirExists && !onlyExecutable ==>
              forall k :: 0 <= k < |listing| && Decoded(listing[k]) ==> Annotated(listing[k]) in r
    ensures InNameOrder(r)
    ensures dirExists && onlyExecutable ==> r == Loaded(SortBy(listing, NameLe), c => Selected(c, true))
    ensures forall c :: c in r ==> SelectedAsDocumented(c, onlyExecutable)
  {
    if !dirExists then []
    else
      var sorted := SortBy(listing, NameLe);
      var r := Loaded(sorted, c => SelectedAsDocumented(c, onlyExecutable));
      assert forall c :: c in r ==> SelectedAsDocumented(c, onlyExecutable) by {
        forall c | c in r ensures SelectedAsDocumented(c, onlyExecutable) {
          LoadedProvenance(sorted, c => SelectedAsDocumented(c, onlyExecutable), c);
        }
      }
      NameLeIsPreorder();
      SortBySorted(listing, NameLe);
      LoadedInNameOrder(sorted, c => SelectedAsDocumented(c, onlyExecutable));
      if onlyExecutable then
        LoadedCongruent(sorted, c => SelectedAsDocumented(c, onlyExecutable), c => Selected(c, true));
        r
      else
        LoadedCongruent(sorted, c => SelectedAsDocumented(c, onlyExecutable), c => true);
        assert forall k :: 0 <= k < |listing| && Decoded(listing[k]) ==> Annotated(listing[k]) in r by {
          forall k | 0 <= k < |listing| && Decoded(listing[k]) ensures Annotated(listing[k]) in r {
            SortByPerm(listing, NameLe);
            assert listing[k] in multiset(sorted);
            var j :| 0 <= j < |sorted| && sorted[j] == listing[k];
            LoadedComplete(sorted, c => SelectedAsDocumented(c, onlyExecutable), j);
          }
        }
        r
  }
}
