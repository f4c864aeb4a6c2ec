/** Which variants get materialized: the loop over every test file's expanded matrix. */
module Variants {
  /** One expanded flag combination of a matrix. */
  type Flags = seq<string>

  /** A test file and its already-expanded matrix. */
  datatype TestFile = TestFile(filepath: string, matrix: seq<Flags>)

  /** One materialization the loop schedules: the test file to copy and the generator flags. */
  datatype Job = Job(testFile: string, flags: Flags)

  /** The temporary carve-out marked LA_TEMP: a flag list is kept only with `solid` and
      without `plausible.io`, `vercel` and `h3`. */
  predicate Keep(flags: Flags)
  {
    !(
      || "solid" !in flags
      || "plausible.io" in flags
      || "vercel" in flags
      || "h3" in flags
    )
  }

  /** Every flag list of one test file, in matrix order, before filtering. */
  function MatrixJobs(t: TestFile): (js: seq<Job>)
  {
    seq(|t.matrix|, k requires 0 <= k < |t.matrix| => Job(t.filepath, t.matrix[k]))
  }

  /** Every flag list of every test file, test file by test file, before filtering. */
  function AllJobs(files: seq<TestFile>): seq<Job>
  {
    if files == [] then [] else AllJobs(files[..|files| - 1]) + MatrixJobs(files[|files| - 1])
  }

  /** The order-preserving filter by `Keep`. */
  function FilterJobs(js: seq<Job>): seq<Job>
  {
    if js == [] then []
    else (if Keep(js[0].flags) then [js[0]] else []) + FilterJobs(js[1..])
  }

  /** The jobs the loop schedules, as a reference definition. */
  function Selected(files: seq<TestFile>): seq<Job>
  {
    FilterJobs(AllJobs(files))
  }

  /** `a` is `b` with some elements left out and the rest in their order. */
  predicate IsSubsequence<T(==)>(a: seq<T>, b: seq<T>)
    decreases |b|
  {
    if a == [] then true
    else if b == [] then false
    else if a[0] == b[0] then IsSubsequence(a[1..], b[1..])
    else IsSubsequence(a, b[1..])
  }

  // ---------------------------------------------------------------------------
  // Lemmas about the reference definition

  /** Filtering a concatenation filters each part. */
  lemma {:induction false} FilterConcat(a: seq<Job>, b: seq<Job>)
    ensures FilterJobs(a + b) == FilterJobs(a) + FilterJobs(b)
    decreases |a|
  {
    if a == [] {
      assert a + b == b;
    } else {
      var head := if Keep(a[0].flags) then [a[0]] else [];
      assert (a + b)[0] == a[0];
      assert (a + b)[1..] == a[1..] + b;
      assert FilterJobs(a + b) == head + FilterJobs(a[1..] + b);
      FilterConcat(a[1..], b);
      assert FilterJobs(a) == head + FilterJobs(a[1..]);
    }
  }

  /** A job survives the filter exactly when it was there and passes `Keep`. */
  lemma {:induction false} FilterMembership(js: seq<Job>, j: Job)
    ensures j in FilterJobs(js) <==> j in js && Keep(j.flags)
    decreases |js|
  {
    if js != [] {
      FilterMembership(js[1..], j);
      assert js == [js[0]] + js[1..];
    }
  }

  /** The filter keeps the order of what it keeps. */
  lemma {:induction false} FilterIsSubsequence(js: seq<Job>)
    ensures IsSubsequence(FilterJobs(js), js)
    decreases |js|
  {
    if js != [] {
      FilterIsSubsequence(js[1..]);
      if Keep(js[0].flags) {
        assert FilterJobs(js) == [js[0]] + FilterJobs(js[1..]);
        assert FilterJobs(js)[1..] == FilterJobs(js[1..]);
      } else {
        assert FilterJobs(js) == FilterJobs(js[1..]);
        SkipHead(FilterJobs(js[1..]), js);
      }
    }
  }

  /** A subsequence of a sequence's tail is a subsequence of the sequence. */
  lemma {:induction false} SkipHead(a: seq<Job>, b: seq<Job>)
    requires b != [] && IsSubsequence(a, b[1..])
    ensures IsSubsequence(a, b)
    decreases |b|, 1
  {
    if a != [] && a[0] == b[0] {
      // a[0] matches b[0]; the rest of a is a subsequence of b[1..] as well
      SubsequenceTail(a, b[1..]);
    }
  }

  /** Dropping the head of a subsequence keeps it a subsequence. */
  lemma {:induction false} SubsequenceTail(a: seq<Job>, b: seq<Job>)
    requires a != [] && IsSubsequence(a, b)
    ensures IsSubsequence(a[1..], b)
    decreases |b| + 1, 0
  {
    if a[0] == b[0] {
      if a[1..] != [] { SkipHead(a[1..], b); }
    } else {
      SubsequenceTail(a, b[1..]);
      if a[1..] != [] { SkipHead(a[1..], b); }
    }
  }

  /** A job appears in `AllJobs` exactly when some test file's matrix holds its flags. */
  lemma {:induction false} AllJobsMembership(files: seq<TestFile>, j: Job)
    ensures j in AllJobs(files) <==>
      exists i, k :: 0 <= i < |files| && 0 <= k < |files[i].matrix| && j == Job(files[i].filepath, files[i].matrix[k])
    decreases |files|
  {
    if files != [] {
      var init := files[..|files| - 1];
      AllJobsMembership(init, j);
      var last := |files| - 1;
      if j in MatrixJobs(files[last]) {
        var k :| 0 <= k < |MatrixJobs(files[last])| && MatrixJobs(files[last])[k] == j;
        assert j == Job(files[last].filepath, files[last].matrix[k]);
      }
      if exists i, k :: 0 <= i < |files| && 0 <= k < |files[i].matrix| && j == Job(files[i].filepath, files[i].matrix[k]) {
        var i, k :| 0 <= i < |files| && 0 <= k < |files[i].matrix| && j == Job(files[i].filepath, files[i].matrix[k]);
        if i < last {
          assert init[i] == files[i];
        } else {
          assert MatrixJobs(files[last])[k] == j;
        }
      }
    }
  }

  /** A flag list is selected exactly when it is in some test file's matrix and passes `Keep`. */
  lemma SelectedMembership(files: seq<TestFile>, j: Job)
    ensures j in Selected(files) <==>
      Keep(j.flags) &&
      exists i, k :: 0 <= i < |files| && 0 <= k < |files[i].matrix| && j == Job(files[i].filepath, files[i].matrix[k])
  {
    FilterMembership(AllJobs(files), j);
    AllJobsMembership(files, j);
  }

  /** The selected jobs come out in matrix order, test file by test file. */
  lemma SelectedInOrder(files: seq<TestFile>)
    ensures IsSubsequence(Selected(files), AllJobs(files))
  {
    FilterIsSubsequence(AllJobs(files));
  }

  /** Expanding a concatenation of test files expands each part. */
  lemma {:induction false} AllJobsConcat(a: seq<TestFile>, b: seq<TestFile>)
    ensures AllJobs(a + b) == AllJobs(a) + AllJobs(b)
    decreases |b|
  {
    if b == [] {
      assert a + b == a;
    } else {
      var init := b[..|b| - 1];
      assert (a + b)[..|a + b| - 1] == a + init;
      assert (a + b)[|a + b| - 1] == b[|b| - 1];
      AllJobsConcat(a, init);
    }
  }

  /** A test file with an empty matrix contributes no variants, wherever it stands in the list. */
  lemma EmptyMatrixAddsNothing(before: seq<TestFile>, after: seq<TestFile>, filepath: string)
    ensures Selected(before + [TestFile(filepath, [])] + after) == Selected(before + after)
  {
    var empty := TestFile(filepath, []);
    assert MatrixJobs(empty) == [];
    assert [empty][..0] == [];
    assert AllJobs([empty]) == [];
    AllJobsConcat(before + [empty], after);
    AllJobsConcat(before, [empty]);
    AllJobsConcat(before, after);
    assert AllJobs(before) + [] == AllJobs(before);
  }

  // ---------------------------------------------------------------------------
  // The loop

  /** The nested `for` loops of the orchestrator's main routine: one job per kept flag list,
      pushed in matrix order. Scheduling a job stands for pushing its materialization. */
  method SelectVariants(testFiles: seq<TestFile>) returns (jobs: seq<Job>)
    ensures jobs == Selected(testFiles)
  {
    jobs := [];
    var i := 0;
    while i < |testFiles|
      invariant 0 <= i <= |testFiles|
      invariant jobs == FilterJobs(AllJobs(testFiles[..i]))
    {
      var testFile := testFiles[i];
      ghost var before := AllJobs(testFiles[..i]);
      var k := 0;
      assert before + MatrixJobs(testFile)[..0] == before;
      while k < |testFile.matrix|
        invariant 0 <= k <= |testFile.matrix|
        invariant jobs == FilterJobs(before + MatrixJobs(testFile)[..k])
      {
        var flags := testFile.matrix[k];
        assert MatrixJobs(testFile)[..k + 1] == MatrixJobs(testFile)[..k] + [Job(testFile.filepath, flags)];
        assert before + MatrixJobs(testFile)[..k + 1] == (before + MatrixJobs(testFile)[..k]) + [Job(testFile.filepath, flags)];
        FilterConcat(before + MatrixJobs(testFile)[..k], [Job(testFile.filepath, flags)]);
        if
          || "solid" !in flags
          || "plausible.io" in flags
          || "vercel" in flags
          || "h3" in flags
        {
          k := k + 1;
          continue;
        }
        jobs := jobs + [Job(testFile.filepath, flags)];
        k := k + 1;
      }
      assert MatrixJobs(testFile)[..k] == MatrixJobs(testFile);
      assert testFiles[..i + 1][..i] == testFiles[..i];
      i := i + 1;
    }
    assert testFiles[..i] == testFiles;
  }
}
