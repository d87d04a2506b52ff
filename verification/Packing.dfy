/**
 Packing session transcripts into files of limited size: lossless, within the limit, and with as few files
 as possible.
 */
module Packing {
  const MAX_CHARS_PER_FILE: nat := 100_000
  const SEPARATOR := "\n\n"

  /** Transcripts joined by blank lines. */
  function Join(parts: seq<string>): string {
    if parts == [] then ""
    else if |parts| == 1 then parts[0]
    else Join(parts[..|parts| - 1]) + SEPARATOR + parts[|parts| - 1]
  }

  /** Joining is associative. */
  lemma {:induction false} JoinGroups(before: seq<string>, group: seq<string>)
    requires before != [] && group != []
    ensures Join(before + group) == Join(before) + SEPARATOR + Join(group)
  {
    var all := before + group;
    var last := group[|group| - 1];
    assert all[..|all| - 1] == before + group[..|group| - 1];
    if |group| == 1 {
      assert before + group[..0] == before;
    } else {
      JoinGroups(before, group[..|group| - 1]);
      assert (Join(before) + SEPARATOR) + Join(group[..|group| - 1]) + SEPARATOR + last
          == (Join(before) + SEPARATOR) + (Join(group[..|group| - 1]) + SEPARATOR + last);
    }
  }

  lemma JoinOne(parts: seq<string>, part: string)
    ensures Join(parts + [part]) == (if parts == [] then part else Join(parts) + SEPARATOR + part)
  {
    assert (parts + [part])[..|parts|] == parts;
  }

  /** A file may hold some transcripts in a row: one alone, whatever its size, or several within the limit. */
  predicate Fits(parts: seq<string>, limit: nat) {
    |parts| == 1 || (parts != [] && |Join(parts)| <= limit)
  }

  lemma {:induction false} PrefixIsShorter(parts: seq<string>, k: nat)
    requires k <= |parts|
    ensures |Join(parts[..k])| <= |Join(parts)|
    decreases |parts|
  {
    if k == |parts| {
      assert parts[..k] == parts;
    } else {
      var front := parts[..|parts| - 1];
      PrefixIsShorter(front, k);
      assert front[..k] == parts[..k];
      JoinOne(front, parts[|parts| - 1]);
      assert parts == front + [parts[|parts| - 1]];
    }
  }

  lemma SuffixIsShorter(parts: seq<string>, k: nat)
    requires k <= |parts|
    ensures |Join(parts[k..])| <= |Join(parts)|
  {
    if 0 < k < |parts| {
      JoinGroups(parts[..k], parts[k..]);
      assert parts == parts[..k] + parts[k..];
    } else if k == 0 {
      assert parts[k..] == parts;
    }
  }

  lemma SliceOfSlice(s: seq<string>, a: nat, b: nat, i: nat, j: nat)
    requires a <= b <= |s| && i <= j <= b - a
    ensures s[a..b][..j][i..] == s[a + i..a + j]
  {
    var left, right := s[a..b][..j][i..], s[a + i..a + j];
    assert |left| == |right|;
    assert forall k :: 0 <= k < |left| ==> left[k] == s[a + i + k] == right[k];
  }

  /** What fits fits in part. */
  lemma PartFits(transcripts: seq<string>, limit: nat, a: nat, b: nat, a': nat, b': nat)
    requires a <= a' < b' <= b <= |transcripts| && Fits(transcripts[a..b], limit)
    ensures Fits(transcripts[a'..b'], limit)
  {
    hide Join;
    if b' - a' > 1 {
      var parts := transcripts[a..b];
      PrefixIsShorter(parts, b' - a);
      SuffixIsShorter(parts[..b' - a], a' - a);
      SliceOfSlice(transcripts, a, b, a' - a, b' - a);
    }
  }

  // ---------------------------------------------------------------------------
  // Partitions
  // ---------------------------------------------------------------------------

  /** The cuts of a partition that keeps the order and respects the limit. */
  ghost predicate Partition(transcripts: seq<string>, cuts: seq<nat>, limit: nat) {
    && cuts != [] && cuts[0] == 0 && cuts[|cuts| - 1] == |transcripts|
    && (forall i :: 0 <= i < |cuts| - 1 ==> Part(transcripts, cuts, i, limit))
  }

  ghost predicate Part(transcripts: seq<string>, cuts: seq<nat>, i: nat, limit: nat)
    requires i < |cuts| - 1
  {
    cuts[i] < cuts[i + 1] <= |transcripts| && Fits(transcripts[cuts[i]..cuts[i + 1]], limit)
  }

  /** No file could have taken the next transcript as well. */
  ghost predicate Greedy(transcripts: seq<string>, cuts: seq<nat>, limit: nat) {
    forall i :: 0 <= i < |cuts| - 1 ==> Full(transcripts, cuts, i, limit)
  }

  ghost predicate Full(transcripts: seq<string>, cuts: seq<nat>, i: nat, limit: nat)
    requires i < |cuts| - 1
  {
    cuts[i] < cuts[i + 1] < |transcripts| ==> !Fits(transcripts[cuts[i]..cuts[i + 1] + 1], limit)
  }

  /** After as many files a greedy partition is never behind another. */
  lemma {:induction false} GreedyStaysAhead(transcripts: seq<string>, greedy: seq<nat>, other: seq<nat>, limit: nat,
                                            k: nat)
    requires Partition(transcripts, greedy, limit) && Greedy(transcripts, greedy, limit)
             && Partition(transcripts, other, limit)
    requires k < |greedy| && k < |other|
    ensures other[k] <= greedy[k]
  {
    hide Join, Fits;
    if k > 0 {
      GreedyStaysAhead(transcripts, greedy, other, limit, k - 1);
      assert Part(transcripts, greedy, k - 1, limit) && Part(transcripts, other, k - 1, limit)
             && Full(transcripts, greedy, k - 1, limit);
      var a, b := other[k - 1], other[k];
      if greedy[k] < b {
        PartFits(transcripts, limit, a, b, greedy[k - 1], greedy[k] + 1);
      }
    }
  }

  /** No partition under the same rule has fewer files. */
  lemma GreedyIsOptimal(transcripts: seq<string>, greedy: seq<nat>, other: seq<nat>, limit: nat)
    requires Partition(transcripts, greedy, limit) && Greedy(transcripts, greedy, limit)
             && Partition(transcripts, other, limit)
    ensures |greedy| <= |other|
  {
    if |other| < |greedy| {
      var k := |other| - 1;
      assert Part(transcripts, greedy, k, limit);
      GreedyStaysAhead(transcripts, greedy, other, limit, k);
    }
  }

  // ---------------------------------------------------------------------------
  // The loop
  // ---------------------------------------------------------------------------

  /** The file holds the transcripts between two cuts. */
  ghost predicate IsFile(transcripts: seq<string>, cuts: seq<nat>, i: nat, file: string)
    requires i < |cuts| - 1
  {
    cuts[i] < cuts[i + 1] <= |transcripts| && file == Join(transcripts[cuts[i]..cuts[i + 1]])
  }

  /** The files written so far are the parts of the transcripts between the cuts. */
  ghost predicate Written(transcripts: seq<string>, files: seq<string>, cuts: seq<nat>, limit: nat) {
    && |cuts| == |files| + 1 && cuts[0] == 0 && cuts[|files|] <= |transcripts|
    && (forall i :: 0 <= i < |files| ==> Part(transcripts, cuts, i, limit))
    && (forall i :: 0 <= i < |files| ==> Full(transcripts, cuts, i, limit))
    && (forall i :: 0 <= i < |files| ==> IsFile(transcripts, cuts, i, files[i]))
    && Join(files) == Join(transcripts[..cuts[|files|]])
  }

  lemma WriteOne(transcripts: seq<string>, files: seq<string>, cuts: seq<nat>, limit: nat, end: nat)
    requires Written(transcripts, files, cuts, limit) && cuts[|files|] < end <= |transcripts|
    requires Fits(transcripts[cuts[|files|]..end], limit)
    requires end < |transcripts| ==> !Fits(transcripts[cuts[|files|]..end + 1], limit)
    ensures Written(transcripts, files + [Join(transcripts[cuts[|files|]..end])], cuts + [end], limit)
  {
    hide Join, Fits;
    var start := cuts[|files|];
    var file := Join(transcripts[start..end]);
    var files', cuts' := files + [file], cuts + [end];
    forall i | 0 <= i < |files'|
      ensures Part(transcripts, cuts', i, limit) && Full(transcripts, cuts', i, limit)
              && IsFile(transcripts, cuts', i, files'[i])
    {
      if i < |files| {
        assert Part(transcripts, cuts, i, limit) && Full(transcripts, cuts, i, limit)
               && IsFile(transcripts, cuts, i, files[i]);
        assert cuts'[i] == cuts[i] && cuts'[i + 1] == cuts[i + 1];
      }
    }
    assert Join(files') == Join(transcripts[..end]) by {
      JoinOne(files, file);
      if files == [] {
        assert transcripts[start..end] == transcripts[..end];
      } else {
        assert Part(transcripts, cuts, |files| - 1, limit);
        JoinGroups(transcripts[..start], transcripts[start..end]);
        assert transcripts[..start] + transcripts[start..end] == transcripts[..end];
      }
    }
    hide Part, Full, IsFile;
  }

  /**
   One transcript of the splitting loop. What was gathered is written at most once, even before an
   oversized transcript: by then the first test has emptied it.
   */
  method TakeNext(transcripts: seq<string>, limit: nat, k: nat, files: seq<string>, current: string,
                  ghost cuts: seq<nat>)
    returns (files': seq<string>, current': string, ghost cuts': seq<nat>)
    requires k < |transcripts| && |cuts| == |files| + 1 && transcripts[k] != ""
    requires Written(transcripts, files, cuts, limit) && Holds(transcripts, cuts[|files|], k, current, limit)
    ensures |cuts'| == |files'| + 1
    ensures files' == files + (if current != "" && |current| + |transcripts[k]| + 2 > limit then [current] else [])
                      + (if |transcripts[k]| > limit then [transcripts[k]] else [])
    ensures |transcripts[k]| > limit <==> current' == ""
    ensures Written(transcripts, files', cuts', limit) && Holds(transcripts, cuts'[|files'|], k + 1, current', limit)
  {
    hide Written, Join, Fits, Holds, Part, Full, IsFile;
    files', current', cuts' := files, current, cuts;
    var transcript := transcripts[k];
    NextCharacters(transcripts, cuts[|files|], k, current, limit);
    if |current'| > 0 && |current'| + |transcript| + 2 > limit {
      WriteOne(transcripts, files', cuts', limit, k);
      files', cuts' := files' + [current'], cuts' + [k];
      current' := "";
    }
    if |transcript| > limit {
      if |current'| > 0 {
        assert false;
      }
      Alone(transcripts, limit, k);
      WriteOne(transcripts, files', cuts', limit, k + 1);
      files', cuts' := files' + [transcript], cuts' + [k + 1];
    } else {
      assert "" + "" + transcript == transcript;
      current' := current' + (if current' != "" then SEPARATOR else "") + transcript;
    }
  }

  /**
   The splitting loop. The files joined by blank lines are the transcripts joined by blank lines; each
   is within the limit or holds a single transcript; no partition that keeps the order and the rule has
   fewer files; and the flush before an oversized transcript never happens.
   */
  method Pack(transcripts: seq<string>, limit: nat) returns (files: seq<string>, ghost cuts: seq<nat>)
    requires forall t :: t in transcripts ==> t != ""
    ensures Partition(transcripts, cuts, limit) && |cuts| == |files| + 1
    ensures forall i :: 0 <= i < |files| ==> IsFile(transcripts, cuts, i, files[i])
    ensures Join(files) == Join(transcripts)
    ensures forall other :: Partition(transcripts, other, limit) ==> |cuts| <= |other|
  {
    files, cuts := [], [0];
    var current := "";
    var k := 0;
    ghost var start := 0;
    while k < |transcripts|
      invariant k <= |transcripts| && |cuts| == |files| + 1 && start == cuts[|files|]
      invariant Written(transcripts, files, cuts, limit) && Holds(transcripts, start, k, current, limit)
    {
      hide Written, Holds;
      assert transcripts[k] in transcripts;
      files, current, cuts := TakeNext(transcripts, limit, k, files, current, cuts);
      start := cuts[|files|];
      k := k + 1;
    }
    if |current| > 0 {
      hide Join, Fits, Written;
      WriteOne(transcripts, files, cuts, limit, k);
      files, cuts := files + [current], cuts + [k];
    }
    hide Join, Fits, Part, IsFile;
    Finished(transcripts, files, cuts, limit);
  }

  /** The content gathered for the next file. */
  ghost predicate Holds(transcripts: seq<string>, start: nat, k: nat, current: string, limit: nat) {
    && start <= k <= |transcripts| && current == Join(transcripts[start..k]) && (current == "" <==> start == k)
    && (current != "" ==> Fits(transcripts[start..k], limit) && |current| <= limit)
  }

  /** What taking the next transcript into the file would make of it. */
  lemma NextCharacters(transcripts: seq<string>, start: nat, k: nat, current: string, limit: nat)
    requires Holds(transcripts, start, k, current, limit) && k < |transcripts| && transcripts[k] != ""
    ensures start <= k && current == Join(transcripts[start..k]) && (current == "" <==> start == k)
    ensures current != "" ==> Fits(transcripts[start..k], limit) && |current| <= limit
    ensures Holds(transcripts, k + 1, k + 1, "", limit)
    ensures var t := transcripts[k];
            && (current != "" && |current| + |t| + 2 > limit ==> !Fits(transcripts[start..k + 1], limit))
            && (|t| <= limit ==> Holds(transcripts, k, k + 1, t, limit))
            && (current == "" || |current| + |t| + 2 <= limit ==>
                  |t| <= limit ==>
                      Holds(transcripts, start, k + 1, current + (if current != "" then SEPARATOR else "") + t, limit))
  {
    assert transcripts[start..k + 1] == transcripts[start..k] + [transcripts[k]];
    JoinOne(transcripts[start..k], transcripts[k]);
    JoinOne([], transcripts[k]);
    assert [] + [transcripts[k]] == [transcripts[k]] == transcripts[k..k + 1];
    assert Join([]) == "" && transcripts[k + 1..k + 1] == [];
    hide Join;
  }

  lemma Finished(transcripts: seq<string>, files: seq<string>, cuts: seq<nat>, limit: nat)
    requires Written(transcripts, files, cuts, limit) && cuts[|files|] == |transcripts|
    ensures Partition(transcripts, cuts, limit) && Join(files) == Join(transcripts)
    ensures forall i :: 0 <= i < |files| ==> IsFile(transcripts, cuts, i, files[i])
    ensures forall other :: Partition(transcripts, other, limit) ==> |cuts| <= |other|
  {
    hide Join, Part, Full, IsFile;
    assert transcripts[..|transcripts|] == transcripts;
    forall other | Partition(transcripts, other, limit) ensures |cuts| <= |other| {
      GreedyIsOptimal(transcripts, cuts, other, limit);
    }
  }

  /** An oversized transcript shares its file with nothing. */
  lemma Alone(transcripts: seq<string>, limit: nat, k: nat)
    requires k < |transcripts| && |transcripts[k]| > limit
    ensures Fits(transcripts[k..k + 1], limit) && Join(transcripts[k..k + 1]) == transcripts[k]
    ensures k + 1 < |transcripts| ==> !Fits(transcripts[k..k + 2], limit)
  {
    assert transcripts[k..k + 1] == [transcripts[k]];
    if k + 1 < |transcripts| {
      assert transcripts[k..k + 2] == [transcripts[k], transcripts[k + 1]];
      JoinOne([transcripts[k]], transcripts[k + 1]);
      assert [transcripts[k], transcripts[k + 1]] == [transcripts[k]] + [transcripts[k + 1]];
    }
  }

  /** The script's own limit. */
  method SplitTranscripts(transcripts: seq<string>) returns (files: seq<string>, ghost cuts: seq<nat>)
    requires forall t :: t in transcripts ==> t != ""
    ensures Partition(transcripts, cuts, MAX_CHARS_PER_FILE) && |cuts| == |files| + 1
            && Join(files) == Join(transcripts)
    ensures forall other :: Partition(transcripts, other, MAX_CHARS_PER_FILE) ==> |cuts| <= |other|
  {
    files, cuts := Pack(transcripts, MAX_CHARS_PER_FILE);
  }
}
