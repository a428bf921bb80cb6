/**
 * `splitIntoChunks` (Translation.kt:117-174): partitions the lines to be
 * translated into groups, one request each. A greedy pass aims to keep each
 * group's '\n'-join within the request limit, lengths counted in UTF-16 code
 * units as Kotlin does, and a second pass rebalances the last two groups.
 * A lone long line, and the last group after rebalancing, can exceed the
 * limit. `ChunksOf` is the specification; `SplitIntoChunks` is the loop the
 * source runs, proved equal to it.
 */
module Chunking {
  import opened KotlinStd

  /** `maxLength` (Translation.kt:121). */
  const MaxLength: int := 1800

  /** `sumOf { it.length } + (size - 1)`: the length of the '\n'-join; -1 for no lines. */
  function TotalLength(lines: seq<string>): (n: int)
    ensures lines != [] ==> n == Length(JoinLines(lines))
    ensures lines == [] ==> n == -1
  {
    if lines != [] then JoinLinesLength(lines); SumLengths(lines) + (|lines| - 1)
    else SumLengths(lines) + (|lines| - 1)
  }

  /** The '\n'-join of `chunk` is within the limit. */
  predicate Fits(chunk: seq<string>)
  {
    TotalLength(chunk) <= MaxLength
  }

  /** Only a lone line may exceed the limit: the bound the greedy pass keeps. */
  predicate WithinLimit(chunk: seq<string>)
  {
    |chunk| >= 2 ==> Fits(chunk)
  }

  // ---------------------------------------------------------------------
  // Specification

  /**
   * The greedy pass (Translation.kt:128-144) from the loop state
   * (`chunks`, `currentChunk`, `currentLength`) over the lines still to come.
   * As in the source, a line that starts a new chunk keeps the +1 it was
   * charged for a separator.
   */
  function GreedyFrom(rest: seq<string>, chunks: seq<seq<string>>, current: seq<string>, currentLength: int): (r: seq<seq<string>>)
    ensures |chunks| <= |r| <= |chunks| + (if current == [] then 0 else 1) + |rest|
    ensures |r| > |chunks| <==> current != [] || rest != []
    decreases |rest|
  {
    if rest == [] then
      if current != [] then chunks + [current] else chunks
    else
      var item := rest[0];
      var itemLength := Length(item) + (if current == [] then 0 else 1);
      if currentLength + itemLength > MaxLength && current != [] then
        GreedyFrom(rest[1..], chunks + [current], [item], itemLength)
      else
        GreedyFrom(rest[1..], chunks, current + [item], currentLength + itemLength)
  }

  function Greedy(lines: seq<string>): seq<seq<string>>
  {
    GreedyFrom(lines, [], [], 0)
  }

  /** The split loop of Translation.kt:157-164 from position `i`. */
  function SplitIndexFrom(combined: seq<string>, i: nat, firstHalfLength: int, halfSize: int): (k: nat)
    requires i <= |combined|
    ensures k == 0 || i <= k < |combined|
    ensures i <= halfSize ==> k <= halfSize
    decreases |combined| - i
  {
    if i == |combined| then 0
    else
      var itemLength := Length(combined[i]) + (if i > 0 then 1 else 0);
      if firstHalfLength + itemLength > MaxLength || i >= halfSize then i
      else SplitIndexFrom(combined, i + 1, firstHalfLength + itemLength, halfSize)
  }

  function SplitIndex(combined: seq<string>): (k: nat)
    ensures k <= |combined|
  {
    SplitIndexFrom(combined, 0, 0, |combined| / 2)
  }

  /** The rebalancing condition of Translation.kt:147-151. */
  predicate Rebalances(chunks: seq<seq<string>>)
  {
    |chunks| > 1 && |chunks[|chunks| - 1]| < |chunks[|chunks| - 2]| / 3
  }

  /** The second pass (Translation.kt:146-171). */
  function Rebalance(chunks: seq<seq<string>>): seq<seq<string>>
  {
    if Rebalances(chunks) then
      var combined := chunks[|chunks| - 2] + chunks[|chunks| - 1];
      var k := SplitIndex(combined);
      chunks[..|chunks| - 2] + [combined[..k], combined[k..]]
    else chunks
  }

  /** What `splitIntoChunks(lines)` returns. */
  function ChunksOf(lines: seq<string>): seq<seq<string>>
  {
    if TotalLength(lines) <= MaxLength then [lines] else Rebalance(Greedy(lines))
  }

  // ---------------------------------------------------------------------
  // The source's loops

  method SplitIntoChunks(list: seq<string>) returns (chunks: seq<seq<string>>)
    ensures chunks == ChunksOf(list)
    ensures Flatten(chunks) == list
    ensures TotalLength(list) <= MaxLength ==> chunks == [list]
  {
    ChunksOfPartition(list);
    var totalLength := SumLengths(list) + (|list| - 1);
    if totalLength <= MaxLength {
      return [list];
    }
    chunks := GreedyPass(list);
    chunks := BalanceLastTwo(chunks);
  }

  /** The first pass of `splitIntoChunks` (Translation.kt:118-144). */
  method GreedyPass(list: seq<string>) returns (chunks: seq<seq<string>>)
    ensures chunks == Greedy(list)
  {
    chunks := [];
    var currentChunk: seq<string> := [];
    var currentLength := 0;
    for idx := 0 to |list|
      invariant GreedyFrom(list[idx..], chunks, currentChunk, currentLength) == Greedy(list)
    {
      var item := list[idx];
      assert list[idx..][0] == item && list[idx..][1..] == list[idx + 1..];
      var itemLength := Length(item) + (if currentChunk == [] then 0 else 1);
      ghost var flush := currentLength + itemLength > MaxLength && currentChunk != [];
      assert GreedyFrom(list[idx..], chunks, currentChunk, currentLength) ==
        if flush then GreedyFrom(list[idx + 1..], chunks + [currentChunk], [item], itemLength)
        else GreedyFrom(list[idx + 1..], chunks, currentChunk + [item], currentLength + itemLength);
      if currentLength + itemLength > MaxLength && currentChunk != [] {
        chunks := chunks + [currentChunk];
        currentChunk := [];
        currentLength := 0;
      }
      assert flush ==> currentChunk + [item] == [item];
      currentChunk := currentChunk + [item];
      currentLength := currentLength + itemLength;
    }
    assert list[|list|..] == [];
    if currentChunk != [] {
      chunks := chunks + [currentChunk];
    }
  }

  /** The second pass of `splitIntoChunks` (Translation.kt:146-171). */
  method BalanceLastTwo(greedy: seq<seq<string>>) returns (chunks: seq<seq<string>>)
    ensures chunks == Rebalance(greedy)
  {
    chunks := greedy;
    if |chunks| > 1 {
      var lastChunk := chunks[|chunks| - 1];
      chunks := chunks[..|chunks| - 1];
      var secondLastChunk := chunks[|chunks| - 1];
      chunks := chunks[..|chunks| - 1];
      assert chunks == greedy[..|greedy| - 2];

      if |lastChunk| < |secondLastChunk| / 3 {
        var combined := secondLastChunk + lastChunk;
        var halfSize := |combined| / 2;
        var firstHalfLength := 0;
        var splitIndex := 0;
        for i := 0 to |combined|
          invariant SplitIndexFrom(combined, i, firstHalfLength, halfSize) == SplitIndex(combined)
          invariant splitIndex == 0
        {
          var itemLength := Length(combined[i]) + (if i > 0 then 1 else 0);
          if firstHalfLength + itemLength > MaxLength || i >= halfSize {
            splitIndex := i;
            break;
          }
          firstHalfLength := firstHalfLength + itemLength;
        }
        assert splitIndex == SplitIndex(combined);
        chunks := chunks + [combined[..splitIndex]];
        chunks := chunks + [combined[splitIndex..]];
      } else {
        chunks := chunks + [secondLastChunk];
        chunks := chunks + [lastChunk];
        assert chunks == greedy;
      }
    }
  }

  // ---------------------------------------------------------------------
  // Properties

  /** The greedy pass emits the lines seen so far, in order. */
  lemma {:induction false} GreedyFromFlatten(rest: seq<string>, chunks: seq<seq<string>>, current: seq<string>, currentLength: int)
    ensures Flatten(GreedyFrom(rest, chunks, current, currentLength)) == Flatten(chunks) + current + rest
    decreases |rest|
  {
    if rest == [] {
      if current != [] {
        FlattenSnoc(chunks, current);
      }
      assert Flatten(chunks) + current + rest == Flatten(chunks) + current;
    } else {
      var item := rest[0];
      var itemLength := Length(item) + (if current == [] then 0 else 1);
      Regroup(Flatten(chunks), current, rest);
      if currentLength + itemLength > MaxLength && current != [] {
        assert GreedyFrom(rest, chunks, current, currentLength)
            == GreedyFrom(rest[1..], chunks + [current], [item], itemLength);
        GreedyFromFlatten(rest[1..], chunks + [current], [item], itemLength);
        FlattenSnoc(chunks, current);
      } else {
        assert GreedyFrom(rest, chunks, current, currentLength)
            == GreedyFrom(rest[1..], chunks, current + [item], currentLength + itemLength);
        GreedyFromFlatten(rest[1..], chunks, current + [item], currentLength + itemLength);
      }
    }
  }

  lemma FlattenSnoc<T>(chunks: seq<seq<T>>, c: seq<T>)
    ensures Flatten(chunks + [c]) == Flatten(chunks) + c
  {
    assert (chunks + [c])[..|chunks|] == chunks;
  }

  lemma Regroup<T>(x: seq<T>, y: seq<T>, rest: seq<T>)
    requires rest != []
    ensures x + y + [rest[0]] + rest[1..] == x + y + rest
    ensures x + (y + [rest[0]]) + rest[1..] == x + y + rest
  {
    assert [rest[0]] + rest[1..] == rest;
  }

  /** Every chunk is non-empty, and only a lone line may exceed the limit. */
  predicate GreedyShaped(chunks: seq<seq<string>>)
  {
    forall i :: 0 <= i < |chunks| ==> chunks[i] != [] && WithinLimit(chunks[i])
  }

  /** The loop state the greedy pass keeps: emitted chunks are non-empty, and within the limit unless they are a lone line. */
  ghost predicate GreedyState(chunks: seq<seq<string>>, current: seq<string>, currentLength: int)
  {
    && GreedyShaped(chunks)
    && currentLength >= 0
    && (current != [] ==> TotalLength(current) <= currentLength)
    && (|current| >= 2 ==> currentLength <= MaxLength)
  }

  lemma {:induction false} GreedyFromChunks(rest: seq<string>, chunks: seq<seq<string>>, current: seq<string>, currentLength: int)
    requires GreedyState(chunks, current, currentLength)
    ensures GreedyShaped(GreedyFrom(rest, chunks, current, currentLength))
    decreases |rest|
  {
    if rest != [] {
      var item := rest[0];
      var itemLength := Length(item) + (if current == [] then 0 else 1);
      if currentLength + itemLength > MaxLength && current != [] {
        FlushKeepsState(chunks, current, currentLength, item);
        assert GreedyFrom(rest, chunks, current, currentLength) == GreedyFrom(rest[1..], chunks + [current], [item], itemLength);
        GreedyFromChunks(rest[1..], chunks + [current], [item], itemLength);
      } else {
        ExtendKeepsState(chunks, current, currentLength, item);
        assert GreedyFrom(rest, chunks, current, currentLength) == GreedyFrom(rest[1..], chunks, current + [item], currentLength + itemLength);
        GreedyFromChunks(rest[1..], chunks, current + [item], currentLength + itemLength);
      }
    }
  }

  /** A flush emits a chunk within the limit unless it is a lone line, and starts a chunk of one line. */
  lemma FlushKeepsState(chunks: seq<seq<string>>, current: seq<string>, currentLength: int, item: string)
    requires GreedyState(chunks, current, currentLength) && current != []
    ensures GreedyState(chunks + [current], [item], Length(item) + 1)
  {
    assert SumLengths([item]) == Length(item) by { assert [item][1..] == []; }
    var next := chunks + [current];
    forall i | 0 <= i < |next| ensures next[i] != [] && WithinLimit(next[i]) {
      if i < |chunks| { assert next[i] == chunks[i]; }
    }
  }

  /** Adding a line that fits keeps the chunk under construction within the limit. */
  lemma ExtendKeepsState(chunks: seq<seq<string>>, current: seq<string>, currentLength: int, item: string)
    requires GreedyState(chunks, current, currentLength)
    requires var itemLength := Length(item) + (if current == [] then 0 else 1);
             !(currentLength + itemLength > MaxLength && current != [])
    ensures GreedyState(chunks, current + [item], currentLength + Length(item) + (if current == [] then 0 else 1))
  {
    assert SumLengths([item]) == Length(item) by { assert [item][1..] == []; }
    SumLengthsAppend(current, [item]);
    assert current == [] ==> current + [item] == [item];
  }

  /** Every chunk of the greedy pass is non-empty, and one of two or more lines fits the limit. */
  lemma GreedyChunks(lines: seq<string>)
    ensures GreedyShaped(Greedy(lines))
  {
    assert GreedyState([], [], 0);
    GreedyFromChunks(lines, [], [], 0);
    assert Greedy(lines) == GreedyFrom(lines, [], [], 0);
  }

  /** A line longer than the limit is a chunk of its own. */
  lemma LongLineIsAlone(chunk: seq<string>, i: nat)
    requires WithinLimit(chunk) && i < |chunk| && Length(chunk[i]) > MaxLength
    ensures chunk == [chunk[i]]
  {
  }

  /** The split loop stops by the middle, and what it keeps before the split fits. */
  lemma {:induction false} SplitIndexFromBounds(combined: seq<string>, i: nat, firstHalfLength: int, halfSize: int)
    requires i <= halfSize < |combined|
    requires i == 0 ==> firstHalfLength == 0
    requires i > 0 ==> firstHalfLength == TotalLength(combined[..i]) && firstHalfLength <= MaxLength
    ensures var k := SplitIndexFrom(combined, i, firstHalfLength, halfSize);
      i <= k <= halfSize && (k > 0 ==> Fits(combined[..k]))
    decreases |combined| - i
  {
    var itemLength := Length(combined[i]) + (if i > 0 then 1 else 0);
    if !(firstHalfLength + itemLength > MaxLength || i >= halfSize) {
      assert combined[..i + 1] == combined[..i] + [combined[i]];
      SumLengthsAppend(combined[..i], [combined[i]]);
      SplitIndexFromBounds(combined, i + 1, firstHalfLength + itemLength, halfSize);
    }
  }

  /**
   * Rebalancing of greedy chunks: the chunk count, the lines and every chunk
   * but the last two stay; when it applies, the two rebuilt chunks are
   * non-empty, the first fits the limit and holds at most half of the lines.
   */
  lemma RebalanceProperties(chunks: seq<seq<string>>)
    requires GreedyShaped(chunks)
    ensures var r := Rebalance(chunks);
      && |r| == |chunks|
      && Flatten(r) == Flatten(chunks)
      && (forall i :: 0 <= i < |r| ==> r[i] != [])
      && (!Rebalances(chunks) ==> r == chunks)
      && (Rebalances(chunks) ==>
            && r[..|r| - 2] == chunks[..|chunks| - 2]
            && r[|r| - 2] + r[|r| - 1] == chunks[|chunks| - 2] + chunks[|chunks| - 1]
            && Fits(r[|r| - 2])
            && |r[|r| - 2]| <= |r[|r| - 1]|)
  {
    if Rebalances(chunks) {
      var n := |chunks|;
      var last, secondLast := chunks[n - 1], chunks[n - 2];
      var combined := secondLast + last;
      assert |secondLast| >= 6;
      RebalanceSplitBounds(secondLast, last);
      var k := SplitIndex(combined);
      var p := chunks[..n - 2];
      assert chunks == p + [secondLast, last];
      assert Rebalance(chunks) == p + [combined[..k], combined[k..]];
      ResplitKeepsLines(p, secondLast, last, k);
    }
  }

  /** Cutting the concatenation of the last two lists elsewhere keeps the flattened whole. */
  lemma ResplitKeepsLines<T>(p: seq<seq<T>>, a: seq<T>, b: seq<T>, k: nat)
    requires k <= |a + b|
    ensures Flatten(p + [(a + b)[..k], (a + b)[k..]]) == Flatten(p + [a, b])
  {
    var combined := a + b;
    FlattenTwoMore(p, a, b);
    FlattenTwoMore(p, combined[..k], combined[k..]);
    assert combined[..k] + combined[k..] == combined;
  }

  lemma FlattenTwoMore<T>(p: seq<seq<T>>, x: seq<T>, y: seq<T>)
    ensures Flatten(p + [x, y]) == Flatten(p) + (x + y)
  {
    assert p + [x, y] == (p + [x]) + [y];
    FlattenSnoc(p + [x], y);
    FlattenSnoc(p, x);
  }

  /** The split of a rebalanced pair whose first chunk fits keeps at least one line, and at most half, before it. */
  lemma RebalanceSplitBounds(secondLast: seq<string>, last: seq<string>)
    requires |secondLast| >= 6 && last != [] && Fits(secondLast)
    ensures var combined := secondLast + last;
            var k := SplitIndex(combined);
            1 <= k <= |combined| / 2 && Fits(combined[..k])
  {
    var combined := secondLast + last;
    var half := |combined| / 2;
    assert combined[0] == secondLast[0] && half >= 3;
    assert combined[..1] == [combined[0]];
    assert SumLengths([combined[0]]) == Length(combined[0]) by { assert [combined[0]][1..] == []; }
    SplitIndexFromBounds(combined, 1, Length(combined[0]), half);
    assert SplitIndex(combined) == SplitIndexFrom(combined, 1, Length(combined[0]), half);
  }

  lemma FlattenPair<T>(a: seq<T>, b: seq<T>)
    ensures Flatten([a, b]) == a + b
  {
    assert [a, b][..1] == [a] && [a, b][1] == b;
    assert [a][..0] == [] && [a][0] == a;
    assert Flatten([a]) == Flatten<T>([]) + a;
  }

  /** Concatenating the chunks in order gives back the input: nothing is dropped, duplicated or reordered. */
  lemma ChunksOfPartition(lines: seq<string>)
    ensures Flatten(ChunksOf(lines)) == lines
  {
    if TotalLength(lines) <= MaxLength {
      assert [lines][..0] == [];
    } else {
      GreedyFromFlatten(lines, [], [], 0);
      assert Flatten<string>([]) == [];
      GreedyChunks(lines);
      RebalanceProperties(Greedy(lines));
    }
  }

  /**
   * The shape of the result for a non-empty input: every chunk is non-empty;
   * every chunk but the last has a join within the limit unless it is a lone
   * line; so has the last one unless rebalancing rebuilt it.
   */
  lemma ChunksOfShape(lines: seq<string>)
    requires lines != []
    ensures var r := ChunksOf(lines);
      && |r| >= 1
      && (forall i :: 0 <= i < |r| ==> r[i] != [])
      && (forall i :: 0 <= i < |r| - 1 ==> WithinLimit(r[i]))
      && (TotalLength(lines) <= MaxLength || !Rebalances(Greedy(lines)) ==> WithinLimit(r[|r| - 1]))
  {
    if TotalLength(lines) > MaxLength {
      GreedyChunks(lines);
      GreedyFromFlatten(lines, [], [], 0);
      assert Flatten<string>([]) == [];
      assert Greedy(lines) != [];
      RebalanceProperties(Greedy(lines));
      var g, r := Greedy(lines), ChunksOf(lines);
      if Rebalances(g) {
        forall i | 0 <= i < |r| - 1 ensures WithinLimit(r[i]) {
          if i < |r| - 2 {
            assert r[i] == r[..|r| - 2][i] == g[..|g| - 2][i];
          }
        }
      }
    }
  }

  /**
   * Rebalancing looks at line counts only, so the rebuilt last chunk may
   * exceed the limit: six lines of 290 code units followed by one of 1700
   * are split by the greedy pass into six lines and one, and then rebuilt
   * into three lines and four, the last of which joins to 2573 code units.
   */
  lemma RebalancedLastChunkMayExceed(a: string, b: string)
    requires Length(a) == 290 && Length(b) == 1700
    ensures Greedy([a, a, a, a, a, a, b]) == [[a, a, a, a, a, a], [b]]
    ensures ChunksOf([a, a, a, a, a, a, b]) == [[a, a, a], [a, a, a, b]]
    ensures TotalLength([a, a, a, b]) == 2573 && !Fits([a, a, a, b])
  {
    var six := [a, a, a, a, a, a];
    WitnessLengths(a, b);
    SumLengthsAppend(six, [b]);
    assert six + [b] == [a, a, a, a, a, a, b];
    assert !Fits([a, a, a, a, a, a, b]);
    WitnessGreedyStart(a, b);
    WitnessGreedyEnd(a, b);
    assert Rebalances([six, [b]]);
    WitnessSplitIndex(a, b);
    var combined := six + [b];
    assert combined[..3] == [a, a, a] && combined[3..] == [a, a, a, b];
    assert [six, [b]][..0] == [];
  }

  /** The first three steps of the greedy pass over the example: the lines join one chunk. */
  lemma WitnessGreedyStart(a: string, b: string)
    requires Length(a) == 290 && Length(b) == 1700
    ensures Greedy([a, a, a, a, a, a, b]) == GreedyFrom([a, a, a, b], [], [a, a, a], 872)
  {
    assert [a, a, a, a, a, a, b][0] == a && [a, a, a, a, a, a, b][1..] == [a, a, a, a, a, b];
    assert [a, a, a, a, a, b][0] == a && [a, a, a, a, a, b][1..] == [a, a, a, a, b];
    assert [] + [a] == [a] && [a] + [a] == [a, a];
    calc {
      Greedy([a, a, a, a, a, a, b]);
      GreedyFrom([a, a, a, a, a, a, b], [], [], 0);
      GreedyFrom([a, a, a, a, a, b], [], [a], 290);
      GreedyFrom([a, a, a, a, b], [], [a, a], 581);
    }
    WitnessGreedyThird(a, b);
  }

  lemma WitnessGreedyThird(a: string, b: string)
    requires Length(a) == 290 && Length(b) == 1700
    ensures GreedyFrom([a, a, a, a, b], [], [a, a], 581) == GreedyFrom([a, a, a, b], [], [a, a, a], 872)
  {
    assert [a, a, a, a, b][0] == a && [a, a, a, a, b][1..] == [a, a, a, b];
    assert [a, a] + [a] == [a, a, a];
  }

  /** The remaining steps: three more lines fit, the long line starts a chunk of its own. */
  lemma WitnessGreedyEnd(a: string, b: string)
    requires Length(a) == 290 && Length(b) == 1700
    ensures GreedyFrom([a, a, a, b], [], [a, a, a], 872) == [[a, a, a, a, a, a], [b]]
  {
    assert [a, a, a, b][0] == a && [a, a, a, b][1..] == [a, a, b];
    assert [a, a, b][0] == a && [a, a, b][1..] == [a, b];
    assert [a, b][0] == a && [a, b][1..] == [b];
    assert [b][0] == b && [b][1..] == [];
    assert [a, a, a] + [a] == [a, a, a, a] && [a, a, a, a] + [a] == [a, a, a, a, a];
    assert [a, a, a, a, a] + [a] == [a, a, a, a, a, a];
    calc {
      GreedyFrom([a, a, a, b], [], [a, a, a], 872);
      GreedyFrom([a, a, b], [], [a, a, a, a], 1163);
      GreedyFrom([a, b], [], [a, a, a, a, a], 1454);
      GreedyFrom([b], [], [a, a, a, a, a, a], 1745);
      GreedyFrom([], [[a, a, a, a, a, a]], [b], 1701);
      [[a, a, a, a, a, a], [b]];
    }
  }

  lemma WitnessLengths(a: string, b: string)
    requires Length(a) == 290 && Length(b) == 1700
    ensures SumLengths([b]) == 1700
    ensures SumLengths([a, a, a, b]) == 2570
    ensures SumLengths([a, a, a, a, a, a]) == 1740
  {
    assert [b][1..] == [] && [a, b][1..] == [b] && [a, a, b][1..] == [a, b];
    assert [a, a, a, b][1..] == [a, a, b];
    assert SumLengths([b]) == 1700;
    assert SumLengths([a, b]) == 1990;
    assert SumLengths([a, a, b]) == 2280;
    assert [a][1..] == [] && [a, a][1..] == [a] && [a, a, a][1..] == [a, a];
    assert [a, a, a, a][1..] == [a, a, a] && [a, a, a, a, a][1..] == [a, a, a, a];
    assert [a, a, a, a, a, a][1..] == [a, a, a, a, a];
    assert SumLengths([a]) == 290;
    assert SumLengths([a, a]) == 580;
    assert SumLengths([a, a, a]) == 870;
    assert SumLengths([a, a, a, a]) == 1160;
    assert SumLengths([a, a, a, a, a]) == 1450;
  }

  lemma WitnessSplitIndex(a: string, b: string)
    requires Length(a) == 290 && Length(b) == 1700
    ensures SplitIndex([a, a, a, a, a, a] + [b]) == 3
  {
    var combined := [a, a, a, a, a, a] + [b];
    assert combined == [a, a, a, a, a, a, b];
    calc {
      SplitIndex(combined);
      SplitIndexFrom(combined, 0, 0, 3);
      SplitIndexFrom(combined, 1, 290, 3);
      SplitIndexFrom(combined, 2, 581, 3);
      SplitIndexFrom(combined, 3, 872, 3);
      3;
    }
  }
}
