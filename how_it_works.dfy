/**
 * The "how it works" carousel: the active step moved by the arrow keys
 * and the dots, the previous/next button rules, and each step card's
 * demo: three progress counters that count up in fixed steps and the
 * leaderboard demo that puts the reader's row on top.
 */
module HowItWorks {
  import opened Seqs

  /** The four steps, in carousel order. */
  const StepIds: seq<string> := ["upload", "scan", "leaderboard", "recruit"]
  const StepCount := |StepIds|

  function Max(a: int, b: int): int { if a >= b then a else b }
  function Min(a: int, b: int): int { if a <= b then a else b }

  /** `handleKeyDown`'s update of the active step. */
  function KeyStep(prev: int, key: string): (r: int)
    ensures 0 <= prev < StepCount ==> 0 <= r < StepCount
    ensures key == "ArrowLeft" ==> r == Max(0, prev - 1)
    ensures key == "ArrowRight" ==> r == Min(StepCount - 1, prev + 1)
    ensures key != "ArrowLeft" && key != "ArrowRight" ==> r == prev
  {
    if key == "ArrowLeft" then Max(0, prev - 1)
    else if key == "ArrowRight" then Min(StepCount - 1, prev + 1)
    else prev
  }

  /** The active step after a run of key presses. */
  function PressAll(prev: int, keys: seq<string>): int
    decreases |keys|
  {
    if keys == [] then prev else PressAll(KeyStep(prev, keys[0]), keys[1..])
  }

  function Repeat(key: string, n: nat): (r: seq<string>)
    ensures |r| == n && forall k :: 0 <= k < n ==> r[k] == key
  {
    if n == 0 then [] else [key] + Repeat(key, n - 1)
  }

  /** No run of key presses leaves the carousel. */
  lemma {:induction false} PressAllStaysInRange(prev: int, keys: seq<string>)
    requires 0 <= prev < StepCount
    ensures 0 <= PressAll(prev, keys) < StepCount
    decreases |keys|
  {
    if keys != [] {
      PressAllStaysInRange(KeyStep(prev, keys[0]), keys[1..]);
    }
  }

  /** `n` presses of ArrowRight advance `n` steps but stop at the last one; `n` presses of ArrowLeft stop at the first. */
  lemma {:induction false} RepeatedArrows(prev: int, n: nat)
    requires 0 <= prev < StepCount
    ensures PressAll(prev, Repeat("ArrowRight", n)) == Min(StepCount - 1, prev + n)
    ensures PressAll(prev, Repeat("ArrowLeft", n)) == Max(0, prev - n)
    decreases n
  {
    if n > 0 {
      RepeatedArrows(KeyStep(prev, "ArrowRight"), n - 1);
      RepeatedArrows(KeyStep(prev, "ArrowLeft"), n - 1);
      assert Repeat("ArrowRight", n)[1..] == Repeat("ArrowRight", n - 1);
      assert Repeat("ArrowLeft", n)[1..] == Repeat("ArrowLeft", n - 1);
    }
  }

  /** The carousel's active step. */
  class Scroller {
    var activeStep: int

    ghost predicate Valid()
      reads this
    {
      0 <= activeStep < StepCount
    }

    constructor ()
      ensures activeStep == 0 && Valid()
    {
      activeStep := 0;
    }

    /** ArrowLeft and ArrowRight move one step, clamped to the ends; other keys do nothing. */
    method HandleKeyDown(key: string)
      requires Valid()
      modifies this
      ensures activeStep == KeyStep(old(activeStep), key)
      ensures Valid()
    {
      if key == "ArrowLeft" {
        activeStep := Max(0, activeStep - 1);
      } else if key == "ArrowRight" {
        activeStep := Min(StepCount - 1, activeStep + 1);
      }
    }

    /** A progress dot, or a card's activation, selects that step. */
    method GoToStep(index: int)
      requires 0 <= index < StepCount
      modifies this
      ensures activeStep == index && Valid()
    {
      activeStep := index;
    }

    /** The previous button is disabled on the first step. */
    predicate PrevDisabled()
      reads this
    {
      activeStep == 0
    }

    /** The next button is disabled on the last step. */
    predicate NextDisabled()
      reads this
    {
      activeStep == StepCount - 1
    }

    /** The card at `index` is drawn as active. */
    predicate IsCardActive(index: int)
      reads this
    {
      index == activeStep
    }

    /** Exactly one card is active, and the end buttons are disabled exactly at the ends. */
    lemma ExactlyOneActive()
      requires Valid()
      ensures forall i :: 0 <= i < StepCount ==> (IsCardActive(i) <==> i == activeStep)
      ensures |set i | 0 <= i < StepCount && IsCardActive(i)| == 1
      ensures PrevDisabled() <==> KeyStep(activeStep, "ArrowLeft") == activeStep
      ensures NextDisabled() <==> KeyStep(activeStep, "ArrowRight") == activeStep
    {
      assert (set i | 0 <= i < StepCount && IsCardActive(i)) == {activeStep};
    }
  }

  /** The values a counter takes: `0, step, 2*step, ...`, `count` of them. */
  function Ramp(count: nat, step: int): (r: seq<int>)
    ensures |r| == count
    ensures forall k :: 0 <= k < count ==> r[k] == k * step
  {
    seq(count, k requires 0 <= k < count => k * step)
  }

  /** A ramp with a positive step strictly increases, so every value is at most the last one. */
  lemma RampFacts(count: nat, step: int)
    requires step > 0
    ensures forall i, j :: 0 <= i < j < count ==> Ramp(count, step)[i] < Ramp(count, step)[j]
    ensures forall k :: 0 <= k < count ==> Ramp(count, step)[k] <= (count - 1) * step
  {
    var r := Ramp(count, step);
    forall i, j | 0 <= i < j < count ensures r[i] < r[j] {
      MulStrict(i, j, step);
    }
    forall k | 0 <= k < count ensures r[k] <= (count - 1) * step {
      MulMono(k, count - 1, step);
    }
  }

  lemma MulStrict(i: int, j: int, step: int)
    requires i < j && step > 0
    ensures i * step < j * step
  {
    assert j * step - i * step == (j - i) * step;
  }

  lemma MulMono(i: int, j: int, step: int)
    requires i <= j && step >= 0
    ensures i * step <= j * step
  {
    assert j * step - i * step == (j - i) * step;
  }

  /** One row of the leaderboard demo. */
  datatype DemoItem = DemoItem(name: string, score: int)

  const You := DemoItem("You", 95)
  const InitialItems := [DemoItem("Alex Chen", 94), DemoItem("Sarah Kim", 92), DemoItem("Jordan Lee", 89)]

  /** "Perfect match found!" shows above 90 percent. */
  predicate PerfectMatch(recruitMatch: int)
  {
    recruitMatch > 90
  }

  /** The recruit counter (0, 5, ..., 95) reaches the perfect-match band only at its last value. */
  lemma PerfectMatchOnlyAtEnd()
    ensures forall k :: 0 <= k < 20 ==> (PerfectMatch(Ramp(20, 5)[k]) <==> k == 19)
  {
  }

  /**
   * The leaderboard demo step as written: copy the rows, `unshift` the
   * reader's row, keep the first three.
   */
  function UnshiftStep(items: seq<DemoItem>): (r: seq<DemoItem>)
    ensures |r| == Min(3, |items| + 1)
    ensures r[0] == You
    ensures forall k :: 1 <= k < |r| ==> r[k] == items[k - 1]
  {
    Take([You] + items, 3)
  }

  /**
   * The demo effect depends on the rows it replaces, so each new list
   * runs the step again: from the initial rows the list fills with the
   * reader's row until it reads You, You, You. The effect itself never
   * settles, since every run stores a fresh array that triggers it again.
   */
  lemma RerunsFloodWithYou()
    ensures UnshiftStep(InitialItems) == [You, DemoItem("Alex Chen", 94), DemoItem("Sarah Kim", 92)]
    ensures UnshiftStep(UnshiftStep(InitialItems)) != UnshiftStep(InitialItems)
    ensures UnshiftStep(UnshiftStep(UnshiftStep(InitialItems))) == [You, You, You]
  {
    var once := UnshiftStep(InitialItems);
    assert once == [You, DemoItem("Alex Chen", 94), DemoItem("Sarah Kim", 92)];
    var twice := UnshiftStep(once);
    assert twice == [You, You, DemoItem("Alex Chen", 94)];
    assert twice[1] != once[1];
  }

  function NotYou(item: DemoItem): bool
  {
    item != You
  }

  /** The step as intended: the reader's row on top of the first two other rows, however often it runs. */
  function LeaderboardDemoStep(items: seq<DemoItem>): (r: seq<DemoItem>)
    ensures 1 <= |r| <= 3 && r[0] == You
    ensures forall k :: 1 <= k < |r| ==> r[k] != You
  {
    var others := Filter(items, NotYou);
    var r := Take([You] + others, 3);
    assert forall k :: 1 <= k < |r| ==> r[k] != You by {
      forall k | 1 <= k < |r| ensures r[k] != You {
        assert r[k] == others[k - 1];
        assert others[k - 1] in others;
      }
    }
    r
  }

  /** The intended step agrees with the written one on rows without the reader's row, and running it again changes nothing. */
  lemma LeaderboardDemoStepIdempotent(items: seq<DemoItem>)
    ensures You !in items ==> LeaderboardDemoStep(items) == UnshiftStep(items)
    ensures LeaderboardDemoStep(LeaderboardDemoStep(items)) == LeaderboardDemoStep(items)
  {
    if You !in items {
      FilterKeepsAll(items, NotYou);
    }
    var once := LeaderboardDemoStep(items);
    var rest := once[1..];
    assert once == [You] + rest;
    OthersOfStep(once, rest);
    assert |rest| <= 2;
    assert Take([You] + rest, 3) == [You] + rest;
  }

  /** The rows after the reader's row are exactly what the step keeps of the other rows. */
  lemma OthersOfStep(once: seq<DemoItem>, rest: seq<DemoItem>)
    requires once == [You] + rest
    requires forall k :: 0 <= k < |rest| ==> rest[k] != You
    ensures Filter(once, NotYou) == rest
  {
    FilterKeepsAll(rest, NotYou);
    FilterAppend([You], rest, NotYou);
  }

  /** One step card's demo state. */
  class StepCard {
    const stepId: string
    var isDemoActive: bool
    var uploadProgress: int
    var scanScore: int
    var leaderboardItems: seq<DemoItem>
    var recruitMatch: int

    constructor (stepId: string)
      ensures this.stepId == stepId && !isDemoActive
      ensures uploadProgress == 0 && scanScore == 0 && recruitMatch == 0
      ensures leaderboardItems == InitialItems
    {
      this.stepId := stepId;
      isDemoActive := false;
      uploadProgress, scanScore, recruitMatch := 0, 0, 0;
      leaderboardItems := InitialItems;
    }

    /** The demo runs while the card is the active step and on screen. */
    method SyncDemoActive(isActive: bool, isInView: bool)
      modifies this`isDemoActive
      ensures isDemoActive == (isActive && isInView)
    {
      isDemoActive := isActive && isInView;
    }

    /** Dropping a file on the upload card starts its demo; on other cards a drop does nothing. */
    method HandleDrop()
      modifies this`isDemoActive
      ensures stepId == "upload" ==> isDemoActive
      ensures stepId != "upload" ==> isDemoActive == old(isDemoActive)
    {
      if stepId == "upload" {
        isDemoActive := true;
      }
    }

    /** The upload demo: reset, then 0, 10, ..., 100, one value per tick; `shown` lists the values set by the loop. */
    method RunUploadDemo() returns (shown: seq<int>)
      modifies this`uploadProgress
      ensures shown == Ramp(11, 10) && uploadProgress == 100
    {
      uploadProgress := 0;
      shown := [];
      var i := 0;
      while i <= 100
        invariant i == 10 * |shown| && |shown| <= 11
        invariant shown == Ramp(|shown|, 10)
        invariant shown != [] ==> uploadProgress == shown[|shown| - 1]
      {
        uploadProgress := i;
        shown := shown + [i];
        i := i + 10;
      }
    }

    /** The scan demo: reset, then 0, 3, ..., 87. */
    method RunScanDemo() returns (shown: seq<int>)
      modifies this`scanScore
      ensures shown == Ramp(30, 3) && scanScore == 87
    {
      scanScore := 0;
      shown := [];
      var i := 0;
      while i <= 87
        invariant i == 3 * |shown| && |shown| <= 30
        invariant shown == Ramp(|shown|, 3)
        invariant shown != [] ==> scanScore == shown[|shown| - 1]
      {
        scanScore := i;
        shown := shown + [i];
        i := i + 3;
      }
    }

    /** The recruit demo: reset, then 0, 5, ..., 95, so the perfect-match line appears only at the end. */
    method RunRecruitDemo() returns (shown: seq<int>)
      modifies this`recruitMatch
      ensures shown == Ramp(20, 5) && recruitMatch == 95
      ensures PerfectMatch(recruitMatch)
    {
      recruitMatch := 0;
      shown := [];
      var i := 0;
      while i <= 95
        invariant i == 5 * |shown| && |shown| <= 20
        invariant shown == Ramp(|shown|, 5)
        invariant shown != [] ==> recruitMatch == shown[|shown| - 1]
      {
        recruitMatch := i;
        shown := shown + [i];
        i := i + 5;
      }
    }

    /** The leaderboard demo, as corrected: the reader's row on top of the first two other rows. */
    method RunLeaderboardDemo()
      modifies this`leaderboardItems
      ensures leaderboardItems == LeaderboardDemoStep(old(leaderboardItems))
    {
      var newItems := Filter(leaderboardItems, NotYou);
      newItems := [You] + newItems;
      leaderboardItems := Take(newItems, 3);
    }
  }
}
