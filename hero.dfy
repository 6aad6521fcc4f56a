/**
 * The hero section's intro animation: a phase machine driven by a start
 * action, three scheduled phase changes and a reset, the score panel
 * toggle, which elements each phase shows, and where the six project
 * tiles land. Timers are explicit: a queue of pending callbacks with
 * their due times, fired earliest first.
 */
module Hero {

  datatype Phase = Idle | Tiles | Scanning | Transform | Complete

  /** A phase's place in the intended order idle, tiles, scanning, transform, complete. */
  function Stage(p: Phase): nat
  {
    match p
    case Idle => 0
    case Tiles => 1
    case Scanning => 2
    case Transform => 3
    case Complete => 4
  }

  /** The headline fades in when the animation is complete. */
  predicate HeadlineVisible(p: Phase) { p == Complete }

  /** The flying tiles show while they arrive and while they are scanned. */
  predicate TilesVisible(p: Phase) { p == Tiles || p == Scanning }

  /** The profile card shows from the transform on. */
  predicate ProfileCardVisible(p: Phase) { p == Transform || p == Complete }

  /** The leaderboard badges show when the animation is complete. */
  predicate BadgesVisible(p: Phase) { p == Complete }

  /**
   * Along the phase order the tiles show at stages 1 and 2, the profile
   * card from stage 3, the badges and headline at stage 4: the tiles and
   * the card never show together, and the badges only with the card.
   */
  lemma VisibilityByStage(p: Phase)
    ensures TilesVisible(p) <==> 1 <= Stage(p) <= 2
    ensures ProfileCardVisible(p) <==> Stage(p) >= 3
    ensures BadgesVisible(p) <==> Stage(p) == 4
    ensures HeadlineVisible(p) <==> BadgesVisible(p)
    ensures !(TilesVisible(p) && ProfileCardVisible(p))
    ensures BadgesVisible(p) ==> ProfileCardVisible(p)
  {
  }

  /** Where tile `i` lands: three columns 40 pixels apart, rows 60 pixels apart. */
  function TileTarget(i: nat): (int, int)
  {
    (160 + (i % 3 - 1) * 40, 200 + (i / 3 - 1) * 60)
  }

  /** The six tiles land on six different points of a three-by-two grid. */
  lemma TileGrid()
    ensures forall i :: 0 <= i < 6 ==> TileTarget(i).0 in {120, 160, 200} && TileTarget(i).1 in {140, 200}
    ensures forall i, j :: 0 <= i < j < 6 ==> TileTarget(i) != TileTarget(j)
  {
    assert TileTarget(0) == (120, 140) && TileTarget(1) == (160, 140) && TileTarget(2) == (200, 140);
    assert TileTarget(3) == (120, 200) && TileTarget(4) == (160, 200) && TileTarget(5) == (200, 200);
  }

  /** What a pending timer will do when it fires. */
  datatype TimerAction = StartAnimation | ToScanning | ToTransform | ToComplete

  datatype Timer = Timer(due: int, action: TimerAction)

  /** The pending timer that fires next: the earliest due, and among equal due times the one scheduled first. */
  function Earliest(timers: seq<Timer>): (k: nat)
    requires timers != []
    ensures k < |timers|
    ensures forall j :: 0 <= j < |timers| ==> timers[k].due <= timers[j].due
    ensures forall j :: 0 <= j < k ==> timers[j].due > timers[k].due
  {
    if |timers| == 1 then 0
    else
      var k := Earliest(timers[1..]);
      if timers[0].due <= timers[1..][k].due then 0 else k + 1
  }

  /** A queue whose first timer is due no later than the others fires its first timer next. */
  lemma EarliestIsFront(timers: seq<Timer>)
    requires timers != [] && forall j :: 0 <= j < |timers| ==> timers[0].due <= timers[j].due
    ensures Earliest(timers) == 0
  {
  }

  /** The hero's animation state, with the clock and the pending timers. */
  class HeroAnimation {
    const reducedMotion: bool
    var isPlaying: bool
    var phase: Phase
    var showScorePanel: bool
    var now: int
    var timers: seq<Timer>

    /** No pending timer is overdue, so firing the next one never moves the clock back. */
    ghost predicate Valid()
      reads this
    {
      forall j :: 0 <= j < |timers| ==> now <= timers[j].due
    }

    constructor (reducedMotion: bool)
      ensures this.reducedMotion == reducedMotion
      ensures !isPlaying && phase == Idle && !showScorePanel && now == 0 && timers == []
      ensures Valid()
    {
      this.reducedMotion := reducedMotion;
      isPlaying, phase, showScorePanel := false, Idle, false;
      now, timers := 0, [];
    }

    /** The mount effect: with motion, start the animation a second later; with reduced motion, jump to the end. */
    method Mount()
      requires Valid()
      modifies this`phase, this`timers
      ensures Valid()
      ensures !reducedMotion ==> timers == old(timers) + [Timer(now + 1000, StartAnimation)] && phase == old(phase)
      ensures reducedMotion ==> phase == Complete && timers == old(timers)
    {
      if !reducedMotion {
        timers := timers + [Timer(now + 1000, StartAnimation)];
      } else {
        phase := Complete;
      }
    }

    /**
     * `startAnimation`: with reduced motion only the phase changes, to
     * complete; otherwise playing starts at the tiles and the three later
     * phases are scheduled 1.5, 3 and 4.5 seconds ahead.
     */
    method Start()
      requires Valid()
      modifies this`isPlaying, this`phase, this`timers
      ensures Valid()
      ensures reducedMotion ==> phase == Complete && isPlaying == old(isPlaying) && timers == old(timers)
      ensures !reducedMotion ==> isPlaying && phase == Tiles
      ensures !reducedMotion ==> timers == old(timers) + [Timer(now + 1500, ToScanning), Timer(now + 3000, ToTransform), Timer(now + 4500, ToComplete)]
    {
      if reducedMotion {
        phase := Complete;
        return;
      }
      isPlaying := true;
      phase := Tiles;
      timers := timers + [Timer(now + 1500, ToScanning), Timer(now + 3000, ToTransform), Timer(now + 4500, ToComplete)];
    }

    /** `resetAnimation`: stop, back to idle, hide the score panel; pending phase changes stay scheduled. */
    method Reset()
      modifies this`isPlaying, this`phase, this`showScorePanel
      ensures !isPlaying && phase == Idle && !showScorePanel
      ensures old(Valid()) ==> Valid()
    {
      isPlaying := false;
      phase := Idle;
      showScorePanel := false;
    }

    /** The control button, which is disabled under reduced motion: reset while playing, start otherwise. */
    method ControlClick()
      requires !reducedMotion && Valid()
      modifies this`isPlaying, this`phase, this`showScorePanel, this`timers
      ensures Valid()
      ensures old(isPlaying) ==> !isPlaying && phase == Idle && !showScorePanel && timers == old(timers)
      ensures !old(isPlaying) ==> isPlaying && phase == Tiles && showScorePanel == old(showScorePanel)
      ensures !old(isPlaying) ==>
        timers == old(timers) + [Timer(now + 1500, ToScanning), Timer(now + 3000, ToTransform), Timer(now + 4500, ToComplete)]
    {
      if isPlaying {
        Reset();
      } else {
        Start();
      }
    }

    /** `handleScoreClick`: show or hide the score panel. */
    method ScoreClick()
      modifies this`showScorePanel
      ensures showScorePanel == !old(showScorePanel)
    {
      showScorePanel := !showScorePanel;
    }

    /** The clock reaches the earliest pending timer, which leaves the queue and runs. */
    method FireNext() returns (fired: Timer)
      requires timers != [] && Valid()
      modifies this`isPlaying, this`phase, this`timers, this`now
      ensures Valid() && old(now) <= now
      ensures fired == old(timers)[Earliest(old(timers))] && now == fired.due
      ensures fired.action == ToScanning ==> phase == Scanning && isPlaying == old(isPlaying)
      ensures fired.action == ToTransform ==> phase == Transform && isPlaying == old(isPlaying)
      ensures fired.action == ToComplete ==> phase == Complete && !isPlaying
      ensures fired.action != StartAnimation ==>
        timers == old(timers)[..Earliest(old(timers))] + old(timers)[Earliest(old(timers)) + 1..]
      ensures fired.action == StartAnimation && !reducedMotion ==> phase == Tiles && isPlaying
      ensures fired.action == StartAnimation && !reducedMotion ==>
        timers == old(timers)[..Earliest(old(timers))] + old(timers)[Earliest(old(timers)) + 1..]
                  + [Timer(now + 1500, ToScanning), Timer(now + 3000, ToTransform), Timer(now + 4500, ToComplete)]
      ensures fired.action == StartAnimation && reducedMotion ==>
        phase == Complete && isPlaying == old(isPlaying)
        && timers == old(timers)[..Earliest(old(timers))] + old(timers)[Earliest(old(timers)) + 1..]
    {
      var k := Earliest(timers);
      fired := timers[k];
      timers := timers[..k] + timers[k + 1..];
      now := fired.due;
      match fired.action
      case StartAnimation => Start();
      case ToScanning => phase := Scanning;
      case ToTransform => phase := Transform;
      case ToComplete =>
        phase := Complete;
        isPlaying := false;
    }

    /** `FireNext` when the first pending timer is also the earliest. */
    method FireFront() returns (fired: Timer)
      requires timers != [] && forall j :: 0 <= j < |timers| ==> timers[0].due <= timers[j].due
      requires timers[0].action != StartAnimation && Valid()
      modifies this`isPlaying, this`phase, this`timers, this`now
      ensures Valid()
      ensures fired == old(timers)[0] && now == fired.due && timers == old(timers)[1..]
      ensures fired.action == ToScanning ==> phase == Scanning && isPlaying == old(isPlaying)
      ensures fired.action == ToTransform ==> phase == Transform && isPlaying == old(isPlaying)
      ensures fired.action == ToComplete ==> phase == Complete && !isPlaying
    {
      EarliestIsFront(timers);
      fired := FireNext();
    }

    /**
     * A start with nothing else pending visits tiles, scanning, transform
     * and complete in that order, 1.5 seconds apart, and ends stopped
     * with no timer left.
     */
    method PlayThrough() returns (phases: seq<Phase>)
      requires !reducedMotion && timers == []
      modifies this`isPlaying, this`phase, this`timers, this`now
      ensures phases == [Tiles, Scanning, Transform, Complete]
      ensures forall i, j :: 0 <= i < j < |phases| ==> Stage(phases[i]) < Stage(phases[j])
      ensures !isPlaying && timers == [] && now == old(now) + 4500
    {
      var t0 := now;
      var a, b, c := Timer(t0 + 1500, ToScanning), Timer(t0 + 3000, ToTransform), Timer(t0 + 4500, ToComplete);
      Start();
      assert timers == [a, b, c];
      phases := [phase];
      var fired := FireFront();
      assert timers == [b, c];
      phases := phases + [phase];
      fired := FireFront();
      assert timers == [c];
      phases := phases + [phase];
      fired := FireFront();
      phases := phases + [phase];
    }

    /** A reset while playing does not cancel the pending changes: the next timer still moves the idle hero on to scanning. */
    method ResetDuringPlay() returns (after: Phase)
      requires !reducedMotion && timers == []
      modifies this`isPlaying, this`phase, this`timers, this`now, this`showScorePanel
      ensures after == Scanning && !isPlaying
    {
      var t0 := now;
      Start();
      Reset();
      var fired := FireFront();
      after := phase;
    }
  }
}
