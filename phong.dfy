/**
  The sphere point cloud and the per-frame key state of the renderer
  (phong.c).  The two global arrays `coords` and `pkeys` are the fields of
  one `Scene` object.  `sinf`, `cosf` and `M_PI` have no Dafny counterpart:
  they are parameters (`sin`, `cos`, `pi`), and the one fact about them that
  is used, sin² + cos² = 1, is a precondition of the lemma that needs it.
 */
module Phong {
  import opened Coord

  /** ANGLE_STEP (phong.c:37): degrees per step of either angle. */
  const AngleStep: real := 0.5
  /** R (phong.c:38): the sphere radius. */
  const Radius: real := 100.0
  /**
    Steps of the polar angle b over [0, 180).  One row, the steps of the
    azimuth a over [0, 360), has 360 * 2 = 720 points; 720 is written as a
    literal so that row offsets stay linear arithmetic.
   */
  const RowCount: nat := 180 * 2
  /** CIRCLE_SIZE (phong.c:40), the length of `coords`. */
  const CircleSize: nat := 360 * 2 * 180 * 2
  /** The length of `pkeys` (phong.c:43). */
  const KeyCount: nat := 512

  /** M_PI is abstract: all the model knows is that it is positive. */
  type Positive = r: real | r > 0.0 witness 1.0

  /** The angle conversion as the source writes it: `angle * 180 / M_PI`. */
  function Convert(angle: real, pi: Positive): real {
    angle * 180.0 / pi
  }

  /** The point at polar argument `beta` and azimuth argument `alpha`. */
  function PolarPoint(r: real, sin: real -> real, cos: real -> real,
                      beta: real, alpha: real): Vec
  {
    Vec(r * sin(beta) * cos(alpha), r * sin(beta) * sin(alpha), r * cos(beta))
  }

  /** The point `init_circle` computes for step `bi` of b and step `ai` of a. */
  function SpherePoint(sin: real -> real, cos: real -> real, pi: Positive,
                       bi: nat, ai: nat): Vec
  {
    PolarPoint(Radius, sin, cos,
               Convert(bi as real * AngleStep, pi), Convert(ai as real * AngleStep, pi))
  }

  /** SpherePoint as a function of the two step counts. */
  function Sampler(sin: real -> real, cos: real -> real, pi: Positive): (nat, nat) -> Vec {
    (bi: nat, ai: nat) => SpherePoint(sin, cos, pi, bi, ai)
  }

  ghost predicate Pythagorean(sin: real -> real, cos: real -> real) {
    forall t :: sin(t) * sin(t) + cos(t) * cos(t) == 1.0
  }

  /**
    Whatever arguments reach sin and cos (so whatever conversion factor is
    used), every point lies on the sphere of radius `r`.
   */
  lemma PolarPointOnSphere(r: real, sin: real -> real, cos: real -> real,
                           beta: real, alpha: real)
    requires Pythagorean(sin, cos)
    ensures SqLength(PolarPoint(r, sin, cos, beta, alpha)) == r * r
  {
    var p := PolarPoint(r, sin, cos, beta, alpha);
    var rs := r * sin(beta);
    assert sin(alpha) * sin(alpha) + cos(alpha) * cos(alpha) == 1.0;
    assert sin(beta) * sin(beta) + cos(beta) * cos(beta) == 1.0;
    calc {
      p.x * p.x + p.y * p.y;
      (rs * cos(alpha)) * (rs * cos(alpha)) + (rs * sin(alpha)) * (rs * sin(alpha));
      (rs * rs) * (cos(alpha) * cos(alpha) + sin(alpha) * sin(alpha));
      rs * rs;
      (r * r) * (sin(beta) * sin(beta));
    }
    calc {
      SqLength(p);
      (r * r) * (sin(beta) * sin(beta)) + (r * cos(beta)) * (r * cos(beta));
      (r * r) * (sin(beta) * sin(beta) + cos(beta) * cos(beta));
      r * r;
    }
  }

  /** Row `bi` of the grid: its first `n` azimuth steps, in order. */
  function Row(point: (nat, nat) -> Vec, bi: nat, n: nat): (r: seq<Vec>) {
    seq(n, (ai: int) requires 0 <= ai => point(bi, ai))
  }

  /** The first `rows` rows of the grid, each a full row of 720 points. */
  function Grid(point: (nat, nat) -> Vec, rows: nat): (c: seq<Vec>)
    ensures |c| == rows * 720
    decreases rows
  {
    if rows == 0 then [] else Grid(point, rows - 1) + Row(point, rows - 1, 720)
  }

  /**
    The grid is in b-major, a-minor order: entry `bi * 720 + ai` is the
    point for polar step `bi` and azimuth step `ai`.
   */
  lemma {:induction false} GridAt(point: (nat, nat) -> Vec, rows: nat, bi: nat, ai: nat)
    requires bi < rows && ai < 720
    ensures bi * 720 + ai < |Grid(point, rows)|
    ensures Grid(point, rows)[bi * 720 + ai] == point(bi, ai)
    decreases rows
  {
    if bi < rows - 1 {
      GridAt(point, rows - 1, bi, ai);
    }
  }

  /** The point cloud `init_circle` fills `coords` with. */
  function Cloud(sin: real -> real, cos: real -> real, pi: Positive): (c: seq<Vec>)
    ensures |c| == CircleSize
  {
    Grid(Sampler(sin, cos, pi), RowCount)
  }

  /**
    The value the loop body of init_circle stores, from the row's `rsb`
    and `rcb`, is the sample for steps `bi` and `ai`.
   */
  lemma CellIsSample(sin: real -> real, cos: real -> real, pi: Positive, bi: nat, ai: nat,
                     rsb: real, rcb: real, cell: Vec)
    requires rsb == Radius * sin(Convert(bi as real * AngleStep, pi))
    requires rcb == Radius * cos(Convert(bi as real * AngleStep, pi))
    requires var a := ai as real * AngleStep;
             cell == Vec(rsb * cos(Convert(a, pi)), rsb * sin(Convert(a, pi)), rcb)
    ensures cell == Sampler(sin, cos, pi)(bi, ai)
  {
  }

  /**
    Every entry of row `bi` is built from the row's `rsb = R·sin(b·180/π)`
    and has the row's `z = R·cos(b·180/π)`, for `b = bi · 0.5`.
   */
  lemma CloudRow(sin: real -> real, cos: real -> real, pi: Positive, bi: nat, ai: nat)
    requires bi < RowCount && ai < 720
    ensures var b, a := bi as real * AngleStep, ai as real * AngleStep;
            var rsb := Radius * sin(Convert(b, pi));
            var p := Cloud(sin, cos, pi)[bi * 720 + ai];
            p == Vec(rsb * cos(Convert(a, pi)), rsb * sin(Convert(a, pi)), Radius * cos(Convert(b, pi)))
  {
    GridAt(Sampler(sin, cos, pi), RowCount, bi, ai);
  }

  /** With sin² + cos² = 1, every point of the cloud lies on the sphere of radius R. */
  lemma CloudOnSphere(sin: real -> real, cos: real -> real, pi: Positive, k: nat)
    requires Pythagorean(sin, cos) && k < CircleSize
    ensures SqLength(Cloud(sin, cos, pi)[k]) == Radius * Radius
  {
    var bi, ai := k / 720, k % 720;
    assert k == bi * 720 + ai;
    GridAt(Sampler(sin, cos, pi), RowCount, bi, ai);
    PolarPointOnSphere(Radius, sin, cos,
                       Convert(bi as real * AngleStep, pi), Convert(ai as real * AngleStep, pi));
  }

  /** Key-state events as the event loop of main (phong.c:131-145) sees them. */
  datatype Event = KeyDown(sym: nat) | KeyUp(sym: nat) | Quit | Other

  /** The key symbol of a key event indexes `pkeys`. */
  predicate Fits(e: Event, n: nat) {
    (e.KeyDown? || e.KeyUp?) ==> e.sym < n
  }

  /** The key state after one event. */
  function Update(keys: seq<bool>, e: Event): (r: seq<bool>)
    requires Fits(e, |keys|)
    ensures |r| == |keys|
  {
    match e
    case KeyDown(s) => keys[s := true]
    case KeyUp(s) => keys[s := false]
    case _ => keys
  }

  /** The key state after draining `events`; a Quit event ends the process. */
  function AfterEvents(keys: seq<bool>, events: seq<Event>): (r: seq<bool>)
    requires forall e | e in events :: Fits(e, |keys|)
    ensures |r| == |keys|
    decreases |events|
  {
    if events == [] || events[0].Quit? then keys
    else AfterEvents(Update(keys, events[0]), events[1..])
  }

  datatype Option<T> = None | Some(value: T)

  /**
    Independent reference for one key: the last key-down or key-up event
    for `k` decides whether it is held, scanning from the end.
   */
  function LastKeyEvent(k: nat, events: seq<Event>): Option<bool>
    decreases |events|
  {
    if events == [] then None
    else
      var e := events[|events| - 1];
      if e == KeyDown(k) then Some(true)
      else if e == KeyUp(k) then Some(false)
      else LastKeyEvent(k, events[..|events| - 1])
  }

  /** Draining events one more event at a time, when none of them quits. */
  lemma {:induction false} AfterEventsSnoc(keys: seq<bool>, events: seq<Event>, e: Event)
    requires forall x | x in events :: Fits(x, |keys|) && !x.Quit?
    requires Fits(e, |keys|)
    ensures AfterEvents(keys, events + [e]) == Update(AfterEvents(keys, events), e)
    decreases |events|
  {
    if events == [] {
      assert [e][1..] == [];
    } else {
      assert (events + [e])[1..] == events[1..] + [e];
      AfterEventsSnoc(Update(keys, events[0]), events[1..], e);
    }
  }

  /**
    Without a Quit event, each key ends in the state its last key event
    set, and a key no event names keeps its state.
   */
  lemma {:induction false} LastEventWins(keys: seq<bool>, events: seq<Event>, k: nat)
    requires forall x | x in events :: Fits(x, |keys|) && !x.Quit?
    requires k < |keys|
    ensures AfterEvents(keys, events)[k] ==
              match LastKeyEvent(k, events)
              case Some(held) => held
              case None => keys[k]
    decreases |events|
  {
    if events == [] {
    } else {
      var front, e := events[..|events| - 1], events[|events| - 1];
      assert events == front + [e];
      assert forall x | x in front :: x in events;
      AfterEventsSnoc(keys, front, e);
      LastEventWins(keys, front, k);
    }
  }

  /** The global state of phong.c: the point cloud and the held keys. */
  class Scene {
    /** coords (phong.c:44) */
    const coords: array<Vec>
    /** pkeys (phong.c:43) */
    const pkeys: array<bool>

    ghost predicate Valid()
      reads this
    {
      coords.Length == CircleSize && pkeys.Length == KeyCount
    }

    /** C globals start out zero: every point at the origin, no key held. */
    constructor ()
      ensures Valid() && fresh(coords) && fresh(pkeys)
      ensures forall k :: 0 <= k < coords.Length ==> coords[k] == Zero
      ensures forall k :: 0 <= k < pkeys.Length ==> !pkeys[k]
    {
      coords := new Vec[CircleSize](_ => Zero);
      pkeys := new bool[KeyCount](_ => false);
    }

    /**
      init_circle (phong.c:95-114).  The source steps the float angles b
      and a by 0.5 from 0 while b < 180 and a < 360; 0.5 is exact in float,
      so the loops run 360 and 720 times, and here they count the steps
      `bi` and `ai` with `b = bi * 0.5` and `a = ai * 0.5`.  The three field
      writes of one entry are one assignment of the point.  Returns the
      final `i`, which the source prints next to CIRCLE_SIZE.
     */
    method InitCircle(sin: real -> real, cos: real -> real, pi: Positive) returns (i: nat)
      requires Valid()
      modifies coords
      ensures i == CircleSize
      ensures coords[..] == Cloud(sin, cos, pi)
    {
      ghost var cloud := Cloud(sin, cos, pi);
      i := 0;
      var r := Radius;
      var bi: nat := 0;
      while bi < RowCount
        invariant bi <= RowCount && i == bi * 720
        invariant forall k :: 0 <= k < i ==> coords[k] == cloud[k]
      {
        var b := bi as real * AngleStep;
        var rsb := r * sin(Convert(b, pi));
        var rcb := r * cos(Convert(b, pi));
        var ai: nat := 0;
        while ai < 720
          invariant ai <= 720 && i == bi * 720 + ai
          invariant forall k :: 0 <= k < i ==> coords[k] == cloud[k]
        {
          var a := ai as real * AngleStep;
          var cell := Vec(rsb * cos(Convert(a, pi)), rsb * sin(Convert(a, pi)), rcb);
          CellIsSample(sin, cos, pi, bi, ai, rsb, rcb, cell);
          GridAt(Sampler(sin, cos, pi), RowCount, bi, ai);
          coords[i] := cell;
          i := i + 1;
          ai := ai + 1;
        }
        bi := bi + 1;
      }
      assert coords[..] == cloud;
    }

    /**
      draw_scene (phong.c:85-93).  `draw_pixel` is OpenGL output; the model
      returns the sequence of (x, y) pairs it is called with, in order.
     */
    method DrawScene() returns (drawn: seq<(real, real)>)
      requires Valid()
      ensures |drawn| == CircleSize
      ensures forall k :: 0 <= k < CircleSize ==> drawn[k] == (coords[k].x, coords[k].y)
    {
      drawn := [];
      var i := 0;
      while i < CircleSize
        invariant i <= CircleSize && |drawn| == i
        invariant forall k :: 0 <= k < i ==> drawn[k] == (coords[k].x, coords[k].y)
      {
        drawn := drawn + [(coords[i].x, coords[i].y)];
        i := i + 1;
      }
    }

    /**
      One case of the event switch (phong.c:133-144).  `quit` stands for
      SDL_Quit followed by exit.
     */
    method HandleEvent(e: Event) returns (quit: bool)
      requires Valid() && Fits(e, KeyCount)
      modifies pkeys
      ensures quit == e.Quit?
      ensures pkeys[..] == Update(old(pkeys[..]), e)
      ensures e.KeyDown? ==> pkeys[e.sym]
      ensures e.KeyUp? ==> !pkeys[e.sym]
      ensures forall k :: 0 <= k < KeyCount && !((e.KeyDown? || e.KeyUp?) && k == e.sym) ==>
                pkeys[k] == old(pkeys[k])
    {
      quit := false;
      match e
      case KeyDown(s) => pkeys[s] := true;
      case KeyUp(s) => pkeys[s] := false;
      case Quit => quit := true;
      case Other =>
    }

    /**
      The event-draining loop of main (phong.c:130-145), over the pending
      events in arrival order.  Processing stops at the first Quit.
     */
    method PollEvents(events: seq<Event>) returns (quit: bool)
      requires Valid() && forall e | e in events :: Fits(e, KeyCount)
      modifies pkeys
      ensures quit == (Quit in events)
      ensures pkeys[..] == AfterEvents(old(pkeys[..]), events)
    {
      quit := false;
      var j := 0;
      while j < |events| && !quit
        invariant 0 <= j <= |events|
        invariant !quit ==> Quit !in events[..j]
        invariant !quit ==> AfterEvents(old(pkeys[..]), events) == AfterEvents(pkeys[..], events[j..])
        invariant quit ==> Quit in events
        invariant quit ==> pkeys[..] == AfterEvents(old(pkeys[..]), events)
      {
        assert events[j..][0] == events[j] && events[j..][1..] == events[j + 1..];
        assert events[..j + 1] == events[..j] + [events[j]];
        quit := HandleEvent(events[j]);
        j := j + 1;
      }
      if !quit {
        assert events[..j] == events;
      }
    }
  }
}
