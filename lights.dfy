/** The `Lights` component: five coloured lights lit one by one in a fixed order. Each timer
    tick lights the light whose id heads the queue and drops that head. */
module Lights {
  import opened Seqs

  datatype Light = Light(id: nat, color: string, visible: bool)

  const INITIAL_LIGHTS: seq<Light> := [
    Light(1, "bg-red-400", false),
    Light(2, "bg-amber-400", false),
    Light(3, "bg-green-400", false),
    Light(4, "bg-cyan-400", false),
    Light(5, "bg-purple-400", false)
  ]

  /** `orderedLights`: left, right, next left, next right, centre. */
  const ORDERED_LIGHTS: seq<Light> := [INITIAL_LIGHTS[1], INITIAL_LIGHTS[3], INITIAL_LIGHTS[0], INITIAL_LIGHTS[4], INITIAL_LIGHTS[2]]

  lemma AnimationOrder()
    ensures |ORDERED_LIGHTS| == 5
    ensures ORDERED_LIGHTS[0].id == 2 && ORDERED_LIGHTS[1].id == 4 && ORDERED_LIGHTS[2].id == 1
    ensures ORDERED_LIGHTS[3].id == 5 && ORDERED_LIGHTS[4].id == 3
  {
  }

  /** `findIndex(light => light.id === id)`. */
  function FindLight(lights: seq<Light>, id: nat): (i: int)
    ensures -1 <= i < |lights|
    ensures 0 <= i ==> lights[i].id == id && forall j :: 0 <= j < i ==> lights[j].id != id
    ensures i == -1 ==> forall j :: 0 <= j < |lights| ==> lights[j].id != id
  {
    FirstIndex(lights, LightIdIs(id))
  }

  function LightIdIs(id: nat): Light -> bool
  {
    (l: Light) => l.id == id
  }

  /** One tick's change to the lights: the first light with the id becomes visible, nothing
      else changes, and a missing id changes nothing. */
  function LightUp(lights: seq<Light>, id: nat): (r: seq<Light>)
    ensures |r| == |lights|
    ensures forall i :: 0 <= i < |lights| ==> r[i].id == lights[i].id && r[i].color == lights[i].color
    ensures forall i :: 0 <= i < |lights| ==> (r[i].visible <==> lights[i].visible || i == FindLight(lights, id))
  {
    var i := FindLight(lights, id);
    if i == -1 then lights else lights[i := lights[i].(visible := true)]
  }

  /** The lights after every tick for the queue. */
  function RunAll(lights: seq<Light>, queue: seq<Light>): seq<Light>
    decreases |queue|
  {
    if queue == [] then lights else RunAll(LightUp(lights, queue[0].id), queue[1..])
  }

  /** No earlier light shares the id of light `i`. */
  ghost predicate FirstWithId(lights: seq<Light>, i: nat)
    requires i < |lights|
  {
    forall j :: 0 <= j < i ==> lights[j].id != lights[i].id
  }

  /** Running the queue keeps every light's id, colour and visibility once set, and lights every
      light whose id is queued. */
  lemma {:induction false} RunAllLights(lights: seq<Light>, queue: seq<Light>)
    ensures |RunAll(lights, queue)| == |lights|
    ensures forall i :: 0 <= i < |lights| ==>
      RunAll(lights, queue)[i].id == lights[i].id && RunAll(lights, queue)[i].color == lights[i].color
    ensures forall i :: 0 <= i < |lights| && lights[i].visible ==> RunAll(lights, queue)[i].visible
    ensures forall i, q ::
      0 <= i < |lights| && 0 <= q < |queue| && queue[q].id == lights[i].id && FirstWithId(lights, i) ==>
        RunAll(lights, queue)[i].visible
    decreases |queue|
  {
    if queue != [] {
      var next := LightUp(lights, queue[0].id);
      RunAllLights(next, queue[1..]);
      forall i, q | 0 <= i < |lights| && 0 <= q < |queue| && queue[q].id == lights[i].id && FirstWithId(lights, i)
        ensures RunAll(lights, queue)[i].visible
      {
        if q == 0 {
          assert FindLight(lights, queue[0].id) == i;
        } else {
          assert queue[1..][q - 1].id == next[i].id;
          assert FirstWithId(next, i);
        }
      }
    }
  }

  /** After the ordered queue has run, all five lights are visible. */
  lemma AllFiveLit()
    ensures |RunAll(INITIAL_LIGHTS, ORDERED_LIGHTS)| == 5
    ensures forall i :: 0 <= i < 5 ==> RunAll(INITIAL_LIGHTS, ORDERED_LIGHTS)[i].visible
  {
    RunAllLights(INITIAL_LIGHTS, ORDERED_LIGHTS);
    assert ORDERED_LIGHTS[2].id == INITIAL_LIGHTS[0].id;
    assert ORDERED_LIGHTS[0].id == INITIAL_LIGHTS[1].id;
    assert ORDERED_LIGHTS[4].id == INITIAL_LIGHTS[2].id;
    assert ORDERED_LIGHTS[1].id == INITIAL_LIGHTS[3].id;
    assert ORDERED_LIGHTS[3].id == INITIAL_LIGHTS[4].id;
  }

  class LightsState {
    var lights: seq<Light>
    var lightsToAnimate: seq<Light>

    /** Mounting: both effects run, and the second replaces the queue by the ordered one
        before the first tick fires (the first timer is cleared). */
    constructor ()
      ensures lights == INITIAL_LIGHTS && lightsToAnimate == ORDERED_LIGHTS
    {
      lights := INITIAL_LIGHTS;
      lightsToAnimate := ORDERED_LIGHTS;
    }

    /** One timer tick. */
    method Tick()
      requires |lightsToAnimate| > 0
      modifies this
      ensures lights == LightUp(old(lights), old(lightsToAnimate)[0].id)
      ensures lightsToAnimate == old(lightsToAnimate)[1..]
    {
      var i := FindLight(lights, lightsToAnimate[0].id);
      if i != -1 {
        lights := lights[i := lights[i].(visible := true)];
      }
      lightsToAnimate := lightsToAnimate[1..];
    }

    /** Ticks until the queue is empty, when the effect schedules no further timer. */
    method Run()
      modifies this
      ensures lights == RunAll(old(lights), old(lightsToAnimate))
      ensures lightsToAnimate == []
    {
      while |lightsToAnimate| > 0
        invariant RunAll(lights, lightsToAnimate) == RunAll(old(lights), old(lightsToAnimate))
        decreases |lightsToAnimate|
      {
        Tick();
      }
    }
  }
}
