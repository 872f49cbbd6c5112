/** The wandering entities: their three forms, the polygon each form is
    drawn as, the form drawn from a random index, spawning at the origin,
    and the per-tick step along each entity's fixed direction. */
module Entities {
  import opened World

  datatype EntityForm = Rectangle | Pentagon | Hexagon

  /** The lyon regular-polygon shape: a side count, the size feature and a centre. */
  datatype RegularPolygonFeature = Radius(radius: real) | Apothem(apothem: real) | SideLength(length: real)

  datatype RegularPolygon = RegularPolygon(sides: nat, feature: RegularPolygonFeature, center: Vec2)

  /** Every entity is drawn with radius 30. */
  const EntityRadius: real := 30.0

  /** The polygon an entity of the given form is drawn as: the size and the
      centre (the default, the origin) are the same for every form, and the
      side count lies in 4..6. Which count belongs to which form is stated by
      ShapeDeterminesForm and FormOfSidesInvertsShape against FormOfSides. */
  function ToShape(form: EntityForm): (shape: RegularPolygon)
    ensures shape.feature == Radius(EntityRadius) && shape.center == Zero2
    ensures 4 <= shape.sides <= 6
  {
    var sides := match form
      case Rectangle => 4
      case Pentagon => 5
      case Hexagon => 6;
    RegularPolygon(sides, Radius(EntityRadius), Zero2)
  }

  /** Reading a form back from a side count: a rectangle has 4 sides, a
      pentagon 5, a hexagon 6; any other count belongs to no form. */
  function FormOfSides(sides: nat): Option<EntityForm> {
    if sides == 4 then Some(Rectangle)
    else if sides == 5 then Some(Pentagon)
    else if sides == 6 then Some(Hexagon)
    else None
  }

  /** The drawn shape gives the form back: the map from forms to side counts is injective. */
  lemma ShapeDeterminesForm(form: EntityForm)
    ensures FormOfSides(ToShape(form).sides) == Some(form)
  {
  }

  /** Exactly the counts 4, 5 and 6 are drawn, each by the form FormOfSides names. */
  lemma FormOfSidesInvertsShape(sides: nat)
    ensures FormOfSides(sides).Some? <==> 4 <= sides <= 6
    ensures FormOfSides(sides).Some? ==> ToShape(FormOfSides(sides).value).sides == sides
  {
  }

  /** Distinct forms are drawn as distinct shapes, and the shapes differ only in their side count. */
  lemma ToShapeInjective(f: EntityForm, g: EntityForm)
    ensures ToShape(f) == ToShape(g) <==> f == g
    ensures ToShape(f).(sides := ToShape(g).sides) == ToShape(g)
  {
  }

  /** The form drawn from an index of gen_range(0..3): 0 is a rectangle,
      1 a pentagon, and every other index a hexagon. */
  function Sample(index: nat): (form: EntityForm)
    ensures form == Rectangle <==> index == 0
    ensures form == Pentagon <==> index == 1
    ensures form == Hexagon <==> index >= 2
  {
    match index
    case 0 => Rectangle
    case 1 => Pentagon
    case _ => Hexagon
  }

  /** The index in 0..3 that Sample turns into the given form. */
  function SampleIndex(form: EntityForm): nat {
    match form
    case Rectangle => 0
    case Pentagon => 1
    case Hexagon => 2
  }

  /** Every form is reached from some index of the range 0..3. */
  lemma SampleReachesEveryForm(form: EntityForm)
    ensures SampleIndex(form) < 3 && Sample(SampleIndex(form)) == form
  {
  }

  /** On the range 0..3 Sample is one-to-one: each index gives its own form. */
  lemma SampleOneToOne(i: nat, j: nat)
    requires i < 3 && j < 3
    ensures Sample(i) == Sample(j) <==> i == j
    ensures SampleIndex(Sample(i)) == i
  {
  }

  /** The Entity component: the form the entity really has and the direction it keeps moving in. */
  datatype Entity = Entity(trueForm: EntityForm, currentDirection: Vec2)

  /** A spawned entity: its component, the polygon it is drawn as, and its translation. */
  datatype Spawned = Spawned(entity: Entity, shape: RegularPolygon, translation: Vec3)

  /** The entity is drawn as the form it stores. */
  predicate DrawnAsTrueForm(s: Spawned) {
    s.shape == ToShape(s.entity.trueForm)
  }

  predicate AllDrawnAsTrueForm(es: seq<Spawned>) {
    forall i :: 0 <= i < |es| ==> DrawnAsTrueForm(es[i])
  }

  /** What spawn_entity creates from a sampled index and a (normalised) direction:
      the stored form is the one whose shape is drawn, so the form can be read
      back from the drawing, and the entity starts at the origin. */
  function Spawn(index: nat, direction: Vec2): (s: Spawned)
    ensures DrawnAsTrueForm(s)
    ensures s.entity.trueForm == Sample(index)
    ensures FormOfSides(s.shape.sides) == Some(Sample(index))
    ensures s.entity.currentDirection == direction
    ensures s.translation == Zero3
  {
    var form := Sample(index);
    ShapeDeterminesForm(form);
    Spawned(Entity(form, direction), ToShape(form), Zero3)
  }

  /** One tick of move_entities for one entity: add (dir.x, dir.y, 0). Only
      the x and y of the translation change. */
  function Advance(s: Spawned): (r: Spawned)
    ensures r.entity == s.entity && r.shape == s.shape
    ensures r.translation.z == s.translation.z
  {
    var d := s.entity.currentDirection;
    s.(translation := Add(s.translation, Vec3(d.x, d.y, 0.0)))
  }

  /** One tick of move_entities for every entity. */
  function Tick(es: seq<Spawned>): (r: seq<Spawned>)
    ensures |r| == |es|
    ensures forall i :: 0 <= i < |es| ==> r[i] == Advance(es[i])
  {
    seq(|es|, i requires 0 <= i < |es| => Advance(es[i]))
  }

  /** n ticks in a row. */
  function Ticks(es: seq<Spawned>, n: nat): (r: seq<Spawned>)
    ensures |r| == |es|
  {
    if n == 0 then es else Tick(Ticks(es, n - 1))
  }

  /** After n ticks an entity is at start + n * (dir.x, dir.y, 0): the step is
      neither scaled by elapsed time nor bounded, and only the translation
      changes (form, direction and shape are kept, z too). */
  lemma {:induction false} TicksClosedForm(es: seq<Spawned>, n: nat, i: nat)
    requires i < |es|
    ensures |Ticks(es, n)| == |es|
    ensures Ticks(es, n)[i].entity == es[i].entity
    ensures Ticks(es, n)[i].shape == es[i].shape
    ensures Ticks(es, n)[i].translation == Vec3(
      es[i].translation.x + (n as real) * es[i].entity.currentDirection.x,
      es[i].translation.y + (n as real) * es[i].entity.currentDirection.y,
      es[i].translation.z)
  {
    if n > 0 {
      TicksClosedForm(es, n - 1, i);
      assert Ticks(es, n)[i] == Advance(Ticks(es, n - 1)[i]);
    }
  }

  /** Moving never breaks the agreement between stored form and drawn shape. */
  lemma {:induction false} TicksKeepDrawing(es: seq<Spawned>, n: nat)
    requires AllDrawnAsTrueForm(es)
    ensures AllDrawnAsTrueForm(Ticks(es, n))
  {
    forall i | 0 <= i < |Ticks(es, n)|
      ensures DrawnAsTrueForm(Ticks(es, n)[i])
    {
      TicksClosedForm(es, n, i);
    }
  }

  /** The step is unbounded: an entity whose direction has a positive x part
      passes any bound on x after enough ticks. */
  lemma EntitiesUnbounded(es: seq<Spawned>, i: nat, bound: real)
    requires i < |es| && es[i].entity.currentDirection.x > 0.0
    ensures exists n: nat :: Ticks(es, n)[i].translation.x > bound
  {
    var x0, dx := es[i].translation.x, es[i].entity.currentDirection.x;
    var k := (bound - x0) / dx;
    var n: nat := if k < 0.0 then 0 else k.Floor + 1;
    assert (n as real) > k;
    assert (n as real) * dx > k * dx;
    assert k * dx == bound - x0;
    TicksClosedForm(es, n, i);
    assert Ticks(es, n)[i].translation.x > bound;
  }

  /** Entities are not kept inside the world border: one spawned heading along
      the x axis is past the border after 501 ticks. */
  lemma EntitiesIgnoreBorder(index: nat)
    ensures Ticks([Spawn(index, Vec2(1.0, 0.0))], 501)[0].translation.x > Border
  {
    TicksClosedForm([Spawn(index, Vec2(1.0, 0.0))], 501, 0);
  }

  /** The entities of the world, in spawn order. spawn_entity appends one;
      move_entities updates every translation in place. */
  class Population {
    var spawned: seq<Spawned>

    constructor ()
      ensures spawned == []
    {
      spawned := [];
    }

    /** spawn_entity, given the sampled index and the sampled, normalised direction. */
    method SpawnEntity(index: nat, direction: Vec2)
      modifies this
      ensures spawned == old(spawned) + [Spawn(index, direction)]
      ensures old(AllDrawnAsTrueForm(spawned)) ==> AllDrawnAsTrueForm(spawned)
    {
      var form := Sample(index);
      var entity := Entity(form, direction);
      spawned := spawned + [Spawned(entity, ToShape(form), Zero3)];
    }

    /** move_entities: every entity takes one step along its direction. */
    method MoveEntities()
      modifies this
      ensures spawned == Tick(old(spawned))
      ensures old(AllDrawnAsTrueForm(spawned)) ==> AllDrawnAsTrueForm(spawned)
    {
      var i := 0;
      while i < |spawned|
        invariant 0 <= i <= |spawned| == |old(spawned)|
        invariant forall j :: 0 <= j < i ==> spawned[j] == Advance(old(spawned)[j])
        invariant forall j :: i <= j < |spawned| ==> spawned[j] == old(spawned)[j]
      {
        var s := spawned[i];
        var d := s.entity.currentDirection;
        spawned := spawned[i := s.(translation := Add(s.translation, Vec3(d.x, d.y, 0.0)))];
        i := i + 1;
      }
      assert AllDrawnAsTrueForm(old(spawned)) ==> AllDrawnAsTrueForm(spawned) by {
        if AllDrawnAsTrueForm(old(spawned)) {
          TicksKeepDrawing(old(spawned), 1);
        }
      }
    }
  }
}
