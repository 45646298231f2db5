/**
 * The component records of the entity-component system
 * (engine/core/component.py): the `Component` base, `Transform`,
 * `Renderable` and `PhysicsBody` with its force accumulator.
 */
module Components {
  import opened Wrappers
  import opened Vectors

  /**
   * The base component. `typeName` stands for `type(component).__name__`,
   * the key under which an entity stores it; `entity` is the owning entity
   * (an object of the scene module) or null.
   */
  class Component {
    const typeName: string
    var entity: object?
    var active: bool

    constructor (typeName: string)
      ensures this.typeName == typeName
      ensures entity == null && active
    {
      this.typeName := typeName;
      entity := null;
      active := true;
    }

    /** The base component's per-frame hook does nothing. */
    method Update(dt: real)
      ensures unchanged(this)
    {
    }
  }

  /** Position, Euler rotation and scale; an absent argument takes its default. */
  class Transform {
    var position: Vec3
    var rotation: Vec3
    var scale: Vec3

    constructor (position: Option<Vec3>, rotation: Option<Vec3>, scale: Option<Vec3>)
      ensures position.None? ==> this.position == Vec3(0.0, 0.0, 0.0)
      ensures position.Some? ==> this.position == position.value
      ensures rotation.None? ==> this.rotation == Vec3(0.0, 0.0, 0.0)
      ensures rotation.Some? ==> this.rotation == rotation.value
      ensures scale.None? ==> this.scale == Vec3(1.0, 1.0, 1.0)
      ensures scale.Some? ==> this.scale == scale.value
    {
      this.position := if position.Some? then position.value else Vec3(0.0, 0.0, 0.0);
      this.rotation := if rotation.Some? then rotation.value else Vec3(0.0, 0.0, 0.0);
      this.scale := if scale.Some? then scale.value else Vec3(1.0, 1.0, 1.0);
    }
  }

  /** A drawable: opaque mesh and material handles (null for `None`). */
  class Renderable {
    var mesh: object?
    var material: object?
    var visible: bool

    constructor (mesh: object?, material: object?)
      ensures this.mesh == mesh && this.material == material
      ensures visible
    {
      this.mesh := mesh;
      this.material := material;
      visible := true;
    }
  }

  /** A rigid body whose `forces` buffer is a length-3 array updated in place. */
  class PhysicsBody {
    var mass: real
    var isStatic: bool
    var velocity: Vec3
    var acceleration: Vec3
    const forces: array<real>

    ghost predicate Valid()
      reads this
    {
      forces.Length == 3
    }

    /** The accumulated force as a vector. */
    function Force(): Vec3
      reads this, forces
      requires Valid()
    {
      Vec3(forces[0], forces[1], forces[2])
    }

    /** An absent mass is 1.0 and an absent `isStatic` is false. */
    constructor (mass: Option<real>, isStatic: Option<bool>)
      ensures Valid() && fresh(forces)
      ensures mass.None? ==> this.mass == 1.0
      ensures mass.Some? ==> this.mass == mass.value
      ensures isStatic.None? ==> !this.isStatic
      ensures isStatic.Some? ==> this.isStatic == isStatic.value
      ensures velocity == Zero && acceleration == Zero && Force() == Zero
    {
      this.mass := mass.GetOr(1.0);
      this.isStatic := isStatic.GetOr(false);
      velocity := Zero;
      acceleration := Zero;
      forces := new real[3](_ => 0.0);
    }

    /** `forces += force`, in place; nothing but the buffer changes. */
    method AddForce(force: Vec3)
      requires Valid()
      modifies forces
      ensures Valid()
      ensures Force() == Add(old(Force()), force)
      ensures mass == old(mass) && isStatic == old(isStatic)
      ensures velocity == old(velocity) && acceleration == old(acceleration)
    {
      forces[0] := forces[0] + force.x;
      forces[1] := forces[1] + force.y;
      forces[2] := forces[2] + force.z;
    }

    /** `forces.fill(0.0)`; nothing but the buffer changes. */
    method ClearForces()
      requires Valid()
      modifies forces
      ensures Valid()
      ensures Force() == Zero
      ensures mass == old(mass) && isStatic == old(isStatic)
      ensures velocity == old(velocity) && acceleration == old(acceleration)
    {
      var k := 0;
      while k < 3
        invariant 0 <= k <= 3
        invariant forall j :: 0 <= j < k ==> forces[j] == 0.0
      {
        forces[k] := 0.0;
        k := k + 1;
      }
    }
  }

  /** The buffer after `add_force` is called with each of `fs` in turn, starting from `start`. */
  function Accumulated(start: Vec3, fs: seq<Vec3>): Vec3
    decreases |fs|
  {
    if fs == [] then start else Accumulated(Add(start, fs[0]), fs[1..])
  }

  /** The vector sum of `fs`. */
  function Total(fs: seq<Vec3>): Vec3
  {
    if fs == [] then Zero else Add(fs[0], Total(fs[1..]))
  }

  /** Successive `add_force` calls leave the start value plus the sum of the forces. */
  lemma {:induction false} AccumulatedIsTotal(start: Vec3, fs: seq<Vec3>)
    ensures Accumulated(start, fs) == Add(start, Total(fs))
    decreases |fs|
  {
    if fs != [] {
      AccumulatedIsTotal(Add(start, fs[0]), fs[1..]);
    }
  }

  /** After `clear_forces`, successive `add_force` calls leave exactly the sum of the forces. */
  lemma ClearedThenAccumulated(fs: seq<Vec3>)
    ensures Accumulated(Zero, fs) == Total(fs)
  {
    AccumulatedIsTotal(Zero, fs);
  }
}
