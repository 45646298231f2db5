/**
 * The scene graph (engine/core/scene.py): an `Entity` keeps its components
 * in a dictionary keyed by type name, and a `Scene` keeps its entities both
 * in an ordered list and in a dictionary from entity id to entity. The two
 * views are maintained side by side but not checked against each other.
 */
module SceneGraph {
  import opened Wrappers
  import opened Components

  /** The component dictionary after `components[c.typeName] = c`. */
  function Attach(m: map<string, Component>, c: Component): (r: map<string, Component>)
    ensures c.typeName in r && r[c.typeName] == c
    ensures r.Keys == m.Keys + {c.typeName}
    ensures forall t :: t in m && t != c.typeName ==> r[t] == m[t]
  {
    m[c.typeName := c]
  }

  /** The component dictionary after `del components[t]` guarded by `t in components`. */
  function Detach(m: map<string, Component>, t: string): (r: map<string, Component>)
    ensures r.Keys == m.Keys - {t}
    ensures forall u :: u in r ==> r[u] == m[u]
    ensures t !in m ==> r == m
  {
    if t in m then m - {t} else m
  }

  /** The position of the first occurrence of `e` in `s`. */
  function IndexOf(s: seq<Entity>, e: Entity): (i: nat)
    requires e in s
    ensures i < |s| && s[i] == e && e !in s[..i]
  {
    if s[0] == e then 0 else 1 + IndexOf(s[1..], e)
  }

  /** The list after Python's `list.remove(e)`: the first occurrence of `e` goes, nothing else. */
  function RemoveFirst(s: seq<Entity>, e: Entity): (r: seq<Entity>)
    ensures e !in s ==> r == s
    ensures e in s ==> |r| == |s| - 1 && multiset(r) == multiset(s) - multiset{e}
  {
    if e in s then
      var i := IndexOf(s, e);
      assert s == s[..i] + [e] + s[i + 1..];
      s[..i] + s[i + 1..]
    else s
  }

  /** Every component of every active entity of `es`, the ones `Scene.update` reaches. */
  ghost function ActiveComponents(es: seq<Entity>): set<Component>
    reads set e | e in es
  {
    if es == [] then {}
    else
      var last := es[|es| - 1];
      ActiveComponents(es[..|es| - 1]) + (if last.active then last.components.Values else {})
  }

  class Entity {
    const name: string
    /** Stands for Python's `id(self)`. */
    const id: int
    var components: map<string, Component>
    var active: bool
    var transform: Transform

    /** An absent name is the empty string. */
    constructor (name: Option<string>, id: int)
      ensures name.None? ==> this.name == ""
      ensures name.Some? ==> this.name == name.value
      ensures this.id == id
      ensures components == map[] && active
      ensures fresh(transform)
      ensures transform.position == Vectors.Zero && transform.rotation == Vectors.Zero
      ensures transform.scale == Vectors.Vec3(1.0, 1.0, 1.0)
    {
      this.name := name.GetOr("");
      this.id := id;
      components := map[];
      active := true;
      transform := new Transform(None, None, None);
    }

    /** Stores `c` under its type name, replacing any component of that type, and points `c` back here. */
    method AddComponent(c: Component)
      modifies this, c
      ensures components == Attach(old(components), c)
      ensures c.entity == this && c.active == old(c.active)
      ensures active == old(active) && transform == old(transform)
    {
      components := components[c.typeName := c];
      c.entity := this;
    }

    /** The component stored under `componentType`, or None. */
    method GetComponent(componentType: string) returns (r: Option<Component>)
      ensures r.Some? <==> componentType in components
      ensures r.Some? ==> r.value == components[componentType]
    {
      if componentType in components {
        r := Some(components[componentType]);
      } else {
        r := None;
      }
    }

    /** Deletes the component stored under `componentType`; an absent type is a no-op. */
    method RemoveComponent(componentType: string)
      modifies this
      ensures components == Detach(old(components), componentType)
      ensures active == old(active) && transform == old(transform)
    {
      if componentType in components {
        components := components - {componentType};
      }
    }
  }

  class Scene {
    var entities: seq<Entity>
    var entityMap: map<int, Entity>

    constructor ()
      ensures entities == [] && entityMap == map[]
    {
      entities := [];
      entityMap := map[];
    }

    /** Appends `entity` (duplicates included) and maps its id to it; returns the same entity. */
    method AddEntity(entity: Entity) returns (r: Entity)
      modifies this
      ensures r == entity
      ensures entities == old(entities) + [entity]
      ensures entityMap == old(entityMap)[entity.id := entity]
    {
      entities := entities + [entity];
      entityMap := entityMap[entity.id := entity];
      r := entity;
    }

    /**
     * Removes the first occurrence of `entity` from the list and its id from
     * the map; an entity not in the list changes nothing.
     */
    method RemoveEntity(entity: Entity)
      modifies this
      ensures entities == RemoveFirst(old(entities), entity)
      ensures entity in old(entities) ==> entityMap == old(entityMap) - {entity.id}
      ensures entity !in old(entities) ==> entityMap == old(entityMap)
    {
      if entity in entities {
        entities := RemoveFirst(entities, entity);
        if entity.id in entityMap {
          entityMap := entityMap - {entity.id};
        }
      }
    }

    /** The first entity in list order named `name`, or None when no entity has that name. */
    method FindEntityByName(name: string) returns (r: Option<Entity>)
      ensures r.None? <==> forall k :: 0 <= k < |entities| ==> entities[k].name != name
      ensures r.Some? ==> exists k :: 0 <= k < |entities| && entities[k] == r.value && r.value.name == name &&
                            forall j :: 0 <= j < k ==> entities[j].name != name
    {
      var i := 0;
      while i < |entities|
        invariant 0 <= i <= |entities|
        invariant forall j :: 0 <= j < i ==> entities[j].name != name
      {
        if entities[i].name == name {
          return Some(entities[i]);
        }
        i := i + 1;
      }
      return None;
    }

    /**
     * Calls `update(dt)` on every component of every active entity of a
     * snapshot of the list. The base component's hook does nothing, so the
     * scene is left as it was; `updated` records which components were reached.
     */
    method Update(dt: real) returns (ghost updated: set<Component>)
      ensures updated == ActiveComponents(entities)
    {
      var snapshot := entities;
      updated := {};
      var i := 0;
      while i < |snapshot|
        invariant 0 <= i <= |snapshot|
        invariant updated == ActiveComponents(snapshot[..i])
      {
        var entity := snapshot[i];
        assert snapshot[..i + 1][..i] == snapshot[..i];
        if entity.active {
          var pending := entity.components.Keys;
          ghost var reached: set<Component> := {};
          while pending != {}
            invariant pending <= entity.components.Keys
            invariant reached == set t | t in entity.components.Keys - pending :: entity.components[t]
            decreases pending
          {
            var t :| t in pending;
            entity.components[t].Update(dt);
            reached := reached + {entity.components[t]};
            pending := pending - {t};
          }
          updated := updated + reached;
        }
        i := i + 1;
      }
      assert snapshot[..|snapshot|] == snapshot;
    }
  }

  /**
   * Adding an entity that is already listed and then removing it leaves one
   * copy in the list while its id is gone from the map: the two views disagree.
   */
  lemma {:induction false} DuplicateSurvivesRemoval(s: seq<Entity>, m: map<int, Entity>, e: Entity)
    requires e in s
    ensures e in RemoveFirst(s + [e], e)
    ensures e.id !in (m[e.id := e] - {e.id})
  {
    var i := IndexOf(s, e);
    assert IndexOf(s + [e], e) == i by {
      IndexOfPrefix(s, [e], e);
    }
    assert (s + [e])[i + 1..] == s[i + 1..] + [e];
  }

  /** The first occurrence is found in the prefix when the prefix holds one. */
  lemma {:induction false} IndexOfPrefix(s: seq<Entity>, t: seq<Entity>, e: Entity)
    requires e in s
    ensures IndexOf(s + t, e) == IndexOf(s, e)
  {
    if s[0] != e {
      assert (s + t)[1..] == s[1..] + t;
      IndexOfPrefix(s[1..], t, e);
    }
  }
}
