/**
 * The part of the host application's scene graph that the rig-control
 * builder touches, as abstract state: which nodes exist (and whether each is
 * a curve or an empty transform), which node each node is parented under,
 * whose world position each node was last snapped to, and which attribute
 * paths ("node.channel") are locked. Each host command the builder issues is
 * a method that changes exactly that state.
 */
module Host {
  import opened Channels

  /** The kind of node the builder creates. */
  datatype NodeKind = Curve | Transform

  class Scene {
    /** The nodes that exist, by name, with their kind. */
    var kinds: map<string, NodeKind>
    /** child name -> parent name. */
    var parentOf: map<string, string>
    /** node name -> the node whose world position it was last snapped to. */
    var alignedTo: map<string, string>
    /** The locked attribute paths. */
    var locked: set<string>

    /** Every name the state mentions is a node; the empty name never is. */
    ghost predicate Valid()
      reads this
    {
      && "" !in kinds
      && parentOf.Keys <= kinds.Keys
      && parentOf.Values <= kinds.Keys
      && alignedTo.Keys <= kinds.Keys
      && alignedTo.Values <= kinds.Keys
    }

    /** An empty scene. */
    constructor ()
      ensures Valid()
      ensures kinds == map[] && parentOf == map[] && alignedTo == map[] && locked == {}
    {
      kinds, parentOf, alignedTo, locked := map[], map[], map[], {};
    }

    /** Whether a node of that name exists; the empty name never does. */
    method ObjExists(name: string) returns (found: bool)
      requires Valid()
      ensures found <==> name in kinds
      ensures name == "" ==> !found
    {
      found := name in kinds;
    }

    /** Creates a circle curve without construction history. */
    method Circle(name: string)
      requires Valid() && name != ""
      modifies this
      ensures Valid()
      ensures kinds == old(kinds)[name := Curve]
      ensures parentOf == old(parentOf) && alignedTo == old(alignedTo) && locked == old(locked)
    {
      kinds := kinds[name := Curve];
    }

    /** Creates an empty transform (a group with no children). */
    method Group(name: string)
      requires Valid() && name != ""
      modifies this
      ensures Valid()
      ensures kinds == old(kinds)[name := Transform]
      ensures parentOf == old(parentOf) && alignedTo == old(alignedTo) && locked == old(locked)
    {
      kinds := kinds[name := Transform];
    }

    /** Parents `child` under `parent`, replacing its previous parent. */
    method Parent(child: string, parent: string)
      requires Valid() && child in kinds && parent in kinds
      modifies this
      ensures Valid()
      ensures parentOf == old(parentOf)[child := parent]
      ensures kinds == old(kinds) && alignedTo == old(alignedTo) && locked == old(locked)
    {
      parentOf := parentOf[child := parent];
    }

    /**
     * Point-constrains `subject` to `target` and deletes the constraint at
     * once: `subject` keeps the world position of `target` and nothing else
     * remains of the constraint.
     */
    method PointSnap(target: string, subject: string)
      requires Valid() && target in kinds && subject in kinds
      modifies this
      ensures Valid()
      ensures alignedTo == old(alignedTo)[subject := target]
      ensures kinds == old(kinds) && parentOf == old(parentOf) && locked == old(locked)
    {
      alignedTo := alignedTo[subject := target];
    }

    /** Sets the lock flag of the attribute path "node.channel"; the node must exist. */
    method LockAttr(node: string, channel: string)
      requires Valid() && node in kinds
      modifies this
      ensures Valid()
      ensures locked == old(locked) + {AttrPath(node, channel)}
      ensures kinds == old(kinds) && parentOf == old(parentOf) && alignedTo == old(alignedTo)
    {
      locked := locked + {AttrPath(node, channel)};
    }
  }
}
