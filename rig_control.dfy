/**
 * The rig-control builder of base/rigControl.py: constructing a Control makes
 * a circle curve "<prefix>_ctl" inside an empty offset group "<prefix>_grp",
 * snaps the group to the optional targets that exist, parents it under the
 * optional parent if that exists, locks the requested channels on the curve
 * and always locks translate, rotate, scale and visibility on the group.
 */
module RigControl {
  import opened Channels
  import opened Host

  /** The name of the control curve: the prefix followed by "_ctl". */
  function ControlName(prefix: string): (r: string)
    ensures |r| == |prefix| + 4
    ensures r[..|prefix|] == prefix && r[|prefix|..] == "_ctl"
  {
    prefix + "_ctl"
  }

  /** The name of the offset group: the prefix followed by "_grp". */
  function GroupName(prefix: string): (r: string)
    ensures |r| == |prefix| + 4
    ensures r[..|prefix|] == prefix && r[|prefix|..] == "_grp"
  {
    prefix + "_grp"
  }

  /** A control curve and an offset group never share a name, and neither name is empty. */
  lemma NamesDistinct(p: string, q: string)
    ensures ControlName(p) != GroupName(q)
    ensures ControlName(p) != "" && GroupName(q) != ""
  {
    var c, g := ControlName(p), GroupName(q);
    assert c[|c| - 1] == c[|p|..][3] == 'l';
    assert g[|g| - 1] == g[|q|..][3] == 'p';
  }

  /** Different prefixes give different names. */
  lemma NamesInjective(p: string, q: string)
    ensures ControlName(p) == ControlName(q) <==> p == q
    ensures GroupName(p) == GroupName(q) <==> p == q
  {
    if ControlName(p) == ControlName(q) {
      assert p == ControlName(p)[..|p|];
      assert q == ControlName(q)[..|q|];
    }
    if GroupName(p) == GroupName(q) {
      assert p == GroupName(p)[..|p|];
      assert q == GroupName(q)[..|q|];
    }
  }

  /** No attribute path of a control is an attribute path of its own offset group. */
  lemma ControlGroupPathsDistinct(prefix: string, a: string, b: string)
    ensures AttrPath(ControlName(prefix), a) != AttrPath(GroupName(prefix), b)
  {
    var i := |prefix| + 1;
    assert AttrPath(ControlName(prefix), a)[i] == ControlName(prefix)[|prefix|..][1] == 'c';
    assert AttrPath(GroupName(prefix), b)[i] == GroupName(prefix)[|prefix|..][1] == 'g';
  }

  /** The attribute paths that constructing a control locks. */
  function ConstructionLocks(prefix: string, lockChannels: seq<string>): (r: set<string>)
    ensures forall ch :: ch in Expand(lockChannels) ==> AttrPath(ControlName(prefix), ch) in r
    ensures forall ch :: ch in Expand(GroupSpecs) ==> AttrPath(GroupName(prefix), ch) in r
  {
    Attrs(ControlName(prefix), Expand(lockChannels)) + Attrs(GroupName(prefix), Expand(GroupSpecs))
  }

  /** No attribute path of `node` is locked, as for a node that has just been made. */
  ghost predicate Unlocked(locked: set<string>, node: string)
  {
    forall c :: AttrPath(node, c) !in locked
  }

  /**
   * If the curve carried no locks before, then after construction a channel
   * of the curve is locked exactly when the caller's specifiers stand for it.
   */
  lemma ControlLocksExactly(before: set<string>, prefix: string, lockChannels: seq<string>, ch: string)
    requires Unlocked(before, ControlName(prefix))
    ensures AttrPath(ControlName(prefix), ch) in before + ConstructionLocks(prefix, lockChannels) <==>
      ch in Expand(lockChannels)
  {
    LockExactly({}, ControlName(prefix), lockChannels, ch);
    forall c | c in Expand(GroupSpecs)
      ensures AttrPath(GroupName(prefix), c) != AttrPath(ControlName(prefix), ch)
    {
      ControlGroupPathsDistinct(prefix, ch, c);
    }
  }

  /**
   * If the group carried no locks before, then whatever the caller asks for,
   * after construction exactly the nine axis channels and visibility of the
   * offset group are locked.
   */
  lemma GroupLocksExactly(before: set<string>, prefix: string, lockChannels: seq<string>, ch: string)
    requires Unlocked(before, GroupName(prefix))
    ensures AttrPath(GroupName(prefix), ch) in before + ConstructionLocks(prefix, lockChannels) <==>
      ch in ["tx", "ty", "tz", "rx", "ry", "rz", "sx", "sy", "sz", "v"]
  {
    GroupSpecsExpand();
    LockExactly({}, GroupName(prefix), GroupSpecs, ch);
    forall c | c in Expand(lockChannels)
      ensures AttrPath(ControlName(prefix), c) != AttrPath(GroupName(prefix), ch)
    {
      ControlGroupPathsDistinct(prefix, c, ch);
    }
  }

  /**
   * With the default specifiers a curve that carried no locks ends with only
   * scale and visibility locked, and translate and rotate left alone.
   */
  lemma DefaultControlLocks(before: set<string>, prefix: string, ch: string)
    requires Unlocked(before, ControlName(prefix))
    ensures AttrPath(ControlName(prefix), ch) in before + ConstructionLocks(prefix, DefaultControlSpecs) <==>
      ch in ["sx", "sy", "sz", "v"]
    ensures ch in ["tx", "ty", "tz", "rx", "ry", "rz"] ==>
      AttrPath(ControlName(prefix), ch) !in before + ConstructionLocks(prefix, DefaultControlSpecs)
  {
    DefaultControlSpecsExpand();
    ControlLocksExactly(before, prefix, DefaultControlSpecs, ch);
  }

  /** With no specifiers, a curve that carried no locks ends with none. */
  lemma EmptyControlLocks(before: set<string>, prefix: string, ch: string)
    requires Unlocked(before, ControlName(prefix))
    ensures AttrPath(ControlName(prefix), ch) !in before + ConstructionLocks(prefix, [])
  {
    ControlLocksExactly(before, prefix, [], ch);
  }

  /** A rig control. The object keeps no state of its own: all it does is done to the scene. */
  class Control {

    /**
     * Builds the control in the order the steps are taken: curve and group,
     * the two snaps, the parenting, the control's locks, the group's locks.
     * The existence checks happen after the curve and group are made.
     * `scale` is accepted and not used.
     */
    constructor (
      scene: Scene,
      prefix: string := "new",
      scale: real := 1.0,
      translateTo: string := "",
      rotateTo: string := "",
      parent: string := "",
      lockChannels: seq<string> := DefaultControlSpecs)
      requires scene.Valid()
      modifies scene
      ensures scene.Valid()
      ensures scene.kinds == old(scene.kinds)[ControlName(prefix) := Curve][GroupName(prefix) := Transform]
      ensures var made := old(scene.parentOf)[ControlName(prefix) := GroupName(prefix)];
        scene.parentOf == if parent in scene.kinds then made[GroupName(prefix) := parent] else made
      ensures var moved := if translateTo in scene.kinds
                           then old(scene.alignedTo)[GroupName(prefix) := translateTo]
                           else old(scene.alignedTo);
        scene.alignedTo == if rotateTo in scene.kinds then moved[GroupName(prefix) := rotateTo] else moved
      ensures scene.locked == old(scene.locked) + ConstructionLocks(prefix, lockChannels)
      ensures Unlocked(old(scene.locked), ControlName(prefix)) ==>
        forall ch :: AttrPath(ControlName(prefix), ch) in scene.locked <==> ch in Expand(lockChannels)
      ensures Unlocked(old(scene.locked), GroupName(prefix)) ==>
        forall ch :: AttrPath(GroupName(prefix), ch) in scene.locked <==>
          ch in ["tx", "ty", "tz", "rx", "ry", "rz", "sx", "sy", "sz", "v"]
    {
      var ctrlObject, ctrlOffset := MakeCircleCtrl(scene, prefix);

      var found := scene.ObjExists(translateTo);
      if found {
        SnapTrans(scene, translateTo, ctrlOffset);
      }

      found := scene.ObjExists(rotateTo);
      if found {
        SnapOrient(scene, rotateTo, ctrlOffset);
      }

      found := scene.ObjExists(parent);
      if found {
        scene.Parent(ctrlOffset, parent);
      }

      LockByChannel(scene, ctrlObject, lockChannels);
      LockByChannel(scene, ctrlOffset, GroupSpecs);

      if Unlocked(old(scene.locked), ctrlObject) {
        forall ch
          ensures AttrPath(ctrlObject, ch) in scene.locked <==> ch in Expand(lockChannels)
        {
          ControlLocksExactly(old(scene.locked), prefix, lockChannels, ch);
        }
      }
      if Unlocked(old(scene.locked), ctrlOffset) {
        forall ch
          ensures AttrPath(ctrlOffset, ch) in scene.locked <==>
            ch in ["tx", "ty", "tz", "rx", "ry", "rz", "sx", "sy", "sz", "v"]
        {
          GroupLocksExactly(old(scene.locked), prefix, lockChannels, ch);
        }
      }
    }

    /** Makes the curve and the group and parents the curve under the group. */
    static method MakeCircleCtrl(scene: Scene, prefix: string) returns (ctrlObject: string, ctrlOffset: string)
      requires scene.Valid()
      modifies scene
      ensures scene.Valid()
      ensures ctrlObject == ControlName(prefix) && ctrlOffset == GroupName(prefix)
      ensures scene.kinds == old(scene.kinds)[ctrlObject := Curve][ctrlOffset := Transform]
      ensures scene.parentOf == old(scene.parentOf)[ctrlObject := ctrlOffset]
      ensures scene.alignedTo == old(scene.alignedTo) && scene.locked == old(scene.locked)
    {
      NamesDistinct(prefix, prefix);
      ctrlObject := ControlName(prefix);
      scene.Circle(ctrlObject);
      ctrlOffset := GroupName(prefix);
      scene.Group(ctrlOffset);
      scene.Parent(ctrlObject, ctrlOffset);
    }

    /** Moves `subject` to the world position of `target`. */
    static method SnapTrans(scene: Scene, target: string, subject: string)
      requires scene.Valid() && target in scene.kinds && subject in scene.kinds
      modifies scene
      ensures scene.Valid()
      ensures scene.alignedTo == old(scene.alignedTo)[subject := target]
      ensures scene.kinds == old(scene.kinds) && scene.parentOf == old(scene.parentOf)
      ensures scene.locked == old(scene.locked)
    {
      scene.PointSnap(target, subject);
    }

    /**
     * Meant to match the orientation of `target`, but it issues the same
     * point snap as SnapTrans: only the position moves.
     */
    static method SnapOrient(scene: Scene, target: string, subject: string)
      requires scene.Valid() && target in scene.kinds && subject in scene.kinds
      modifies scene
      ensures scene.Valid()
      ensures scene.alignedTo == old(scene.alignedTo)[subject := target]
      ensures scene.kinds == old(scene.kinds) && scene.parentOf == old(scene.parentOf)
      ensures scene.locked == old(scene.locked)
    {
      scene.PointSnap(target, subject);
    }

    /**
     * Expands the specifiers into single channels, then locks
     * "subject.channel" for each of them, in that order.
     */
    static method LockByChannel(scene: Scene, subject: string, lockChannels: seq<string>)
      requires scene.Valid() && subject in scene.kinds
      modifies scene
      ensures scene.Valid()
      ensures scene.locked == Lock(old(scene.locked), subject, lockChannels)
      ensures scene.kinds == old(scene.kinds) && scene.parentOf == old(scene.parentOf)
      ensures scene.alignedTo == old(scene.alignedTo)
    {
      var singleChannels: seq<string> := [];
      for i := 0 to |lockChannels|
        invariant singleChannels == Expand(lockChannels[..i])
        invariant unchanged(scene)
      {
        var channel := lockChannels[i];
        ExpandStep(lockChannels, i);
        if IsAxisGroup(channel) {
          singleChannels := singleChannels + [channel + "x"];
          singleChannels := singleChannels + [channel + "y"];
          singleChannels := singleChannels + [channel + "z"];
        } else {
          singleChannels := singleChannels + [channel];
        }
      }
      assert lockChannels[..|lockChannels|] == lockChannels;

      for j := 0 to |singleChannels|
        invariant scene.locked == old(scene.locked) + Attrs(subject, singleChannels[..j])
        invariant scene.kinds == old(scene.kinds) && scene.parentOf == old(scene.parentOf)
        invariant scene.alignedTo == old(scene.alignedTo)
        invariant scene.Valid()
      {
        assert singleChannels[..j + 1] == singleChannels[..j] + [singleChannels[j]];
        scene.LockAttr(subject, singleChannels[j]);
      }
      assert singleChannels[..|singleChannels|] == singleChannels;
    }
  }

  /**
   * A control built with the defaults under an existing parent, snapped to a
   * target that does not exist.
   */
  method ExampleBuild()
  {
    var scene := new Scene();
    scene.Group("root");
    var c := new Control(scene, prefix := "arm", translateTo := "nowhere", parent := "root");
    NamesDistinct("arm", "arm");
    assert ControlName("arm") == "arm_ctl" && GroupName("arm") == "arm_grp";
    assert scene.parentOf[ControlName("arm")] == GroupName("arm");
    assert scene.parentOf[GroupName("arm")] == "root";
    assert GroupName("arm") !in scene.alignedTo;
    DefaultControlSpecsExpand();
    assert AttrPath(ControlName("arm"), "tx") !in scene.locked;
    assert AttrPath(ControlName("arm"), "sx") in scene.locked;
    assert AttrPath(GroupName("arm"), "tx") in scene.locked;
  }
}
