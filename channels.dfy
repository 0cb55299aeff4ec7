/**
 * Channel-lock expansion of the rig-control builder.
 *
 * A lock specifier is a short string: "t", "r" and "s" stand for the three
 * per-axis attributes of translate, rotate and scale; anything else (most
 * often "v", visibility) names one attribute as it is. Locking a list of
 * specifiers on a node locks the attribute path "node.channel" of every
 * channel the list expands to.
 */
module Channels {

  /** The specifiers that stand for three per-axis attributes. */
  predicate IsAxisGroup(c: string)
  {
    c == "t" || c == "r" || c == "s"
  }

  /** The channels one specifier stands for. */
  function ExpandOne(c: string): seq<string>
  {
    if IsAxisGroup(c) then [c + "x", c + "y", c + "z"] else [c]
  }

  /** The single channels a list of specifiers stands for, in list order. */
  function Expand(specs: seq<string>): (r: seq<string>)
    ensures r == [] <==> specs == []
    ensures |specs| <= |r| <= 3 * |specs|
  {
    if specs == [] then [] else ExpandOne(specs[0]) + Expand(specs[1..])
  }

  /** How many entries of the list are "t", "r" or "s". */
  function AxisGroupCount(specs: seq<string>): nat
  {
    multiset(specs)["t"] + multiset(specs)["r"] + multiset(specs)["s"]
  }

  /** The attribute path the host uses to address a channel of a node. */
  function AttrPath(node: string, channel: string): (r: string)
    ensures |r| == |node| + 1 + |channel|
    ensures r[..|node|] == node && r[|node|] == '.' && r[|node| + 1..] == channel
  {
    node + "." + channel
  }

  /** The attribute paths of the given channels on one node. */
  function Attrs(node: string, channels: seq<string>): set<string>
  {
    set c | c in channels :: AttrPath(node, c)
  }

  /** The locked set after locking every channel `specs` stands for on `node`. */
  function Lock(locked: set<string>, node: string, specs: seq<string>): (r: set<string>)
    ensures locked <= r
    ensures forall c :: c in Expand(specs) ==> AttrPath(node, c) in r
  {
    locked + Attrs(node, Expand(specs))
  }

  /** The specifiers always locked on the offset group. */
  const GroupSpecs: seq<string> := ["t", "r", "s", "v"]

  /** The default specifiers locked on the control curve. */
  const DefaultControlSpecs: seq<string> := ["s", "v"]

  // ---------------------------------------------------------------------
  // Shape of the expansion

  /** Expansion distributes over concatenation: it works entry by entry. */
  lemma {:induction false} ExpandAppend(a: seq<string>, b: seq<string>)
    ensures Expand(a + b) == Expand(a) + Expand(b)
  {
    if a == [] {
      assert a + b == b;
    } else {
      assert (a + b)[0] == a[0];
      assert (a + b)[1..] == a[1..] + b;
      ExpandAppend(a[1..], b);
    }
  }

  /** Every "t", "r" or "s" yields three channels, every other entry one. */
  lemma {:induction false} ExpandLength(specs: seq<string>)
    ensures |Expand(specs)| == |specs| + 2 * AxisGroupCount(specs)
  {
    if specs != [] {
      assert specs == [specs[0]] + specs[1..];
      assert multiset(specs) == multiset([specs[0]]) + multiset(specs[1..]);
      ExpandLength(specs[1..]);
    }
  }

  /**
   * Entry i of the list lands right after the expansion of the entries before
   * it: an axis group as its x, y and z channels in that order, any other
   * entry unchanged.
   */
  lemma ExpandAt(specs: seq<string>, i: nat)
    requires i < |specs|
    ensures var k := |Expand(specs[..i])|;
      if IsAxisGroup(specs[i]) then
        k + 3 <= |Expand(specs)| &&
        Expand(specs)[k..k + 3] == [specs[i] + "x", specs[i] + "y", specs[i] + "z"]
      else
        k < |Expand(specs)| && Expand(specs)[k] == specs[i]
  {
    var rest := [specs[i]] + specs[i + 1..];
    assert specs == specs[..i] + rest;
    ExpandAppend(specs[..i], rest);
    assert rest[0] == specs[i] && rest[1..] == specs[i + 1..];
  }

  /** Reading one more entry appends that entry's channels to the expansion so far. */
  lemma ExpandStep(specs: seq<string>, i: nat)
    requires i < |specs|
    ensures Expand(specs[..i + 1]) == Expand(specs[..i]) + ExpandOne(specs[i])
  {
    assert specs[..i + 1] == specs[..i] + [specs[i]];
    ExpandAppend(specs[..i], [specs[i]]);
    assert Expand([specs[i]]) == ExpandOne(specs[i]) + Expand([]);
  }

  /** The channels one specifier stands for, described without ExpandOne. */
  lemma ExpandOneMembership(c: string, ch: string)
    ensures ch in ExpandOne(c) <==>
      (ch == c && !IsAxisGroup(c)) ||
      (|ch| == 2 && ch[..1] == c && IsAxisGroup(c) && ch[1] in "xyz")
  {
    if IsAxisGroup(c) {
      if |ch| == 2 && ch[..1] == c && ch[1] in "xyz" {
        assert ch == c + [ch[1]];
      }
    }
  }

  /**
   * A channel comes out of the expansion exactly when it was listed and is
   * not an axis group, or it is an axis group that was listed followed by
   * one of x, y, z.
   */
  lemma {:induction false} ExpandMembership(specs: seq<string>, ch: string)
    ensures ch in Expand(specs) <==>
      (ch in specs && !IsAxisGroup(ch)) ||
      (|ch| == 2 && ch[..1] in specs && IsAxisGroup(ch[..1]) && ch[1] in "xyz")
  {
    if specs != [] {
      ExpandOneMembership(specs[0], ch);
      ExpandMembership(specs[1..], ch);
      assert specs == [specs[0]] + specs[1..];
      assert forall x :: x in specs <==> x == specs[0] || x in specs[1..];
    }
  }

  /** The expansion never yields "t", "r" or "s" itself. */
  lemma {:induction false} NoAxisGroupAfterExpand(specs: seq<string>)
    ensures forall i :: 0 <= i < |Expand(specs)| ==> !IsAxisGroup(Expand(specs)[i])
  {
    forall i | 0 <= i < |Expand(specs)|
      ensures !IsAxisGroup(Expand(specs)[i])
    {
      ExpandMembership(specs, Expand(specs)[i]);
    }
  }

  /** A list without axis groups is passed through unchanged, duplicates and all. */
  lemma {:induction false} ExpandPassThrough(specs: seq<string>)
    requires forall i :: 0 <= i < |specs| ==> !IsAxisGroup(specs[i])
    ensures Expand(specs) == specs
  {
    if specs != [] {
      assert !IsAxisGroup(specs[0]);
      ExpandPassThrough(specs[1..]);
    }
  }

  /** Expanding an already expanded list changes nothing. */
  lemma ExpandIdempotent(specs: seq<string>)
    ensures Expand(Expand(specs)) == Expand(specs)
  {
    NoAxisGroupAfterExpand(specs);
    ExpandPassThrough(Expand(specs));
  }

  /** The offset group's specifiers stand for all nine axis channels and visibility. */
  lemma GroupSpecsExpand()
    ensures Expand(GroupSpecs) == ["tx", "ty", "tz", "rx", "ry", "rz", "sx", "sy", "sz", "v"]
  {
    var tr, trs := ["t", "r"], ["t", "r", "s"];
    SingleExpand("t");
    SingleExpand("r");
    SingleExpand("s");
    SingleExpand("v");
    assert tr == ["t"] + ["r"];
    ExpandAppend(["t"], ["r"]);
    assert Expand(tr) == ["tx", "ty", "tz", "rx", "ry", "rz"];
    assert trs == tr + ["s"];
    ExpandAppend(tr, ["s"]);
    assert Expand(trs) == ["tx", "ty", "tz", "rx", "ry", "rz", "sx", "sy", "sz"];
    assert GroupSpecs == trs + ["v"];
    ExpandAppend(trs, ["v"]);
  }

  /** The default specifiers stand for the three scale channels and visibility. */
  lemma DefaultControlSpecsExpand()
    ensures Expand(DefaultControlSpecs) == ["sx", "sy", "sz", "v"]
  {
    assert DefaultControlSpecs == ["s"] + ["v"];
    ExpandAppend(["s"], ["v"]);
    SingleExpand("s");
    SingleExpand("v");
  }

  /** The expansion of a one-entry list, spelled out for the four standard letters. */
  lemma SingleExpand(c: string)
    requires c in ["t", "r", "s", "v"]
    ensures c == "t" ==> Expand([c]) == ["tx", "ty", "tz"]
    ensures c == "r" ==> Expand([c]) == ["rx", "ry", "rz"]
    ensures c == "s" ==> Expand([c]) == ["sx", "sy", "sz"]
    ensures c == "v" ==> Expand([c]) == ["v"]
  {
    assert Expand([c]) == ExpandOne(c) + Expand([]);
    assert c + "x" == [c[0], 'x'] && c + "y" == [c[0], 'y'] && c + "z" == [c[0], 'z'];
  }

  // ---------------------------------------------------------------------
  // Locking

  /** Two paths on the same node are the same only for the same channel. */
  lemma AttrPathInjective(node: string, a: string, b: string)
    ensures AttrPath(node, a) == AttrPath(node, b) <==> a == b
  {
    if AttrPath(node, a) == AttrPath(node, b) {
      var n := |node| + 1;
      assert a == AttrPath(node, a)[n..];
      assert b == AttrPath(node, b)[n..];
    }
  }

  /**
   * After locking, a channel of `node` is locked exactly when it was locked
   * before or the specifiers stand for it; nothing is unlocked.
   */
  lemma LockExactly(locked: set<string>, node: string, specs: seq<string>, ch: string)
    ensures locked <= Lock(locked, node, specs)
    ensures AttrPath(node, ch) in Lock(locked, node, specs) <==>
      AttrPath(node, ch) in locked || ch in Expand(specs)
  {
    if AttrPath(node, ch) in Attrs(node, Expand(specs)) {
      var c :| c in Expand(specs) && AttrPath(node, c) == AttrPath(node, ch);
      AttrPathInjective(node, c, ch);
    }
  }

  /** Locking two lists one after the other is locking their concatenation. */
  lemma LockInSequence(locked: set<string>, node: string, a: seq<string>, b: seq<string>)
    ensures Lock(Lock(locked, node, a), node, b) == Lock(locked, node, a + b)
  {
    ExpandAppend(a, b);
    assert Attrs(node, Expand(a) + Expand(b)) == Attrs(node, Expand(a)) + Attrs(node, Expand(b));
  }

  /** Locking the same list again changes nothing. */
  lemma LockIdempotent(locked: set<string>, node: string, specs: seq<string>)
    ensures Lock(Lock(locked, node, specs), node, specs) == Lock(locked, node, specs)
  {
  }

  /** An empty list of specifiers locks nothing. */
  lemma LockNothing(locked: set<string>, node: string)
    ensures Lock(locked, node, []) == locked
  {
  }
}
