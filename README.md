# Rig control builder, modelled in Dafny

The repository's one component is `Control`, which builds an animation rig
control inside a 3D application's scene graph (base/rigControl.py). Building it:

1. makes a circle curve named `<prefix>_ctl` and an empty transform `<prefix>_grp`, then
   parents the curve under the group;
2. if `translateTo` names an existing node, point-snaps the group to it (a point constraint
   that is deleted at once);
3. if `rotateTo` names an existing node, does the same point snap again. Despite the name,
   this is a position snap, exactly as the translate one is;
4. if `parent` names an existing node, parents the group under it;
5. locks the caller's channels on the curve (default `s`, `v`);
6. always locks `t`, `r`, `s`, `v` on the group.

Locking a list of specifiers first expands it: `t`, `r` and `s` each become three per-axis
channels (`tx ty tz`, and so on, in that order); every other entry, such as `v`, passes
through unchanged. Then the attribute path `node.channel` of every resulting channel is locked.

The scene graph lives in the host application. It is modelled as abstract state: class
`Host.Scene` holds the existing nodes with their kind, the parent map, the node each node was
last position-snapped to, and the set of locked attribute paths. Each host command the
builder issues (existence check, circle, group, parent, point snap, attribute lock) is a method
on that state. Its contract says exactly what it changes.

Files:

- `channels.dfy`, module `Channels`: the expansion `Expand` and the locking function `Lock`
  as specification functions, with lemmas about their shape, length, membership, order and
  idempotence.
- `host.dfy`, module `Host`: the abstract scene state.
- `rig_control.dfy`, module `RigControl`: names, the locks construction adds, and class
  `Control`. Its constructor takes the source's steps in the source's order. The private
  helpers are static methods: `MakeCircleCtrl`, `SnapTrans`, `SnapOrient` and
  `LockByChannel`. `LockByChannel` keeps the source's two loops and is proved against
  `Expand` and `Lock`.

## Model

| member | source | states |
|---|---|---|
| `RigControl.Control.constructor` | base/rigControl.py:13-49 | The new nodes are the curve `<prefix>_ctl` and the transform `<prefix>_grp`. The curve's parent is the group. The group's parent becomes `parent` only if a node of that name exists once both nodes have been made; otherwise it is left as it was. The group is aligned to `translateTo` if that exists, then to `rotateTo` if that exists, so the later snap wins. The new locked set is the old one plus exactly `ConstructionLocks`. If the curve carried no locks before, its locked channels afterwards are exactly `Expand(lockChannels)`. If the group carried none, its locked channels are exactly `tx,ty,tz,rx,ry,rz,sx,sy,sz,v`. The default arguments are the source's. |
| `RigControl.Control.MakeCircleCtrl` | base/rigControl.py:51-56 | Returns `prefix + "_ctl"` and `prefix + "_grp"`. It creates that curve and that transform and parents the curve under the group. Alignment and locks are unchanged. |
| `RigControl.Control.SnapTrans` | base/rigControl.py:58-59 | The subject's position source becomes the target. Nodes, parents and locks are unchanged. |
| `RigControl.Control.SnapOrient` | base/rigControl.py:61-62 | Exactly what SnapTrans does: a position snap, not an orientation match. |
| `RigControl.Control.LockByChannel` | base/rigControl.py:64-79 | The subject must exist. The first loop builds exactly `Expand(lockChannels)`. Its invariant is that the list so far is the expansion of the entries read so far. The second loop locks that list. The new locked set is `Lock(old locked, subject, lockChannels)`: the old set plus `subject.channel` for each expanded channel. Nothing is unlocked, and nodes, parents and alignment are unchanged. |
| `Host.Scene.ObjExists` | base/rigControl.py:39-46 | True exactly when a node of that name exists. The empty default name never exists, so omitted targets and parents are skipped. |
| `Host.Scene.Circle` | base/rigControl.py:52 | Adds a curve node of that name. Nothing else changes. |
| `Host.Scene.Group` | base/rigControl.py:53 | Adds an empty transform node of that name. Nothing else changes. |
| `Host.Scene.Parent` | base/rigControl.py:46 | The child's parent becomes the given node. All other parent entries are kept, and nothing else changes. |
| `Host.Scene.PointSnap` | base/rigControl.py:59 | The constraint leaves no trace. The subject is recorded as aligned to the target, and nothing else changes. |
| `Host.Scene.LockAttr` | base/rigControl.py:79 | The node must exist. Adds the path `node.channel` to the locked set, and nothing else changes. |
| `Channels.Expand` | base/rigControl.py:67-75 | The list the first loop builds. It is empty exactly when the input is, and its length is between the input's length and three times it. The exact shape is in the lemmas below. |
| `Channels.AttrPath` | base/rigControl.py:79 | The string passed to the host: the node's name, a `.`, then the channel, which can be read back from it. |
| `Channels.Lock` | base/rigControl.py:78-79 | The locked set after the second loop. It keeps every path locked before and contains `node.c` for every expanded channel `c`. |
| `Channels.ExpandStep` | base/rigControl.py:69-75 | One more pass of the first loop appends exactly the current entry's channels to the list built so far. |
| `Channels.ExpandAppend` | base/rigControl.py:69-75 | `Expand(a + b) == Expand(a) + Expand(b)`: the loop works entry by entry, keeps the input order and drops no duplicates. |
| `Channels.ExpandLength` | base/rigControl.py:69-75 | The output length is the input length plus twice the number of `t`/`r`/`s` entries. That count is taken from the multiset of the input. |
| `Channels.ExpandAt` | base/rigControl.py:69-75 | Entry i lands right after the expansion of the entries before it. A `t`, `r` or `s` lands as exactly `c+"x"`, `c+"y"`, `c+"z"` in that order, and any other entry lands unchanged. |
| `Channels.ExpandOneMembership` | base/rigControl.py:70-75 | One specifier yields itself when it is not `t`/`r`/`s`, and otherwise the two-character channels made of it and one of `x`, `y`, `z`. |
| `Channels.ExpandMembership` | base/rigControl.py:69-75 | A channel is in the expansion iff it was listed and is not `t`/`r`/`s`, or it is a listed `t`/`r`/`s` followed by `x`, `y` or `z`. |
| `Channels.NoAxisGroupAfterExpand` | base/rigControl.py:69-75 | No entry of the expansion is `t`, `r` or `s`. |
| `Channels.ExpandPassThrough` | base/rigControl.py:74-75 | A list without `t`/`r`/`s` entries comes out unchanged, including `v` and any duplicates. |
| `Channels.ExpandIdempotent` | base/rigControl.py:69-75 | Expanding an expanded list changes nothing. |
| `Channels.SingleExpand` | base/rigControl.py:70-75 | Spells out `["t"]`, `["r"]`, `["s"]` and `["v"]`: `tx ty tz`, `rx ry rz`, `sx sy sz` and `v`. |
| `Channels.GroupSpecsExpand` | base/rigControl.py:49 | `t,r,s,v` expands to `tx,ty,tz,rx,ry,rz,sx,sy,sz,v`, in that order. |
| `Channels.DefaultControlSpecsExpand` | base/rigControl.py:20 | The default `s,v` expands to `sx,sy,sz,v`. |
| `Channels.AttrPathInjective` | base/rigControl.py:79 | On one node, `node.a` and `node.b` are the same path only when `a == b`. |
| `Channels.LockExactly` | base/rigControl.py:78-79 | Locking only adds paths. A channel of the node is locked afterwards iff it was locked before or the specifiers expand to it. |
| `Channels.LockInSequence` | base/rigControl.py:78-79 | Locking `a` and then `b` on a node gives the same set as locking `a + b`. |
| `Channels.LockIdempotent` | base/rigControl.py:78-79 | Locking the same specifiers twice gives the same set as locking them once. |
| `Channels.LockNothing` | base/rigControl.py:69-79 | An empty specifier list leaves the locked set as it was. |
| `RigControl.ControlName` | base/rigControl.py:52 | The curve's name: the prefix followed by `_ctl`. |
| `RigControl.GroupName` | base/rigControl.py:53 | The group's name: the prefix followed by `_grp`. |
| `RigControl.ConstructionLocks` | base/rigControl.py:48-49 | The paths the two lock calls add. They include `<prefix>_ctl.c` for every channel `c` that `lockChannels` expands to, and `<prefix>_grp.c` for every channel of `t,r,s,v`. |
| `RigControl.NamesDistinct` | base/rigControl.py:52-53 | The curve's name is never the group's, and neither name is empty, so the host calls the builder makes are well formed. |
| `RigControl.NamesInjective` | base/rigControl.py:52-53 | Two prefixes give the same curve name, or the same group name, exactly when they are equal. |
| `RigControl.ControlGroupPathsDistinct` | base/rigControl.py:48-49 | No attribute path of the curve is an attribute path of its own group, so the two lock calls never touch each other's channels. |
| `RigControl.ControlLocksExactly` | base/rigControl.py:48-49 | If the curve carried no locks before, then after construction channel `ch` of the curve is locked iff `ch` is in `Expand(lockChannels)`. The group's locks do not affect this. |
| `RigControl.GroupLocksExactly` | base/rigControl.py:48-49 | If the group carried no locks before, then whatever `lockChannels` is, it ends with exactly `tx,ty,tz,rx,ry,rz,sx,sy,sz,v` locked. |
| `RigControl.DefaultControlLocks` | base/rigControl.py:20-48 | With the default specifiers, a curve that carried no locks ends with exactly `sx,sy,sz,v` locked and none of `tx..rz`. |
| `RigControl.EmptyControlLocks` | base/rigControl.py:48-79 | With an empty specifier list, a curve that carried no locks ends with none. |

## Left out

- Curve geometry and the `scale` argument. The constructor accepts `scale` and never uses it.
  The source never applies it either (base/rigControl.py:16, 52). The circle's shape is the
  host's business.
- World-space positions. A point snap is recorded only as "this node was aligned to that
  target". The constraint solver's floating-point result is not modelled. Neither is the fact
  that later parenting keeps world position.
- Host errors. The model does not raise them. It does not model the host's handling of a name
  that already exists (renaming or failing), so building twice with one prefix is not shown to
  fail. It does not model the host's refusal to parent a node under itself or its own child.
  It does not model locking an attribute the node does not have. In all these cases the host
  raises and the build stops part-way.
- The tie between locks and nodes. Locking needs the node to exist, but the scene invariant does not
  say that every locked path belongs to an existing node. Node names may contain `.`, so a path does
  not say which node it belongs to. The exact end-state lock results therefore assume that the new
  curve and group carried no locks before. In the host, a newly made node always starts with none.
- `Host.Scene.Circle`, `Host.Scene.Group`: an existing node of the same name is overwritten
  in the model. The host would instead rename the new node or raise an error.
- Undo history, the constraint node's own brief existence, and scene files.
- The module docstring and the import of the host's command module (base/rigControl.py:1-7).
  They carry no behaviour.
