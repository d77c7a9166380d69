/**
 * Retargeting a Mixamo FBX animation onto a VRM avatar.
 *
 * The FBX asset is given as its animation clips and the nodes `getObjectByName` finds
 * (each with its rest world rotation and its parent's, if it has a parent); the avatar
 * as its normalized humanoid bones, its scene's world height and its meta version. The
 * Mixamo-to-VRM bone table and the quaternion arithmetic of the rest-pose correction
 * (`premultiply(parent).multiply(inverse(rest))`) are parameters: `Retargeting`.
 */
module Mixamo {
  import opened Wrappers

  datatype TrackKind = QuaternionTrack | VectorTrack | OtherTrack
  datatype Track = Track(name: string, kind: TrackKind, times: seq<real>, values: seq<real>)
  datatype SourceClip = SourceClip(name: string, duration: real, tracks: seq<Track>)
  datatype Quat = Quat(x: real, y: real, z: real, w: real)
  datatype RigNode = RigNode(positionY: real, worldRotation: Quat, parentWorldRotation: Option<Quat>)
  datatype FbxAsset = FbxAsset(animations: seq<SourceClip>, nodes: map<string, RigNode>)
  datatype BoneNode = BoneNode(name: string, worldY: real)
  datatype VrmModel = VrmModel(humanoid: Option<map<string, BoneNode>>, sceneWorldY: real, metaVersion: Option<string>)
  datatype Clip = Clip(name: string, duration: real, tracks: seq<Track>)

  /** `restTransform(parentWorld, restWorld, q)` is the corrected rotation of keyframe `q`. */
  datatype Retargeting = Retargeting(rigMap: map<string, string>, restTransform: (Quat, Quat, Quat) -> Quat)

  /** The ways the returned promise rejects. */
  datatype LoadError = NoClip | NoMotionHips | NoVrmHips | ZeroMotionHipsHeight | NoParent(rigName: string)

  const ClipName: string := "mixamo.com"
  const ResultName: string := "vrmAnimation"
  const MotionHipsName: string := "mixamorigHips"

  // ---------------------------------------------------------------------------
  // Clip selection
  // ---------------------------------------------------------------------------

  /** `AnimationClip.findByName`: the first clip with the name. */
  function FindByName(clips: seq<SourceClip>, name: string): (r: Option<nat>)
    ensures r.Some? ==> r.value < |clips| && clips[r.value].name == name
                        && forall j :: 0 <= j < r.value ==> clips[j].name != name
    ensures r.None? ==> forall j :: 0 <= j < |clips| ==> clips[j].name != name
  {
    if |clips| == 0 then None
    else if clips[0].name == name then Some(0)
    else match FindByName(clips[1..], name)
      case None => None
      case Some(i) => Some(i + 1)
  }

  /** The clip named `mixamo.com`, else the first clip, else none. */
  function SelectClip(clips: seq<SourceClip>): (r: Option<SourceClip>)
    ensures r.None? <==> |clips| == 0
    ensures forall i :: (0 <= i < |clips| && clips[i].name == ClipName
                         && forall j :: 0 <= j < i ==> clips[j].name != ClipName) ==> r == Some(clips[i])
    ensures (forall j :: 0 <= j < |clips| ==> clips[j].name != ClipName) && |clips| > 0 ==> r == Some(clips[0])
  {
    match FindByName(clips, ClipName)
    case Some(i) => Some(clips[i])
    case None => if |clips| == 0 then None else Some(clips[0])
  }

  // ---------------------------------------------------------------------------
  // Track names
  // ---------------------------------------------------------------------------

  function IndexOf(s: string, c: char): (r: Option<nat>)
    ensures r.Some? ==> r.value < |s| && s[r.value] == c && c !in s[..r.value]
    ensures r.None? ==> c !in s
  {
    if |s| == 0 then None
    else if s[0] == c then Some(0)
    else match IndexOf(s[1..], c)
      case None => None
      case Some(i) =>
        assert s[..i + 1] == [s[0]] + s[1..][..i];
        Some(i + 1)
  }

  /** `name.split('.')[0]`. */
  function RigNameOf(name: string): string
  {
    match IndexOf(name, '.')
    case None => name
    case Some(i) => name[..i]
  }

  /** `name.split('.')[1]`: `None` stands for `undefined` when the name has no dot. */
  function PropertyOf(name: string): Option<string>
  {
    match IndexOf(name, '.')
    case None => None
    case Some(i) => Some(RigNameOf(name[i + 1..]))
  }

  /** A template literal prints `undefined` for a missing property. */
  function TrackName(vrmNodeName: string, property: Option<string>): string
  {
    vrmNodeName + "." + (match property case None => "undefined" case Some(p) => p)
  }

  lemma {:induction false} IndexOfFirst(a: string, c: char, b: string)
    requires c !in a
    ensures IndexOf(a + [c] + b, c) == Some(|a|)
  {
    if |a| > 0 {
      assert (a + [c] + b)[1..] == a[1..] + [c] + b;
      IndexOfFirst(a[1..], c, b);
    } else {
      assert (a + [c] + b)[0] == c;
    }
  }

  /** Splitting a `rig.property` name recovers both parts, and renaming then splits to the new node name. */
  lemma SplitJoin(rig: string, property: string)
    requires '.' !in rig && '.' !in property
    ensures RigNameOf(rig + "." + property) == rig
    ensures PropertyOf(rig + "." + property) == Some(property)
    ensures RigNameOf(TrackName(rig, Some(property))) == rig
  {
    IndexOfFirst(rig, '.', property);
    var s := rig + "." + property;
    assert s[..|rig|] == rig;
    assert s[|rig| + 1..] == property;
    assert IndexOf(property, '.') == None;
  }

  // ---------------------------------------------------------------------------
  // Keyframe values
  // ---------------------------------------------------------------------------

  function IsVrm0(vrm: VrmModel): bool
  {
    vrm.metaVersion == Some("0")
  }

  function Negate(v: real, flip: bool): real
  {
    if flip then -v else v
  }

  /** `values.map((v, i) => (vrm0 && i % 2 === 0 ? -v : v))`. */
  function FlipQuaternions(values: seq<real>, vrm0: bool): (r: seq<real>)
    ensures |r| == |values|
  {
    seq(|values|, i requires 0 <= i < |values| => Negate(values[i], vrm0 && i % 2 == 0))
  }

  /** `values.map((v, i) => (vrm0 && i % 3 !== 1 ? -v : v) * scale)`. */
  function ScaleVectors(values: seq<real>, vrm0: bool, scale: real): (r: seq<real>)
    ensures |r| == |values|
  {
    seq(|values|, i requires 0 <= i < |values| => Negate(values[i], vrm0 && i % 3 != 1) * scale)
  }

  lemma FlipQuaternionsEffect(values: seq<real>, vrm0: bool)
    ensures vrm0 ==> forall i :: 0 <= i < |values| && i % 2 == 0 ==> FlipQuaternions(values, vrm0)[i] == -values[i]
    ensures vrm0 ==> forall i :: 0 <= i < |values| && i % 2 == 1 ==> FlipQuaternions(values, vrm0)[i] == values[i]
    ensures !vrm0 ==> FlipQuaternions(values, vrm0) == values
  {
  }

  /** The VRM0 sign flip undoes itself. */
  lemma FlipQuaternionsInvolution(values: seq<real>, vrm0: bool)
    ensures FlipQuaternions(FlipQuaternions(values, vrm0), vrm0) == values
  {
  }

  lemma ScaleVectorsEffect(values: seq<real>, vrm0: bool, scale: real)
    ensures vrm0 ==> forall i :: 0 <= i < |values| && i % 3 != 1 ==> ScaleVectors(values, vrm0, scale)[i] == -values[i] * scale
    ensures vrm0 ==> forall i :: 0 <= i < |values| && i % 3 == 1 ==> ScaleVectors(values, vrm0, scale)[i] == values[i] * scale
    ensures !vrm0 ==> forall i :: 0 <= i < |values| ==> ScaleVectors(values, vrm0, scale)[i] == values[i] * scale
  {
  }

  /** A nonzero scale is undone by its reciprocal, the axis flip by itself. */
  lemma ScaleVectorsInverse(values: seq<real>, vrm0: bool, scale: real)
    requires scale != 0.0
    ensures ScaleVectors(ScaleVectors(values, vrm0, scale), vrm0, 1.0 / scale) == values
  {
    var once := ScaleVectors(values, vrm0, scale);
    var twice := ScaleVectors(once, vrm0, 1.0 / scale);
    forall i | 0 <= i < |values| ensures twice[i] == values[i] {
      var f := vrm0 && i % 3 != 1;
      assert once[i] == Negate(values[i], f) * scale;
      assert twice[i] == Negate(Negate(values[i], f) * scale, f) * (1.0 / scale);
      assert Negate(Negate(values[i], f) * scale, f) == values[i] * scale;
      assert values[i] * scale * (1.0 / scale) == values[i];
    }
  }

  function QuatAt(values: seq<real>, b: nat): Quat
    requires b + 4 <= |values|
  {
    Quat(values[b], values[b + 1], values[b + 2], values[b + 3])
  }

  function Component(q: Quat, k: nat): real
    requires k < 4
  {
    if k == 0 then q.x else if k == 1 then q.y else if k == 2 then q.z else q.w
  }

  /** Value `i` after the rest-pose correction of every whole quaternion block. */
  function CorrectedAt(values: seq<real>, i: nat, parent: Quat, rest: Quat, rt: Retargeting): real
    requires i < |values|
  {
    var b := i - i % 4;
    if b + 4 <= |values| then Component(rt.restTransform(parent, rest, QuatAt(values, b)), i % 4) else values[i]
  }

  /** The values the `i += 4` loop leaves in the track. */
  function Corrected(values: seq<real>, parent: Quat, rest: Quat, rt: Retargeting): (r: seq<real>)
    ensures |r| == |values|
  {
    seq(|values|, i requires 0 <= i < |values| => CorrectedAt(values, i, parent, rest, rt))
  }

  /** Each whole block of four values is replaced by the corrected rotation of that block. */
  lemma CorrectedBlocks(values: seq<real>, parent: Quat, rest: Quat, rt: Retargeting, k: nat)
    requires 4 * k + 4 <= |values|
    ensures QuatAt(Corrected(values, parent, rest, rt), 4 * k) == rt.restTransform(parent, rest, QuatAt(values, 4 * k))
  {
    BlockOf(k, 4 * k);
    BlockOf(k, 4 * k + 1);
    BlockOf(k, 4 * k + 2);
    BlockOf(k, 4 * k + 3);
  }

  /** Index `j` of the block starting at `i` has that block as its own. */
  lemma BlockOf(k: nat, j: nat)
    requires 4 * k <= j < 4 * k + 4
    ensures j - j % 4 == 4 * k && j % 4 == j - 4 * k
  {
    assert j == 4 * k + (j - 4 * k);
  }

  /** The `for (let i = 0; i < values.length; i += 4)` loop, writing each corrected block back in place. */
  method CorrectInPlace(values: array<real>, parent: Quat, rest: Quat, rt: Retargeting)
    modifies values
    ensures values[..] == Corrected(old(values[..]), parent, rest, rt)
  {
    ghost var original := values[..];
    var i := 0;
    ghost var k := 0;
    while i < values.Length
      invariant 0 <= i && i == 4 * k
      invariant i <= values.Length + 3
      invariant forall j :: 0 <= j < values.Length && j < i ==> values[j] == CorrectedAt(original, j, parent, rest, rt)
      invariant forall j :: i <= j < values.Length ==> values[j] == original[j]
    {
      if i + 4 <= values.Length {
        assert Quat(values[i], values[i + 1], values[i + 2], values[i + 3]) == QuatAt(original, i);
        var q := rt.restTransform(parent, rest, Quat(values[i], values[i + 1], values[i + 2], values[i + 3]));
        values[i], values[i + 1], values[i + 2], values[i + 3] := q.x, q.y, q.z, q.w;
      }
      forall j | i <= j < values.Length && j < i + 4
        ensures values[j] == CorrectedAt(original, j, parent, rest, rt)
      {
        BlockOf(k, j);
      }
      i, k := i + 4, k + 1;
    }
    assert values[..] == Corrected(original, parent, rest, rt);
  }

  // ---------------------------------------------------------------------------
  // One track
  // ---------------------------------------------------------------------------

  datatype Outcome = Keep(track: Track) | Drop | Fail(error: LoadError)

  /** `mixamoVRMRigMap[rig]`, `undefined` when the table has no entry. */
  function BoneNameOf(rig: string, rt: Retargeting): Option<string>
  {
    if rig in rt.rigMap then Some(rt.rigMap[rig]) else None
  }

  /** `vrm.humanoid?.getNormalizedBoneNode(bone)`. */
  function BoneNodeOf(vrm: VrmModel, bone: Option<string>): Option<BoneNode>
  {
    if vrm.humanoid.Some? && bone.Some? && bone.value in vrm.humanoid.value then Some(vrm.humanoid.value[bone.value]) else None
  }

  /** `vrmNodeName && mixamoRigNode`: a node with a non-empty name on both sides. */
  predicate Mapped(track: Track, asset: FbxAsset, vrm: VrmModel, rt: Retargeting)
  {
    var rig := RigNameOf(track.name);
    var node := BoneNodeOf(vrm, BoneNameOf(rig, rt));
    node.Some? && node.value.name != "" && rig in asset.nodes
  }

  predicate IsHipsPosition(track: Track, rt: Retargeting)
  {
    BoneNameOf(RigNameOf(track.name), rt) == Some("hips") && PropertyOf(track.name) == Some("position")
  }

  /** What the `forEach` callback does with one track. */
  function RetargetTrack(track: Track, asset: FbxAsset, vrm: VrmModel, rt: Retargeting, scale: real): Outcome
  {
    if !Mapped(track, asset, vrm, rt) || IsHipsPosition(track, rt) then Drop
    else
      var rig := RigNameOf(track.name);
      var node := asset.nodes[rig];
      // `mixamoRigNode.parent.getWorldQuaternion(...)` throws on a node without a parent.
      if node.parentWorldRotation.None? then Fail(NoParent(rig))
      else
        var name := TrackName(BoneNodeOf(vrm, BoneNameOf(rig, rt)).value.name, PropertyOf(track.name));
        match track.kind
        case QuaternionTrack =>
          var corrected := Corrected(track.values, node.parentWorldRotation.value, node.worldRotation, rt);
          Keep(Track(name, QuaternionTrack, track.times, FlipQuaternions(corrected, IsVrm0(vrm))))
        case VectorTrack =>
          Keep(Track(name, VectorTrack, track.times, ScaleVectors(track.values, IsVrm0(vrm), scale)))
        case OtherTrack => Drop
  }

  /** A track is kept exactly when it is mapped on both sides, not the hips position, has a parent node, and is a quaternion or vector track. */
  lemma KeptIff(track: Track, asset: FbxAsset, vrm: VrmModel, rt: Retargeting, scale: real)
    ensures RetargetTrack(track, asset, vrm, rt, scale).Keep? <==>
      && Mapped(track, asset, vrm, rt)
      && !IsHipsPosition(track, rt)
      && asset.nodes[RigNameOf(track.name)].parentWorldRotation.Some?
      && track.kind != OtherTrack
    ensures RetargetTrack(track, asset, vrm, rt, scale).Fail? <==>
      Mapped(track, asset, vrm, rt) && !IsHipsPosition(track, rt) && asset.nodes[RigNameOf(track.name)].parentWorldRotation.None?
  {
  }

  /** A `rig.position` track whose rig the table maps to `hips` is dropped, whatever else holds. */
  lemma HipsPositionDropped(rig: string, track: Track, asset: FbxAsset, vrm: VrmModel, rt: Retargeting, scale: real)
    requires '.' !in rig && track.name == rig + ".position"
    requires rig in rt.rigMap && rt.rigMap[rig] == "hips"
    ensures RetargetTrack(track, asset, vrm, rt, scale) == Drop
  {
    assert rig + ".position" == rig + "." + "position";
    SplitJoin(rig, "position");
    assert IsHipsPosition(track, rt);
  }

  /** A kept track keeps its kind, its times and its value count, and is renamed to the VRM node. */
  lemma KeptTrackShape(track: Track, asset: FbxAsset, vrm: VrmModel, rt: Retargeting, scale: real)
    requires RetargetTrack(track, asset, vrm, rt, scale).Keep?
    ensures var t := RetargetTrack(track, asset, vrm, rt, scale).track;
      var rig := RigNameOf(track.name);
      && t.kind == track.kind
      && t.times == track.times
      && |t.values| == |track.values|
      && t.name == TrackName(BoneNodeOf(vrm, BoneNameOf(rig, rt)).value.name, PropertyOf(track.name))
  {
  }

  /** Kept quaternion values: corrected block by block, then flipped on even indices for VRM0. */
  lemma KeptQuaternionValues(track: Track, asset: FbxAsset, vrm: VrmModel, rt: Retargeting, scale: real)
    requires RetargetTrack(track, asset, vrm, rt, scale).Keep? && track.kind == QuaternionTrack
    ensures var node := asset.nodes[RigNameOf(track.name)];
      var corrected := Corrected(track.values, node.parentWorldRotation.value, node.worldRotation, rt);
      var v := RetargetTrack(track, asset, vrm, rt, scale).track.values;
      && (IsVrm0(vrm) ==> forall i :: 0 <= i < |v| ==> v[i] == (if i % 2 == 0 then -corrected[i] else corrected[i]))
      && (!IsVrm0(vrm) ==> v == corrected)
  {
  }

  /** Kept vector values: negated off the y axis for VRM0, then multiplied by the hips scale. */
  lemma KeptVectorValues(track: Track, asset: FbxAsset, vrm: VrmModel, rt: Retargeting, scale: real)
    requires RetargetTrack(track, asset, vrm, rt, scale).Keep? && track.kind == VectorTrack
    ensures var v := RetargetTrack(track, asset, vrm, rt, scale).track.values;
      && (IsVrm0(vrm) ==> forall i :: 0 <= i < |v| ==> v[i] == (if i % 3 != 1 then -track.values[i] else track.values[i]) * scale)
      && (!IsVrm0(vrm) ==> forall i :: 0 <= i < |v| ==> v[i] == track.values[i] * scale)
  {
  }

  // ---------------------------------------------------------------------------
  // All tracks
  // ---------------------------------------------------------------------------

  /** The `forEach` over the source tracks, pushing kept tracks; the first throw rejects the whole load. */
  function RetargetTracks(tracks: seq<Track>, asset: FbxAsset, vrm: VrmModel, rt: Retargeting, scale: real): Result<seq<Track>, LoadError>
  {
    if |tracks| == 0 then Ok([])
    else
      match RetargetTracks(tracks[..|tracks| - 1], asset, vrm, rt, scale)
      case Err(e) => Err(e)
      case Ok(kept) =>
        match RetargetTrack(tracks[|tracks| - 1], asset, vrm, rt, scale)
        case Fail(e) => Err(e)
        case Drop => Ok(kept)
        case Keep(t) => Ok(kept + [t])
  }

  /** The tracks one callback pushes: its track when kept, none otherwise. */
  function KeptPart(o: Outcome): seq<Track>
  {
    if o.Keep? then [o.track] else []
  }

  /** Reference definition: the kept tracks, in source order. */
  function KeptOf(tracks: seq<Track>, asset: FbxAsset, vrm: VrmModel, rt: Retargeting, scale: real): seq<Track>
  {
    if |tracks| == 0 then []
    else
      KeptPart(RetargetTrack(tracks[0], asset, vrm, rt, scale)) + KeptOf(tracks[1..], asset, vrm, rt, scale)
  }

  /** Reference definition: the error of the first track whose callback throws. */
  function FirstFailure(tracks: seq<Track>, asset: FbxAsset, vrm: VrmModel, rt: Retargeting, scale: real): Option<LoadError>
  {
    if |tracks| == 0 then None
    else
      var o := RetargetTrack(tracks[0], asset, vrm, rt, scale);
      if o.Fail? then Some(o.error) else FirstFailure(tracks[1..], asset, vrm, rt, scale)
  }

  lemma {:induction false} KeptOfAppend(tracks: seq<Track>, last: Track, asset: FbxAsset, vrm: VrmModel, rt: Retargeting, scale: real)
    ensures KeptOf(tracks + [last], asset, vrm, rt, scale)
         == KeptOf(tracks, asset, vrm, rt, scale) + KeptOf([last], asset, vrm, rt, scale)
  {
    if |tracks| > 0 {
      var rest := tracks[1..];
      var head := KeptPart(RetargetTrack(tracks[0], asset, vrm, rt, scale));
      assert (tracks + [last])[0] == tracks[0];
      assert (tracks + [last])[1..] == rest + [last];
      KeptOfAppend(rest, last, asset, vrm, rt, scale);
      assert KeptOf(tracks + [last], asset, vrm, rt, scale) == head + KeptOf(rest + [last], asset, vrm, rt, scale);
      assert KeptOf(tracks, asset, vrm, rt, scale) == head + KeptOf(rest, asset, vrm, rt, scale);
      assert head + (KeptOf(rest, asset, vrm, rt, scale) + KeptOf([last], asset, vrm, rt, scale))
          == (head + KeptOf(rest, asset, vrm, rt, scale)) + KeptOf([last], asset, vrm, rt, scale);
    } else {
      assert tracks + [last] == [last];
    }
  }

  lemma {:induction false} FirstFailureAppend(tracks: seq<Track>, last: Track, asset: FbxAsset, vrm: VrmModel, rt: Retargeting, scale: real)
    ensures FirstFailure(tracks + [last], asset, vrm, rt, scale)
         == (if FirstFailure(tracks, asset, vrm, rt, scale).Some? then FirstFailure(tracks, asset, vrm, rt, scale)
             else FirstFailure([last], asset, vrm, rt, scale))
  {
    if |tracks| > 0 {
      assert (tracks + [last])[1..] == tracks[1..] + [last];
      FirstFailureAppend(tracks[1..], last, asset, vrm, rt, scale);
    } else {
      assert tracks + [last] == [last];
    }
  }

  /** The load rejects with the first throwing track's error; otherwise it yields exactly the kept tracks in source order. */
  lemma {:induction false} RetargetTracksCharacterized(tracks: seq<Track>, asset: FbxAsset, vrm: VrmModel, rt: Retargeting, scale: real)
    ensures RetargetTracks(tracks, asset, vrm, rt, scale)
         == match FirstFailure(tracks, asset, vrm, rt, scale)
            case Some(e) => Err(e)
            case None => Ok(KeptOf(tracks, asset, vrm, rt, scale))
  {
    if |tracks| > 0 {
      var init := tracks[..|tracks| - 1];
      var last := tracks[|tracks| - 1];
      assert tracks == init + [last];
      RetargetTracksCharacterized(init, asset, vrm, rt, scale);
      KeptOfAppend(init, last, asset, vrm, rt, scale);
      FirstFailureAppend(init, last, asset, vrm, rt, scale);
      assert [last][1..] == [];
      assert KeptOf([last], asset, vrm, rt, scale) == KeptPart(RetargetTrack(last, asset, vrm, rt, scale));
      var o := RetargetTrack(last, asset, vrm, rt, scale);
      assert FirstFailure([last], asset, vrm, rt, scale) == if o.Fail? then Some(o.error) else None;
      if FirstFailure(init, asset, vrm, rt, scale).None? {
        var kept := KeptOf(init, asset, vrm, rt, scale);
        assert RetargetTracks(init, asset, vrm, rt, scale) == Ok(kept);
        match RetargetTrack(last, asset, vrm, rt, scale)
        case Fail(e) =>
        case Drop =>
          assert KeptOf(tracks, asset, vrm, rt, scale) == kept + [];
          assert kept + [] == kept;
          assert RetargetTracks(tracks, asset, vrm, rt, scale) == Ok(kept);
          assert FirstFailure(tracks, asset, vrm, rt, scale) == None;
        case Keep(t) =>
      }
    }
  }

  /** No first failure exactly when no track's callback throws. */
  lemma {:induction false} FirstFailureNoneIff(tracks: seq<Track>, asset: FbxAsset, vrm: VrmModel, rt: Retargeting, scale: real)
    ensures FirstFailure(tracks, asset, vrm, rt, scale).None?
        <==> forall i :: 0 <= i < |tracks| ==> !RetargetTrack(tracks[i], asset, vrm, rt, scale).Fail?
  {
    if |tracks| > 0 {
      var rest := tracks[1..];
      FirstFailureNoneIff(rest, asset, vrm, rt, scale);
      if RetargetTrack(tracks[0], asset, vrm, rt, scale).Fail? {
        assert FirstFailure(tracks, asset, vrm, rt, scale).Some?;
      } else {
        assert FirstFailure(tracks, asset, vrm, rt, scale) == FirstFailure(rest, asset, vrm, rt, scale);
        forall i | 1 <= i < |tracks|
          ensures tracks[i] == rest[i - 1]
        {
        }
      }
    }
  }

  /** Every kept track comes from a source track, and there are no more of them than source tracks. */
  lemma {:induction false} KeptOfOrigin(tracks: seq<Track>, asset: FbxAsset, vrm: VrmModel, rt: Retargeting, scale: real)
    ensures |KeptOf(tracks, asset, vrm, rt, scale)| <= |tracks|
    ensures forall t :: t in KeptOf(tracks, asset, vrm, rt, scale) ==>
      exists i :: 0 <= i < |tracks| && RetargetTrack(tracks[i], asset, vrm, rt, scale) == Keep(t)
  {
    if |tracks| > 0 {
      KeptOfOrigin(tracks[1..], asset, vrm, rt, scale);
      var k := KeptOf(tracks, asset, vrm, rt, scale);
      forall t | t in k
        ensures exists i :: 0 <= i < |tracks| && RetargetTrack(tracks[i], asset, vrm, rt, scale) == Keep(t)
      {
        if RetargetTrack(tracks[0], asset, vrm, rt, scale) == Keep(t) {
        } else {
          assert t in KeptOf(tracks[1..], asset, vrm, rt, scale);
          var i :| 0 <= i < |tracks[1..]| && RetargetTrack(tracks[1..][i], asset, vrm, rt, scale) == Keep(t);
          assert tracks[1..][i] == tracks[i + 1];
        }
      }
    }
  }

  // ---------------------------------------------------------------------------
  // The whole load
  // ---------------------------------------------------------------------------

  function Abs(x: real): real
  {
    if x < 0.0 then -x else x
  }

  /** `vrm.humanoid?.getNormalizedBoneNode('hips')`. */
  function VrmHips(vrm: VrmModel): Option<BoneNode>
  {
    BoneNodeOf(vrm, Some("hips"))
  }

  /** `vrmHipsHeight / motionHipsHeight`, where a zero motion height is reported as an error. */
  function HipsPositionScale(asset: FbxAsset, vrm: VrmModel): (r: Result<real, LoadError>)
    requires MotionHipsName in asset.nodes && VrmHips(vrm).Some?
    ensures r.Ok? <==> asset.nodes[MotionHipsName].positionY != 0.0
    ensures r.Ok? ==> r.value * asset.nodes[MotionHipsName].positionY == Abs(VrmHips(vrm).value.worldY - vrm.sceneWorldY)
    ensures r.Ok? ==> (r.value >= 0.0 <==> asset.nodes[MotionHipsName].positionY > 0.0 || VrmHips(vrm).value.worldY == vrm.sceneWorldY)
  {
    var motionHipsHeight := asset.nodes[MotionHipsName].positionY;
    if motionHipsHeight == 0.0 then Err(ZeroMotionHipsHeight)
    else Ok(Abs(VrmHips(vrm).value.worldY - vrm.sceneWorldY) / motionHipsHeight)
  }

  /** The clip `loadMixamoAnimation` resolves to, or the error it rejects with, in the order the source checks. */
  function Retarget(asset: FbxAsset, vrm: VrmModel, rt: Retargeting): Result<Clip, LoadError>
  {
    match SelectClip(asset.animations)
    case None => Err(NoClip)
    case Some(clip) =>
      if MotionHipsName !in asset.nodes then Err(NoMotionHips)
      else if VrmHips(vrm).None? then Err(NoVrmHips)
      else match HipsPositionScale(asset, vrm)
        case Err(e) => Err(e)
        case Ok(scale) =>
          match RetargetTracks(clip.tracks, asset, vrm, rt, scale)
          case Err(e) => Err(e)
          case Ok(tracks) => Ok(Clip(ResultName, clip.duration, tracks))
  }

  /** The three early exits, each with the error it throws. */
  lemma RetargetErrors(asset: FbxAsset, vrm: VrmModel, rt: Retargeting)
    ensures |asset.animations| == 0 ==> Retarget(asset, vrm, rt) == Err(NoClip)
    ensures |asset.animations| > 0 && MotionHipsName !in asset.nodes ==> Retarget(asset, vrm, rt) == Err(NoMotionHips)
    ensures |asset.animations| > 0 && MotionHipsName in asset.nodes && VrmHips(vrm).None? ==> Retarget(asset, vrm, rt) == Err(NoVrmHips)
  {
  }

  /** A produced clip is named `vrmAnimation`, lasts as long as the selected clip, and holds its kept tracks in order. */
  lemma RetargetResult(asset: FbxAsset, vrm: VrmModel, rt: Retargeting)
    requires Retarget(asset, vrm, rt).Ok?
    ensures var clip := SelectClip(asset.animations).value;
      var scale := HipsPositionScale(asset, vrm).value;
      var r := Retarget(asset, vrm, rt).value;
      && r.name == ResultName
      && r.duration == clip.duration
      && r.tracks == KeptOf(clip.tracks, asset, vrm, rt, scale)
      && forall i :: 0 <= i < |clip.tracks| ==> !RetargetTrack(clip.tracks[i], asset, vrm, rt, scale).Fail?
  {
    var clip := SelectClip(asset.animations).value;
    var scale := HipsPositionScale(asset, vrm).value;
    RetargetTracksCharacterized(clip.tracks, asset, vrm, rt, scale);
    FirstFailureNoneIff(clip.tracks, asset, vrm, rt, scale);
  }

  /** The retargeting of one track, as the `forEach` callback computes it, with the quaternion loop in place. */
  method RetargetOne(track: Track, asset: FbxAsset, vrm: VrmModel, rt: Retargeting, scale: real) returns (o: Outcome)
    ensures o == RetargetTrack(track, asset, vrm, rt, scale)
  {
    var rig := RigNameOf(track.name);
    var propertyName := PropertyOf(track.name);
    var vrmBoneName := BoneNameOf(rig, rt);
    var vrmBoneNode := BoneNodeOf(vrm, vrmBoneName);
    if vrmBoneNode.None? || vrmBoneNode.value.name == "" || rig !in asset.nodes {
      return Drop;
    }
    if vrmBoneName == Some("hips") && propertyName == Some("position") {
      return Drop;
    }
    var mixamoRigNode := asset.nodes[rig];
    if mixamoRigNode.parentWorldRotation.None? {
      return Fail(NoParent(rig));
    }
    var name := TrackName(vrmBoneNode.value.name, propertyName);
    var vrm0 := IsVrm0(vrm);
    match track.kind {
      case QuaternionTrack =>
        var values := new real[|track.values|](i requires 0 <= i < |track.values| => track.values[i]);
        assert values[..] == track.values;
        CorrectInPlace(values, mixamoRigNode.parentWorldRotation.value, mixamoRigNode.worldRotation, rt);
        o := Keep(Track(name, QuaternionTrack, track.times, FlipQuaternions(values[..], vrm0)));
      case VectorTrack =>
        o := Keep(Track(name, VectorTrack, track.times, ScaleVectors(track.values, vrm0, scale)));
      case OtherTrack =>
        o := Drop;
    }
  }

  /** `loadMixamoAnimation(url, vrm)` once the FBX has loaded: clip selection, the early exits, and the `forEach` that pushes tracks. */
  method LoadMixamoAnimation(asset: FbxAsset, vrm: VrmModel, rt: Retargeting) returns (r: Result<Clip, LoadError>)
    ensures r == Retarget(asset, vrm, rt)
  {
    var selected := SelectClip(asset.animations);
    if selected.None? {
      return Err(NoClip);
    }
    var clip := selected.value;
    if MotionHipsName !in asset.nodes {
      return Err(NoMotionHips);
    }
    if VrmHips(vrm).None? {
      return Err(NoVrmHips);
    }
    var hipsPositionScale := HipsPositionScale(asset, vrm);
    if hipsPositionScale.Err? {
      return Err(hipsPositionScale.error);
    }
    var tracks := RetargetAll(clip.tracks, asset, vrm, rt, hipsPositionScale.value);
    if tracks.Err? {
      return Err(tracks.error);
    }
    r := Ok(Clip(ResultName, clip.duration, tracks.value));
  }

  /** The `forEach` over the clip's tracks: kept tracks are pushed in order; the first throw ends the load. */
  method RetargetAll(tracks: seq<Track>, asset: FbxAsset, vrm: VrmModel, rt: Retargeting, scale: real)
    returns (r: Result<seq<Track>, LoadError>)
    ensures r == RetargetTracks(tracks, asset, vrm, rt, scale)
  {
    var kept: seq<Track> := [];
    for i := 0 to |tracks|
      invariant RetargetTracks(tracks[..i], asset, vrm, rt, scale) == Ok(kept)
    {
      assert tracks[..i + 1][..i] == tracks[..i];
      var o := RetargetOne(tracks[i], asset, vrm, rt, scale);
      match o {
        case Fail(e) =>
          FailurePersists(tracks, i + 1, asset, vrm, rt, scale);
          return Err(e);
        case Drop =>
        case Keep(t) =>
          kept := kept + [t];
      }
    }
    assert tracks[..|tracks|] == tracks;
    r := Ok(kept);
  }

  /** Once a prefix of the tracks has thrown, the whole `forEach` has. */
  lemma {:induction false} FailurePersists(tracks: seq<Track>, n: nat, asset: FbxAsset, vrm: VrmModel, rt: Retargeting, scale: real)
    requires n <= |tracks| && RetargetTracks(tracks[..n], asset, vrm, rt, scale).Err?
    ensures RetargetTracks(tracks, asset, vrm, rt, scale) == RetargetTracks(tracks[..n], asset, vrm, rt, scale)
    decreases |tracks| - n
  {
    if n < |tracks| {
      assert tracks[..n + 1][..n] == tracks[..n];
      FailurePersists(tracks, n + 1, asset, vrm, rt, scale);
    } else {
      assert tracks[..n] == tracks;
    }
  }
}
