/** The layer panel's store operations: each takes the provider state (or its
    layer list) before the update and returns it after. Layer ids, the model
    directory and the loader's outcome are parameters. */
module TextureLayerManager {
  import opened Common
  import opened Scene
  import opened LayerModel
  import opened TextureContext

  /** The record `addLayer` builds when the list has `count` layers. */
  function NewLayer(id: int, count: nat, modelDirectory: Option<string>): (l: Layer)
    ensures l.id == id && l.texture.None? && l.opacity == 1.0 && l.visible
    ensures l.isActive <==> count == 0
    ensures l.transformations == Identity && l.modelDirectory == modelDirectory
    ensures l.name == "Layer " + NatToString(count + 1)
  {
    Layer(id, "Layer " + NatToString(count + 1), None, 1.0, true, count == 0, modelDirectory, Identity)
  }

  /** `addLayer()`: one new layer appended at the end. */
  function AddLayer(layers: seq<Layer>, id: int, modelDirectory: Option<string>): (r: seq<Layer>)
    ensures |r| == |layers| + 1 && r[..|layers|] == layers
    ensures r[|layers|] == NewLayer(id, |layers|, modelDirectory)
    ensures r[|layers|].isActive <==> layers == []
  {
    layers + [NewLayer(id, |layers|, modelDirectory)]
  }

  /** The mount effect: an empty stack receives its first layer, which is
      the one active layer; a non-empty stack is left alone. */
  function MountLayers(layers: seq<Layer>, id: int, modelDirectory: Option<string>): (r: seq<Layer>)
    ensures layers != [] ==> r == layers
    ensures layers == [] ==> |r| == 1 && ActiveCount(r) == 1
  {
    if layers == [] then AddLayer(layers, id, modelDirectory) else layers
  }

  /** The `prev.map` of `handleSetActive`: exactly the layers carrying `id`
      are flagged active. */
  function SetActiveLayers(layers: seq<Layer>, id: int): (r: seq<Layer>)
    ensures |r| == |layers|
    ensures forall i :: 0 <= i < |layers| ==> r[i] == layers[i].(isActive := layers[i].id == id)
  {
    if layers == [] then []
    else [layers[0].(isActive := layers[0].id == id)] + SetActiveLayers(layers[1..], id)
  }

  /** Number of layers carrying `id`. */
  function CountId(layers: seq<Layer>, id: int): (n: nat)
    ensures n <= |layers|
  {
    if layers == [] then 0
    else (if layers[0].id == id then 1 else 0) + CountId(layers[1..], id)
  }

  lemma {:induction false} UniqueCountId(layers: seq<Layer>, id: int)
    requires UniqueIds(layers)
    ensures CountId(layers, id) == (if Find(layers, id).Some? then 1 else 0)
  {
    if layers != [] {
      assert UniqueIds(layers[1..]) by {
        forall i, j | 0 <= i < j < |layers[1..]| ensures layers[1..][i].id != layers[1..][j].id {
          assert layers[1..][i] == layers[i + 1] && layers[1..][j] == layers[j + 1];
        }
      }
      UniqueCountId(layers[1..], id);
      if layers[0].id == id {
        assert forall i :: 0 <= i < |layers[1..]| ==> layers[1..][i].id != id by {
          forall i | 0 <= i < |layers[1..]| ensures layers[1..][i].id != id {
            assert layers[1..][i] == layers[i + 1];
          }
        }
      } else {
        assert Find(layers, id).Some? <==> Find(layers[1..], id).Some? by {
          forall i | 0 <= i < |layers[1..]| ensures layers[1..][i] == layers[i + 1] { }
        }
      }
    }
  }

  /** After `SetActiveLayers`, the number of active layers is the number of
      layers carrying the id. */
  lemma {:induction false} SetActiveCount(layers: seq<Layer>, id: int)
    ensures ActiveCount(SetActiveLayers(layers, id)) == CountId(layers, id)
  {
    if layers != [] {
      SetActiveCount(layers[1..], id);
      assert SetActiveLayers(layers, id)[1..] == SetActiveLayers(layers[1..], id);
    }
  }

  /** With distinct ids, selecting a present id leaves exactly one active
      layer; an unknown id leaves none, whatever the ids. */
  lemma SetActiveExactlyOne(layers: seq<Layer>, id: int)
    ensures Find(layers, id).None? ==> ActiveCount(SetActiveLayers(layers, id)) == 0
    ensures UniqueIds(layers) && Find(layers, id).Some? ==> ActiveCount(SetActiveLayers(layers, id)) == 1
  {
    SetActiveCount(layers, id);
    if UniqueIds(layers) {
      UniqueCountId(layers, id);
    } else if Find(layers, id).None? {
      NoIdCount(layers, id);
    }
  }

  lemma {:induction false} NoIdCount(layers: seq<Layer>, id: int)
    requires forall i :: 0 <= i < |layers| ==> layers[i].id != id
    ensures CountId(layers, id) == 0
  {
    if layers != [] {
      assert forall i :: 0 <= i < |layers[1..]| ==> layers[1..][i].id != id by {
        forall i | 0 <= i < |layers[1..]| ensures layers[1..][i].id != id {
          assert layers[1..][i] == layers[i + 1];
        }
      }
      NoIdCount(layers[1..], id);
    }
  }

  /** `handleSetActive(id)`: the active layer becomes the first record with
      that id in the list as it was (or none), and the flags are rewritten. */
  function HandleSetActive(s: ProviderState, id: int): (r: ProviderState)
    ensures r.layers == SetActiveLayers(s.layers, id)
    ensures r.activeLayer == Find(s.layers, id)
    ensures r.activeWorkspace == s.activeWorkspace && r.expandedSections == s.expandedSections
  {
    s.(activeLayer := Find(s.layers, id), layers := SetActiveLayers(s.layers, id))
  }

  /** What the loader's success callback does to a fresh texture. */
  function PrepareUpload(t: Texture): (u: Texture)
    ensures u.colorSpace == SRGBColorSpace && !u.flipY && u.premultiplyAlpha
    ensures u.source == t.source && u.hasImage == t.hasImage
  {
    t.(colorSpace := SRGBColorSpace, flipY := false, premultiplyAlpha := true)
  }

  /** The `updatedLayer` record built once the image has loaded. */
  function UploadedLayer(layerId: int, fileName: string, texture: Texture, modelDirectory: Option<string>): (l: Layer)
    ensures l.id == layerId && l.name == fileName && l.texture == Some(PrepareUpload(texture))
    ensures l.isActive && l.visible && l.opacity == 1.0 && l.transformations == Identity
  {
    Layer(layerId, fileName, Some(PrepareUpload(texture)), 1.0, true, true, modelDirectory, Identity)
  }

  /** The `prev.map` of `handleFileChange`: matching layers are replaced by
      `updated`, every other layer is deactivated. */
  function ApplyUpload(layers: seq<Layer>, layerId: int, updated: Layer): (r: seq<Layer>)
    ensures |r| == |layers|
    ensures forall i :: 0 <= i < |layers| && layers[i].id == layerId ==> r[i] == updated
    ensures forall i :: 0 <= i < |layers| && layers[i].id != layerId ==> r[i] == layers[i].(isActive := false)
  {
    if layers == [] then []
    else [if layers[0].id == layerId then updated else layers[0].(isActive := false)]
         + ApplyUpload(layers[1..], layerId, updated)
  }

  /** `handleFileChange(layerId, event)`. `file` is the first chosen file, if
      any; `loaded` is the texture loader's outcome for it. */
  function HandleFileChange(s: ProviderState, layerId: int, file: Option<FileInfo>,
                            loaded: Option<Texture>, modelDirectory: Option<string>): (r: ProviderState)
    ensures !IsImageFile(file) || loaded.None? ==> r == s
    ensures IsImageFile(file) && loaded.Some? ==>
      var updated := UploadedLayer(layerId, file.value.name, loaded.value, modelDirectory);
      r == s.(layers := ApplyUpload(s.layers, layerId, updated), activeLayer := Some(updated))
  {
    if !IsImageFile(file) || loaded.None? then s
    else
      var updated := UploadedLayer(layerId, file.value.name, loaded.value, modelDirectory);
      s.(layers := ApplyUpload(s.layers, layerId, updated), activeLayer := Some(updated))
  }

  lemma {:induction false} ApplyUploadCount(layers: seq<Layer>, layerId: int, updated: Layer)
    requires updated.isActive
    ensures ActiveCount(ApplyUpload(layers, layerId, updated)) == CountId(layers, layerId)
  {
    if layers != [] {
      ApplyUploadCount(layers[1..], layerId, updated);
      assert ApplyUpload(layers, layerId, updated)[1..] == ApplyUpload(layers[1..], layerId, updated);
    }
  }

  /** After a successful upload onto a present layer (distinct ids), that
      layer is the one active layer and the active record equals it. When
      the id is not in the list, no layer is left active although
      `activeLayer` is set. */
  lemma UploadActivation(s: ProviderState, layerId: int, file: Option<FileInfo>,
                         loaded: Option<Texture>, modelDirectory: Option<string>)
    requires IsImageFile(file) && loaded.Some?
    ensures var r := HandleFileChange(s, layerId, file, loaded, modelDirectory);
            r.activeLayer.Some? && r.activeLayer.value.id == layerId &&
            (UniqueIds(s.layers) && Find(s.layers, layerId).Some? ==>
               ActiveCount(r.layers) == 1 && r.activeLayer.value == r.layers[IndexOf(s.layers, layerId)]) &&
            (Find(s.layers, layerId).None? ==> ActiveCount(r.layers) == 0)
  {
    var updated := UploadedLayer(layerId, file.value.name, loaded.value, modelDirectory);
    ApplyUploadCount(s.layers, layerId, updated);
    if UniqueIds(s.layers) {
      UniqueCountId(s.layers, layerId);
    }
    if Find(s.layers, layerId).None? {
      NoIdCount(s.layers, layerId);
    }
  }

  /** `toggleLayerVisibility(id)` */
  function ToggleVisibility(layers: seq<Layer>, id: int): (r: seq<Layer>)
    ensures |r| == |layers|
    ensures forall i :: 0 <= i < |layers| && layers[i].id == id ==> r[i] == layers[i].(visible := !layers[i].visible)
    ensures forall i :: 0 <= i < |layers| && layers[i].id != id ==> r[i] == layers[i]
  {
    if layers == [] then []
    else [if layers[0].id == id then layers[0].(visible := !layers[0].visible) else layers[0]]
         + ToggleVisibility(layers[1..], id)
  }

  /** Toggling the same id twice restores the list. */
  lemma {:induction false} ToggleVisibilityTwice(layers: seq<Layer>, id: int)
    ensures ToggleVisibility(ToggleVisibility(layers, id), id) == layers
  {
    if layers != [] {
      var once := ToggleVisibility(layers, id);
      ToggleVisibilityTwice(layers[1..], id);
      assert once[1..] == ToggleVisibility(layers[1..], id);
      assert layers == [layers[0]] + layers[1..];
    }
  }

  /** `updateLayerOpacity(id, opacity)`: no clamping. */
  function SetOpacity(layers: seq<Layer>, id: int, opacity: real): (r: seq<Layer>)
    ensures |r| == |layers|
    ensures forall i :: 0 <= i < |layers| && layers[i].id == id ==> r[i] == layers[i].(opacity := opacity)
    ensures forall i :: 0 <= i < |layers| && layers[i].id != id ==> r[i] == layers[i]
  {
    if layers == [] then []
    else [if layers[0].id == id then layers[0].(opacity := opacity) else layers[0]]
         + SetOpacity(layers[1..], id, opacity)
  }

  /** A later opacity update for the same id overrides an earlier one. */
  lemma {:induction false} SetOpacityLastWins(layers: seq<Layer>, id: int, a: real, b: real)
    ensures SetOpacity(SetOpacity(layers, id, a), id, b) == SetOpacity(layers, id, b)
  {
    if layers != [] {
      SetOpacityLastWins(layers[1..], id, a, b);
      assert SetOpacity(layers, id, a)[1..] == SetOpacity(layers[1..], id, a);
    }
  }

  /** The index `moveLayer` swaps with, before the range test. */
  function MoveTarget(index: int, up: bool): int {
    if up then index - 1 else index + 1
  }

  /** What `moveLayer(id, direction)` stores: the first layer with `id`
      swapped with its neighbour above (`up`) or below, or the list itself
      for an unknown id or at either end. */
  function Moved(layers: seq<Layer>, id: int, up: bool): (r: seq<Layer>)
    ensures |r| == |layers| && multiset(r) == multiset(layers)
    ensures IndexOf(layers, id) == -1 ==> r == layers
    ensures up && IndexOf(layers, id) == 0 ==> r == layers
    ensures !up && IndexOf(layers, id) == |layers| - 1 ==> r == layers
    ensures var k := IndexOf(layers, id);
            k != -1 && 0 <= MoveTarget(k, up) < |layers| ==>
              r[k] == layers[MoveTarget(k, up)] && r[MoveTarget(k, up)] == layers[k] &&
              forall j :: 0 <= j < |layers| && j != k && j != MoveTarget(k, up) ==> r[j] == layers[j]
  {
    var k := IndexOf(layers, id);
    var n := MoveTarget(k, up);
    if k == -1 || n < 0 || n >= |layers| then layers
    else layers[k := layers[n]][n := layers[k]]
  }

  /** `moveLayer(id, direction)`: a `findIndex` scan, then a swap in a copy
      of the array. */
  method MoveLayer(layers: seq<Layer>, id: int, up: bool) returns (r: seq<Layer>)
    ensures r == Moved(layers, id, up)
    ensures IndexOf(layers, id) == -1 ==> r == layers
  {
    var index := -1;
    var i := 0;
    while i < |layers| && index == -1
      invariant 0 <= i <= |layers|
      invariant index == -1 ==> forall j :: 0 <= j < i ==> layers[j].id != id
      invariant index != -1 ==> index == IndexOf(layers, id)
    {
      if layers[i].id == id {
        index := i;
      }
      i := i + 1;
    }
    if index == -1 {
      return layers;
    }
    var newIndex := MoveTarget(index, up);
    if 0 <= newIndex < |layers| {
      var a := new Layer[|layers|](j requires 0 <= j < |layers| => layers[j]);
      a[index], a[newIndex] := a[newIndex], a[index];
      r := a[..];
    } else {
      r := layers;
    }
  }

  /** Moving a layer up and then down again restores the list, unless the
      layer was already on top (the first move is then a no-op and the
      second one is not). */
  lemma {:induction false} MoveUpThenDown(layers: seq<Layer>, id: int)
    ensures IndexOf(layers, id) != 0 ==> Moved(Moved(layers, id, true), id, false) == layers
  {
    var k := IndexOf(layers, id);
    if k != -1 && k - 1 >= 0 {
      var once := layers[k := layers[k - 1]][k - 1 := layers[k]];
      MovedSwaps(layers, id, true, k, k - 1);
      IndexOfFirst(once, id, k - 1);
      MovedSwaps(once, id, false, k - 1, k);
      assert once[k - 1 := once[k]][k := once[k - 1]] == layers;
    }
  }

  /** A move that finds the layer at `k` and a neighbour at `n` swaps them. */
  lemma {:induction false} MovedSwaps(layers: seq<Layer>, id: int, up: bool, k: int, n: int)
    requires IndexOf(layers, id) == k && n == MoveTarget(k, up)
    requires 0 <= k < |layers| && 0 <= n < |layers|
    ensures Moved(layers, id, up) == layers[k := layers[n]][n := layers[k]]
  {
  }

  /** A position holding `id` with no earlier one is what `findIndex` finds. */
  lemma {:induction false} IndexOfFirst(layers: seq<Layer>, id: int, k: int)
    requires 0 <= k < |layers| && layers[k].id == id
    requires forall i :: 0 <= i < k ==> layers[i].id != id
    ensures IndexOf(layers, id) == k
  {
  }

  /** `prev.filter(layer => layer.id !== id)` */
  function WithoutId(layers: seq<Layer>, id: int): (r: seq<Layer>)
    ensures |r| + CountId(layers, id) == |layers|
    ensures forall l :: l in r <==> l in layers && l.id != id
  {
    if layers == [] then []
    else (if layers[0].id == id then [] else [layers[0]]) + WithoutId(layers[1..], id)
  }

  /** The filter works element by element: a single layer is kept exactly
      when its id differs. */
  lemma WithoutIdSingle(l: Layer, id: int)
    ensures WithoutId([l], id) == if l.id == id then [] else [l]
  {
    assert [l][1..] == [];
  }

  /** The filter distributes over concatenation, so the kept layers stay in
      their relative order. */
  lemma {:induction false} WithoutIdAppend(a: seq<Layer>, b: seq<Layer>, id: int)
    ensures WithoutId(a + b, id) == WithoutId(a, id) + WithoutId(b, id)
  {
    if a == [] {
      assert a + b == b;
    } else {
      assert (a + b)[0] == a[0];
      assert (a + b)[1..] == a[1..] + b;
      WithoutIdAppend(a[1..], b, id);
    }
  }

  /** A list without `id` is kept as it is. */
  lemma {:induction false} WithoutIdAbsent(layers: seq<Layer>, id: int)
    requires forall i :: 0 <= i < |layers| ==> layers[i].id != id
    ensures WithoutId(layers, id) == layers
  {
    if layers != [] {
      WithoutIdAbsent(layers[1..], id);
    }
  }

  /** Deleting a layer whose id no other layer carries leaves the layers
      before it and after it, in their order. */
  lemma DeleteUniqueKeepsOrder(a: seq<Layer>, l: Layer, b: seq<Layer>)
    requires forall i :: 0 <= i < |a| ==> a[i].id != l.id
    requires forall i :: 0 <= i < |b| ==> b[i].id != l.id
    ensures WithoutId(a + [l] + b, l.id) == a + b
  {
    WithoutIdAppend(a + [l], b, l.id);
    WithoutIdAppend(a, [l], l.id);
    WithoutIdSingle(l, l.id);
    WithoutIdAbsent(a, l.id);
    WithoutIdAbsent(b, l.id);
    calc {
      WithoutId(a + [l] + b, l.id);
      WithoutId(a + [l], l.id) + WithoutId(b, l.id);
      (WithoutId(a, l.id) + WithoutId([l], l.id)) + WithoutId(b, l.id);
      { assert a + [] == a; }
      a + b;
    }
  }

  /** Deleting a layer whose id no other layer carries leaves the others in
      their order; the first of them becomes active exactly when the deleted
      layer was. */
  lemma DeleteUniqueLayer(a: seq<Layer>, l: Layer, b: seq<Layer>)
    requires forall i :: 0 <= i < |a| ==> a[i].id != l.id
    requires forall i :: 0 <= i < |b| ==> b[i].id != l.id
    ensures DeleteLayer(a + [l] + b, l.id) ==
            if l.isActive && |a + b| > 0 then (a + b)[0 := (a + b)[0].(isActive := true)] else a + b
  {
    var all := a + [l] + b;
    DeleteUniqueKeepsOrder(a, l, b);
    assert all[|a|] == l;
    var f := Find(all, l.id);
    assert f.Some?;
    var k :| 0 <= k < |all| && all[k] == f.value;
    assert k == |a|;
  }

  /** `deleteLayer(id)`: every layer with `id` removed; when the first such
      layer was active and layers remain, the new first layer is activated. */
  function DeleteLayer(layers: seq<Layer>, id: int): (r: seq<Layer>)
    ensures forall l :: l in r ==> l.id != id
    ensures var rest := WithoutId(layers, id);
            |r| == |rest| &&
            (if |rest| > 0 && Find(layers, id).Some? && Find(layers, id).value.isActive
             then r == rest[0 := rest[0].(isActive := true)]
             else r == rest)
  {
    var rest := WithoutId(layers, id);
    if |rest| > 0 && Find(layers, id).Some? && Find(layers, id).value.isActive
    then rest[0 := rest[0].(isActive := true)]
    else rest
  }

  /** Number of active layers carrying `id`. */
  function ActiveWithId(layers: seq<Layer>, id: int): (n: nat)
    ensures n <= ActiveCount(layers)
  {
    if layers == [] then 0
    else (if layers[0].id == id && layers[0].isActive then 1 else 0) + ActiveWithId(layers[1..], id)
  }

  lemma {:induction false} WithoutIdActiveCount(layers: seq<Layer>, id: int)
    ensures ActiveCount(WithoutId(layers, id)) + ActiveWithId(layers, id) == ActiveCount(layers)
  {
    if layers != [] {
      WithoutIdActiveCount(layers[1..], id);
      var head: seq<Layer> := if layers[0].id == id then [] else [layers[0]];
      ActiveCountAppend(head, WithoutId(layers[1..], id));
    }
  }

  lemma {:induction false} ActiveCountAppend(a: seq<Layer>, b: seq<Layer>)
    ensures ActiveCount(a + b) == ActiveCount(a) + ActiveCount(b)
  {
    if a == [] {
      assert a + b == b;
    } else {
      ActiveCountAppend(a[1..], b);
      assert (a + b)[1..] == a[1..] + b;
    }
  }

  lemma {:induction false} UniqueActiveWithId(layers: seq<Layer>, id: int)
    requires UniqueIds(layers)
    ensures ActiveWithId(layers, id) == (if Find(layers, id).Some? && Find(layers, id).value.isActive then 1 else 0)
  {
    if layers != [] {
      assert UniqueIds(layers[1..]) by {
        forall i, j | 0 <= i < j < |layers[1..]| ensures layers[1..][i].id != layers[1..][j].id {
          assert layers[1..][i] == layers[i + 1] && layers[1..][j] == layers[j + 1];
        }
      }
      UniqueActiveWithId(layers[1..], id);
      if layers[0].id == id {
        assert forall i :: 0 <= i < |layers[1..]| ==> layers[1..][i].id != id by {
          forall i | 0 <= i < |layers[1..]| ensures layers[1..][i].id != id {
            assert layers[1..][i] == layers[i + 1];
          }
        }
      } else {
        assert Find(layers, id) == Find(layers[1..], id) by {
          forall i | 0 <= i < |layers[1..]| ensures layers[1..][i] == layers[i + 1] { }
          assert IndexOf(layers, id) == (if IndexOf(layers[1..], id) == -1 then -1 else IndexOf(layers[1..], id) + 1);
        }
      }
    }
  }

  lemma ActivateFirstCount(layers: seq<Layer>)
    requires |layers| > 0
    ensures ActiveCount(layers[0 := layers[0].(isActive := true)]) == ActiveCount(layers[1..]) + 1
  {
    var r := layers[0 := layers[0].(isActive := true)];
    assert r[1..] == layers[1..];
  }

  /** With distinct ids and exactly one active layer, deleting any layer
      keeps exactly one active layer unless the stack becomes empty. */
  lemma DeleteKeepsOneActive(layers: seq<Layer>, id: int)
    requires UniqueIds(layers) && ActiveCount(layers) == 1
    ensures var r := DeleteLayer(layers, id); r == [] || ActiveCount(r) == 1
  {
    var rest := WithoutId(layers, id);
    WithoutIdActiveCount(layers, id);
    UniqueActiveWithId(layers, id);
    if |rest| > 0 && Find(layers, id).Some? && Find(layers, id).value.isActive {
      ActivateFirstCount(rest);
      assert ActiveCount(rest) == 0;
      assert ActiveCount(rest) == (if rest[0].isActive then 1 else 0) + ActiveCount(rest[1..]);
    }
  }
}
