/** The texture provider: the shared state behind the layer panel and the
    transform editor, with its transformation merge and section toggling. */
module TextureContext {
  import opened Common
  import opened LayerModel

  /** The provider's state variables. */
  datatype ProviderState = ProviderState(
    layers: seq<Layer>,
    activeLayer: Option<Layer>,
    activeWorkspace: string,
    expandedSections: seq<string>)

  /** The state a freshly mounted provider starts from. */
  function InitialState(): (s: ProviderState)
    ensures s.layers == [] && s.activeLayer.None?
    ensures s.activeWorkspace == "colors" && s.expandedSections == ["colors"]
  {
    ProviderState([], None, "colors", ["colors"])
  }

  /** `{ ...t, ...p }`: every field present in the patch wins. Note that the
      merge is shallow, so a patch's `offset` replaces both coordinates. */
  function Merge(t: Transformations, p: TransformPatch): (r: Transformations)
    ensures p.offset.Some? ==> r.offset == p.offset.value
    ensures p.offset.None? ==> r.offset == t.offset
    ensures p.scale.Some? ==> r.scale == p.scale.value
    ensures p.scale.None? ==> r.scale == t.scale
    ensures p.rotation.Some? ==> r.rotation == p.rotation.value
    ensures p.rotation.None? ==> r.rotation == t.rotation
    ensures p.repeat.Some? ==> r.repeat == p.repeat.value
    ensures p.repeat.None? ==> r.repeat == t.repeat
    ensures p.flipX.Some? ==> r.flipX == p.flipX.value
    ensures p.flipX.None? ==> r.flipX == t.flipX
    ensures p.flipY.Some? ==> r.flipY == p.flipY.value
    ensures p.flipY.None? ==> r.flipY == t.flipY
  {
    Transformations(
      Pick(p.offset, t.offset), Pick(p.scale, t.scale), Pick(p.rotation, t.rotation),
      Pick(p.repeat, t.repeat), Pick(p.flipX, t.flipX), Pick(p.flipY, t.flipY))
  }

  function Pick<T>(o: Option<T>, d: T): T {
    if o.Some? then o.value else d
  }

  /** The patch equivalent to applying `p` and then `q`. */
  function Then(p: TransformPatch, q: TransformPatch): TransformPatch {
    TransformPatch(
      if q.offset.Some? then q.offset else p.offset,
      if q.scale.Some? then q.scale else p.scale,
      if q.rotation.Some? then q.rotation else p.rotation,
      if q.repeat.Some? then q.repeat else p.repeat,
      if q.flipX.Some? then q.flipX else p.flipX,
      if q.flipY.Some? then q.flipY else p.flipY)
  }

  /** Two successive merges are one merge of the combined patch. */
  lemma MergeThen(t: Transformations, p: TransformPatch, q: TransformPatch)
    ensures Merge(Merge(t, p), q) == Merge(t, Then(p, q))
  {
  }

  /** A full patch (what the editor publishes) decides the result alone. */
  lemma MergeFull(t: Transformations, u: Transformations)
    ensures Merge(t, FullPatch(u)) == u
  {
  }

  /** `updateTransformation(layerId, type, value)`: the list updater passed to
      `setLayers`. `kind` is the unused `type` argument. */
  function UpdateTransformation(layers: seq<Layer>, layerId: int, kind: string, value: TransformPatch): (r: seq<Layer>)
    ensures |r| == |layers|
    ensures forall i :: 0 <= i < |layers| && layers[i].id != layerId ==> r[i] == layers[i]
    ensures forall i :: 0 <= i < |layers| && layers[i].id == layerId ==>
              r[i] == layers[i].(transformations := Merge(layers[i].transformations, value))
  {
    if layers == [] then []
    else
      var head := if layers[0].id == layerId
        then layers[0].(transformations := Merge(layers[0].transformations, value))
        else layers[0];
      [head] + UpdateTransformation(layers[1..], layerId, kind, value)
  }

  /** The `type` argument has no influence on the result. */
  lemma {:induction false} UpdateTransformationIgnoresKind(layers: seq<Layer>, layerId: int, k1: string, k2: string, value: TransformPatch)
    ensures UpdateTransformation(layers, layerId, k1, value) == UpdateTransformation(layers, layerId, k2, value)
  {
    if layers != [] {
      UpdateTransformationIgnoresKind(layers[1..], layerId, k1, k2, value);
    }
  }

  /** Applying the same update twice is the same as applying it once. */
  lemma {:induction false} UpdateTransformationIdempotent(layers: seq<Layer>, layerId: int, kind: string, value: TransformPatch)
    ensures var once := UpdateTransformation(layers, layerId, kind, value);
            UpdateTransformation(once, layerId, kind, value) == once
  {
    if layers != [] {
      var once := UpdateTransformation(layers, layerId, kind, value);
      UpdateTransformationIdempotent(layers[1..], layerId, kind, value);
      assert once[1..] == UpdateTransformation(layers[1..], layerId, kind, value);
    }
  }

  /** Every occurrence of `s` removed, order of the rest kept (`filter`). */
  function RemoveAll(sections: seq<string>, s: string): (r: seq<string>)
    ensures forall x :: x in r <==> x in sections && x != s
    ensures |r| <= |sections|
  {
    if sections == [] then []
    else (if sections[0] == s then [] else [sections[0]]) + RemoveAll(sections[1..], s)
  }

  /** `toggleSection(section)`: remove a present section (every copy of it),
      append an absent one. */
  function ToggleSection(sections: seq<string>, section: string): (r: seq<string>)
    ensures section in r <==> section !in sections
    ensures forall x :: x != section ==> (x in r <==> x in sections)
    ensures section !in sections ==> r == sections + [section]
  {
    if section in sections then RemoveAll(sections, section) else sections + [section]
  }

  lemma {:induction false} RemoveAllAbsent(sections: seq<string>, s: string)
    requires s !in sections
    ensures RemoveAll(sections, s) == sections
  {
    if sections != [] {
      RemoveAllAbsent(sections[1..], s);
      assert sections == [sections[0]] + sections[1..];
    }
  }

  lemma {:induction false} RemoveAllAppend(a: seq<string>, b: seq<string>, s: string)
    ensures RemoveAll(a + b, s) == RemoveAll(a, s) + RemoveAll(b, s)
  {
    if a == [] {
      assert a + b == b;
    } else {
      var ab := a + b;
      assert ab[0] == a[0];
      assert ab[1..] == a[1..] + b;
      var head: seq<string> := if a[0] == s then [] else [a[0]];
      calc {
        RemoveAll(ab, s);
        head + RemoveAll(a[1..] + b, s);
        { RemoveAllAppend(a[1..], b, s); }
        head + (RemoveAll(a[1..], s) + RemoveAll(b, s));
        (head + RemoveAll(a[1..], s)) + RemoveAll(b, s);
        RemoveAll(a, s) + RemoveAll(b, s);
      }
    }
  }

  /** Toggling twice restores which sections are expanded; when the section
      was collapsed, it restores the list itself. */
  lemma ToggleSectionTwice(sections: seq<string>, section: string)
    ensures var twice := ToggleSection(ToggleSection(sections, section), section);
            forall x :: x in twice <==> x in sections
    ensures section !in sections ==> ToggleSection(ToggleSection(sections, section), section) == sections
  {
    if section !in sections {
      RemoveAllAppend(sections, [section], section);
      RemoveAllAbsent(sections, section);
      assert RemoveAll([section], section) == [];
    }
  }

  /** `useTextureContext()`: the provider value, or the error it throws when
      no provider is mounted above the caller. */
  function UseTextureContext(context: Option<ProviderState>): (r: Result<ProviderState, string>)
    ensures r.Ok? <==> context.Some?
    ensures r.Ok? ==> r.value == context.value
    ensures r.Err? ==> r.error == "useTextureContext must be used within a TextureProvider"
  {
    if context.None? then Err("useTextureContext must be used within a TextureProvider")
    else Ok(context.value)
  }
}
