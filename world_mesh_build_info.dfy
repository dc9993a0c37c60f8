/** MeshBuildInfo of the World/Render iteration: a pair of mesh buffers (opaqueMesh and transparentMesh),
    one for solid and one for see-through geometry. Each buffer collects
    vertices, triangle indices, texture coordinates and colours in lists;
    `Build` turns the lists into arrays and empties them, `Clear` resets
    everything. Vertex, UV and colour values are floating-point Unity
    types and appear here as type parameters. */
module WorldRenderMeshBuildInfo {
  import opened Nullable

  /** Everything a SingleMeshBuildInfo holds; an array field is `None`
      while it is null. */
  datatype Buffers<V, U, C> = Buffers(
    vertices: seq<V>, triangles: seq<int>, uv: seq<U>, colors: seq<C>, faceCount: int,
    verticesArray: Option<seq<V>>, trianglesArray: Option<seq<int>>,
    uvArray: Option<seq<U>>, colorsArray: Option<seq<C>>)

  /** The state right after construction: empty lists, no face, null arrays. */
  function Fresh<V, U, C>(): Buffers<V, U, C>
  {
    Buffers([], [], [], [], 0, None, None, None, None)
  }

  /** The state after `Build`: each array set to a copy of its list, each list emptied. */
  function Built<V, U, C>(b: Buffers<V, U, C>): Buffers<V, U, C>
  {
    b.(vertices := [], triangles := [], uv := [], colors := [],
       verticesArray := Some(b.vertices), trianglesArray := Some(b.triangles),
       uvArray := Some(b.uv), colorsArray := Some(b.colors))
  }

  /** The state after `Clear`. */
  function Cleared<V, U, C>(b: Buffers<V, U, C>): Buffers<V, U, C>
  {
    Fresh()
  }

  /** Build publishes the lists as they were, leaves nothing behind in the
      lists, and keeps the face count; Build twice in a row publishes empty
      arrays. */
  lemma BuildPublishesLists<V, U, C>(b: Buffers<V, U, C>)
    ensures Built(b).verticesArray == Some(b.vertices) && Built(b).trianglesArray == Some(b.triangles)
    ensures Built(b).uvArray == Some(b.uv) && Built(b).colorsArray == Some(b.colors)
    ensures Built(b).vertices == [] && Built(b).triangles == [] && Built(b).uv == [] && Built(b).colors == []
    ensures Built(b).faceCount == b.faceCount
    ensures Built(Built(b)).verticesArray == Some([]) && Built(Built(b)).trianglesArray == Some([])
    ensures Built(Built(b)).uvArray == Some([]) && Built(Built(b)).colorsArray == Some([])
  {
  }

  /** Clear forgets everything, whatever came before it: it is idempotent,
      it undoes a Build, and it returns the buffer to its constructed state. */
  lemma ClearIsReset<V, U, C>(b: Buffers<V, U, C>)
    ensures Cleared(Cleared(b)) == Cleared(b)
    ensures Cleared(Built(b)) == Cleared(b)
    ensures Cleared(b) == Fresh()
    ensures Cleared(b).faceCount == 0 && Cleared(b).verticesArray == None
  {
  }

  class SingleMeshBuildInfo<V, U, C> {
    var vertices: seq<V>
    var triangles: seq<int>
    var uv: seq<U>
    var colors: seq<C>
    var faceCount: int
    var verticesArray: Option<seq<V>>
    var trianglesArray: Option<seq<int>>
    var uvArray: Option<seq<U>>
    var colorsArray: Option<seq<C>>

    function State(): Buffers<V, U, C>
      reads this
    {
      Buffers(vertices, triangles, uv, colors, faceCount, verticesArray, trianglesArray, uvArray, colorsArray)
    }

    constructor ()
      ensures State() == Fresh()
    {
      vertices, triangles, uv, colors := [], [], [], [];
      faceCount := 0;
      verticesArray, trianglesArray, uvArray, colorsArray := None, None, None, None;
    }

    method Clear()
      modifies this
      ensures State() == Cleared(old(State()))
    {
      vertices, triangles, uv, colors := [], [], [], [];
      verticesArray, trianglesArray, uvArray, colorsArray := None, None, None, None;
      faceCount := 0;
    }

    method Build()
      modifies this
      ensures State() == Built(old(State()))
    {
      verticesArray := Some(vertices);
      vertices := [];
      trianglesArray := Some(triangles);
      triangles := [];
      uvArray := Some(uv);
      uv := [];
      colorsArray := Some(colors);
      colors := [];
    }
  }

  class MeshBuildInfo<V, U, C> {
    const opaqueMesh: SingleMeshBuildInfo<V, U, C>
    const transparentMesh: SingleMeshBuildInfo<V, U, C>

    /** The two buffers are separate objects. */
    predicate Valid()
    {
      opaqueMesh != transparentMesh
    }

    constructor ()
      ensures Valid() && fresh(opaqueMesh) && fresh(transparentMesh)
      ensures opaqueMesh.State() == Fresh() && transparentMesh.State() == Fresh()
    {
      opaqueMesh := new SingleMeshBuildInfo();
      transparentMesh := new SingleMeshBuildInfo();
    }

    /** Builds each buffer once and touches nothing else. */
    method Build()
      requires Valid()
      modifies opaqueMesh, transparentMesh
      ensures opaqueMesh.State() == Built(old(opaqueMesh.State()))
      ensures transparentMesh.State() == Built(old(transparentMesh.State()))
    {
      opaqueMesh.Build();
      transparentMesh.Build();
    }

    /** Clears each buffer once and touches nothing else. */
    method Clear()
      requires Valid()
      modifies opaqueMesh, transparentMesh
      ensures opaqueMesh.State() == Cleared(old(opaqueMesh.State()))
      ensures transparentMesh.State() == Cleared(old(transparentMesh.State()))
    {
      opaqueMesh.Clear();
      transparentMesh.Clear();
    }
  }
}
