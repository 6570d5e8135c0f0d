/** The sketch aggregate (crates/fj-kernel/src/objects/sketch.rs): a set of
    face handles. Nothing checks that the faces lie in one surface. */
module Sketches {
  import opened Wrappers
  import opened ObjectModel

  /** `FaceSet`: an ordered set of face handles; only membership matters. */
  type FaceSet = set<Handle<Face>>

  /** `Sketch`. Deriving `Eq` on its one field makes two sketches equal
      exactly when their face sets are. */
  datatype Sketch = Sketch(faces: FaceSet)
  {
    /** `Sketch::faces`: the face set, unchanged. */
    function Faces(): (fs: FaceSet)
      ensures fs == faces
    {
      faces
    }
  }

  /** `SketchBuilder`: the objects to insert into, the surface the faces are
      meant to share, and the faces gathered so far. */
  datatype SketchBuilder = SketchBuilder(objects: Objects, surface: Option<Handle<Surface>>, faces: FaceSet)

  /** `Sketch::builder`: seeded with the given objects, no surface and no
      faces. */
  function Builder(objects: Objects): (b: SketchBuilder)
    ensures b.objects == objects
    ensures b.surface == None
    ensures b.faces == {}
  {
    SketchBuilder(objects, None, {})
  }

  /** `collect()` into a set: the handles are inserted one by one in
      iteration order. The result holds exactly the handles that occur. */
  function Collect(handles: seq<Handle<Face>>): (faces: FaceSet)
    ensures forall h :: h in faces <==> h in handles
  {
    if handles == [] then {}
    else Collect(handles[..|handles| - 1]) + {handles[|handles| - 1]}
  }

  /** `Sketch::new`: accepts any sequence of handles (there is no check that
      the faces share a surface) and keeps exactly the handles it was given. */
  function New(handles: seq<Handle<Face>>): (s: Sketch)
    ensures forall h :: h in s.Faces() <==> h in handles
  {
    Sketch(Collect(handles))
  }

  /** The faces of a new sketch are the set of the given handles. */
  lemma NewFaces(handles: seq<Handle<Face>>)
    ensures New(handles).Faces() == set h | h in handles
  {
  }

  /** A sketch of no handles has no faces. */
  lemma NewEmpty()
    ensures New([]).Faces() == {}
  {
  }

  /** Two sequences of handles make the same sketch exactly when they hold the
      same handles, whatever the order and however often each occurs. */
  lemma NewDependsOnlyOnMembership(xs: seq<Handle<Face>>, ys: seq<Handle<Face>>)
    ensures New(xs) == New(ys) <==> (forall h :: h in xs <==> h in ys)
  {
  }

  /** Any permutation of the handles makes the same sketch. */
  lemma NewIgnoresOrder(xs: seq<Handle<Face>>, ys: seq<Handle<Face>>)
    requires multiset(xs) == multiset(ys)
    ensures New(xs) == New(ys)
  {
    forall h
      ensures h in xs <==> h in ys
    {
      assert h in xs <==> h in multiset(xs);
      assert h in ys <==> h in multiset(ys);
    }
    NewDependsOnlyOnMembership(xs, ys);
  }

  /** A repeated handle collapses into the one already present. */
  lemma NewCollapsesDuplicates(xs: seq<Handle<Face>>, h: Handle<Face>)
    requires h in xs
    ensures New(xs + [h]) == New(xs)
  {
    NewDependsOnlyOnMembership(xs + [h], xs);
  }

  /** No handle occurs twice. */
  predicate Distinct(handles: seq<Handle<Face>>) {
    forall i, j :: 0 <= i < j < |handles| ==> handles[i] != handles[j]
  }

  /** A sketch has at most as many faces as handles were given, and exactly as
      many precisely when no handle was given twice. */
  lemma {:induction false} NewCardinality(handles: seq<Handle<Face>>)
    ensures |New(handles).Faces()| <= |handles|
    ensures |New(handles).Faces()| == |handles| <==> Distinct(handles)
  {
    if handles != [] {
      var n := |handles|;
      var init, last := handles[..n - 1], handles[n - 1];
      assert handles == init + [last];
      NewCardinality(init);
      assert New(handles).faces == Collect(init) + {last};
      if last in init {
        assert Collect(init) + {last} == Collect(init);
        var i :| 0 <= i < |init| && init[i] == last;
        assert handles[i] == handles[n - 1];
        assert !Distinct(handles);
      } else {
        assert |Collect(init) + {last}| == |Collect(init)| + 1;
        assert Distinct(handles) <==> Distinct(init) by {
          if Distinct(init) {
            forall i, j | 0 <= i < j < n
              ensures handles[i] != handles[j]
            {
              if j == n - 1 {
                assert handles[i] == init[i];
              } else {
                assert handles[i] == init[i] && handles[j] == init[j];
              }
            }
          }
          if Distinct(handles) {
            forall i, j | 0 <= i < j < n - 1
              ensures init[i] != init[j]
            {
              assert init[i] == handles[i] && init[j] == handles[j];
            }
          }
        }
      }
    }
  }

  /** Sketch equality is face-set equality. */
  lemma SketchEqualityIsFaceSetEquality(a: Sketch, b: Sketch)
    ensures a == b <==> a.Faces() == b.Faces()
  {
  }
}
