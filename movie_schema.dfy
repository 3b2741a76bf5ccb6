/** Response shaping for movies. A movie's response lists its cast as
    `[actor id, actor name, character name]` triples, taken from the
    association rows of the movie's actors that point back at this movie. */
module MovieSchema {
  import opened Json

  /** One association row as reached from an actor: the movie it links to
      and the character the actor plays there. */
  datatype Edge = Edge(movieId: int, characterName: string)

  /** An actor as reached from a movie, with all of the actor's association
      rows, whichever movie they point to. */
  datatype CastMember = CastMember(id: int, name: string, associations: seq<Edge>)

  datatype Movie = Movie(id: int, title: string, genre: string, releaseDate: string,
                         actors: seq<CastMember>)

  /** The triple listed for actor `a` playing through association `m`. */
  function CastingEntry(a: CastMember, m: Edge): Value
  {
    List([Number(a.id), Text(a.name), Text(m.characterName)])
  }

  /** The entries contributed by actor `a` for the rows `edges`: one per row
      that points to `movieId`, in row order. */
  function ActorEntries(a: CastMember, edges: seq<Edge>, movieId: int): seq<Value>
  {
    if edges == [] then []
    else
      var m := edges[|edges| - 1];
      ActorEntries(a, edges[..|edges| - 1], movieId)
        + (if m.movieId == movieId then [CastingEntry(a, m)] else [])
  }

  /** The entries contributed by `actors`, actor by actor. */
  function Casting(actors: seq<CastMember>, movieId: int): seq<Value>
  {
    if actors == [] then []
    else
      var a := actors[|actors| - 1];
      Casting(actors[..|actors| - 1], movieId) + ActorEntries(a, a.associations, movieId)
  }

  /** The full representation of a movie. The cast list is stored under the
      key spelled "assocations", as the handlers emit it. */
  function MovieView(movie: Movie): (r: Value)
    ensures r.Object? && r.fields.Keys == {"id", "title", "genre", "release_date", "assocations"}
    ensures r.fields["id"] == Number(movie.id) && r.fields["title"] == Text(movie.title)
    ensures r.fields["genre"] == Text(movie.genre) && r.fields["release_date"] == Text(movie.releaseDate)
    ensures r.fields["assocations"] == List(Casting(movie.actors, movie.id))
  {
    Object(map["id" := Number(movie.id), "title" := Text(movie.title), "genre" := Text(movie.genre),
               "release_date" := Text(movie.releaseDate),
               "assocations" := List(Casting(movie.actors, movie.id))])
  }

  /** `MovieRepresentation`: the cast list is built by appending inside a
      loop over the movie's actors and, within it, a loop over each actor's
      association rows, keeping the rows that point to this movie. */
  method MovieRepresentation(movie: Movie) returns (r: Value)
    ensures r == MovieView(movie)
  {
    var associations: seq<Value> := [];
    for i := 0 to |movie.actors|
      invariant associations == Casting(movie.actors[..i], movie.id)
    {
      var a := movie.actors[i];
      ghost var before := associations;
      for j := 0 to |a.associations|
        invariant associations == before + ActorEntries(a, a.associations[..j], movie.id)
      {
        var m := a.associations[j];
        assert a.associations[..j + 1][..j] == a.associations[..j];
        if m.movieId == movie.id {
          associations := associations + [CastingEntry(a, m)];
        }
      }
      assert a.associations[..|a.associations|] == a.associations;
      assert movie.actors[..i + 1][..i] == movie.actors[..i];
    }
    assert movie.actors[..|movie.actors|] == movie.actors;
    r := Object(map["id" := Number(movie.id), "title" := Text(movie.title), "genre" := Text(movie.genre),
                    "release_date" := Text(movie.releaseDate), "assocations" := List(associations)]);
  }

  /** An entry comes from one of the actor's rows exactly when that row
      points to the movie; rows for other movies never show up. */
  lemma {:induction false} ActorEntriesMembership(a: CastMember, edges: seq<Edge>, movieId: int, e: Value)
    ensures e in ActorEntries(a, edges, movieId) <==>
      exists j :: 0 <= j < |edges| && edges[j].movieId == movieId && e == CastingEntry(a, edges[j])
  {
    if edges != [] {
      var n := |edges| - 1;
      var init := edges[..n];
      ActorEntriesMembership(a, init, movieId, e);
      if e in ActorEntries(a, init, movieId) {
        var j :| 0 <= j < |init| && init[j].movieId == movieId && e == CastingEntry(a, init[j]);
        assert edges[j] == init[j];
      }
      if exists j :: 0 <= j < |edges| && edges[j].movieId == movieId && e == CastingEntry(a, edges[j]) {
        var j :| 0 <= j < |edges| && edges[j].movieId == movieId && e == CastingEntry(a, edges[j]);
        if j < n {
          assert init[j] == edges[j];
        }
      }
    }
  }

  /** The cast list holds `[a.id, a.name, m.character_name]` exactly for the
      pairs (actor `a` of the movie, row `m` of `a`) with `m` pointing to the
      movie. */
  lemma {:induction false} CastingMembership(actors: seq<CastMember>, movieId: int, e: Value)
    ensures e in Casting(actors, movieId) <==>
      exists i, j :: 0 <= i < |actors| && 0 <= j < |actors[i].associations|
        && actors[i].associations[j].movieId == movieId
        && e == CastingEntry(actors[i], actors[i].associations[j])
  {
    if actors != [] {
      var n := |actors| - 1;
      var init := actors[..n];
      var last := actors[n];
      CastingMembership(init, movieId, e);
      ActorEntriesMembership(last, last.associations, movieId, e);
      if e in Casting(init, movieId) {
        var i, j :| 0 <= i < |init| && 0 <= j < |init[i].associations|
          && init[i].associations[j].movieId == movieId
          && e == CastingEntry(init[i], init[i].associations[j]);
        assert actors[i] == init[i];
      }
      if e in ActorEntries(last, last.associations, movieId) {
        var j :| 0 <= j < |last.associations| && last.associations[j].movieId == movieId
          && e == CastingEntry(last, last.associations[j]);
        assert actors[n].associations[j] == last.associations[j];
      }
      if exists i, j :: 0 <= i < |actors| && 0 <= j < |actors[i].associations|
          && actors[i].associations[j].movieId == movieId
          && e == CastingEntry(actors[i], actors[i].associations[j]) {
        var i, j :| 0 <= i < |actors| && 0 <= j < |actors[i].associations|
          && actors[i].associations[j].movieId == movieId
          && e == CastingEntry(actors[i], actors[i].associations[j]);
        if i < n {
          assert init[i] == actors[i];
        }
      }
    }
  }

  /** The indices of the rows in `edges` that point to `movieId`. */
  function MatchingRows(edges: seq<Edge>, movieId: int): set<int>
  {
    set j | 0 <= j < |edges| && edges[j].movieId == movieId
  }

  /** An actor with k rows pointing to the movie contributes k entries. */
  lemma {:induction false} ActorEntriesCount(a: CastMember, edges: seq<Edge>, movieId: int)
    ensures |ActorEntries(a, edges, movieId)| == |MatchingRows(edges, movieId)|
  {
    if edges == [] {
      assert MatchingRows(edges, movieId) == {};
    } else {
      var n := |edges| - 1;
      ActorEntriesCount(a, edges[..n], movieId);
      var before := MatchingRows(edges[..n], movieId);
      var extra: set<int> := if edges[n].movieId == movieId then {n} else {};
      assert MatchingRows(edges, movieId) == before + extra;
      assert before !! extra;
    }
  }

  /** Row order is kept: the entries for the rows `xs + ys` are those for
      `xs` followed by those for `ys`. */
  lemma {:induction false} ActorEntriesAppend(a: CastMember, xs: seq<Edge>, ys: seq<Edge>, movieId: int)
    ensures ActorEntries(a, xs + ys, movieId) == ActorEntries(a, xs, movieId) + ActorEntries(a, ys, movieId)
  {
    if ys != [] {
      var n := |ys| - 1;
      assert (xs + ys)[..|xs + ys| - 1] == xs + ys[..n];
      ActorEntriesAppend(a, xs, ys[..n], movieId);
    } else {
      assert xs + ys == xs;
    }
  }

  /** Actor order is kept: the cast list is actor-major. */
  lemma {:induction false} CastingAppend(xs: seq<CastMember>, ys: seq<CastMember>, movieId: int)
    ensures Casting(xs + ys, movieId) == Casting(xs, movieId) + Casting(ys, movieId)
  {
    if ys != [] {
      var n := |ys| - 1;
      assert (xs + ys)[..|xs + ys| - 1] == xs + ys[..n];
      CastingAppend(xs, ys[..n], movieId);
    } else {
      assert xs + ys == xs;
    }
  }

  /** The patch response: exactly the three editable columns. */
  function MoviePatchRepresentation(movie: Movie): (r: Value)
    ensures r.Object? && r.fields.Keys == {"title", "genre", "release_date"}
    ensures r.fields["title"] == Text(movie.title) && r.fields["genre"] == Text(movie.genre)
    ensures r.fields["release_date"] == Text(movie.releaseDate)
  {
    Object(map["title" := Text(movie.title), "genre" := Text(movie.genre),
               "release_date" := Text(movie.releaseDate)])
  }

  /** The patch response is the full response without the id and the cast
      list. */
  lemma PatchIsViewWithoutIdAndCast(movie: Movie)
    ensures MoviePatchRepresentation(movie).fields == MovieView(movie).fields - {"id", "assocations"}
  {
  }

  /** The list response: `{"movies": [...]}` with one full representation
      per movie, in the order given. */
  function MovieListRepresentation(movies: seq<Movie>): (r: Value)
    ensures r.Object? && r.fields.Keys == {"movies"} && r.fields["movies"].List?
    ensures |r.fields["movies"].items| == |movies|
    ensures forall i :: 0 <= i < |movies| ==> r.fields["movies"].items[i] == MovieView(movies[i])
  {
    Object(map["movies" := List(seq(|movies|, i requires 0 <= i < |movies| => MovieView(movies[i])))])
  }

  /** Listing a concatenation lists each part in turn. */
  lemma MovieListAppend(xs: seq<Movie>, ys: seq<Movie>)
    ensures MovieListRepresentation(xs + ys).fields["movies"].items
         == MovieListRepresentation(xs).fields["movies"].items + MovieListRepresentation(ys).fields["movies"].items
  {
  }
}
