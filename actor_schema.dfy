/** Response shaping for actors. */
module ActorSchema {
  import opened Wrappers
  import opened Json

  /** An actor row as the handlers read it. */
  datatype Actor = Actor(id: int, name: string, age: int, email: string)

  /** The JSON object for one actor: exactly its four columns. */
  function ActorRepresentation(actor: Actor): (r: Value)
    ensures r.Object? && r.fields.Keys == {"id", "name", "age", "email"}
    ensures r.fields["id"] == Number(actor.id) && r.fields["name"] == Text(actor.name)
    ensures r.fields["age"] == Number(actor.age) && r.fields["email"] == Text(actor.email)
  {
    Object(map["id" := Number(actor.id), "name" := Text(actor.name),
               "age" := Number(actor.age), "email" := Text(actor.email)])
  }

  /** Reading an actor back from a JSON object with the fields of the actor
      view schema: `id` and `age` numbers, `name` and `email` strings. */
  function ParseActorView(v: Value): (r: Option<Actor>)
    ensures r.Some? ==> v.Object? && {"id", "name", "age", "email"} <= v.fields.Keys
  {
    if v.Object? && "id" in v.fields && "name" in v.fields && "age" in v.fields && "email" in v.fields
       && v.fields["id"].Number? && v.fields["name"].Text?
       && v.fields["age"].Number? && v.fields["email"].Text?
    then Some(Actor(v.fields["id"].n, v.fields["name"].s, v.fields["age"].n, v.fields["email"].s))
    else None
  }

  /** The representation loses nothing: the view schema reads the actor
      back. */
  lemma ActorRoundTrip(actor: Actor)
    ensures ParseActorView(ActorRepresentation(actor)) == Some(actor)
  {
  }

  /** The list response: `{"actors": [...]}` with one entry per actor, in
      the order given. */
  function ActorListRepresentation(actors: seq<Actor>): (r: Value)
    ensures r.Object? && r.fields.Keys == {"actors"} && r.fields["actors"].List?
    ensures |r.fields["actors"].items| == |actors|
    ensures forall i :: 0 <= i < |actors| ==> r.fields["actors"].items[i] == ActorRepresentation(actors[i])
  {
    Object(map["actors" := List(seq(|actors|, i requires 0 <= i < |actors| => ActorRepresentation(actors[i])))])
  }

  /** An empty list of actors gives `{"actors": []}`. */
  lemma EmptyActorList()
    ensures ActorListRepresentation([]) == Object(map["actors" := List([])])
  {
  }

  /** Two actor lists with the same response are the same list: order and
      every field survive. */
  lemma {:induction false} ActorListInjective(xs: seq<Actor>, ys: seq<Actor>)
    requires ActorListRepresentation(xs) == ActorListRepresentation(ys)
    ensures xs == ys
  {
    var ix := ActorListRepresentation(xs).fields["actors"].items;
    var iy := ActorListRepresentation(ys).fields["actors"].items;
    assert |xs| == |ix| == |iy| == |ys|;
    forall i | 0 <= i < |xs| ensures xs[i] == ys[i] {
      ActorRoundTrip(xs[i]);
      ActorRoundTrip(ys[i]);
      assert ix[i] == iy[i];
    }
  }
}
