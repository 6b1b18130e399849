/** Places in a JSON document: reading and replacing the value at a path, and what `add` below
such a place does. */
module JsonPlaces {
  import opened Options
  import opened JsonPatch

  function Child(doc: Json, token: string): Option<Json> {
    match doc
    case Obj(fields) => if token in fields then Some(fields[token]) else None
    case Arr(items) =>
      var i := ParseIndex(token);
      if i.Some? && i.value < |items| then Some(items[i.value]) else None
    case _ => None
  }

  function PutChild(doc: Json, token: string, v: Json): Json
    requires Child(doc, token).Some?
  {
    if doc.Obj? then Obj(doc.fields[token := v]) else Arr(doc.items[ParseIndex(token).value := v])
  }

  /** The value at a path, if the path exists. */
  function At(doc: Json, path: seq<string>): Option<Json>
    decreases path
  {
    if path == [] then Some(doc)
    else
      var child := Child(doc, path[0]);
      if child.None? then None else At(child.value, path[1..])
  }

  /** The document with the value at an existing path replaced. */
  function Put(doc: Json, path: seq<string>, v: Json): Json
    requires At(doc, path).Some?
    decreases path
  {
    if path == [] then v
    else PutChild(doc, path[0], Put(Child(doc, path[0]).value, path[1..], v))
  }

  lemma {:induction false} AtPut(doc: Json, path: seq<string>, v: Json)
    requires At(doc, path).Some?
    ensures At(Put(doc, path, v), path) == Some(v)
    decreases path
  {
    if path != [] {
      AtPut(Child(doc, path[0]).value, path[1..], v);
    }
  }

  lemma {:induction false} PutPut(doc: Json, path: seq<string>, v: Json, w: Json)
    requires At(doc, path).Some?
    ensures At(Put(doc, path, v), path).Some?
    ensures Put(Put(doc, path, v), path, w) == Put(doc, path, w)
    decreases path
  {
    if path != [] {
      PutPut(Child(doc, path[0]).value, path[1..], v, w);
    }
  }

  lemma {:induction false} PutSame(doc: Json, path: seq<string>)
    requires At(doc, path).Some?
    ensures Put(doc, path, At(doc, path).value) == doc
    decreases path
  {
    if path != [] {
      PutSame(Child(doc, path[0]).value, path[1..]);
    }
  }

  lemma {:induction false} AtAppend(doc: Json, path: seq<string>, rest: seq<string>)
    requires At(doc, path).Some?
    ensures At(doc, path + rest) == At(At(doc, path).value, rest)
    decreases path
  {
    if path == [] {
      assert path + rest == rest;
    } else {
      AtAppend(Child(doc, path[0]).value, path[1..], rest);
      assert (path + rest)[1..] == path[1..] + rest;
    }
  }

  lemma {:induction false} PutAppend(doc: Json, path: seq<string>, rest: seq<string>, v: Json)
    requires At(doc, path).Some? && At(At(doc, path).value, rest).Some?
    ensures At(doc, path + rest).Some?
    ensures Put(doc, path + rest, v) == Put(doc, path, Put(At(doc, path).value, rest, v))
    decreases path
  {
    AtAppend(doc, path, rest);
    if path == [] {
      assert path + rest == rest;
    } else {
      PutAppend(Child(doc, path[0]).value, path[1..], rest, v);
      assert (path + rest)[1..] == path[1..] + rest;
    }
  }

  /** Adding below a place is adding to the value there. */
  lemma {:induction false} AddBelow(doc: Json, path: seq<string>, rest: seq<string>, v: Json)
    requires At(doc, path).Some? && rest != []
    ensures
      var added := Add(At(doc, path).value, rest, v);
      Add(doc, path + rest, v) == if added.None? then None else Some(Put(doc, path, added.value))
    decreases path
  {
    if path == [] {
      assert path + rest == rest;
    } else {
      AddBelow(Child(doc, path[0]).value, path[1..], rest, v);
      assert (path + rest)[1..] == path[1..] + rest;
    }
  }

  lemma AddLast(doc: Json, path: seq<string>, token: string, v: Json)
    requires At(doc, path).Some? && AddHere(At(doc, path).value, token, v).Some?
    ensures Add(doc, path + [token], v) == Some(Put(doc, path, AddHere(At(doc, path).value, token, v).value))
  {
    AddBelow(doc, path, [token], v);
  }
}
